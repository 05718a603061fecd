/**
 * The two value types the screens share: a catalog entry and the
 * affordability mode chosen on the table screen.
 */
module Restaurants {

  /** One catalog entry; `id` is the key it is stored under. */
  datatype Restaurant = Restaurant(
    id: string,
    name: string,
    timeRange: string,
    likesCount: int,
    imageURL: string)

  /** `.can` ("I can afford it") books a table; `.cant` shows the free-food notice. */
  datatype TargetMode = Can | Cant
}
