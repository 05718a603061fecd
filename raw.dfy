/**
 * Values read from the realtime database. A snapshot's value is one of
 * these; an absent node reads as `Null`.
 */
module RawData {

  datatype Raw =
    | Null
    | Flag(b: bool)
    | Number(n: int)
    | Text(s: string)
    | List(items: seq<Raw>)
    | Dict(entries: map<string, Raw>)
}
