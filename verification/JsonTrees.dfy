/**
A parsed JSON value with the accessors and conversions of the parser library: a missing member reads as
null, null converts to zero, and a real number without fraction counts as an integer. Comparing a value
with an integer does not convert: a real number never equals one.
*/
module JsonTrees {

  datatype Json =
    | Null
    | Bool(b: bool)
    | Int(i: int)
    | Real(r: real)
    | String(s: string)
    | Array(items: seq<Json>)
    | Object(members: map<string, Json>)

  predicate Has(v: Json, key: string) {
    v.Object? && key in v.members
  }

  function Get(v: Json, key: string): Json {
    if Has(v, key) then v.members[key] else Null
  }

  function Size(v: Json): nat {
    match v
    case Array(items) => |items|
    case Object(members) => |members|
    case _ => 0
  }

  predicate InInt32(i: int) {
    -0x8000_0000 <= i <= 0x7fff_ffff
  }

  predicate IsInt(v: Json) {
    match v
    case Int(i) => InInt32(i)
    case Real(r) => r == r.Floor as real && InInt32(r.Floor)
    case _ => false
  }

  function AsInt(v: Json): int {
    match v
    case Int(i) => i
    case Real(r) => r.Floor
    case Bool(b) => if b then 1 else 0
    case _ => 0
  }

  function AsString(v: Json): string {
    if v.String? then v.s else ""
  }

  predicate Number(v: Json, lo: int, hi: int) {
    IsInt(v) && lo <= AsInt(v) <= hi
  }

  predicate Fields(v: Json, allowed: set<string>) {
    v.Object? && v.members.Keys <= allowed
  }
}
