/**
 * The values the bot reads from and writes to the realtime database, and
 * the handful of Python operations it applies to them: dict.get, truth
 * testing, `a or b`, and str().
 */
module Json {
  import opened Wrappers
  import opened Numerals

  /** A stored value. Null stands for Python's None and for a child that is absent. */
  datatype Value =
    | Null
    | Bool(b: bool)
    | Int(i: int)
    | Num(r: real)
    | Str(s: string)
    | Arr(items: seq<Value>)
    | Obj(fields: map<string, Value>)

  /** A record: the children of one node. */
  type Dict = map<string, Value>

  /** d.get(k) */
  function Get(d: Dict, k: string): (v: Value)
    ensures k in d ==> v == d[k]
    ensures k !in d ==> v == Null
  {
    if k in d then d[k] else Null
  }

  /** Python's truth test. */
  predicate Truthy(v: Value)
  {
    match v
    case Null => false
    case Bool(b) => b
    case Int(i) => i != 0
    case Num(r) => r != 0.0
    case Str(s) => s != ""
    case Arr(xs) => xs != []
    case Obj(m) => m != map[]
  }

  /** Python's `a or b`. */
  function Or(a: Value, b: Value): (v: Value)
    ensures Truthy(a) ==> v == a
    ensures !Truthy(a) ==> v == b
  {
    if Truthy(a) then a else b
  }

  /** The record a value holds, or {} for anything else (Python's `x or {}` on a record). */
  function AsDict(v: Value): (d: Dict)
    ensures v.Obj? ==> d == v.fields
    ensures !v.Obj? ==> d == map[]
  {
    if v.Obj? then v.fields else map[]
  }

  /** The placeholder the store replaces by its own clock (db.SERVER_TIMESTAMP). */
  const ServerTimestamp: Value := Obj(map[".sv" := Str("timestamp")])

  /** Writing v at child k of a record; writing None deletes the child. */
  function SetChild(d: Dict, k: string, v: Value): (r: Dict)
    ensures v == Null ==> k !in r
    ensures v != Null ==> k in r && r[k] == v
    ensures forall j :: j != k ==> Get(r, j) == Get(d, j)
  {
    if v == Null then d - {k} else d[k := v]
  }

  /** The children of a node written as a list: the items keyed "0", "1", ... */
  function IndexedChildren(xs: seq<Value>): (d: Dict)
    ensures forall i :: 0 <= i < |xs| ==> NatToString(i) in d && d[NatToString(i)] == xs[i]
    ensures forall k :: k in d ==> exists i :: 0 <= i < |xs| && k == NatToString(i)
    decreases |xs|
  {
    if xs == [] then map[]
    else
      var n := |xs| - 1;
      forall i | 0 <= i < n ensures NatToString(i) != NatToString(n) {
        if NatToString(i) == NatToString(n) {
          NatToStringInjective(i, n);
        }
      }
      IndexedChildren(xs[..n])[NatToString(n) := xs[n]]
  }

  /** The children of a node as a record; a list node is keyed by index. */
  function Children(v: Value): (d: Dict)
    ensures v.Obj? ==> d == v.fields
    ensures !v.Obj? && !v.Arr? ==> d == map[]
  {
    match v
    case Obj(m) => m
    case Arr(xs) => IndexedChildren(xs)
    case _ => map[]
  }

  /**
   * The path segment a stored identifier names, as f"restaurants/{rid}"
   * builds it: a non-empty string, or an integer written in decimal.
   * Anything else is rejected by the store, which raises.
   */
  function PathKey(v: Value): (r: Option<string>)
    ensures v.Str? && v.s != "" ==> r == Some(v.s)
    ensures v.Int? ==> r == Some(IntToString(v.i))
    ensures r.Some? ==> r.value != ""
  {
    match v
    case Str(s) => if s != "" then Some(s) else None
    case Int(i) => Some(IntToString(i))
    case _ => None
  }

  /** str(v) for the scalar values the bot formats into messages. */
  function PyStr(v: Value): string
  {
    match v
    case Null => "None"
    case Bool(b) => if b then "True" else "False"
    case Int(i) => IntToString(i)
    case Str(s) => s
    case _ => ""
  }
}
