/** Values shared by the backend and the front end: optional values, results
    with an error, and the JSON-shaped Python values (dicts, lists, strings,
    numbers) that travel between the API, the tables and the pages. */
module Values {

  datatype Option<+T> = None | Some(value: T)

  datatype Result<+T, +E> = Ok(value: T) | Err(error: E)

  /** A Python float. The modelled code copies floats from one record to
      another but never computes with them, so a float is carried as the
      text Python's repr() prints for it. */
  datatype Float = Float(repr: string)

  /** A JSON value as Python holds it after parsing (or a table cell):
      None, bool, int, float, str, list, dict. A dict keeps its keys in
      insertion order, as a Python dict does. */
  datatype Json =
    | JNull
    | JBool(b: bool)
    | JInt(i: int)
    | JFloat(f: Float)
    | JStr(s: string)
    | JArr(items: seq<Json>)
    | JObj(members: seq<Member>)

  datatype Member = Member(key: string, val: Json)

  /** The value stored under key k: the first member with that key. */
  function Lookup(ms: seq<Member>, k: string): (r: Option<Json>)
  {
    if ms == [] then None
    else if ms[0].key == k then Some(ms[0].val)
    else Lookup(ms[1..], k)
  }

  /** Looking up in a dict that starts with member m. */
  lemma LookupCons(m: Member, rest: seq<Member>)
    ensures forall k :: Lookup([m] + rest, k) == if m.key == k then Some(m.val) else Lookup(rest, k)
  {
    assert ([m] + rest)[1..] == rest;
  }

  /** Python's d.get(k): the stored value, or None when the key is absent. */
  function Get(ms: seq<Member>, k: string): Json
  {
    match Lookup(ms, k)
    case Some(v) => v
    case None => JNull
  }

  /** Python's d.get(k, default). */
  function GetOr(ms: seq<Member>, k: string, default: Json): Json
  {
    match Lookup(ms, k)
    case Some(v) => v
    case None => default
  }

  /** Python's d[k] = v: replaces the value of an existing key in place,
      or appends the key at the end. */
  function Set(ms: seq<Member>, k: string, v: Json): (r: seq<Member>)
    ensures Lookup(r, k) == Some(v)
    ensures forall k' :: k' != k ==> Lookup(r, k') == Lookup(ms, k')
    ensures Lookup(ms, k).None? ==> r == ms + [Member(k, v)]
  {
    if ms == [] then [Member(k, v)]
    else
      assert ms == [ms[0]] + ms[1..];
      LookupCons(ms[0], ms[1..]);
      if ms[0].key == k then
        LookupCons(Member(k, v), ms[1..]);
        [Member(k, v)] + ms[1..]
      else
        var rest := Set(ms[1..], k, v);
        LookupCons(ms[0], rest);
        [ms[0]] + rest
  }

  /** Python's d.setdefault(k, v): appends k with v only when k is absent. */
  function SetDefault(ms: seq<Member>, k: string, v: Json): (r: seq<Member>)
    ensures Lookup(ms, k).Some? ==> r == ms
    ensures Lookup(ms, k).None? ==> r == ms + [Member(k, v)] && Lookup(r, k) == Some(v)
    ensures forall k' :: k' != k ==> Lookup(r, k') == Lookup(ms, k')
  {
    if Lookup(ms, k).Some? then ms else Set(ms, k, v)
  }

  function Min(a: int, b: int): int
  {
    if a <= b then a else b
  }

  function Max(a: int, b: int): int
  {
    if a >= b then a else b
  }

  /** Python truthiness of a value. */
  predicate Truthy(v: Json)
  {
    match v
    case JNull => false
    case JBool(b) => b
    case JInt(i) => i != 0
    case JFloat(f) => f.repr !in {"0.0", "-0.0"}
    case JStr(s) => s != []
    case JArr(xs) => xs != []
    case JObj(ms) => ms != []
  }
}
