/** A JSON-like value: what Python dictionaries exchanged with the search
    engine hold, and the field readers the entity codecs use. A reader returns
    None where the Python code would raise (a `.get` on something that is not
    a dictionary, or a validation error because a field has the wrong kind). */
module Json {
  import opened Wrappers

  datatype Json =
    | Null
    | Bool(b: bool)
    | Int(i: int)
    | Float(r: real)
    | Str(s: string)
    | Arr(a: seq<Json>)
    | Obj(o: map<string, Json>)

  type Dict = map<string, Json>

  /** Python truthiness of a JSON value. */
  predicate Truthy(j: Json) {
    match j
    case Null => false
    case Bool(b) => b
    case Int(i) => i != 0
    case Float(r) => r != 0.0
    case Str(s) => |s| > 0
    case Arr(a) => |a| > 0
    case Obj(o) => |o| > 0
  }

  function StrList(xs: seq<string>): (r: Json)
    ensures r.Arr? && |r.a| == |xs|
  {
    Arr(seq(|xs|, i requires 0 <= i < |xs| => Str(xs[i])))
  }

  function IntList(xs: seq<int>): (r: Json)
    ensures r.Arr? && |r.a| == |xs|
  {
    Arr(seq(|xs|, i requires 0 <= i < |xs| => Int(xs[i])))
  }

  function RealList(xs: seq<real>): (r: Json)
    ensures r.Arr? && |r.a| == |xs|
  {
    Arr(seq(|xs|, i requires 0 <= i < |xs| => Float(xs[i])))
  }

  function ObjList(xs: seq<Dict>): (r: Json)
    ensures r.Arr? && |r.a| == |xs|
  {
    Arr(seq(|xs|, i requires 0 <= i < |xs| => Obj(xs[i])))
  }

  function OptStr(x: Option<string>): Json {
    match x
    case None => Null
    case Some(s) => Str(s)
  }

  function OptInt(x: Option<int>): Json {
    match x
    case None => Null
    case Some(i) => Int(i)
  }

  // ---------------------------------------------------------------------
  // Readers: dict.get(key, default) followed by the field's validation
  // ---------------------------------------------------------------------

  function AsStr(j: Json): Option<string> {
    if j.Str? then Some(j.s) else None
  }

  function AsInt(j: Json): Option<int> {
    if j.Int? then Some(j.i) else None
  }

  /** A float field accepts a JSON float or a JSON integer. */
  function AsReal(j: Json): Option<real> {
    if j.Float? then Some(j.r) else if j.Int? then Some(j.i as real) else None
  }

  function AsBool(j: Json): Option<bool> {
    if j.Bool? then Some(j.b) else None
  }

  function AsStrList(j: Json): (r: Option<seq<string>>)
    ensures r.Some? ==> j.Arr? && |r.value| == |j.a|
  {
    if j.Arr? && forall k :: 0 <= k < |j.a| ==> j.a[k].Str? then
      Some(seq(|j.a|, k requires 0 <= k < |j.a| && j.a[k].Str? => j.a[k].s))
    else None
  }

  function AsIntList(j: Json): (r: Option<seq<int>>)
    ensures r.Some? ==> j.Arr? && |r.value| == |j.a|
  {
    if j.Arr? && forall k :: 0 <= k < |j.a| ==> j.a[k].Int? then
      Some(seq(|j.a|, k requires 0 <= k < |j.a| && j.a[k].Int? => j.a[k].i))
    else None
  }

  /** A list of floats accepts JSON floats and JSON integers. */
  function AsRealList(j: Json): (r: Option<seq<real>>)
    ensures r.Some? ==> j.Arr? && |r.value| == |j.a|
  {
    if j.Arr? && forall k :: 0 <= k < |j.a| ==> AsReal(j.a[k]).Some? then
      Some(seq(|j.a|, k requires 0 <= k < |j.a| && AsReal(j.a[k]).Some? => AsReal(j.a[k]).value))
    else None
  }

  function AsObjList(j: Json): (r: Option<seq<Dict>>)
    ensures r.Some? ==> j.Arr? && |r.value| == |j.a|
  {
    if j.Arr? && forall k :: 0 <= k < |j.a| ==> j.a[k].Obj? then
      Some(seq(|j.a|, k requires 0 <= k < |j.a| && j.a[k].Obj? => j.a[k].o))
    else None
  }

  function AsIntMap(j: Json): Option<map<string, int>> {
    if j.Obj? && forall k :: k in j.o ==> j.o[k].Int? then
      Some(map k | k in j.o :: j.o[k].i)
    else None
  }

  /** d.get(key, default) */
  function Get(d: Dict, key: string, default: Json): Json {
    if key in d then d[key] else default
  }

  /** d.get(key): a missing key reads as None. */
  function GetOrNull(d: Dict, key: string): Json {
    Get(d, key, Null)
  }

  function GetStr(d: Dict, key: string, default: string): Option<string> {
    AsStr(Get(d, key, Str(default)))
  }

  function GetInt(d: Dict, key: string, default: int): Option<int> {
    AsInt(Get(d, key, Int(default)))
  }

  function GetReal(d: Dict, key: string, default: real): Option<real> {
    AsReal(Get(d, key, Float(default)))
  }

  function GetBool(d: Dict, key: string, default: bool): Option<bool> {
    AsBool(Get(d, key, Bool(default)))
  }

  /** An Optional[str] field read with d.get(key): missing or null is None. */
  function GetOptStr(d: Dict, key: string): Option<Option<string>> {
    match GetOrNull(d, key)
    case Null => Some(None)
    case Str(s) => Some(Some(s))
    case _ => None
  }

  function GetOptInt(d: Dict, key: string): Option<Option<int>> {
    match GetOrNull(d, key)
    case Null => Some(None)
    case Int(i) => Some(Some(i))
    case _ => None
  }

  function GetStrList(d: Dict, key: string): Option<seq<string>> {
    AsStrList(Get(d, key, Arr([])))
  }

  function GetObjList(d: Dict, key: string): Option<seq<Dict>> {
    AsObjList(Get(d, key, Arr([])))
  }

  /** d.get(key, {}) used as a dictionary afterwards. */
  function GetDict(d: Dict, key: string): Option<Dict> {
    match Get(d, key, Obj(map[]))
    case Obj(o) => Some(o)
    case _ => None
  }

  // ---------------------------------------------------------------------
  // Readers invert the writers
  // ---------------------------------------------------------------------

  lemma StrListRoundTrip(xs: seq<string>)
    ensures AsStrList(StrList(xs)) == Some(xs)
  {
    var j := StrList(xs);
    assert forall k :: 0 <= k < |j.a| ==> j.a[k] == Str(xs[k]);
    var back := seq(|j.a|, k requires 0 <= k < |j.a| && j.a[k].Str? => j.a[k].s);
    assert back == xs;
  }

  lemma IntListRoundTrip(xs: seq<int>)
    ensures AsIntList(IntList(xs)) == Some(xs)
  {
    var j := IntList(xs);
    assert forall k :: 0 <= k < |j.a| ==> j.a[k] == Int(xs[k]);
    var back := seq(|j.a|, k requires 0 <= k < |j.a| && j.a[k].Int? => j.a[k].i);
    assert back == xs;
  }

  lemma RealListRoundTrip(xs: seq<real>)
    ensures AsRealList(RealList(xs)) == Some(xs)
  {
    var j := RealList(xs);
    assert forall k :: 0 <= k < |j.a| ==> j.a[k] == Float(xs[k]);
    var back := seq(|j.a|, k requires 0 <= k < |j.a| && AsReal(j.a[k]).Some? => AsReal(j.a[k]).value);
    assert back == xs;
  }

  lemma ObjListRoundTrip(xs: seq<Dict>)
    ensures AsObjList(ObjList(xs)) == Some(xs)
  {
    var j := ObjList(xs);
    assert forall k :: 0 <= k < |j.a| ==> j.a[k] == Obj(xs[k]);
    var back := seq(|j.a|, k requires 0 <= k < |j.a| && j.a[k].Obj? => j.a[k].o);
    assert back == xs;
  }

  function IntMap(m: map<string, int>): Json {
    Obj(map k | k in m :: Int(m[k]))
  }

  lemma IntMapRoundTrip(m: map<string, int>)
    ensures AsIntMap(IntMap(m)) == Some(m)
  {
    var j := IntMap(m);
    assert forall k :: k in j.o ==> j.o[k] == Int(m[k]);
    var back := map k | k in j.o :: j.o[k].i;
    assert back.Keys == m.Keys;
    assert forall k :: k in m ==> back[k] == m[k];
    assert back == m;
  }
}
