/**
 * Values exchanged with the vision model: the JSON documents it returns and the
 * Python dictionaries the pipeline builds from them, plus the Option and Result
 * wrappers the rest of the model uses.
 *
 * Objects keep their fields in insertion order, as Python dictionaries do, because
 * several operations (alias lookup over a flattened dictionary, `dict(items)`)
 * depend on that order.
 */
module Json {

  datatype Option<+T> = None | Some(value: T) {
    predicate IsFailure() { None? }

    function PropagateFailure<U>(): Option<U>
      requires None?
    {
      None
    }

    function Extract(): T
      requires Some?
    {
      value
    }

    function GetOr(default: T): T
    {
      match this
      case Some(v) => v
      case None => default
    }
  }

  /** The Python exceptions that malformed model output can raise inside a transform. */
  datatype PyError = TypeError | AttributeError | KeyError

  datatype Result<+T> = Ok(value: T) | Err(error: PyError) {
    predicate IsFailure() { Err? }

    function PropagateFailure<U>(): Result<U>
      requires Err?
    {
      Err(error)
    }

    function Extract(): T
      requires Ok?
    {
      value
    }
  }

  /** A JSON value; numbers are real numbers (binary floating point is not modelled). */
  datatype Json =
    | JNull
    | JBool(b: bool)
    | JNum(n: real)
    | JStr(s: string)
    | JArr(items: seq<Json>)
    | JObj(fields: seq<(string, Json)>)

  type Fields = seq<(string, Json)>

  function Keys(fs: Fields): (ks: seq<string>)
    ensures |ks| == |fs|
    ensures forall i :: 0 <= i < |fs| ==> ks[i] == fs[i].0
  {
    if fs == [] then [] else [fs[0].0] + Keys(fs[1..])
  }

  predicate HasKey(fs: Fields, k: string)
  {
    k in Keys(fs)
  }

  lemma HasKeyAt(fs: Fields, i: int)
    requires 0 <= i < |fs|
    ensures HasKey(fs, fs[i].0)
  {
    assert Keys(fs)[i] == fs[i].0;
  }

  /** Python dictionaries never hold a key twice. */
  ghost predicate UniqueKeys(fs: Fields)
  {
    forall i, j :: 0 <= i < j < |fs| ==> fs[i].0 != fs[j].0
  }

  /** `d.get(k)`: the value stored under `k`. */
  function Lookup(fs: Fields, k: string): (r: Option<Json>)
    ensures r.Some? <==> HasKey(fs, k)
    ensures r.Some? ==> exists i :: 0 <= i < |fs| && fs[i] == (k, r.value)
  {
    if fs == [] then None
    else if fs[0].0 == k then Some(fs[0].1)
    else
      var r := Lookup(fs[1..], k);
      assert r.Some? ==> exists i :: 0 <= i < |fs[1..]| && fs[1..][i] == (k, r.value) && fs[i + 1] == fs[1..][i];
      r
  }

  /** A field that no earlier field shadows is what `d.get` finds. */
  lemma {:induction false} LookupFirst(fs: Fields, i: int)
    requires 0 <= i < |fs| && forall j :: 0 <= j < i ==> fs[j].0 != fs[i].0
    ensures Lookup(fs, fs[i].0) == Some(fs[i].1)
  {
    if i > 0 {
      assert fs[1..][i - 1] == fs[i];
      LookupFirst(fs[1..], i - 1);
    }
  }

  /** Each of five fields with names of five different lengths is found under its name. */
  lemma GetOfFive(k0: string, k1: string, k2: string, k3: string, k4: string,
                  v0: Json, v1: Json, v2: Json, v3: Json, v4: Json)
    requires |k0| != |k1| && |k0| != |k2| && |k0| != |k3| && |k0| != |k4|
    requires |k1| != |k2| && |k1| != |k3| && |k1| != |k4|
    requires |k2| != |k3| && |k2| != |k4| && |k3| != |k4|
    ensures var o := JObj([(k0, v0), (k1, v1), (k2, v2), (k3, v3), (k4, v4)]);
      Get(o, k0) == Some(v0) && Get(o, k1) == Some(v1) && Get(o, k2) == Some(v2)
      && Get(o, k3) == Some(v3) && Get(o, k4) == Some(v4)
  {
    var fs := [(k0, v0), (k1, v1), (k2, v2), (k3, v3), (k4, v4)];
    forall i, j | 0 <= j < i < 5 ensures fs[j].0 != fs[i].0 {
      assert |fs[j].0| != |fs[i].0| by {
        if j == 0 {} else if j == 1 {} else if j == 2 {} else {}
      }
    }
    LookupFirst(fs, 0);
    LookupFirst(fs, 1);
    LookupFirst(fs, 2);
    LookupFirst(fs, 3);
    LookupFirst(fs, 4);
  }

  /** Each of four fields with names of four different lengths is found under its name. */
  lemma GetOfFour(k0: string, k1: string, k2: string, k3: string, v0: Json, v1: Json, v2: Json, v3: Json)
    requires |k0| != |k1| && |k0| != |k2| && |k0| != |k3| && |k1| != |k2| && |k1| != |k3| && |k2| != |k3|
    ensures var o := JObj([(k0, v0), (k1, v1), (k2, v2), (k3, v3)]);
      Get(o, k0) == Some(v0) && Get(o, k1) == Some(v1) && Get(o, k2) == Some(v2) && Get(o, k3) == Some(v3)
  {
    var fs := [(k0, v0), (k1, v1), (k2, v2), (k3, v3)];
    forall i, j | 0 <= j < i < 4 ensures fs[j].0 != fs[i].0 {
      assert |fs[j].0| != |fs[i].0| by {
        if j == 0 {} else if j == 1 {} else {}
      }
    }
    LookupFirst(fs, 0);
    LookupFirst(fs, 1);
    LookupFirst(fs, 2);
    LookupFirst(fs, 3);
  }

  /** Position of the first field named `k`. */
  function IndexOf(fs: Fields, k: string): (i: nat)
    requires HasKey(fs, k)
    ensures i < |fs| && fs[i].0 == k
    ensures forall j :: 0 <= j < i ==> fs[j].0 != k
    ensures Lookup(fs, k) == Some(fs[i].1)
  {
    if fs[0].0 == k then 0 else 1 + IndexOf(fs[1..], k)
  }

  /** `d[k] = v`: replaces the value in place when `k` is present, appends otherwise. */
  function Put(fs: Fields, k: string, v: Json): (r: Fields)
    ensures HasKey(fs, k) ==> Keys(r) == Keys(fs)
    ensures !HasKey(fs, k) ==> Keys(r) == Keys(fs) + [k]
  {
    if fs == [] then [(k, v)]
    else if fs[0].0 == k then [(k, v)] + fs[1..]
    else
      var tail := Put(fs[1..], k, v);
      assert Keys([fs[0]] + tail) == [fs[0].0] + Keys(tail);
      [fs[0]] + tail
  }

  /** After `d[k] = v`, `d[k]` is `v` and every other key reads as before. */
  lemma {:induction false} PutLookup(fs: Fields, k: string, v: Json, k': string)
    ensures Lookup(Put(fs, k, v), k') == if k' == k then Some(v) else Lookup(fs, k')
  {
    if fs != [] && fs[0].0 != k {
      PutLookup(fs[1..], k, v, k');
    }
  }

  lemma {:induction false} PutKeepsUnique(fs: Fields, k: string, v: Json)
    requires UniqueKeys(fs)
    ensures UniqueKeys(Put(fs, k, v))
  {
    var r := Put(fs, k, v);
    if HasKey(fs, k) {
      assert Keys(r) == Keys(fs);
      forall i, j | 0 <= i < j < |r| ensures r[i].0 != r[j].0 {
        assert r[i].0 == Keys(r)[i] && r[j].0 == Keys(r)[j];
        assert Keys(fs)[i] == fs[i].0 && Keys(fs)[j] == fs[j].0;
      }
    } else {
      assert Keys(r) == Keys(fs) + [k];
      forall i, j | 0 <= i < j < |r| ensures r[i].0 != r[j].0 {
        assert r[i].0 == Keys(r)[i] && r[j].0 == Keys(r)[j];
        if j < |fs| {
          assert Keys(fs)[i] == fs[i].0 && Keys(fs)[j] == fs[j].0;
        } else {
          assert Keys(fs)[i] == fs[i].0;
          assert fs[i].0 in Keys(fs);
        }
      }
    }
  }

  /** Assigning a new key appends it. */
  lemma {:induction false} PutAbsent(fs: Fields, k: string, v: Json)
    requires !HasKey(fs, k)
    ensures Put(fs, k, v) == fs + [(k, v)]
  {
    if fs != [] {
      assert Keys(fs) == [fs[0].0] + Keys(fs[1..]);
      PutAbsent(fs[1..], k, v);
      assert Put(fs, k, v) == [fs[0]] + (fs[1..] + [(k, v)]);
      assert fs + [(k, v)] == [fs[0]] + (fs[1..] + [(k, v)]);
    }
  }

  /** Every field after an assignment was there before or is the assigned one. */
  lemma {:induction false} PutFrom(fs: Fields, k: string, v: Json)
    ensures forall p :: p in Put(fs, k, v) ==> p in fs || p == (k, v)
  {
    if fs != [] && fs[0].0 != k {
      PutFrom(fs[1..], k, v);
    }
  }

  /** `dict(pairs)`: later pairs overwrite earlier ones, each key keeps its first position. */
  function FromPairs(ps: seq<(string, Json)>): (r: Fields)
    ensures UniqueKeys(r)
  {
    if ps == [] then []
    else
      var prefix := FromPairs(ps[..|ps| - 1]);
      PutKeepsUnique(prefix, ps[|ps| - 1].0, ps[|ps| - 1].1);
      Put(prefix, ps[|ps| - 1].0, ps[|ps| - 1].1)
  }

  /** `dict(pairs)` holds only pairs that were given. */
  lemma {:induction false} FromPairsFrom(ps: seq<(string, Json)>)
    ensures forall p :: p in FromPairs(ps) ==> p in ps
  {
    if ps != [] {
      var init := ps[..|ps| - 1];
      FromPairsFrom(init);
      PutFrom(FromPairs(init), ps[|ps| - 1].0, ps[|ps| - 1].1);
      assert forall p :: p in init ==> p in ps;
    }
  }

  /** `dict(pairs)` of pairs whose keys are already distinct keeps them as they are. */
  lemma {:induction false} FromPairsOfUnique(ps: seq<(string, Json)>)
    requires UniqueKeys(ps)
    ensures FromPairs(ps) == ps
  {
    if ps != [] {
      var init := ps[..|ps| - 1];
      var last := ps[|ps| - 1];
      assert UniqueKeys(init);
      FromPairsOfUnique(init);
      assert forall j :: 0 <= j < |init| ==> Keys(init)[j] == ps[j].0 != last.0;
      PutAbsent(init, last.0, last.1);
      InitLast(ps);
    }
  }

  /** Concatenation regrouped to the right. */
  lemma Regroup<T>(a: seq<T>, b: seq<T>, c: seq<T>)
    ensures a + b + c == a + (b + c)
  {
  }

  /** A non-empty sequence is its front followed by its last element. */
  lemma InitLast<T>(s: seq<T>)
    requires s != []
    ensures s[..|s| - 1] + [s[|s| - 1]] == s
  {
  }

  /** The value of the last pair named `k`, if any. */
  function LastValue(ps: seq<(string, Json)>, k: string): Option<Json>
  {
    if ps == [] then None
    else if ps[|ps| - 1].0 == k then Some(ps[|ps| - 1].1)
    else LastValue(ps[..|ps| - 1], k)
  }

  /** `dict(pairs)[k]` is the last value paired with `k`. */
  lemma {:induction false} FromPairsLookup(ps: seq<(string, Json)>, k: string)
    ensures Lookup(FromPairs(ps), k) == LastValue(ps, k)
  {
    if ps != [] {
      FromPairsLookup(ps[..|ps| - 1], k);
      PutLookup(FromPairs(ps[..|ps| - 1]), ps[|ps| - 1].0, ps[|ps| - 1].1, k);
    }
  }

  /** Python truthiness of a JSON value. */
  predicate Truthy(j: Json)
  {
    match j
    case JNull => false
    case JBool(b) => b
    case JNum(n) => n != 0.0
    case JStr(s) => |s| > 0
    case JArr(items) => |items| > 0
    case JObj(fields) => |fields| > 0
  }

  /** `isinstance(j, dict) and k in j`. */
  predicate ObjHas(j: Json, k: string)
  {
    j.JObj? && HasKey(j.fields, k)
  }

  /** `j.get(k)` on a dictionary; `None` for other values and for absent keys. */
  function Get(j: Json, k: string): (r: Option<Json>)
    ensures r.Some? <==> ObjHas(j, k)
  {
    if j.JObj? then Lookup(j.fields, k) else None
  }

  /** The value of `j.get(k)` with `None` read as JSON null. */
  function GetOrNull(j: Json, k: string): Json
  {
    Get(j, k).GetOr(JNull)
  }

  /** A dictionary literal built in the given field order. */
  function Obj(ps: seq<(string, Json)>): Json
  {
    JObj(FromPairs(ps))
  }

  /** `has_error(data)`: the value is a dictionary carrying an "error" key. */
  predicate HasError(j: Json)
  {
    ObjHas(j, "error")
  }
}
