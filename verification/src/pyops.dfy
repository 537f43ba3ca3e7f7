/**
 * The handful of Python built-ins the response transforms apply to untrusted model
 * output: membership, indexing, `dict.get`, iteration, `len`, `str`, `float`, and the
 * string clean-ups. Each returns an error where Python would raise, so a transform
 * that meets a malformed value fails the way the program does.
 */
module PyOps {
  import opened Json
  import opened Text

  /**
   * What the model leaves to the Python runtime: `float(s)` on a string (None for a
   * `ValueError`) and `str(v)` on numbers, lists and dictionaries.
   */
  datatype Host = Host(parseFloat: string -> Option<real>, repr: Json -> string)

  /** `str(v)`. */
  function PyStr(h: Host, v: Json): (r: string)
    ensures v.JStr? ==> r == v.s
    ensures v.JNull? ==> r == "None"
  {
    match v
    case JNull => "None"
    case JBool(b) => if b then "True" else "False"
    case JStr(s) => s
    case _ => h.repr(v)
  }

  /** `isinstance(v, (int, float))`: booleans are integers in Python. */
  predicate IsNumber(v: Json)
  {
    v.JNum? || v.JBool?
  }

  /** `float(v)` on an int, float or bool. */
  function NumberValue(v: Json): real
    requires IsNumber(v)
  {
    if v.JNum? then v.n else if v.b then 1.0 else 0.0
  }

  /**
   * The answer of `k in x` for the values that support membership: a key of a
   * dictionary, a substring of a string, an element of a list.
   */
  predicate Member(k: string, x: Json)
  {
    match x
    case JObj(fs) => HasKey(fs, k)
    case JStr(s) => Contains(s, k)
    case JArr(items) => JStr(k) in items
    case _ => false
  }

  /** `k in x` with a string `k`. */
  function PyIn(k: string, x: Json): (r: Result<bool>)
    ensures x.JObj? ==> r == Ok(HasKey(x.fields, k))
    ensures r.Err? <==> !(x.JObj? || x.JStr? || x.JArr?)
    ensures r.Ok? ==> r.value == Member(k, x)
  {
    match x
    case JObj(fs) => Ok(HasKey(fs, k))
    case JStr(s) => Ok(Contains(s, k))
    case JArr(items) => Ok(JStr(k) in items)
    case _ => Err(TypeError)
  }

  /** `x[k]` with a string `k`. */
  function PyIndex(x: Json, k: string): (r: Result<Json>)
    ensures r.Ok? <==> ObjHas(x, k)
    ensures r.Ok? ==> Get(x, k) == Some(r.value)
  {
    if !x.JObj? then Err(TypeError)
    else if HasKey(x.fields, k) then Ok(Lookup(x.fields, k).value)
    else Err(KeyError)
  }

  /** `x.get(k, default)`; only dictionaries have `get`. */
  function PyGet(x: Json, k: string, default: Json): (r: Result<Json>)
    ensures r.Ok? <==> x.JObj?
    ensures ObjHas(x, k) ==> r == Ok(GetOrNull(x, k))
    ensures x.JObj? && !ObjHas(x, k) ==> r == Ok(default)
  {
    if x.JObj? then Ok(Lookup(x.fields, k).GetOr(default)) else Err(AttributeError)
  }

  /**
   * A loop that Python's `try` abandons at the first exception: the effects made up to
   * that point, and whether the loop was cut short.
   */
  datatype Partial<T> = Partial(value: T, failed: bool)

  /** `d.get(k, default)` on a value already known to be a dictionary. */
  function Field(d: Json, k: string, default: Json): (r: Json)
    ensures d.JObj? ==> PyGet(d, k, default) == Ok(r)
  {
    Get(d, k).GetOr(default)
  }

  /** The elements `for e in x` visits: list items, dictionary keys, or the characters of a string. */
  function PyIter(x: Json): (r: Result<seq<Json>>)
    ensures x.JArr? ==> r == Ok(x.items)
    ensures r.Ok? <==> (x.JArr? || x.JObj? || x.JStr?)
    ensures r.Ok? ==> (r.value != [] <==> Truthy(x))
  {
    match x
    case JArr(items) => Ok(items)
    case JObj(fs) => Ok(seq(|fs|, i requires 0 <= i < |fs| => JStr(fs[i].0)))
    case JStr(s) => Ok(seq(|s|, i requires 0 <= i < |s| => JStr([s[i]])))
    case _ => Err(TypeError)
  }

  /** `[f(x, start + i) for i, x in enumerate(xs)]` where `f` may raise: the first error ends the loop. */
  function Enumerate<T>(f: (Json, nat) -> Result<T>, xs: seq<Json>, start: nat): (r: Result<seq<T>>)
    ensures r.Ok? ==> |r.value| == |xs|
    ensures r.Ok? ==> forall i :: 0 <= i < |xs| ==> f(xs[i], start + i) == Ok(r.value[i])
    ensures (forall i :: 0 <= i < |xs| ==> f(xs[i], start + i).Ok?) ==> r.Ok?
    ensures r.Err? ==> exists i :: 0 <= i < |xs| && f(xs[i], start + i) == Err(r.error)
  {
    if xs == [] then Ok([])
    else
      var y :- f(xs[0], start);
      var rest :- Enumerate(f, xs[1..], start + 1);
      var r := [y] + rest;
      assert forall i :: 1 <= i < |xs| ==> r[i] == rest[i - 1] && xs[i] == xs[1..][i - 1];
      Ok(r)
  }

  /** `len(x)`. */
  function PyLen(x: Json): (r: Result<nat>)
    ensures x.JArr? ==> r == Ok(|x.items|)
    ensures r.Ok? <==> (x.JArr? || x.JObj? || x.JStr?)
  {
    match x
    case JArr(items) => Ok(|items|)
    case JObj(fs) => Ok(|fs|)
    case JStr(s) => Ok(|s|)
    case _ => Err(TypeError)
  }

  /** `s.replace(c, t)` for a one-character `c`. */
  function ReplaceBy(s: string, c: char, t: string): (r: string)
    ensures c !in t ==> c !in r
    ensures c !in s ==> r == s
  {
    if s == [] then []
    else (if s[0] == c then t else [s[0]]) + ReplaceBy(s[1..], c, t)
  }

  /** `s.rstrip(c)` for a one-character `c`. */
  function RStripChar(s: string, c: char): (r: string)
    ensures |r| <= |s| && r == s[..|r|]
    ensures r == [] || r[|r| - 1] != c
    ensures forall i :: |r| <= i < |s| ==> s[i] == c
  {
    if s == [] || s[|s| - 1] != c then s
    else
      var r := RStripChar(s[..|s| - 1], c);
      assert s[..|s| - 1][..|r|] == s[..|r|];
      r
  }

  /** `float(s.replace("$", "").replace(",", "").strip())`; None stands for the `ValueError`. */
  function ParseAmount(h: Host, s: string): Option<real>
  {
    h.parseFloat(Strip(RemoveChars(s, {'$', ','})))
  }

  predicate Digits(s: string)
  {
    forall i :: 0 <= i < |s| ==> '0' <= s[i] <= '9'
  }

  /** Removing a character that is removed anyway, between two pieces. */
  lemma DropBetween(x: string, c: char, y: string, cs: set<char>)
    requires c in cs
    ensures RemoveChars(x + [c] + y, cs) == RemoveChars(x, cs) + RemoveChars(y, cs)
  {
    RemoveCharsAppend(x + [c], y, cs);
    RemoveCharsAppend(x, [c], cs);
  }

  lemma RemoveFormatted(a: string, b: string)
    requires Digits(a) && Digits(b)
    ensures RemoveChars(" $" + a + "," + b + " ", {'$', ','}) == " " + (a + b) + " "
  {
    var cs := {'$', ','};
    var inner := a + [','] + (b + " ");
    RemoveSeparator(a, b);
    DropBetween(" ", '$', inner, cs);
    RemoveCharsAbsent(" ", cs);
    assert " $" + a + "," + b + " " == " " + ['$'] + inner;
    assert " " + (a + (b + " ")) == " " + (a + b) + " ";
  }

  /** The thousands separator between two runs of digits is dropped and nothing else. */
  lemma RemoveSeparator(a: string, b: string)
    requires Digits(a) && Digits(b)
    ensures RemoveChars(a + [','] + (b + " "), {'$', ','}) == a + (b + " ")
  {
    var cs := {'$', ','};
    var tail := b + " ";
    assert forall i :: 0 <= i < |tail| ==> tail[i] !in cs by {
      forall i | 0 <= i < |tail| ensures tail[i] !in cs {
        if i < |b| {
          assert tail[i] == b[i];
        }
      }
    }
    RemoveCharsAbsent(a, cs);
    RemoveCharsAbsent(tail, cs);
    DropBetween(a, ',', tail, cs);
  }

  /** `" $1,234 "` is read as `float("1234")`: the decorations never reach `float`. */
  lemma ParseAmountFormatted(h: Host, a: string, b: string)
    requires a != [] && Digits(a) && Digits(b)
    ensures ParseAmount(h, " $" + a + "," + b + " ") == h.parseFloat(a + b)
  {
    var d := a + b;
    assert d[0] == a[0] && d[|d| - 1] in a + b;
    StripKeeps(d);
    StripSurrounded(" ", d, " ");
    RemoveFormatted(a, b);
  }
}
