/**
 * `to_camel` and `camelize_dict`: every response of the service is passed through a
 * recursive rename that turns the snake_case keys of each dictionary into camelCase.
 * The first `_`-separated piece of a key stays as it is; every later piece is
 * title-cased and glued on.
 */
module Camel {
  import opened Json
  import opened Text

  /** `''.join(parts)`. */
  function Concat(parts: seq<string>): (r: string)
    ensures forall c :: c in r ==> exists i :: 0 <= i < |parts| && c in parts[i]
  {
    if parts == [] then []
    else
      var rest := Concat(parts[1..]);
      assert forall i :: 0 <= i < |parts[1..]| ==> parts[1..][i] == parts[i + 1];
      parts[0] + rest
  }

  /** `[x.title() for x in parts]`. */
  function TitleAll(parts: seq<string>): (r: seq<string>)
    ensures |r| == |parts|
    ensures forall i :: 0 <= i < |parts| ==> r[i] == Title(parts[i])
  {
    if parts == [] then [] else [Title(parts[0])] + TitleAll(parts[1..])
  }

  /** Title-casing only changes the case of letters, so it never produces a `_`. */
  lemma TitleKeepsUnderscoreOut(s: string)
    requires '_' !in s
    ensures '_' !in Title(s)
  {
    forall i | 0 <= i < |s| ensures Title(s)[i] != '_' {
      assert s[i] != '_';
    }
  }

  /** `to_camel(key)`. */
  function ToCamel(key: string): (r: string)
    ensures '_' !in r
    ensures '_' !in key ==> r == key
  {
    var parts := Split(key, '_');
    var titled := TitleAll(parts[1..]);
    forall i | 0 <= i < |titled| ensures '_' !in titled[i] {
      assert parts[1..][i] in parts;
      TitleKeepsUnderscoreOut(parts[1..][i]);
    }
    assert parts[0] in parts;
    parts[0] + Concat(titled)
  }

  /** `camelize_dict(data)`: keys renamed at every depth of dictionaries and lists, scalars untouched. */
  function Camelize(v: Json): (r: Json)
    ensures v.JObj? <==> r.JObj?
    ensures v.JArr? <==> r.JArr?
    ensures v.JArr? ==> |r.items| == |v.items|
    ensures !v.JObj? && !v.JArr? ==> r == v
    decreases v, 2
  {
    match v
    case JObj(fs) => JObj(FromPairs(CamelPairs(v)))
    case JArr(items) => JArr(seq(|items|, i requires 0 <= i < |items| => Camelize(items[i])))
    case _ => v
  }

  /** The pairs `(to_camel(k), camelize_dict(v))` the comprehension feeds to the new dictionary. */
  function CamelPairs(d: Json): (r: Fields)
    requires d.JObj?
    ensures |r| == |d.fields|
    ensures forall i :: 0 <= i < |d.fields| ==> r[i].0 == ToCamel(d.fields[i].0)
    decreases d, 1
  {
    seq(|d.fields|, i requires 0 <= i < |d.fields| =>
      assert d.fields[i] in d.fields;
      (ToCamel(d.fields[i].0), Camelize(d.fields[i].1)))
  }

  /** The i-th pair is the renamed key with the renamed value. */
  lemma CamelPairsAt(d: Json, i: int)
    requires d.JObj? && 0 <= i < |d.fields|
    ensures CamelPairs(d)[i] == (ToCamel(d.fields[i].0), Camelize(d.fields[i].1))
  {
  }

  // ---------------------------------------------------------------------------
  // Snake-case keys and the way back
  // ---------------------------------------------------------------------------

  predicate IsLowerLetter(c: char)
  {
    'a' <= c <= 'z'
  }

  /**
   * One piece of a snake_case key as the service writes them (`page`, `number`, `box12`):
   * lower-case letters, possibly followed by digits.
   */
  predicate Word(w: string)
  {
    |w| >= 1 && IsLowerLetter(w[0]) && forall i :: 1 <= i < |w| ==> WordContinues(w, i)
  }

  /** A letter only after a letter; a digit anywhere after the first place. */
  predicate WordContinues(w: string, i: int)
    requires 1 <= i < |w|
  {
    (IsLowerLetter(w[i]) && IsLowerLetter(w[i - 1])) || IsDigit(w[i])
  }

  /** A key whose `_`-separated pieces are all words, such as `number_of_forms`. */
  predicate SnakeKey(key: string)
  {
    var parts := Split(key, '_');
    forall i :: 0 <= i < |parts| ==> Word(parts[i])
  }

  /** The inverse rename: every capital letter becomes `_` and its lower-case form. */
  function ToSnake(s: string): (r: string)
    ensures |s| <= |r| <= 2 * |s|
    ensures forall i :: 0 <= i < |r| ==> !('A' <= r[i] <= 'Z')
  {
    if s == [] then []
    else (if 'A' <= s[0] <= 'Z' then ['_', LowerChar(s[0])] else [s[0]]) + ToSnake(s[1..])
  }

  lemma {:induction false} ToSnakeAppend(a: string, b: string)
    ensures ToSnake(a + b) == ToSnake(a) + ToSnake(b)
  {
    if a == [] {
      assert a + b == b;
    } else {
      assert (a + b)[1..] == a[1..] + b;
      ToSnakeAppend(a[1..], b);
    }
  }

  lemma {:induction false} ToSnakeOfLower(s: string)
    requires forall i :: 0 <= i < |s| ==> !('A' <= s[i] <= 'Z')
    ensures ToSnake(s) == s
  {
    if s != [] {
      ToSnakeOfLower(s[1..]);
    }
  }

  lemma WordHasNoCapital(w: string)
    requires Word(w)
    ensures forall i :: 0 <= i < |w| ==> !('A' <= w[i] <= 'Z')
  {
    forall i | 0 <= i < |w| ensures !('A' <= w[i] <= 'Z') {
      if i > 0 {
        assert WordContinues(w, i);
      }
    }
  }

  /** Title-casing a word raises its first letter and leaves the rest alone. */
  lemma TitleOfWord(w: string)
    requires Word(w)
    ensures Title(w) == [UpperChar(w[0])] + w[1..]
  {
    var t := Title(w);
    forall i | 1 <= i < |w| ensures t[i] == w[i] {
      assert WordContinues(w, i);
      if IsCased(w[i - 1]) {
        assert IsLowerLetter(w[i]) || IsDigit(w[i]);
      } else {
        assert IsDigit(w[i]);
      }
    }
  }

  /** Undoing a title-cased word restores the `_` in front of it. */
  lemma SnakeOfTitled(w: string, x: string)
    requires Word(w)
    ensures ToSnake(Title(w) + x) == "_" + ToSnake(w + x)
  {
    TitleOfWord(w);
    assert Title(w) + x == [UpperChar(w[0])] + (w[1..] + x);
    assert w + x == [w[0]] + (w[1..] + x);
    ToSnakeAppend([UpperChar(w[0])], w[1..] + x);
    ToSnakeAppend([w[0]], w[1..] + x);
  }

  /** Reversing the rename of pieces `ws` gives back `'_'.join(ws)`. */
  lemma {:induction false} SnakeOfCamelParts(ws: seq<string>)
    requires |ws| >= 1 && forall i :: 0 <= i < |ws| ==> Word(ws[i])
    ensures ToSnake(ws[0] + Concat(TitleAll(ws[1..]))) == Join(ws, '_')
  {
    if |ws| == 1 {
      assert ws[0] + Concat(TitleAll(ws[1..])) == ws[0];
      WordHasNoCapital(ws[0]);
      ToSnakeOfLower(ws[0]);
    } else {
      var rest := ws[1..];
      var tail := Concat(TitleAll(rest[1..]));
      assert TitleAll(rest) == [Title(rest[0])] + TitleAll(rest[1..]);
      assert Concat(TitleAll(rest)) == Title(ws[1]) + tail;
      SnakeOfCamelParts(rest);
      SnakeOfTitled(ws[1], tail);
      ToSnakeAppend(ws[0], Title(ws[1]) + tail);
      WordHasNoCapital(ws[0]);
      ToSnakeOfLower(ws[0]);
    }
  }

  /** On snake_case keys the rename loses nothing: undoing it gives the key back. */
  lemma CamelRoundTrip(key: string)
    requires SnakeKey(key)
    ensures ToSnake(ToCamel(key)) == key
  {
    var parts := Split(key, '_');
    JoinSplit(key, '_');
    SnakeOfCamelParts(parts);
  }

  /** Two different snake_case keys never collide after the rename. */
  lemma CamelInjective(a: string, b: string)
    requires SnakeKey(a) && SnakeKey(b) && ToCamel(a) == ToCamel(b)
    ensures a == b
  {
    CamelRoundTrip(a);
    CamelRoundTrip(b);
  }

  // ---------------------------------------------------------------------------
  // What `camelize_dict` does to whole values
  // ---------------------------------------------------------------------------

  /** Every dictionary at every depth has distinct keys, none of them holding a `_`. */
  ghost predicate Camelized(v: Json)
  {
    match v
    case JObj(fs) => UniqueKeys(fs) && forall i :: 0 <= i < |fs| ==> '_' !in fs[i].0 && Camelized(fs[i].1)
    case JArr(items) => forall i :: 0 <= i < |items| ==> Camelized(items[i])
    case _ => true
  }

  /** The output of the rename is fully camelized. */
  lemma {:induction false} CamelizeCamelizes(v: Json)
    ensures Camelized(Camelize(v))
  {
    match v
    case JObj(fs) =>
      var ps := CamelPairs(v);
      var out := FromPairs(ps);
      FromPairsFrom(ps);
      forall i | 0 <= i < |out| ensures '_' !in out[i].0 && Camelized(out[i].1) {
        assert out[i] in ps;
        var j :| 0 <= j < |ps| && ps[j] == out[i];
        assert fs[j] in fs;
        CamelizeCamelizes(fs[j].1);
      }
    case JArr(items) =>
      forall i | 0 <= i < |items| ensures Camelized(Camelize(v).items[i]) {
        CamelizeCamelizes(items[i]);
      }
    case _ =>
  }

  /** A value that is already camelized comes back unchanged. */
  lemma {:induction false} CamelizeFixes(v: Json)
    requires Camelized(v)
    ensures Camelize(v) == v
  {
    match v
    case JObj(fs) =>
      var ps := CamelPairs(v);
      forall i | 0 <= i < |fs| ensures ps[i] == fs[i] {
        assert fs[i] in fs;
        CamelizeFixes(fs[i].1);
      }
      assert ps == fs;
      FromPairsOfUnique(fs);
    case JArr(items) =>
      forall i | 0 <= i < |items| ensures Camelize(v).items[i] == items[i] {
        CamelizeFixes(items[i]);
      }
    case _ =>
  }

  /** Renaming twice is renaming once. */
  lemma CamelizeIdempotent(v: Json)
    ensures Camelize(Camelize(v)) == Camelize(v)
  {
    CamelizeCamelizes(v);
    CamelizeFixes(Camelize(v));
  }

  /**
   * A dictionary with distinct snake_case keys keeps every field, in its place: the
   * i-th field becomes the renamed key with the renamed value.
   */
  lemma CamelizeSnakeFields(fs: Fields)
    requires UniqueKeys(fs)
    requires forall i :: 0 <= i < |fs| ==> SnakeKey(fs[i].0)
    ensures Camelize(JObj(fs)).fields == CamelPairs(JObj(fs))
    ensures |Camelize(JObj(fs)).fields| == |fs|
    ensures forall i :: 0 <= i < |fs| ==>
      Camelize(JObj(fs)).fields[i] == (ToCamel(fs[i].0), Camelize(fs[i].1))
  {
    var ps := CamelPairs(JObj(fs));
    forall i, j | 0 <= i < j < |ps| ensures ps[i].0 != ps[j].0 {
      if ps[i].0 == ps[j].0 {
        CamelInjective(fs[i].0, fs[j].0);
      }
    }
    FromPairsOfUnique(ps);
    assert Camelize(JObj(fs)) == JObj(FromPairs(ps));
    forall i | 0 <= i < |fs| ensures ps[i] == (ToCamel(fs[i].0), Camelize(fs[i].1)) {
      CamelPairsAt(JObj(fs), i);
    }
  }
}
