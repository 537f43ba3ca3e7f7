/**
 * `flatten_dict` and the alias lookup the response transforms build on it.
 *
 * A nested model reply is flattened into one dictionary whose keys are the paths to
 * the leaves, joined with `_`, list positions written as indices. Transforms then
 * look a field up by a list of aliases: the first alias that occurs, case-blind, inside
 * some flattened key whose value is present wins.
 */
module Flatten {
  import opened Json
  import opened Text

  /** `f"{parent}_{k}" if parent else k`. */
  function ChildKey(parent: string, k: string): string
  {
    if parent == "" then k else parent + "_" + k
  }

  /** `f"{key}_{i}"`: the key of a list's i-th element. */
  function IndexKey(key: string, i: nat): string
  {
    key + "_" + NatToString(i)
  }

  /** `flatten_dict(d, parent)` for a dictionary `d`: `dict(items)` of the pairs the loop collects. */
  function FlattenDict(d: Json, parent: string): (r: Fields)
    requires d.JObj?
    ensures UniqueKeys(r)
    decreases d, 2
  {
    FromPairs(FieldItems(d, parent, 0))
  }

  /** The pairs collected for fields `i..` of `d`. */
  function FieldItems(d: Json, parent: string, i: nat): seq<(string, Json)>
    requires d.JObj? && i <= |d.fields|
    decreases d, 1, |d.fields| - i
  {
    if i == |d.fields| then []
    else
      assert d.fields[i] in d.fields;
      ValueItems(ChildKey(parent, d.fields[i].0), d.fields[i].1) + FieldItems(d, parent, i + 1)
  }

  /** The pairs collected for one value under `key`: a dictionary recurses, a list expands, a leaf stays. */
  function ValueItems(key: string, v: Json): seq<(string, Json)>
    decreases v, 3
  {
    match v
    case JObj(_) => FlattenDict(v, key)
    case JArr(_) => ListItems(v, key, 0)
    case _ => [(key, v)]
  }

  /** The pairs collected for elements `i..` of list `l`: dictionaries recurse, anything else stays whole. */
  function ListItems(l: Json, key: string, i: nat): seq<(string, Json)>
    requires l.JArr? && i <= |l.items|
    decreases l, 1, |l.items| - i
  {
    if i == |l.items| then []
    else
      var item := l.items[i];
      (if item.JObj? then FlattenDict(item, IndexKey(key, i)) else [(IndexKey(key, i), item)])
      + ListItems(l, key, i + 1)
  }

  /** `flatten_dict(raw) if isinstance(raw, dict) else {}`. */
  function Flat(raw: Json): (r: Fields)
    ensures UniqueKeys(r)
  {
    if raw.JObj? then FlattenDict(raw, "") else []
  }

  // ------------------------------------------------------------ leaves only

  predicate NoDicts(ps: seq<(string, Json)>)
  {
    forall p :: p in ps ==> !p.1.JObj?
  }

  /** No value of a flattened dictionary is itself a dictionary. */
  lemma {:induction false} FlattenDictNoDicts(d: Json, parent: string)
    requires d.JObj?
    ensures NoDicts(FlattenDict(d, parent))
    decreases d, 2
  {
    FieldItemsNoDicts(d, parent, 0);
    FromPairsFrom(FieldItems(d, parent, 0));
  }

  lemma {:induction false} FieldItemsNoDicts(d: Json, parent: string, i: nat)
    requires d.JObj? && i <= |d.fields|
    ensures NoDicts(FieldItems(d, parent, i))
    decreases d, 1, |d.fields| - i
  {
    if i < |d.fields| {
      assert d.fields[i] in d.fields;
      ValueItemsNoDicts(ChildKey(parent, d.fields[i].0), d.fields[i].1);
      FieldItemsNoDicts(d, parent, i + 1);
    }
  }

  lemma {:induction false} ValueItemsNoDicts(key: string, v: Json)
    ensures NoDicts(ValueItems(key, v))
    decreases v, 3
  {
    match v
    case JObj(_) => FlattenDictNoDicts(v, key);
    case JArr(_) => ListItemsNoDicts(v, key, 0);
    case _ =>
  }

  lemma {:induction false} ListItemsNoDicts(l: Json, key: string, i: nat)
    requires l.JArr? && i <= |l.items|
    ensures NoDicts(ListItems(l, key, i))
    decreases l, 1, |l.items| - i
  {
    if i < |l.items| {
      var item := l.items[i];
      if item.JObj? {
        FlattenDictNoDicts(item, IndexKey(key, i));
      }
      ListItemsNoDicts(l, key, i + 1);
    }
  }

  // ------------------------------------------------------------ keys are paths

  lemma StartsWithPrefix(s: string, a: string, b: string)
    requires StartsWith(s, a + b)
    ensures StartsWith(s, a)
  {
    assert s[..|a|] == (a + b)[..|a|];
  }

  predicate KeysUnder(ps: seq<(string, Json)>, prefix: string)
  {
    forall p :: p in ps ==> StartsWith(p.0, prefix)
  }

  /** Below a non-empty parent every flattened key starts with `parent_`. */
  lemma {:induction false} FlattenDictKeys(d: Json, parent: string)
    requires d.JObj? && parent != ""
    ensures KeysUnder(FlattenDict(d, parent), parent + "_")
    decreases d, 2
  {
    FieldItemsKeys(d, parent, 0);
    FromPairsFrom(FieldItems(d, parent, 0));
  }

  lemma {:induction false} FieldItemsKeys(d: Json, parent: string, i: nat)
    requires d.JObj? && i <= |d.fields| && parent != ""
    ensures KeysUnder(FieldItems(d, parent, i), parent + "_")
    decreases d, 1, |d.fields| - i
  {
    if i < |d.fields| {
      assert d.fields[i] in d.fields;
      var k := d.fields[i].0;
      ValueItemsKeys(ChildKey(parent, k), d.fields[i].1);
      forall p | p in ValueItems(ChildKey(parent, k), d.fields[i].1)
        ensures StartsWith(p.0, parent + "_")
      {
        assert ChildKey(parent, k) == (parent + "_") + k;
        StartsWithPrefix(p.0, parent + "_", k);
      }
      FieldItemsKeys(d, parent, i + 1);
    }
  }

  lemma {:induction false} ValueItemsKeys(key: string, v: Json)
    ensures KeysUnder(ValueItems(key, v), key)
    decreases v, 3
  {
    match v
    case JObj(_) =>
      if key != "" {
        FlattenDictKeys(v, key);
        forall p | p in FlattenDict(v, key) ensures StartsWith(p.0, key) {
          StartsWithPrefix(p.0, key, "_");
        }
      }
    case JArr(_) => ListItemsKeys(v, key, 0);
    case _ =>
  }

  lemma {:induction false} ListItemsKeys(l: Json, key: string, i: nat)
    requires l.JArr? && i <= |l.items|
    ensures KeysUnder(ListItems(l, key, i), key)
    decreases l, 1, |l.items| - i
  {
    if i < |l.items| {
      var item := l.items[i];
      var ik := IndexKey(key, i);
      assert ik == key + ("_" + NatToString(i));
      if item.JObj? {
        FlattenDictKeys(item, ik);
        forall p | p in FlattenDict(item, ik) ensures StartsWith(p.0, key) {
          StartsWithPrefix(p.0, ik, "_");
          StartsWithPrefix(p.0, key, "_" + NatToString(i));
        }
      } else {
        assert StartsWith(ik, key);
      }
      ListItemsKeys(l, key, i + 1);
    }
  }

  // ------------------------------------------------------------ examples of shape

  predicate IsLeaf(v: Json)
  {
    !v.JObj? && !v.JArr?
  }

  /** A dictionary of leaves with a top-level call is already flat: flattening returns it unchanged. */
  lemma FlattenOfFlat(d: Json)
    requires d.JObj? && UniqueKeys(d.fields)
    requires forall p :: p in d.fields ==> IsLeaf(p.1)
    ensures FlattenDict(d, "") == d.fields
  {
    FieldItemsOfFlat(d, 0);
    FromPairsOfUnique(d.fields);
  }

  lemma {:induction false} FieldItemsOfFlat(d: Json, i: nat)
    requires d.JObj? && i <= |d.fields|
    requires forall p :: p in d.fields ==> IsLeaf(p.1)
    ensures FieldItems(d, "", i) == d.fields[i..]
    decreases |d.fields| - i
  {
    if i < |d.fields| {
      assert d.fields[i] in d.fields;
      FieldItemsOfFlat(d, i + 1);
      assert d.fields[i..] == [d.fields[i]] + d.fields[i + 1..];
    }
  }

  /** `{a: {b: {c: leaf}}}` flattens to `{a_b_c: leaf}`. */
  lemma FlattenNested(a: string, b: string, c: string, leaf: Json)
    requires a != "" && IsLeaf(leaf)
    ensures FlattenDict(JObj([(a, JObj([(b, JObj([(c, leaf)]))]))]), "")
      == [(a + "_" + b + "_" + c, leaf)]
  {
    var inner := JObj([(c, leaf)]);
    var middle := JObj([(b, inner)]);
    var outer := JObj([(a, middle)]);
    var ab := a + "_" + b;
    assert FieldItems(inner, ab, 1) == [];
    assert FieldItems(inner, ab, 0) == [(ab + "_" + c, leaf)];
    FromPairsOfUnique([(ab + "_" + c, leaf)]);
    assert FieldItems(middle, a, 1) == [];
    assert FieldItems(middle, a, 0) == FlattenDict(inner, ab);
    FromPairsOfUnique([(ab + "_" + c, leaf)]);
    assert FieldItems(outer, "", 1) == [];
    assert FieldItems(outer, "", 0) == FlattenDict(middle, a);
    assert ab + "_" + c == a + "_" + b + "_" + c;
  }

  /** `{a: [x, y]}` with non-dictionary elements flattens to `{a_0: x, a_1: y}`. */
  lemma FlattenList(a: string, x: Json, y: Json)
    requires !x.JObj? && !y.JObj?
    ensures FlattenDict(JObj([(a, JArr([x, y]))]), "") == [(a + "_0", x), (a + "_1", y)]
  {
    var l := JArr([x, y]);
    var d := JObj([(a, l)]);
    assert NatToString(0) == "0" && NatToString(1) == "1";
    assert ListItems(l, a, 2) == [];
    assert IndexKey(a, 1) == a + "_1";
    assert ListItems(l, a, 1) == [(a + "_1", y)];
    assert IndexKey(a, 0) == a + "_0";
    assert ListItems(l, a, 0) == [(a + "_0", x), (a + "_1", y)];
    assert FieldItems(d, "", 1) == [];
    assert FieldItems(d, "", 0) == [(a + "_0", x), (a + "_1", y)];
    assert (a + "_0")[|a| + 1] != (a + "_1")[|a| + 1];
    FromPairsOfUnique([(a + "_0", x), (a + "_1", y)]);
  }

  // ------------------------------------------------------------ alias lookup

  /** `v is not None and v != "" and v != "N/A"`. */
  predicate Usable(v: Json)
  {
    v != JNull && v != JStr("") && v != JStr("N/A")
  }

  /** `alias.lower() in key.lower()` for a pair whose value is usable. */
  predicate Matches(alias: string, p: (string, Json))
  {
    Contains(Lower(p.0), Lower(alias)) && Usable(p.1)
  }

  predicate NoMatch(alias: string, flat: Fields)
  {
    forall j :: 0 <= j < |flat| ==> !Matches(alias, flat[j])
  }

  /** `flat[j]` is the first pair `alias` matches. */
  predicate FirstMatchAt(alias: string, flat: Fields, j: int)
  {
    0 <= j < |flat| && Matches(alias, flat[j]) && forall j' :: 0 <= j' < j ==> !Matches(alias, flat[j'])
  }

  /** `flat[j]` is what the lookup returns: aliases before `aliases[a]` match nothing, and `flat[j]` is its first match. */
  predicate FirstAliasHit(flat: Fields, aliases: seq<string>, a: int, j: int)
  {
    0 <= a < |aliases| && FirstMatchAt(aliases[a], flat, j)
    && forall b :: 0 <= b < a ==> NoMatch(aliases[b], flat)
  }

  /** The inner loop of `find_value`: the first pair one alias matches. */
  function FindIn(alias: string, flat: Fields): (r: Option<Json>)
    ensures r.None? <==> NoMatch(alias, flat)
    ensures r.Some? ==> Usable(r.value)
    ensures forall j :: FirstMatchAt(alias, flat, j) ==> r == Some(flat[j].1)
  {
    if flat == [] then None
    else if Matches(alias, flat[0]) then Some(flat[0].1)
    else
      var r := FindIn(alias, flat[1..]);
      assert forall j :: 1 <= j < |flat| ==> flat[1..][j - 1] == flat[j];
      assert forall j :: FirstMatchAt(alias, flat, j) ==> FirstMatchAt(alias, flat[1..], j - 1);
      r
  }

  /** When the first alias matches nothing, the lookup's first hit is one of the remaining aliases'. */
  lemma FirstAliasHitTail(flat: Fields, aliases: seq<string>)
    requires aliases != [] && NoMatch(aliases[0], flat)
    ensures forall a, j :: FirstAliasHit(flat, aliases, a, j) ==> FirstAliasHit(flat, aliases[1..], a - 1, j)
    ensures (forall a :: 0 <= a < |aliases| ==> NoMatch(aliases[a], flat))
      ==> forall a :: 0 <= a < |aliases[1..]| ==> NoMatch(aliases[1..][a], flat)
  {
    assert forall a :: 1 <= a < |aliases| ==> aliases[1..][a - 1] == aliases[a];
    forall a, j | FirstAliasHit(flat, aliases, a, j)
      ensures FirstAliasHit(flat, aliases[1..], a - 1, j)
    {
      assert a != 0;
      assert aliases[1..][a - 1] == aliases[a];
      forall b | 0 <= b < a - 1 ensures NoMatch(aliases[1..][b], flat) {
        assert aliases[1..][b] == aliases[b + 1];
      }
    }
  }

  /** `find_value(aliases, default)` over the flattened dictionary `flat`. */
  function FindValue(flat: Fields, aliases: seq<string>, default: Json): (r: Json)
    ensures (forall a :: 0 <= a < |aliases| ==> NoMatch(aliases[a], flat)) ==> r == default
    ensures forall a, j :: FirstAliasHit(flat, aliases, a, j) ==> r == flat[j].1
    ensures r == default || Usable(r)
  {
    if aliases == [] then default
    else
      var found := FindIn(aliases[0], flat);
      if found.Some? then
        FirstAliasHitHead(flat, aliases);
        found.value
      else
        FirstAliasHitTail(flat, aliases);
        FindValue(flat, aliases[1..], default)
  }

  lemma FirstAliasHitHead(flat: Fields, aliases: seq<string>)
    requires aliases != [] && !NoMatch(aliases[0], flat)
    ensures forall a, j :: FirstAliasHit(flat, aliases, a, j) ==> a == 0 && FirstMatchAt(aliases[0], flat, j)
  {
  }

  /** A present value found under some alias means the lookup does not fall back to the default. */
  lemma FindValueFinds(flat: Fields, aliases: seq<string>, default: Json, a: int, j: int)
    requires 0 <= a < |aliases| && 0 <= j < |flat| && Matches(aliases[a], flat[j])
    ensures exists a', j' :: FirstAliasHit(flat, aliases, a', j')
  {
    var a' := FirstAlias(flat, aliases, a);
    var j' := FirstPair(aliases[a'], flat);
    assert FirstAliasHit(flat, aliases, a', j');
  }

  /** The smallest alias index `<= a` that matches something. */
  lemma FirstAlias(flat: Fields, aliases: seq<string>, a: int) returns (a': int)
    requires 0 <= a < |aliases| && !NoMatch(aliases[a], flat)
    ensures 0 <= a' <= a && !NoMatch(aliases[a'], flat)
    ensures forall b :: 0 <= b < a' ==> NoMatch(aliases[b], flat)
  {
    a' := 0;
    while NoMatch(aliases[a'], flat)
      invariant 0 <= a' <= a
      invariant forall b :: 0 <= b < a' ==> NoMatch(aliases[b], flat)
      decreases a - a'
    {
      a' := a' + 1;
    }
  }

  /** The first pair an alias that matches something matches. */
  lemma FirstPair(alias: string, flat: Fields) returns (j: int)
    requires !NoMatch(alias, flat)
    ensures FirstMatchAt(alias, flat, j)
  {
    var k :| 0 <= k < |flat| && Matches(alias, flat[k]);
    j := 0;
    while !Matches(alias, flat[j])
      invariant 0 <= j <= k
      invariant forall j' :: 0 <= j' < j ==> !Matches(alias, flat[j'])
      decreases k - j
    {
      j := j + 1;
    }
  }
}
