/**
 * Component properties as the engine sees them: dependency descriptors
 * (`{id, property}`), body entries (`{id, property, value?}`), change records,
 * the `"id.property"` keys of `changedPropIds`, and the modifications
 * dictionaries (`mods`) that are sent to clients and applied to the layout.
 */
module Props {
  import opened Common

  /** A JSON-like value as a callback sees it. `NoUpdate` is the `no_update`
      singleton and `Output` an `Output(id, property, value)` directive
      (dash/dash.py:100-106); `Tree` stands for any component subtree, which the
      engine never looks into except through the layout flattener. */
  datatype Value =
    | Null
    | Num(n: int)
    | Str(s: string)
    | Items(items: seq<Value>)
    | NoUpdate
    | Output(id: string, property: string, value: Value)
    | Tree(tag: nat)

  /** An Input, State or Output dependency: `{"id": ..., "property": ...}`. */
  datatype Dep = Dep(id: string, property: string)

  /** An entry of a body's `inputs` or `state` list; `value` is None when the dict has no "value" key. */
  datatype Arg = Arg(id: string, property: string, value: Option<Value>)

  /** One modification `mods[id][property] = value`. */
  datatype Change = Change(id: string, property: string, value: Value)

  /** A flattened layout component: its id and its properties. */
  datatype Comp = Comp(id: string, props: map<string, Value>)

  function DepOf(c: Change): Dep { Dep(c.id, c.property) }

  /** `mods_to_list` seen as dependencies (dash/dash.py:1279). */
  function DepsOf(mods: seq<Change>): seq<Dep>
  {
    seq(|mods|, k requires 0 <= k < |mods| => DepOf(mods[k]))
  }

  /** The mods as body entries that carry a value, as `_callback_body` receives them. */
  function ArgsOfChanges(mods: seq<Change>): seq<Arg>
  {
    seq(|mods|, k requires 0 <= k < |mods| => Arg(mods[k].id, mods[k].property, Some(mods[k].value)))
  }

  /** `intersect_ids(inputs, props)`: dash/_utils.py is not part of this model; it
      is taken to hold when some input has the id and the property of some prop. */
  predicate IntersectIds(inputs: seq<Dep>, props: seq<Dep>)
  {
    exists i, j :: 0 <= i < |inputs| && 0 <= j < |props| && inputs[i] == props[j]
  }

  // ---------------------------------------------------------------------------
  // "id.property" keys

  predicate NoDot(s: string) { '.' !in s }

  /** `i["id"] + "." + i["property"]` (dash/dash.py:1364). */
  function Key(id: string, property: string): string
  {
    id + "." + property
  }

  /** `s.partition(".")` without the separator, or None when `s` has no dot. */
  function SplitAtFirstDot(s: string): Option<(string, string)>
  {
    if s == [] then None
    else if s[0] == '.' then Some(([], s[1..]))
    else match SplitAtFirstDot(s[1..])
      case None => None
      case Some(p) => Some(([s[0]] + p.0, p.1))
  }

  /** `id_, prop = cpi.split(".")` (dash/dash.py:1249): succeeds only when the key
      has exactly one dot; otherwise Python raises ValueError (None here). */
  function SplitKey(s: string): Option<(string, string)>
  {
    match SplitAtFirstDot(s)
    case None => None
    case Some(p) => if NoDot(p.1) then Some(p) else None
  }

  lemma {:induction false} SplitAtFirstDotOfKey(a: string, b: string)
    requires NoDot(a)
    ensures SplitAtFirstDot(a + "." + b) == Some((a, b))
  {
    if a != [] {
      var s := a + "." + b;
      assert s[0] == a[0] && a[0] != '.';
      assert s[1..] == a[1..] + "." + b;
      SplitAtFirstDotOfKey(a[1..], b);
      assert [a[0]] + a[1..] == a;
    } else {
      assert a + "." + b == "." + b;
    }
  }

  lemma {:induction false} SplitAtFirstDotInverse(s: string)
    ensures SplitAtFirstDot(s).Some? ==>
      NoDot(SplitAtFirstDot(s).value.0) && s == SplitAtFirstDot(s).value.0 + "." + SplitAtFirstDot(s).value.1
    ensures SplitAtFirstDot(s).None? ==> NoDot(s)
  {
    if s != [] && s[0] != '.' {
      SplitAtFirstDotInverse(s[1..]);
      assert s == [s[0]] + s[1..];
    }
  }

  /** Splitting a key built from dot-free parts gives the parts back. */
  lemma KeyRoundTrip(id: string, property: string)
    requires NoDot(id) && NoDot(property)
    ensures SplitKey(Key(id, property)) == Some((id, property))
  {
    SplitAtFirstDotOfKey(id, property);
  }

  /** A key that splits is exactly the key of its two dot-free parts; a key with
      no dot or with several dots does not split. */
  lemma SplitKeyInverse(s: string)
    ensures SplitKey(s).Some? ==>
      var p := SplitKey(s).value; NoDot(p.0) && NoDot(p.1) && Key(p.0, p.1) == s
    ensures NoDot(s) ==> SplitKey(s).None?
  {
    SplitAtFirstDotInverse(s);
  }

  // ---------------------------------------------------------------------------
  // str(n) for the synthetic `_none` outputs

  function DigitChar(d: nat): char
    requires d < 10
  {
    "0123456789"[d]
  }

  predicate IsDigit(c: char) { '0' <= c <= '9' }

  function DigitValue(c: char): nat
    requires IsDigit(c)
  {
    (c as int - '0' as int) as nat
  }

  /** Python's `str(n)` for a non-negative integer. */
  function NatToString(n: nat): (s: string)
    ensures |s| > 0 && forall k :: 0 <= k < |s| ==> IsDigit(s[k])
  {
    if n < 10 then [DigitChar(n)] else NatToString(n / 10) + [DigitChar(n % 10)]
  }

  /** Python's `int(s)` on a string of decimal digits. */
  function ParseNat(s: string): nat
    requires forall k :: 0 <= k < |s| ==> IsDigit(s[k])
  {
    if s == [] then 0 else 10 * ParseNat(s[..|s| - 1]) + DigitValue(s[|s| - 1])
  }

  lemma {:induction false} ParseNatToString(n: nat)
    ensures ParseNat(NatToString(n)) == n
  {
    var s := NatToString(n);
    if n < 10 {
      assert s[..0] == [];
    } else {
      ParseNatToString(n / 10);
      assert s[..|s| - 1] == NatToString(n / 10);
    }
  }

  /** The id of the n-th synthetic output, `create_callback_id(Output("_none", str(n)))`. */
  function NoneOutputId(n: nat): string
  {
    Key("_none", NatToString(n))
  }

  /** Advancing the counter always yields a fresh synthetic output id. */
  lemma NoneOutputIdsDistinct(m: nat, n: nat)
    ensures NoneOutputId(m) == NoneOutputId(n) ==> m == n
  {
    if NoneOutputId(m) == NoneOutputId(n) {
      var p := "_none.";
      assert NoneOutputId(m) == p + NatToString(m) && NoneOutputId(n) == p + NatToString(n);
      assert NatToString(m) == NoneOutputId(m)[|p|..];
      ParseNatToString(m);
      ParseNatToString(n);
    }
  }

  // ---------------------------------------------------------------------------
  // mods dictionaries

  predicate SameKey(a: Change, b: Change) { a.id == b.id && a.property == b.property }

  /** `mods[c.id][c.property] = c.value` on a modifications dict kept as a list of
      changes: an existing entry for the same id and property is replaced where it
      stands, otherwise the change is appended. */
  function Put(mods: seq<Change>, c: Change): (r: seq<Change>)
    ensures |r| > 0
  {
    if mods == [] then [c]
    else if SameKey(mods[0], c) then [c] + mods[1..]
    else [mods[0]] + Put(mods[1..], c)
  }

  /** `mods.get(id, {}).get(property)`: the first entry for the key. */
  function Lookup(mods: seq<Change>, id: string, property: string): Option<Value>
  {
    if mods == [] then None
    else if mods[0].id == id && mods[0].property == property then Some(mods[0].value)
    else Lookup(mods[1..], id, property)
  }

  predicate UniqueKeys(mods: seq<Change>)
  {
    forall i, j :: 0 <= i < j < |mods| ==> !SameKey(mods[i], mods[j])
  }

  /** Dictionary semantics of `Put`: the written key now maps to the new value and
      every other key keeps its value. */
  lemma {:induction false} PutLookup(mods: seq<Change>, c: Change, id: string, property: string)
    ensures Lookup(Put(mods, c), id, property) ==
      if id == c.id && property == c.property then Some(c.value) else Lookup(mods, id, property)
  {
    if mods != [] && !SameKey(mods[0], c) {
      PutLookup(mods[1..], c, id, property);
    }
  }

  /** `Put` never creates a second entry for a key. */
  lemma {:induction false} PutUnique(mods: seq<Change>, c: Change)
    requires UniqueKeys(mods)
    ensures UniqueKeys(Put(mods, c))
    ensures forall x :: x in Put(mods, c) ==> x == c || x in mods
  {
    if mods != [] && !SameKey(mods[0], c) {
      PutUnique(mods[1..], c);
      var r := Put(mods, c);
      assert r == [mods[0]] + Put(mods[1..], c);
      forall i, j | 0 <= i < j < |r| ensures !SameKey(r[i], r[j]) {
        if i == 0 {
          assert r[j] in Put(mods[1..], c);
          if r[j] != c {
            assert r[j] in mods[1..];
          }
        }
      }
    }
  }
}
