/**
 * The callback registry's records and the synthesis of an invocation body
 * (`_callback_body`, dash/dash.py:1342-1371): the stored args, or the layout's
 * current values, overlaid with the changed inputs.
 */
module Callbacks {
  import opened Common
  import opened Props
  import opened Returns

  /** A `callback_map` entry without its mutable parts (dash/dash.py:985-990).
      `multi` is whether the callback was registered with a list of outputs
      (dash/dash.py:1114), which `add_context` keeps in its closure. */
  datatype Entry = Entry(inputs: seq<Dep>, state: seq<Dep>, outputs: seq<Dep>, service: nat, multi: bool)

  /** The `"args"` a shared callback records: the body's inputs and state. */
  datatype Args = Args(inputs: seq<Arg>, state: seq<Arg>)

  /** An invocation body: `{output, outputs, inputs, state, changedPropIds}`. */
  datatype Body = Body(output: string, outputs: OutputsField, inputs: seq<Arg>, state: seq<Arg>, changedPropIds: seq<string>)

  /** The exceptions the engine raises, one per cause. */
  datatype Error =
    | UnknownCallback      // KeyError on `callback_map[output]`
    | MissingHandler       // KeyError on `callback_map[output]["callback"]`
    | MalformedChangedKey  // ValueError unpacking `cpi.split(".")`
    | MissingComponent     // KeyError on `layout_components[id]`
    | InvalidReturn        // a return value `validate_multi_return` or `list_to_mods` rejects
    | MixedSharedPush      // dash/dash.py:480
    | ChainNotShared(ids: seq<string>) // dash/dash.py:1284-1285
    | FuelExhausted        // the recursion bound of this model was reached
    | Diverges(stuck: set<string>) // `_initial_callbacks` would loop forever on this pending set

  /** The `outputs` field of a synthesized body: the one output itself, or the list (dash/dash.py:1367). */
  function OutputsOf(outputs: seq<Dep>): OutputsField
  {
    if |outputs| == 1 then SingleOut(outputs[0]) else MultiOut(outputs)
  }

  // ---------------------------------------------------------------------------
  // Values read from the layout

  /** `getattr(comp, property, None)`. */
  function PropOf(props: map<string, Value>, property: string): Value
  {
    if property in props then props[property] else Null
  }

  /** The body entries for `deps` built from the layout, or None when some id is missing. */
  function FromLayout(deps: seq<Dep>, layout: map<string, map<string, Value>>): (r: Option<seq<Arg>>)
    ensures r.Some? <==> forall k :: 0 <= k < |deps| ==> deps[k].id in layout
    ensures r.Some? ==> |r.value| == |deps| && forall k :: 0 <= k < |deps| ==>
      r.value[k] == Arg(deps[k].id, deps[k].property, Some(PropOf(layout[deps[k].id], deps[k].property)))
    decreases |deps|
  {
    if deps == [] then Some([])
    else
      var n := |deps| - 1;
      match FromLayout(deps[..n], layout)
      case None => None
      case Some(prefix) =>
        if deps[n].id in layout then Some(prefix + [Arg(deps[n].id, deps[n].property, Some(PropOf(layout[deps[n].id], deps[n].property)))])
        else None
  }

  // ---------------------------------------------------------------------------
  // Overlaying the changed inputs

  /** Change `c` replaces entry `a`: same id and property, and `c` carries a value. */
  predicate Matches(c: Arg, a: Arg)
  {
    c.id == a.id && c.property == a.property && c.value.Some?
  }

  /** One pass of the inner loop at dash/dash.py:1362-1365. */
  function ApplyChange(xs: seq<Arg>, c: Arg): (r: seq<Arg>)
  {
    seq(|xs|, k requires 0 <= k < |xs| => if Matches(c, xs[k]) then xs[k].(value := c.value) else xs[k])
  }

  /** The keys the inner loop appends to `changedPropIds`, one per matching entry. */
  function HitKeys(xs: seq<Arg>, c: Arg): seq<string>
    decreases |xs|
  {
    if xs == [] then []
    else
      var n := |xs| - 1;
      HitKeys(xs[..n], c) + (if Matches(c, xs[n]) then [Key(c.id, c.property)] else [])
  }

  /** The body inputs after every change has been applied in order. */
  function Overlay(base: seq<Arg>, changes: seq<Arg>): seq<Arg>
    decreases |changes|
  {
    if changes == [] then base
    else
      var n := |changes| - 1;
      ApplyChange(Overlay(base, changes[..n]), changes[n])
  }

  /** `changedPropIds` after every change has been applied in order. */
  function ChangedKeys(base: seq<Arg>, changes: seq<Arg>): seq<string>
    decreases |changes|
  {
    if changes == [] then []
    else
      var n := |changes| - 1;
      ChangedKeys(base, changes[..n]) + HitKeys(Overlay(base, changes[..n]), changes[n])
  }

  /** The value of the last change that replaces entry `a`. */
  function LastMatch(changes: seq<Arg>, a: Arg): Option<Value>
    decreases |changes|
  {
    if changes == [] then None
    else
      var n := |changes| - 1;
      if Matches(changes[n], a) then changes[n].value else LastMatch(changes[..n], a)
  }

  /** The invocation body `_callback_body(output, changes)` builds from a registry
      entry, its stored args (if any) and the layout. */
  function BuildBody(output: string, e: Entry, stored: Option<Args>, layout: map<string, map<string, Value>>, changes: seq<Arg>): Result<Body, Error>
  {
    var base :=
      if stored.Some? then Some(stored.value)
      else match (FromLayout(e.inputs, layout), FromLayout(e.state, layout))
        case (Some(ins), Some(st)) => Some(Args(ins, st))
        case _ => None;
    match base
    case None => Err(MissingComponent)
    case Some(b) =>
      Ok(Body(output, OutputsOf(e.outputs), Overlay(b.inputs, changes), b.state, ChangedKeys(b.inputs, changes)))
  }

  // ---------------------------------------------------------------------------
  // What the overlay does

  /** Applying a change keeps every entry's id and property and replaces exactly the matching values. */
  lemma ApplyChangeAt(xs: seq<Arg>, c: Arg)
    ensures |ApplyChange(xs, c)| == |xs|
    ensures forall k :: 0 <= k < |xs| ==>
      && ApplyChange(xs, c)[k].id == xs[k].id && ApplyChange(xs, c)[k].property == xs[k].property
      && ApplyChange(xs, c)[k].value == (if Matches(c, xs[k]) then c.value else xs[k].value)
  {
  }

  /** Every entry of the overlaid inputs keeps its id and property; its value is
      the one of the last change with the same id and property that carries a
      value, or the base value when no change does. */
  lemma {:induction false} OverlayAt(base: seq<Arg>, changes: seq<Arg>)
    ensures |Overlay(base, changes)| == |base|
    ensures forall k :: 0 <= k < |base| ==>
      && Overlay(base, changes)[k].id == base[k].id
      && Overlay(base, changes)[k].property == base[k].property
      && Overlay(base, changes)[k].value ==
           (if LastMatch(changes, base[k]).Some? then LastMatch(changes, base[k]) else base[k].value)
    decreases |changes|
  {
    if changes != [] {
      var n := |changes| - 1;
      OverlayAt(base, changes[..n]);
      ApplyChangeAt(Overlay(base, changes[..n]), changes[n]);
      forall k | 0 <= k < |base|
        ensures Overlay(base, changes)[k].value ==
          (if LastMatch(changes, base[k]).Some? then LastMatch(changes, base[k]) else base[k].value)
      {
        var prev := Overlay(base, changes[..n]);
        assert Matches(changes[n], prev[k]) == Matches(changes[n], base[k]);
      }
    }
  }

  /** Overlaying changes keeps every entry's id and property. */
  lemma {:induction false} OverlayKeepsKeys(base: seq<Arg>, changes: seq<Arg>)
    ensures |Overlay(base, changes)| == |base|
    ensures forall k :: 0 <= k < |base| ==>
      Overlay(base, changes)[k].id == base[k].id && Overlay(base, changes)[k].property == base[k].property
    decreases |changes|
  {
    if changes != [] {
      OverlayKeepsKeys(base, changes[..|changes| - 1]);
    }
  }

  /** The keys appended for one change are its key `"id.property"`, present exactly
      when it matches some entry (how often: `HitKeysRepeat`). */
  lemma {:induction false} HitKeysMembers(xs: seq<Arg>, c: Arg, s: string)
    ensures s in HitKeys(xs, c) <==> s == Key(c.id, c.property) && exists k :: 0 <= k < |xs| && Matches(c, xs[k])
    decreases |xs|
  {
    if xs != [] {
      var n := |xs| - 1;
      HitKeysMembers(xs[..n], c, s);
      if exists k :: 0 <= k < |xs| && Matches(c, xs[k]) {
        var k :| 0 <= k < |xs| && Matches(c, xs[k]);
        if k < n {
          assert xs[..n][k] == xs[k];
        }
      }
      if exists k :: 0 <= k < n && Matches(c, xs[..n][k]) {
        var k :| 0 <= k < n && Matches(c, xs[..n][k]);
        assert xs[k] == xs[..n][k];
      }
    }
  }

  /** `changedPropIds` lists exactly the keys `"id.property"` of the changes that
      carry a value and share id and property with some input of the body. */
  lemma ChangedKeysMembers(base: seq<Arg>, changes: seq<Arg>, s: string)
    ensures s in ChangedKeys(base, changes) <==>
      exists i, k :: 0 <= i < |changes| && 0 <= k < |base| && Matches(changes[i], base[k]) && s == Key(changes[i].id, changes[i].property)
  {
    if s in ChangedKeys(base, changes) {
      ChangedKeysSound(base, changes, s);
    } else {
      forall i, k | 0 <= i < |changes| && 0 <= k < |base| && Matches(changes[i], base[k])
        ensures s != Key(changes[i].id, changes[i].property)
      {
        ChangedKeysComplete(base, changes, i, k);
      }
    }
  }

  /** Every key in `changedPropIds` comes from a change that replaced an input. */
  lemma {:induction false} ChangedKeysSound(base: seq<Arg>, changes: seq<Arg>, s: string)
    requires s in ChangedKeys(base, changes)
    ensures exists i, k :: 0 <= i < |changes| && 0 <= k < |base| && Matches(changes[i], base[k]) && s == Key(changes[i].id, changes[i].property)
    decreases |changes|
  {
    var n := |changes| - 1;
    if s in ChangedKeys(base, changes[..n]) {
      ChangedKeysSound(base, changes[..n], s);
      var i, k :| 0 <= i < n && 0 <= k < |base| && Matches(changes[..n][i], base[k]) && s == Key(changes[..n][i].id, changes[..n][i].property);
      assert changes[i] == changes[..n][i];
    } else {
      var prev := Overlay(base, changes[..n]);
      HitKeysMembers(prev, changes[n], s);
      OverlayKeepsKeys(base, changes[..n]);
      var k :| 0 <= k < |prev| && Matches(changes[n], prev[k]);
      assert Matches(changes[n], base[k]);
    }
  }

  /** A change that replaces an input puts its key in `changedPropIds`. */
  lemma {:induction false} ChangedKeysComplete(base: seq<Arg>, changes: seq<Arg>, i: nat, k: nat)
    requires i < |changes| && k < |base| && Matches(changes[i], base[k])
    ensures Key(changes[i].id, changes[i].property) in ChangedKeys(base, changes)
    decreases |changes|
  {
    var n := |changes| - 1;
    if i < n {
      assert changes[..n][i] == changes[i];
      ChangedKeysComplete(base, changes[..n], i, k);
    } else {
      var prev := Overlay(base, changes[..n]);
      OverlayKeepsKeys(base, changes[..n]);
      assert Matches(changes[n], prev[k]);
      HitKeysMembers(prev, changes[n], Key(changes[n].id, changes[n].property));
    }
  }

  /** How many entries of `xs` change `c` replaces. */
  function Hits(xs: seq<Arg>, c: Arg): nat
    decreases |xs|
  {
    if xs == [] then 0
    else (if Matches(c, xs[0]) then 1 else 0) + Hits(xs[1..], c)
  }

  /** `changedPropIds` as the nested loops promise it: for each change in turn, its
      key `"id.property"` once for every body input it replaces. */
  function InChangeOrder(base: seq<Arg>, changes: seq<Arg>): seq<string>
    decreases |changes|
  {
    if changes == [] then []
    else
      var n := |changes| - 1;
      InChangeOrder(base, changes[..n]) + seq(Hits(base, changes[n]), _ => Key(changes[n].id, changes[n].property))
  }

  lemma {:induction false} HitsAppend(xs: seq<Arg>, c: Arg)
    requires xs != []
    ensures Hits(xs, c) == Hits(xs[..|xs| - 1], c) + (if Matches(c, xs[|xs| - 1]) then 1 else 0)
    decreases |xs|
  {
    if |xs| > 1 {
      var n := |xs| - 1;
      assert xs[1..][..n - 1] == xs[..n][1..];
      HitsAppend(xs[1..], c);
    }
  }

  /** One change appends its key once per entry it matches, and nothing else. */
  lemma {:induction false} HitKeysRepeat(xs: seq<Arg>, c: Arg)
    ensures HitKeys(xs, c) == seq(Hits(xs, c), _ => Key(c.id, c.property))
    decreases |xs|
  {
    if xs != [] {
      var n := |xs| - 1;
      HitKeysRepeat(xs[..n], c);
      HitsAppend(xs, c);
    }
  }

  /** Only ids and properties decide how many entries a change replaces. */
  lemma {:induction false} HitsSameKeys(xs: seq<Arg>, ys: seq<Arg>, c: Arg)
    requires |xs| == |ys| && forall k :: 0 <= k < |xs| ==> xs[k].id == ys[k].id && xs[k].property == ys[k].property
    ensures Hits(xs, c) == Hits(ys, c)
    decreases |xs|
  {
    if xs != [] {
      HitsSameKeys(xs[1..], ys[1..], c);
    }
  }

  /** `changedPropIds` lists, change by change in the order given, the change's key
      once for every body input it replaces: earlier changes overwriting values
      never alter which inputs a later change matches. */
  lemma {:induction false} ChangedKeysInOrder(base: seq<Arg>, changes: seq<Arg>)
    ensures ChangedKeys(base, changes) == InChangeOrder(base, changes)
    decreases |changes|
  {
    if changes != [] {
      var n := |changes| - 1;
      ChangedKeysInOrder(base, changes[..n]);
      OverlayKeepsKeys(base, changes[..n]);
      HitsSameKeys(Overlay(base, changes[..n]), base, changes[n]);
      HitKeysRepeat(Overlay(base, changes[..n]), changes[n]);
    }
  }

  /** The body's state entries and its outputs never depend on the changes, and
      applying no change gives back the base inputs with no changed keys. */
  lemma BuildBodyShape(output: string, e: Entry, stored: Option<Args>, layout: map<string, map<string, Value>>, changes: seq<Arg>)
    ensures BuildBody(output, e, stored, layout, changes).Ok? <==> BuildBody(output, e, stored, layout, []).Ok?
    ensures BuildBody(output, e, stored, layout, changes).Err? ==>
      stored.None? && exists d :: (d in e.inputs || d in e.state) && d.id !in layout
    ensures BuildBody(output, e, stored, layout, changes).Ok? ==>
      var b := BuildBody(output, e, stored, layout, changes).value;
      var b0 := BuildBody(output, e, stored, layout, []).value;
      && b.output == output && b.outputs == OutputsOf(e.outputs)
      && b.state == b0.state && |b.inputs| == |b0.inputs|
      && b0.inputs == (if stored.Some? then stored.value.inputs else FromLayout(e.inputs, layout).value)
      && b0.changedPropIds == []
  {
    OverlayAt(if stored.Some? then stored.value.inputs else [], changes);
    if stored.None? {
      var ins := FromLayout(e.inputs, layout);
      var st := FromLayout(e.state, layout);
      if ins.Some? { OverlayAt(ins.value, changes); }
      if ins.None? {
        var k :| 0 <= k < |e.inputs| && e.inputs[k].id !in layout;
        assert e.inputs[k] in e.inputs;
      } else if st.None? {
        var k :| 0 <= k < |e.state| && e.state[k].id !in layout;
        assert e.state[k] in e.state;
      }
    }
  }

  // ---------------------------------------------------------------------------
  // The positional arguments of a callback

  /** `inputs_to_vals` (dash/_utils.py, not part of this model), taken as the value of
      each entry, None where it has none. */
  function ArgValues(args: seq<Arg>): seq<Value>
  {
    seq(|args|, k requires 0 <= k < |args| => if args[k].value.Some? then args[k].value.value else Null)
  }

  /** `find_prop_value(inputs, id, property)` (dash/_utils.py, not part of this model),
      taken as the value of the first entry with that id and property, None otherwise. */
  function FindPropValue(args: seq<Arg>, id: string, property: string): (r: Value)
    decreases |args|
  {
    if args == [] then Null
    else if args[0].id == id && args[0].property == property then
      (if args[0].value.Some? then args[0].value.value else Null)
    else FindPropValue(args[1..], id, property)
  }

  // ---------------------------------------------------------------------------
  // The input changes a shared dispatch broadcasts

  /** The `input_mods` dict `dispatch` builds from `changedPropIds` (dash/dash.py:1246-1250),
      or None when some key does not split into exactly two parts. */
  function InputMods(keys: seq<string>, inputs: seq<Arg>): Option<seq<Change>>
    decreases |keys|
  {
    if keys == [] then Some([])
    else
      var n := |keys| - 1;
      match InputMods(keys[..n], inputs)
      case None => None
      case Some(m) =>
        match SplitKey(keys[n])
        case None => None
        case Some(p) => Some(Put(m, Change(p.0, p.1, FindPropValue(inputs, p.0, p.1))))
  }

  /** The input mods exist exactly when every changed key splits; they then hold one
      entry per key, each with the body's value of that input. */
  lemma {:induction false} InputModsMeaning(keys: seq<string>, inputs: seq<Arg>)
    ensures InputMods(keys, inputs).Some? <==> forall k :: 0 <= k < |keys| ==> SplitKey(keys[k]).Some?
    ensures InputMods(keys, inputs).Some? ==>
      var m := InputMods(keys, inputs).value;
      && UniqueKeys(m)
      && (forall c :: c in m ==> Key(c.id, c.property) in keys && c.value == FindPropValue(inputs, c.id, c.property))
      && (forall k :: 0 <= k < |keys| ==>
            var p := SplitKey(keys[k]).value; Lookup(m, p.0, p.1) == Some(FindPropValue(inputs, p.0, p.1)))
    decreases |keys|
  {
    if keys != [] {
      var n := |keys| - 1;
      InputModsMeaning(keys[..n], inputs);
      assert forall k :: 0 <= k < n ==> keys[..n][k] == keys[k];
      var prev := InputMods(keys[..n], inputs);
      var sp := SplitKey(keys[n]);
      if prev.Some? && sp.Some? {
        var c := Change(sp.value.0, sp.value.1, FindPropValue(inputs, sp.value.0, sp.value.1));
        var m := Put(prev.value, c);
        PutUnique(prev.value, c);
        SplitKeyInverse(keys[n]);
        forall x | x in m ensures Key(x.id, x.property) in keys && x.value == FindPropValue(inputs, x.id, x.property) {
          if x != c {
            assert Key(x.id, x.property) in keys[..n];
          }
        }
        forall k | 0 <= k < |keys|
          ensures Lookup(m, SplitKey(keys[k]).value.0, SplitKey(keys[k]).value.1)
                  == Some(FindPropValue(inputs, SplitKey(keys[k]).value.0, SplitKey(keys[k]).value.1))
        {
          var p := SplitKey(keys[k]).value;
          PutLookup(prev.value, c, p.0, p.1);
        }
      }
    }
  }

  /** No changed key names a `children` property; a key that does not unpack names none. */
  predicate NoChildrenKeys(keys: seq<string>)
  {
    forall k :: 0 <= k < |keys| && SplitKey(keys[k]).Some? ==> SplitKey(keys[k]).value.1 != "children"
  }

  /** Input mods built from such keys write no `children` property, so sharing them
      only sets properties of existing components. */
  lemma {:induction false} InputModsNoChildren(keys: seq<string>, inputs: seq<Arg>)
    requires NoChildrenKeys(keys) && InputMods(keys, inputs).Some?
    ensures forall c :: c in InputMods(keys, inputs).value ==> c.property != "children"
    decreases |keys|
  {
    if keys != [] {
      var n := |keys| - 1;
      assert forall k :: 0 <= k < n ==> keys[..n][k] == keys[k];
      InputModsNoChildren(keys[..n], inputs);
      InputModsMeaning(keys[..n], inputs);
      var p := SplitKey(keys[n]).value;
      PutUnique(InputMods(keys[..n], inputs).value, Change(p.0, p.1, FindPropValue(inputs, p.0, p.1)));
    }
  }

  /** The same for the input mods built from the first `j` changed keys, as the
      loop of dash/dash.py:1248-1253 shares them. */
  lemma InputModsPrefixNoChildren(keys: seq<string>, j: nat, inputs: seq<Arg>)
    requires NoChildrenKeys(keys) && j <= |keys| && InputMods(keys[..j], inputs).Some?
    ensures forall c :: c in InputMods(keys[..j], inputs).value ==> c.property != "children"
  {
    assert forall k :: 0 <= k < j ==> keys[..j][k] == keys[k];
    InputModsNoChildren(keys[..j], inputs);
  }
}
