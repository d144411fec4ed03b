/**
 * How `add_context` reads a callback's return value (dash/dash.py:1160-1200):
 * `no_update` prevents the update; an `Output` or a list starting with an
 * `Output` is an alternate result; otherwise a `_none` output prevents the
 * update; otherwise the value is matched slot by slot against the declared
 * outputs, `no_update` slots are skipped, and nothing left means prevent.
 */
module Returns {
  import opened Common
  import opened Props

  /** A body's `outputs` entry: one dict for a single output, a list otherwise
      (dash/dash.py:1367). */
  datatype OutputsField = SingleOut(spec: Dep) | MultiOut(specs: seq<Dep>)

  /** The four ways a return value can be read. `Invalid` stands for the
      exceptions a malformed value raises. */
  datatype Interpretation =
    | Prevent
    | Alternate(mods: seq<Change>)
    | Update(mods: seq<Change>)
    | Invalid

  /** The value is an `Output` directive or a non-empty list whose first element is one. */
  predicate IsAlternate(v: Value)
  {
    v.Output? || (v.Items? && |v.items| > 0 && v.items[0].Output?)
  }

  /** `list_to_mods` applied to a list of `Output` directives (dash/_utils.py is not
      part of this model): each directive writes `mods[id][property]`, later ones
      winning. A list holding anything but directives is treated as malformed. */
  function AltMods(items: seq<Value>): Option<seq<Change>>
    decreases |items|
  {
    if items == [] then Some([])
    else if !items[|items| - 1].Output? then None
    else match AltMods(items[..|items| - 1])
      case None => None
      case Some(m) =>
        var o := items[|items| - 1];
        Some(Put(m, Change(o.id, o.property, o.value)))
  }

  /** The zip over value slots and declared outputs (dash/dash.py:1184-1195): every
      slot that is not `no_update` writes its output's id and property. */
  function Slots(vals: seq<Value>, specs: seq<Dep>): seq<Change>
    requires |vals| == |specs|
    decreases |vals|
  {
    if vals == [] then []
    else
      var n := |vals| - 1;
      var prev := Slots(vals[..n], specs[..n]);
      if vals[n].NoUpdate? then prev else Put(prev, Change(specs[n].id, specs[n].property, vals[n]))
  }

  /** The value of the last slot that is not `no_update` and targets `(id, property)`. */
  function LastSlot(vals: seq<Value>, specs: seq<Dep>, id: string, property: string): Option<Value>
    requires |vals| == |specs|
    decreases |vals|
  {
    if vals == [] then None
    else
      var n := |vals| - 1;
      if !vals[n].NoUpdate? && specs[n] == Dep(id, property) then Some(vals[n])
      else LastSlot(vals[..n], specs[..n], id, property)
  }

  /** `add_context`'s reading of `value` for a callback whose body carries `outs`
      and that was registered with a list of outputs exactly when `multi`.
      `validate_multi_return` (dash/_validate.py, not part of this model) is taken
      to accept exactly a list with one value per declared output. */
  function Interpret(v: Value, outs: OutputsField, multi: bool): (r: Interpretation)
    ensures r.Update? ==> r.mods != []
  {
    if v.NoUpdate? then Prevent
    else if v.Output? then Alternate([Change(v.id, v.property, v.value)])
    else if v.Items? && |v.items| > 0 && v.items[0].Output? then
      match AltMods(v.items)
      case None => Invalid
      case Some(m) => Alternate(m)
    else if outs.SingleOut? && outs.spec.id == "_none" then Prevent
    else if !multi then
      if outs.SingleOut? then Update([Change(outs.spec.id, outs.spec.property, v)]) else Invalid
    else if outs.MultiOut? && v.Items? && |v.items| == |outs.specs| then
      var m := Slots(v.items, outs.specs);
      if m == [] then Prevent else Update(m)
    else Invalid
  }

  // ---------------------------------------------------------------------------
  // Properties of the slot matching

  /** The mods of a slot match map every key to its last non-`no_update` slot. */
  lemma {:induction false} SlotsLookup(vals: seq<Value>, specs: seq<Dep>, id: string, property: string)
    requires |vals| == |specs|
    ensures Lookup(Slots(vals, specs), id, property) == LastSlot(vals, specs, id, property)
    decreases |vals|
  {
    if vals != [] {
      var n := |vals| - 1;
      SlotsLookup(vals[..n], specs[..n], id, property);
      if !vals[n].NoUpdate? {
        PutLookup(Slots(vals[..n], specs[..n]), Change(specs[n].id, specs[n].property, vals[n]), id, property);
      }
    }
  }

  /** Every change of a slot match comes from a declared output whose slot held
      that value, never from a `no_update` slot. */
  lemma {:induction false} SlotsTargetDeclaredOutputs(vals: seq<Value>, specs: seq<Dep>)
    requires |vals| == |specs|
    ensures UniqueKeys(Slots(vals, specs))
    ensures forall c :: c in Slots(vals, specs) ==>
      exists k :: 0 <= k < |vals| && specs[k] == DepOf(c) && vals[k] == c.value && !vals[k].NoUpdate?
    decreases |vals|
  {
    if vals != [] {
      var n := |vals| - 1;
      SlotsTargetDeclaredOutputs(vals[..n], specs[..n]);
      if !vals[n].NoUpdate? {
        PutUnique(Slots(vals[..n], specs[..n]), Change(specs[n].id, specs[n].property, vals[n]));
      }
      forall c | c in Slots(vals, specs)
        ensures exists k :: 0 <= k < |vals| && specs[k] == DepOf(c) && vals[k] == c.value && !vals[k].NoUpdate?
      {
        if c in Slots(vals[..n], specs[..n]) {
          var k :| 0 <= k < n && specs[..n][k] == DepOf(c) && vals[..n][k] == c.value && !vals[..n][k].NoUpdate?;
          assert specs[k] == DepOf(c) && vals[k] == c.value;
        } else {
          assert specs[n] == DepOf(c) && vals[n] == c.value;
        }
      }
    }
  }

  /** A slot match is empty exactly when every slot is `no_update`. */
  lemma {:induction false} SlotsEmpty(vals: seq<Value>, specs: seq<Dep>)
    requires |vals| == |specs|
    ensures Slots(vals, specs) == [] <==> forall k :: 0 <= k < |vals| ==> vals[k].NoUpdate?
    decreases |vals|
  {
    if vals != [] {
      var n := |vals| - 1;
      SlotsEmpty(vals[..n], specs[..n]);
      assert forall k :: 0 <= k < n ==> vals[..n][k] == vals[k];
    }
  }

  // ---------------------------------------------------------------------------
  // Properties of the reading order

  /** An alternate result is recognised before the declared outputs are looked at,
      so it is read the same way whatever the callback declared, `_none` included. */
  lemma AlternateIgnoresDeclaredOutputs(v: Value, outs1: OutputsField, multi1: bool, outs2: OutputsField, multi2: bool)
    requires IsAlternate(v)
    ensures Interpret(v, outs1, multi1) == Interpret(v, outs2, multi2)
    ensures Interpret(v, outs1, multi1).Alternate? || Interpret(v, outs1, multi1).Invalid?
  {
  }

  /** A callback registered without an output never updates anything unless it
      returns an alternate result. */
  lemma NoneOutputOnlyAlternates(v: Value, n: string, multi: bool)
    ensures Interpret(v, SingleOut(Dep("_none", n)), multi).Update?  == false
    ensures !IsAlternate(v) ==> Interpret(v, SingleOut(Dep("_none", n)), multi) == Prevent
  {
  }

  /** A multi-output result updates exactly the slots that are not `no_update`:
      every change targets a declared output and holds its slot's value, every such
      slot is written (its key holding the last value given for it), and a result
      made only of `no_update` slots prevents the update. */
  lemma MultiOutputUpdate(items: seq<Value>, specs: seq<Dep>)
    requires |items| == |specs| && !(|items| > 0 && items[0].Output?)
    ensures var r := Interpret(Items(items), MultiOut(specs), true);
      && (r == Prevent <==> forall k :: 0 <= k < |items| ==> items[k].NoUpdate?)
      && (r.Update? ==>
            && UniqueKeys(r.mods)
            && (forall c :: c in r.mods ==>
                  exists k :: 0 <= k < |items| && specs[k] == DepOf(c) && items[k] == c.value && !items[k].NoUpdate?)
            && (forall k :: 0 <= k < |items| && !items[k].NoUpdate? ==>
                  Lookup(r.mods, specs[k].id, specs[k].property) == LastSlot(items, specs, specs[k].id, specs[k].property)
                  && LastSlot(items, specs, specs[k].id, specs[k].property).Some?))
  {
    SlotsEmpty(items, specs);
    SlotsTargetDeclaredOutputs(items, specs);
    forall k | 0 <= k < |items| && !items[k].NoUpdate?
      ensures Lookup(Slots(items, specs), specs[k].id, specs[k].property) == LastSlot(items, specs, specs[k].id, specs[k].property)
      ensures LastSlot(items, specs, specs[k].id, specs[k].property).Some?
    {
      SlotsLookup(items, specs, specs[k].id, specs[k].property);
      LastSlotFound(items, specs, k);
    }
  }

  lemma {:induction false} LastSlotFound(vals: seq<Value>, specs: seq<Dep>, k: nat)
    requires |vals| == |specs| && k < |vals| && !vals[k].NoUpdate?
    ensures LastSlot(vals, specs, specs[k].id, specs[k].property).Some?
    decreases |vals|
  {
    var n := |vals| - 1;
    if k < n && !(!vals[n].NoUpdate? && specs[n] == Dep(specs[k].id, specs[k].property)) {
      LastSlotFound(vals[..n], specs[..n], k);
    }
  }

  /** A single-output callback returning an ordinary value updates exactly its output. */
  lemma SingleOutputUpdate(v: Value, spec: Dep)
    requires !v.NoUpdate? && !IsAlternate(v) && spec.id != "_none"
    ensures Interpret(v, SingleOut(spec), false) == Update([Change(spec.id, spec.property, v)])
  {
  }
}
