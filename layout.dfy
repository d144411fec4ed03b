/**
 * The live layout table `layout_components` (dash/dash.py:435-451): component
 * ids inserted first-wins, and property writes that ignore unknown ids.
 */
module Layout {
  import opened Common
  import opened Props

  type Table = map<string, map<string, Value>>

  /** The loop of dash/dash.py:439-443: each component is added unless its id is already present. */
  function InsertFirstWins(table: Table, comps: seq<Comp>): Table
    decreases |comps|
  {
    if comps == [] then table
    else
      var n := |comps| - 1;
      var t := InsertFirstWins(table, comps[..n]);
      if comps[n].id in t then t else t[comps[n].id := comps[n].props]
  }

  /** The first component of `comps` with id `id`, if any. */
  function FirstWithId(comps: seq<Comp>, id: string): (r: Option<Comp>)
    ensures r.Some? ==> r.value in comps && r.value.id == id
    decreases |comps|
  {
    if comps == [] then None
    else if comps[0].id == id then Some(comps[0])
    else FirstWithId(comps[1..], id)
  }

  lemma {:induction false} FirstWithIdAppend(comps: seq<Comp>, c: Comp, id: string)
    ensures FirstWithId(comps + [c], id) ==
      if FirstWithId(comps, id).Some? then FirstWithId(comps, id) else if c.id == id then Some(c) else None
    decreases |comps|
  {
    if comps != [] {
      assert (comps + [c])[1..] == comps[1..] + [c];
      FirstWithIdAppend(comps[1..], c, id);
    }
  }

  /** First registration wins: an id already in the table keeps its entry; a new
      id takes the properties of the first component carrying it; nothing else is
      added. */
  lemma {:induction false} InsertFirstWinsAt(table: Table, comps: seq<Comp>, id: string)
    ensures id in InsertFirstWins(table, comps) <==> id in table || FirstWithId(comps, id).Some?
    ensures id in table ==> InsertFirstWins(table, comps)[id] == table[id]
    ensures id !in table && FirstWithId(comps, id).Some? ==>
      InsertFirstWins(table, comps)[id] == FirstWithId(comps, id).value.props
    decreases |comps|
  {
    if comps != [] {
      var n := |comps| - 1;
      InsertFirstWinsAt(table, comps[..n], id);
      assert comps == comps[..n] + [comps[n]];
      FirstWithIdAppend(comps[..n], comps[n], id);
      if comps[n].id == id && id !in InsertFirstWins(table, comps[..n]) {
        assert FirstWithId(comps[..n], id).None?;
      }
    }
  }

  /** `if id_ and prop: setattr(layout_components[id_], prop, val)`, a missing id
      being ignored (dash/dash.py:446-451). Empty strings are falsy. */
  function SetProp(table: Table, id: string, prop: string, val: Value): (r: Table)
    ensures r.Keys == table.Keys
    ensures forall k :: k in table && k != id ==> r[k] == table[k]
    ensures id in table && id != "" && prop != "" ==> r[id] == table[id][prop := val]
    ensures id !in table || id == "" || prop == "" ==> r == table
  {
    if id != "" && prop != "" && id in table then table[id := table[id][prop := val]] else table
  }

  /** `SetProp` over a mods list, in order. */
  function SetProps(table: Table, mods: seq<Change>): Table
    decreases |mods|
  {
    if mods == [] then table
    else
      var n := |mods| - 1;
      var c := mods[n];
      SetProp(SetProps(table, mods[..n]), c.id, c.property, c.value)
  }

  /** Applying mods never adds or removes a component, and an id the mods do not
      name keeps all its properties. */
  lemma {:induction false} SetPropsFrame(table: Table, mods: seq<Change>)
    ensures SetProps(table, mods).Keys == table.Keys
    ensures forall k :: k in table && (forall c :: c in mods ==> c.id != k) ==> SetProps(table, mods)[k] == table[k]
    decreases |mods|
  {
    if mods != [] {
      var n := |mods| - 1;
      SetPropsFrame(table, mods[..n]);
      assert forall c :: c in mods[..n] ==> c in mods;
    }
  }

  /** Which value a property of a component holds once the mods are applied: the
      last value the mods give it, when the component exists. */
  lemma {:induction false} SetPropsLookup(table: Table, mods: seq<Change>, id: string, prop: string)
    requires id in table && id != "" && prop != ""
    ensures var r := SetProps(table, mods);
      id in r && (prop in r[id] <==> prop in table[id] || LastFor(mods, id, prop).Some?)
      && (LastFor(mods, id, prop).Some? ==> r[id][prop] == LastFor(mods, id, prop).value)
      && (LastFor(mods, id, prop).None? && prop in table[id] ==> r[id][prop] == table[id][prop])
    decreases |mods|
  {
    SetPropsFrame(table, mods);
    if mods != [] {
      var n := |mods| - 1;
      SetPropsLookup(table, mods[..n], id, prop);
    }
  }

  /** The value the last change for `(id, prop)` in `mods` carries. */
  function LastFor(mods: seq<Change>, id: string, prop: string): Option<Value>
    decreases |mods|
  {
    if mods == [] then None
    else
      var n := |mods| - 1;
      if mods[n].id == id && mods[n].property == prop then Some(mods[n].value) else LastFor(mods[..n], id, prop)
  }

  /** No change of `mods` writes a `children` property, so applying them never
      inserts components. */
  predicate NoChildren(mods: seq<Change>)
  {
    forall c :: c in mods ==> c.property != "children"
  }
}
