/**
 * The `Dash` object's shared-callback engine: the registry (`callback_map`,
 * `_callback_list`), the live layout table, the transport log, and the
 * operations that register callbacks, query the registry, build invocation
 * bodies, dispatch them, chain shared callbacks, apply layout changes and run
 * the server-side initial callbacks.
 */
module Engine {
  import opened Common
  import opened Props
  import opened Services
  import opened Returns
  import opened Callbacks
  import opened Transport
  import opened Queries
  import opened Layout

  /** The `output` argument of `callback`: one `Output`, or a list of them. */
  datatype OutputArg = SingleOutput(dep: Dep) | OutputList(deps: seq<Dep>)

  /** An entry of `_callback_list` (dash/dash.py:978-984), as sent to clients. */
  datatype ListSpec = ListSpec(output: string, inputs: seq<Dep>, state: seq<Dep>, service: nat)

  /** How a coroutine of the engine ends: normally, or by raising. */
  datatype Outcome = Done | Raised(error: Error)

  /** The declared outputs of an `output` argument. */
  function Deps(out: OutputArg): seq<Dep>
  {
    if out.SingleOutput? then [out.dep] else out.deps
  }

  /** `"...".join(keys)` */
  function JoinKeys(deps: seq<Dep>): string
    decreases |deps|
  {
    if deps == [] then ""
    else if |deps| == 1 then Key(deps[0].id, deps[0].property)
    else Key(deps[0].id, deps[0].property) + "..." + JoinKeys(deps[1..])
  }

  /** `create_callback_id` (dash/_utils.py, not part of this model), taken as
      `"id.property"` for one output and `"..a.b...c.d.."` for a list. */
  function CallbackId(out: OutputArg): string
  {
    match out
    case SingleOutput(d) => Key(d.id, d.property)
    case OutputList(ds) => ".." + JoinKeys(ds) + ".."
  }

  /** The output a callback registered without one gets for counter value `n`: its
      id is `_none.<n>`, which no smaller counter value gives. */
  lemma NoneOutputFresh(n: nat)
    ensures CallbackId(SingleOutput(Dep("_none", NatToString(n)))) == NoneOutputId(n)
    ensures forall m: nat :: m < n ==> NoneOutputId(m) != NoneOutputId(n)
  {
    forall m: nat | m < n ensures NoneOutputId(m) != NoneOutputId(n) {
      NoneOutputIdsDistinct(m, n);
    }
  }

  class Dash {
    /** `config.callback_service`, the service of callbacks registered without one. */
    const callbackService: nat
    /** `flatten_layout` (dash/_utils.py, not part of this model): the components of a subtree. */
    const flattenLayout: Value -> seq<Comp>

    /** `callback_map` without the `"args"` and `"callback"` keys of its entries. */
    var callbackMap: map<string, Entry>
    /** The insertion order of `callback_map`. */
    var order: seq<string>
    /** The `"callback"` key of the entries: the user function behind `add_context`. */
    var handlers: map<string, seq<Value> -> Value>
    /** The `"args"` key of the entries: the last body a shared callback was invoked with. */
    var args: map<string, Args>
    var callbackList: seq<ListSpec>
    /** `layout_components`: each component id with its properties. */
    var layout: Table
    var noneOutputCount: nat
    var sharedCallbacksCalled: bool
    /** Everything sent through `pusher.respond` and `pusher.send`, oldest first. */
    var log: seq<Event>

    ghost predicate Valid()
      reads this
    {
      && (forall i, j :: 0 <= i < j < |order| ==> order[i] != order[j])
      && (forall x :: x in order <==> x in callbackMap)
      && args.Keys <= callbackMap.Keys
      && handlers.Keys <= callbackMap.Keys
    }

    /** What every engine coroutine leaves alone or only lets grow: the registry is
        fixed, args and layout entries are never removed, the log is only appended
        to, and the initial-callbacks flag is never cleared once set. */
    twostate predicate Evolved()
      reads this
    {
      && callbackMap == old(callbackMap) && order == old(order) && handlers == old(handlers)
      && callbackList == old(callbackList) && noneOutputCount == old(noneOutputCount)
      && old(args).Keys <= args.Keys
      && old(layout).Keys <= layout.Keys
      && old(log) <= log
      && (old(sharedCallbacksCalled) ==> sharedCallbacksCalled)
    }

    /** A raised `ChainNotShared` names at least one callback, none of them shared,
        and a raised `Diverges` names a pending set that is not acyclic. */
    ghost predicate ErrorOk(r: Outcome)
      reads this
    {
      && (r.Raised? && r.error.ChainNotShared? ==>
            r.error.ids != [] && forall x :: x in r.error.ids ==> x in callbackMap && !IsShared(callbackMap[x].service))
      && (r.Raised? && r.error.Diverges? ==> r.error.stuck != {} && !Acyclic(r.error.stuck, callbackMap))
    }

    constructor (callbackService: nat, flattenLayout: Value -> seq<Comp>)
      ensures Valid()
      ensures this.callbackService == callbackService && this.flattenLayout == flattenLayout
      ensures callbackMap == map[] && order == [] && handlers == map[] && args == map[]
      ensures callbackList == [] && layout == map[] && noneOutputCount == 0
      ensures !sharedCallbacksCalled && log == []
    {
      this.callbackService := callbackService;
      this.flattenLayout := flattenLayout;
      callbackMap := map[];
      order := [];
      handlers := map[];
      args := map[];
      callbackList := [];
      layout := map[];
      noneOutputCount := 0;
      sharedCallbacksCalled := false;
      log := [];
    }

    /** `_insert_callback` (dash/dash.py:975-993). Assigning an existing key keeps its
        place in the dict but replaces the whole entry, dropping its args and handler. */
    method InsertCallback(output: OutputArg, inputs: seq<Dep>, state: seq<Dep>, service: nat) returns (id: string)
      requires Valid()
      modifies this
      ensures Valid()
      ensures id == CallbackId(output)
      ensures callbackMap == old(callbackMap)[id := Entry(inputs, state, Deps(output), service, output.OutputList?)]
      ensures order == if id in old(callbackMap) then old(order) else old(order) + [id]
      ensures args == old(args) - {id} && handlers == old(handlers) - {id}
      ensures callbackList == old(callbackList) + [ListSpec(id, inputs, state, service)]
      ensures layout == old(layout) && log == old(log) && noneOutputCount == old(noneOutputCount)
      ensures sharedCallbacksCalled == old(sharedCallbacksCalled)
    {
      id := CallbackId(output);
      if id !in callbackMap {
        order := order + [id];
      }
      callbackMap := callbackMap[id := Entry(inputs, state, Deps(output), service, output.OutputList?)];
      args := args - {id};
      handlers := handlers - {id};
      callbackList := callbackList + [ListSpec(id, inputs, state, service)];
    }

    /** `callback(output, inputs, state, service)` followed by applying the decorator
        to `handler` (dash/dash.py:1098-1219): a missing service means the configured
        one, a missing output a fresh `_none.<n>` output. */
    method Callback(output: Option<OutputArg>, inputs: seq<Dep>, state: seq<Dep>, service: Option<nat>, handler: seq<Value> -> Value)
      returns (id: string)
      requires Valid()
      modifies this
      ensures Valid()
      ensures id in callbackMap && id in handlers && handlers[id] == handler && id !in args
      ensures callbackMap[id].service == (if service.Some? then service.value else callbackService)
      ensures callbackMap[id].inputs == inputs && callbackMap[id].state == state
      ensures output.None? ==>
        && id == NoneOutputId(old(noneOutputCount))
        && callbackMap[id].outputs == [Dep("_none", NatToString(old(noneOutputCount)))]
        && !callbackMap[id].multi
        && noneOutputCount == old(noneOutputCount) + 1
      ensures output.Some? ==>
        id == CallbackId(output.value) && callbackMap[id].outputs == Deps(output.value)
        && callbackMap[id].multi == output.value.OutputList? && noneOutputCount == old(noneOutputCount)
      ensures output.None? ==> forall m: nat :: m < old(noneOutputCount) ==> id != NoneOutputId(m)
      ensures callbackMap == old(callbackMap)[id := callbackMap[id]]
      ensures order == if id in old(callbackMap) then old(order) else old(order) + [id]
      ensures handlers == old(handlers)[id := handler] && args == old(args) - {id}
      ensures callbackList == old(callbackList) + [ListSpec(id, inputs, state, callbackMap[id].service)]
      ensures layout == old(layout) && log == old(log) && sharedCallbacksCalled == old(sharedCallbacksCalled)
    {
      var s := if service.Some? then service.value else callbackService;
      var out: OutputArg;
      if output.None? {
        out := SingleOutput(Dep("_none", NatToString(noneOutputCount)));
        NoneOutputFresh(noneOutputCount);
        noneOutputCount := noneOutputCount + 1;
      } else {
        out := output.value;
      }
      id := InsertCallback(out, inputs, state, s);
      ghost var h := old(handlers);
      assert (h - {id})[id := handler].Keys == h[id := handler].Keys;
      handlers := handlers[id := handler];
    }

    // -------------------------------------------------------------------------
    // Structural queries

    /** `_valid_callback_ids` (dash/dash.py:1303-1315). */
    method ValidCallbackIds(test: ServiceTest) returns (ids: seq<string>)
      requires Valid()
      ensures ids == ValidIdsIn(order, callbackMap, layout, test)
      ensures forall x :: x in ids <==>
        x in callbackMap && Passes(test, callbackMap[x].service) && Live(callbackMap[x], layout)
      ensures IsSubsequence(ids, order)
    {
      ids := [];
      var i := 0;
      while i < |order|
        invariant 0 <= i <= |order|
        invariant ids == ValidIdsIn(order[..i], callbackMap, layout, test)
      {
        var e := callbackMap[order[i]];
        var ok := Passes(test, e.service);
        var deps := e.inputs + e.outputs;
        var k := 0;
        while ok && k < |deps|
          invariant 0 <= k <= |deps|
          invariant ok ==> forall j :: 0 <= j < k ==> deps[j].id in layout
          invariant !ok ==> !Live(e, layout) || !Passes(test, e.service)
        {
          if deps[k].id !in layout {
            ok := false;
          }
          k := k + 1;
        }
        assert order[..i + 1][..i] == order[..i];
        if ok {
          ids := ids + [order[i]];
        }
        i := i + 1;
      }
      assert order[..i] == order;
      ValidIdsMembers(order, callbackMap, layout, test);
    }

    /** The candidates `_callback_compare` iterates over. */
    ghost function Candidates(candidates: Option<seq<string>>): seq<string>
      reads this
      requires Valid()
    {
      if candidates.Some? then candidates.value else ValidIdsIn(order, callbackMap, layout, AnyService)
    }

    /** `_callback_compare` (dash/dash.py:1319-1331): among the candidates (by default
        every live callback), those whose inputs pass `test`, split by `st`. */
    method CallbackCompare(st: ServiceTest, test: InputTest, candidates: Option<seq<string>>)
      returns (callbacks: seq<string>, xCallbacks: seq<string>)
      requires Valid()
      requires candidates.Some? ==> InRegistry(candidates.value, callbackMap)
      ensures InRegistry(Candidates(candidates), callbackMap)
      ensures callbacks == Select(Candidates(candidates), callbackMap, test, st, true)
      ensures xCallbacks == Select(Candidates(candidates), callbackMap, test, st, false)
      ensures forall x :: x in callbacks <==>
        x in Candidates(candidates) && Holds(test, callbackMap[x].inputs) && Passes(st, callbackMap[x].service)
      ensures forall x :: x in xCallbacks <==>
        x in Candidates(candidates) && Holds(test, callbackMap[x].inputs) && !Passes(st, callbackMap[x].service)
    {
      var cands: seq<string>;
      if candidates.None? {
        cands := ValidCallbackIds(AnyService);
      } else {
        cands := candidates.value;
      }
      callbacks, xCallbacks := SelectLoop(cands, callbackMap, test, st);
      SelectMembers(cands, callbackMap, test, st, true);
      SelectMembers(cands, callbackMap, test, st, false);
    }

    /** The loop of dash/dash.py:1325-1330. */
    static method SelectLoop(cands: seq<string>, cmap: map<string, Entry>, test: InputTest, st: ServiceTest)
      returns (callbacks: seq<string>, xCallbacks: seq<string>)
      requires InRegistry(cands, cmap)
      ensures callbacks == Select(cands, cmap, test, st, true)
      ensures xCallbacks == Select(cands, cmap, test, st, false)
    {
      callbacks, xCallbacks := [], [];
      var i := 0;
      while i < |cands|
        invariant 0 <= i <= |cands|
        invariant callbacks == Select(cands[..i], cmap, test, st, true)
        invariant xCallbacks == Select(cands[..i], cmap, test, st, false)
      {
        var e := cmap[cands[i]];
        assert cands[..i + 1][..i] == cands[..i];
        if Holds(test, e.inputs) {
          if Passes(st, e.service) {
            callbacks := callbacks + [cands[i]];
          } else {
            xCallbacks := xCallbacks + [cands[i]];
          }
        }
        i := i + 1;
      }
      assert cands[..i] == cands;
    }

    /** `_callback_intersect` (dash/dash.py:1333-1335): the candidates with an input among `props`. */
    method CallbackIntersect(props: seq<Dep>, st: ServiceTest, candidates: Option<seq<string>>)
      returns (callbacks: seq<string>, xCallbacks: seq<string>)
      requires Valid()
      requires candidates.Some? ==> InRegistry(candidates.value, callbackMap)
      ensures InRegistry(Candidates(candidates), callbackMap)
      ensures callbacks == Select(Candidates(candidates), callbackMap, Meets(props), st, true)
      ensures xCallbacks == Select(Candidates(candidates), callbackMap, Meets(props), st, false)
      ensures forall x :: x in callbacks + xCallbacks <==>
        x in Candidates(candidates) && IntersectIds(callbackMap[x].inputs, props)
      ensures forall x :: x in callbacks ==> x in callbackMap && Passes(st, callbackMap[x].service)
      ensures forall x :: x in xCallbacks ==> x in callbackMap && !Passes(st, callbackMap[x].service)
    {
      callbacks, xCallbacks := CallbackCompare(st, Meets(props), candidates);
    }

    /** `_callback_diff` (dash/dash.py:1337-1339): the candidates with no input among `props`. */
    method CallbackDiff(props: seq<Dep>, st: ServiceTest, candidates: Option<seq<string>>)
      returns (callbacks: seq<string>, xCallbacks: seq<string>)
      requires Valid()
      requires candidates.Some? ==> InRegistry(candidates.value, callbackMap)
      ensures InRegistry(Candidates(candidates), callbackMap)
      ensures callbacks == Select(Candidates(candidates), callbackMap, Misses(props), st, true)
      ensures xCallbacks == Select(Candidates(candidates), callbackMap, Misses(props), st, false)
      ensures forall x :: x in callbacks + xCallbacks <==>
        x in Candidates(candidates) && !IntersectIds(callbackMap[x].inputs, props)
      ensures forall x :: x in callbacks ==> x in callbackMap && Passes(st, callbackMap[x].service)
      ensures forall x :: x in xCallbacks ==> x in callbackMap && !Passes(st, callbackMap[x].service)
    {
      callbacks, xCallbacks := CallbackCompare(st, Misses(props), candidates);
    }

    // -------------------------------------------------------------------------
    // Invocation bodies

    /** `_callback_body(output, changes)` (dash/dash.py:1342-1371). */
    method CallbackBody(output: string, changes: seq<Arg>) returns (r: Result<Body, Error>)
      ensures output !in callbackMap ==> r == Err(UnknownCallback)
      ensures output in callbackMap ==>
        r == BuildBody(output, callbackMap[output], if output in args then Some(args[output]) else None, layout, changes)
      ensures r.Ok? ==> r.value.output == output
    {
      if output !in callbackMap {
        return Err(UnknownCallback);
      }
      var e := callbackMap[output];
      var base: Args;
      if output in args {
        base := args[output];
      } else {
        var ins := FromLayoutLoop(e.inputs);
        if ins.None? {
          return Err(MissingComponent);
        }
        var st := FromLayoutLoop(e.state);
        if st.None? {
          return Err(MissingComponent);
        }
        base := Args(ins.value, st.value);
      }
      var inputs, changed := OverlayLoop(base.inputs, changes);
      r := Ok(Body(output, OutputsOf(e.outputs), inputs, base.state, changed));
    }

    /** The outer loop of dash/dash.py:1360-1365: each change applied in order. */
    static method OverlayLoop(base: seq<Arg>, changes: seq<Arg>) returns (inputs: seq<Arg>, changed: seq<string>)
      ensures inputs == Overlay(base, changes)
      ensures changed == ChangedKeys(base, changes)
    {
      inputs := base;
      changed := [];
      var i := 0;
      while i < |changes|
        invariant 0 <= i <= |changes|
        invariant inputs == Overlay(base, changes[..i])
        invariant changed == ChangedKeys(base, changes[..i])
      {
        var hits;
        assert changes[..i + 1][..i] == changes[..i];
        inputs, hits := ApplyLoop(inputs, changes[i]);
        changed := changed + hits;
        i := i + 1;
      }
      assert changes[..i] == changes;
    }

    /** The inner loop of dash/dash.py:1361-1365: one change against every body input. */
    static method ApplyLoop(cur: seq<Arg>, c: Arg) returns (inputs: seq<Arg>, hits: seq<string>)
      ensures inputs == ApplyChange(cur, c)
      ensures hits == HitKeys(cur, c)
    {
      inputs := cur;
      hits := [];
      var j := 0;
      while j < |inputs|
        invariant 0 <= j <= |inputs| == |cur|
        invariant forall k :: 0 <= k < j ==> inputs[k] == ApplyChange(cur, c)[k]
        invariant forall k :: j <= k < |inputs| ==> inputs[k] == cur[k]
        invariant hits == HitKeys(cur[..j], c)
      {
        assert cur[..j + 1][..j] == cur[..j];
        if c.id == inputs[j].id && c.property == inputs[j].property && c.value.Some? {
          inputs := inputs[j := inputs[j].(value := c.value)];
          hits := hits + [Key(c.id, c.property)];
        }
        j := j + 1;
      }
      assert cur[..j] == cur;
    }

    /** The loops of dash/dash.py:1350-1356: each entry's value read from its component. */
    method FromLayoutLoop(deps: seq<Dep>) returns (r: Option<seq<Arg>>)
      ensures r == FromLayout(deps, layout)
    {
      var acc: seq<Arg> := [];
      var i := 0;
      while i < |deps|
        invariant 0 <= i <= |deps|
        invariant FromLayout(deps[..i], layout) == Some(acc)
      {
        assert deps[..i + 1][..i] == deps[..i];
        if deps[i].id !in layout {
          return None;
        }
        acc := acc + [Arg(deps[i].id, deps[i].property, Some(PropOf(layout[deps[i].id], deps[i].property)))];
        i := i + 1;
      }
      assert deps[..i] == deps;
      r := Some(acc);
    }

    // -------------------------------------------------------------------------
    // Dispatch and everything it sets off. The coroutines call each other
    // recursively; `fuel` bounds the depth of nested dispatches.

    /** Nothing the coroutines touch has changed. */
    twostate predicate Unchanged()
      reads this
    {
      log == old(log) && args == old(args) && layout == old(layout) && sharedCallbacksCalled == old(sharedCallbacksCalled)
    }

    /** How `add_context` reads what the user function returns for `body`. */
    ghost function Interp(body: Body): Interpretation
      reads this
      requires body.output in callbackMap && body.output in handlers
    {
      Interpret(handlers[body.output](ArgValues(body.inputs) + ArgValues(body.state)), body.outputs, callbackMap[body.output].multi)
    }

    /** A dispatch of `output` has run its user function, and a shared one has recorded its args. */
    ghost predicate Recorded(output: string)
      reads this
    {
      output in callbackMap && output in handlers && (IsShared(callbackMap[output].service) ==> output in args)
    }

    /** `dispatch(body, client, request_id)` on the socket path (dash/dash.py:1236-1285). */
    method Dispatch(body: Body, client: Option<nat>, rid: Option<nat>, fuel: nat) returns (r: Outcome)
      requires Valid()
      modifies this
      ensures Valid() && Evolved() && ErrorOk(r)
      ensures body.output !in callbackMap ==> r == Raised(UnknownCallback) && Unchanged()
      ensures r.Done? ==> Recorded(body.output)
      ensures rid.None? ==> NoRepliesFrom(log, |old(log)|)
      ensures rid.Some? ==> NoRepliesFrom(log, |old(log)|) || exists at, p :: OnlyReplyAt(log, |old(log)|, at, Respond(p, rid.value))
      ensures r.Done? && rid.Some? ==>
        && ReplyFor(IsShared(callbackMap[body.output].service), Interp(body)).Some?
        && exists at :: OnlyReplyAt(log, |old(log)|, at,
             Respond(ReplyFor(IsShared(callbackMap[body.output].service), Interp(body)).value, rid.value))
      ensures (body.output in callbackMap && body.output in handlers && IsShared(callbackMap[body.output].service)
               && client.None?) ==> body.output in args
      ensures body.output in callbackMap && !IsShared(callbackMap[body.output].service) ==> Invoked(body, client, rid, r)
      ensures body.output in callbackMap && client.None? ==> Invoked(body, client, rid, r)
      ensures body.output in callbackMap && body.output in handlers && IsShared(callbackMap[body.output].service)
              && ShareWithOthers(callbackMap[body.output].service) && r.Done? && (Interp(body).Update? || Interp(body).Alternate?) ==>
        exists k :: |old(log)| <= k < |log| && log[k] == Broadcast(Interp(body).mods, None)
      ensures body.output in callbackMap && IsShared(callbackMap[body.output].service) && client.Some?
              && ShareWithOthers(callbackMap[body.output].service) && r.Done? && body.changedPropIds != [] ==>
        InputMods(body.changedPropIds, body.inputs).Some? &&
        exists k :: |old(log)| <= k < |log| && log[k] == Broadcast(InputMods(body.changedPropIds, body.inputs).value, client)
      ensures body.output in callbackMap && IsShared(callbackMap[body.output].service) && client.Some?
              && !ShareWithOthers(callbackMap[body.output].service) ==>
        (InputMods(body.changedPropIds, body.inputs).None? ==> r == Raised(MalformedChangedKey) && Unchanged())
        && (InputMods(body.changedPropIds, body.inputs).Some? ==> Invoked(body, client, rid, r))
      // The chain of a shared update or alternate, whenever neither the shared input
      // changes nor the outputs write a `children` property.
      ensures body.output in callbackMap && body.output in handlers && IsShared(callbackMap[body.output].service)
              && (Interp(body).Update? || Interp(body).Alternate?)
              && (!ShareWithOthers(callbackMap[body.output].service)
                  || ((client.None? || NoChildrenKeys(body.changedPropIds)) && NoChildren(Interp(body).mods))) ==>
        var m := Interp(body).mods;
        && (old(ChainTargets(order, callbackMap, layout, m, false)) != [] ==> r.Raised?)
        && (r.Done? ==> forall x :: x in old(ChainTargets(order, callbackMap, layout, m, true)) ==> x in args)
      decreases fuel, 13
    {
      if body.output !in callbackMap {
        return Raised(UnknownCallback);
      }
      var service := callbackMap[body.output].service;
      if client.Some? && IsShared(service) && ShareWithOthers(service) {
        ghost var seen;
        r, seen := DispatchFromClient(body, client.value, rid, fuel);
        if body.output in handlers && NoChildrenKeys(body.changedPropIds)
           && (Interp(body).Update? || Interp(body).Alternate?) {
          ChainTargetsSameKeys(order, callbackMap, seen, old(layout), Interp(body).mods, true);
          ChainTargetsSameKeys(order, callbackMap, seen, old(layout), Interp(body).mods, false);
        }
        return;
      }
      // Without SHARE_WITH_OTHER_CLIENTS the loop over the changed keys only unpacks them.
      if client.Some? && IsShared(service) && InputMods(body.changedPropIds, body.inputs).None? {
        InputModsMeaning(body.changedPropIds, body.inputs);
        return Raised(MalformedChangedKey);
      }
      r := Invoke(body, client, rid, fuel);
    }

    /** `dispatch` of a SHARE_WITH_OTHER_CLIENTS callback on behalf of a client
        (dash/dash.py:1246-1285): the input changes are shared with the other clients
        first, then the user function is called and its result routed. */
    method DispatchFromClient(body: Body, client: nat, rid: Option<nat>, fuel: nat) returns (r: Outcome, ghost seen: Table)
      requires Valid() && body.output in callbackMap
      requires IsShared(callbackMap[body.output].service) && ShareWithOthers(callbackMap[body.output].service)
      modifies this
      ensures Valid() && Evolved() && ErrorOk(r)
      ensures r.Done? ==> Recorded(body.output)
      ensures rid.None? ==> NoRepliesFrom(log, |old(log)|)
      ensures rid.Some? ==> NoRepliesFrom(log, |old(log)|) || exists at, p :: OnlyReplyAt(log, |old(log)|, at, Respond(p, rid.value))
      ensures r.Done? && rid.Some? ==>
        && ReplyFor(true, Interp(body)).Some?
        && exists at :: OnlyReplyAt(log, |old(log)|, at, Respond(ReplyFor(true, Interp(body)).value, rid.value))
      ensures InputMods(body.changedPropIds, body.inputs).None? ==> r.Raised?
      ensures body.output in handlers && r.Done? && (Interp(body).Update? || Interp(body).Alternate?) ==>
        exists k :: |old(log)| <= k < |log| && log[k] == Broadcast(Interp(body).mods, None)
      ensures r.Done? && body.changedPropIds != [] ==>
        InputMods(body.changedPropIds, body.inputs).Some? &&
        exists k :: |old(log)| <= k < |log| && log[k] == Broadcast(InputMods(body.changedPropIds, body.inputs).value, Some(client))
      // `seen` is the layout once the input changes are shared: the one the chain runs on.
      ensures NoChildrenKeys(body.changedPropIds) ==> seen.Keys == old(layout).Keys
      ensures body.output in handlers && (Interp(body).Update? || Interp(body).Alternate?) && NoChildren(Interp(body).mods) ==>
        var m := Interp(body).mods;
        && (ChainTargets(order, callbackMap, seen, m, false) != [] ==> r.Raised?)
        && (r.Done? ==> forall x :: x in ChainTargets(order, callbackMap, seen, m, true) ==> x in args)
      decreases fuel, 12
    {
      var service := callbackMap[body.output].service;
      r := ShareInputChanges(body, client, service, fuel);
      seen := layout;
      if r.Raised? {
        return;
      }
      ghost var log1 := log;
      r := Invoke(body, Some(client), rid, fuel);
      if rid.None? || NoRepliesFrom(log, |log1|) {
        QuietThenQuiet(log1, log, |old(log)|);
      } else {
        var at, p :| OnlyReplyAt(log, |log1|, at, Respond(p, rid.value));
        QuietThenReply(log1, log, |old(log)|, at, Respond(p, rid.value));
        if r.Done? {
          var at2 :| OnlyReplyAt(log, |log1|, at2, Respond(ReplyFor(true, Interp(body)).value, rid.value));
          QuietThenReply(log1, log, |old(log)|, at2, Respond(ReplyFor(true, Interp(body)).value, rid.value));
        }
      }
    }

    /** What a dispatch of `body` does from the call of its user function on
        (dash/dash.py:1256-1285), seen from the state it started in: the
        outcomes that `Invoke` guarantees. */
    twostate predicate Invoked(body: Body, client: Option<nat>, rid: Option<nat>, r: Outcome)
      reads this
      requires old(Valid()) && body.output in callbackMap
    {
      && (body.output !in handlers ==> r == Raised(MissingHandler) && Unchanged())
      && (body.output in handlers && !IsShared(callbackMap[body.output].service) ==>
            var i := Interp(body);
            && (i.Invalid? ==> r == Raised(InvalidReturn) && Unchanged())
            && (rid.None? ==> r == (if i.Invalid? then Raised(InvalidReturn) else Done) && Unchanged())
            && (rid.Some? && (i.Prevent? || i.Update?) ==>
                  r == Done && log == old(log) + [Respond(ReplyFor(false, i).value, rid.value)]
                  && args == old(args) && layout == old(layout) && sharedCallbacksCalled == old(sharedCallbacksCalled))
            && (rid.Some? && client.Some? && i.Alternate? ==>
                  r == Done && log == old(log) + [Respond(EmptyReply, rid.value), Notify(i.mods, client)]
                  && args == old(args) && layout == old(layout) && sharedCallbacksCalled == old(sharedCallbacksCalled)))
      && (body.output in handlers && IsShared(callbackMap[body.output].service) && Interp(body).Prevent? ==>
            && r == Done && args == old(args)[body.output := Args(body.inputs, body.state)]
            && layout == old(layout) && sharedCallbacksCalled == old(sharedCallbacksCalled)
            && log == old(log) + (if rid.Some? then [Respond(EmptyReply, rid.value)] else []))
      && (body.output in handlers && IsShared(callbackMap[body.output].service)
          && ShareWithOthers(callbackMap[body.output].service) && r.Done? && (Interp(body).Update? || Interp(body).Alternate?) ==>
            exists k :: |old(log)| <= k < |log| && log[k] == Broadcast(Interp(body).mods, None))
      && (body.output in handlers && IsShared(callbackMap[body.output].service)
          && (Interp(body).Update? || Interp(body).Alternate?)
          && (!ShareWithOthers(callbackMap[body.output].service) || NoChildren(Interp(body).mods)) ==>
            var m := Interp(body).mods;
            && (old(ChainTargets(order, callbackMap, layout, m, false)) != [] ==> r.Raised?)
            && (r.Done? ==> forall x :: x in old(ChainTargets(order, callbackMap, layout, m, true)) ==> x in args))
    }

    /** `call_callback(body)` and the rest of `dispatch` (dash/dash.py:1256-1285): a
        shared callback records its args, the user function runs, and its result is
        routed. */
    method Invoke(body: Body, client: Option<nat>, rid: Option<nat>, fuel: nat) returns (r: Outcome)
      requires Valid() && body.output in callbackMap
      modifies this
      ensures Valid() && Evolved() && ErrorOk(r) && Invoked(body, client, rid, r)
      ensures r.Done? ==> Recorded(body.output)
      ensures rid.None? ==> NoRepliesFrom(log, |old(log)|)
      ensures rid.Some? ==> NoRepliesFrom(log, |old(log)|) || exists at, p :: OnlyReplyAt(log, |old(log)|, at, Respond(p, rid.value))
      ensures r.Done? && rid.Some? ==>
        && ReplyFor(IsShared(callbackMap[body.output].service), Interp(body)).Some?
        && exists at :: OnlyReplyAt(log, |old(log)|, at,
             Respond(ReplyFor(IsShared(callbackMap[body.output].service), Interp(body)).value, rid.value))
      ensures body.output in handlers && IsShared(callbackMap[body.output].service) ==> body.output in args
      decreases fuel, 11
    {
      var e := callbackMap[body.output];
      if body.output !in handlers {
        return Raised(MissingHandler);
      }
      if IsShared(e.service) {
        args := args[body.output := Args(body.inputs, body.state)];
      }
      var value := handlers[body.output](ArgValues(body.inputs) + ArgValues(body.state));
      var interp := Interpret(value, body.outputs, e.multi);
      assert interp == Interp(body);
      r := Route(e.service, interp, client, rid, fuel);
    }

    /** What `dispatch` does once the user function has returned (dash/dash.py:1256-1284):
        answer the request, push a non-shared alternate result, and for a shared
        callback broadcast its outputs and chain to the shared callbacks they meet. */
    method Route(service: nat, interp: Interpretation, client: Option<nat>, rid: Option<nat>, fuel: nat) returns (r: Outcome)
      requires Valid()
      modifies this
      ensures Valid() && Evolved() && ErrorOk(r)
      ensures r.Done? ==> !interp.Invalid?
      ensures interp.Invalid? ==> r == Raised(InvalidReturn) && Unchanged()
      ensures rid.None? ==> NoRepliesFrom(log, |old(log)|)
      ensures rid.Some? ==> NoRepliesFrom(log, |old(log)|) || exists at, p :: OnlyReplyAt(log, |old(log)|, at, Respond(p, rid.value))
      ensures r.Done? && rid.Some? ==>
        && ReplyFor(IsShared(service), interp).Some?
        && exists at :: OnlyReplyAt(log, |old(log)|, at, Respond(ReplyFor(IsShared(service), interp).value, rid.value))
      ensures !IsShared(service) ==>
        && (rid.None? ==> r == (if interp.Invalid? then Raised(InvalidReturn) else Done) && Unchanged())
        && (rid.Some? && (interp.Prevent? || interp.Update?) ==>
              r == Done && log == old(log) + [Respond(ReplyFor(false, interp).value, rid.value)]
              && args == old(args) && layout == old(layout) && sharedCallbacksCalled == old(sharedCallbacksCalled))
        && (rid.Some? && client.Some? && interp.Alternate? ==>
              r == Done && log == old(log) + [Respond(EmptyReply, rid.value), Notify(interp.mods, client)]
              && args == old(args) && layout == old(layout) && sharedCallbacksCalled == old(sharedCallbacksCalled))
      ensures interp.Prevent? ==>
        r == Done && args == old(args) && layout == old(layout) && sharedCallbacksCalled == old(sharedCallbacksCalled)
        && log == old(log) + (if rid.Some? then [Respond(EmptyReply, rid.value)] else [])
      ensures IsShared(service) && ShareWithOthers(service) && r.Done? && (interp.Update? || interp.Alternate?) ==>
        exists k :: |old(log)| <= k < |log| && log[k] == Broadcast(interp.mods, None)
      // The chain of a shared update or alternate, when it sees the components as they were.
      ensures IsShared(service) && (interp.Update? || interp.Alternate?)
              && (!ShareWithOthers(service) || NoChildren(interp.mods)) ==>
        && (old(ChainTargets(order, callbackMap, layout, interp.mods, false)) != [] ==> r.Raised?)
        && (r.Done? ==> forall x :: x in old(ChainTargets(order, callbackMap, layout, interp.mods, true)) ==> x in args)
      decreases fuel, 10
    {
      var shared := IsShared(service);
      if interp.Invalid? {
        return Raised(InvalidReturn);
      }
      ghost var at := |log|;
      if interp.Prevent? {
        if rid.Some? {
          log := log + [Respond(EmptyReply, rid.value)];
          assert OnlyReplyAt(log, |old(log)|, at, Respond(EmptyReply, rid.value));
        }
        return Done;
      }
      var mods := interp.mods;
      if rid.Some? {
        if shared {
          log := log + [Respond(EmptyReply, rid.value)];
        } else if interp.Alternate? {
          log := log + [Respond(EmptyReply, rid.value)];
          r := PushModsCoro(mods, client, fuel);
          if r.Raised? {
            assert OnlyReplyAt(log, |old(log)|, at, Respond(EmptyReply, rid.value));
            return;
          }
        } else {
          log := log + [Respond(FullResponse(mods), rid.value)];
        }
      }
      ghost var ev := if rid.Some? then Respond(ReplyFor(shared, interp).value, rid.value) else Respond(EmptyReply, 0);
      assert rid.Some? ==> OnlyReplyAt(log, |old(log)|, at, ev);
      if shared {
        r := ShareOutputs(service, mods, fuel);
        assert rid.Some? ==> OnlyReplyAt(log, |old(log)|, at, ev);
        if r.Raised? {
          return;
        }
      }
      return Done;
    }

    /** The end of `dispatch` for a shared callback (dash/dash.py:1277-1285): with
        SHARE_WITH_OTHER_CLIENTS its outputs go to every client and into the layout,
        then the shared callbacks they meet are dispatched, and it is an error that
        a non-shared callback meets them too. */
    method ShareOutputs(service: nat, mods: seq<Change>, fuel: nat) returns (r: Outcome)
      requires Valid()
      modifies this
      ensures Valid() && Evolved() && ErrorOk(r) && NoRepliesFrom(log, |old(log)|)
      ensures ShareWithOthers(service) ==> |log| > |old(log)| && log[|old(log)|] == Broadcast(mods, None)
      ensures !ShareWithOthers(service) || NoChildren(mods) ==>
        && (old(ChainTargets(order, callbackMap, layout, mods, false)) != [] ==> r.Raised?)
        && (r.Done? ==> forall x :: x in old(ChainTargets(order, callbackMap, layout, mods, true)) ==> x in args)
      decreases fuel, 9
    {
      if ShareWithOthers(service) {
        r := ShareSharedMods(mods, None, fuel);
        if r.Raised? {
          return;
        }
      }
      ghost var l1 := layout;
      var ids, xs;
      r, ids, xs := DispatchChain(mods, fuel);
      if !ShareWithOthers(service) || NoChildren(mods) {
        SetPropsFrame(old(layout), mods);
        ChainTargetsSameKeys(order, callbackMap, l1, old(layout), mods, true);
        ChainTargetsSameKeys(order, callbackMap, l1, old(layout), mods, false);
      }
      if r.Raised? {
        return;
      }
      if xs != [] {
        return Raised(ChainNotShared(xs));
      }
    }

    /** The loop of dash/dash.py:1246-1253: `input_mods` grows one changed key at a
        time and, with SHARE_WITH_OTHER_CLIENTS, is broadcast to every other client
        after each key. */
    method ShareInputChanges(body: Body, client: nat, service: nat, fuel: nat) returns (r: Outcome)
      requires Valid()
      modifies this
      ensures Valid() && Evolved() && ErrorOk(r) && NoRepliesFrom(log, |old(log)|)
      ensures InputMods(body.changedPropIds, body.inputs).None? ==> r.Raised?
      ensures r.Done? ==> InputMods(body.changedPropIds, body.inputs).Some?
      ensures !ShareWithOthers(service) ==>
        Unchanged() && r == (if InputMods(body.changedPropIds, body.inputs).Some? then Done else Raised(MalformedChangedKey))
      ensures ShareWithOthers(service) && r.Done? && body.changedPropIds != [] ==>
        exists k :: |old(log)| <= k < |log| && log[k] == Broadcast(InputMods(body.changedPropIds, body.inputs).value, Some(client))
      // Input changes that write no `children` only set properties of existing components.
      ensures NoChildrenKeys(body.changedPropIds) ==> layout.Keys == old(layout).Keys
      decreases fuel, 9
    {
      var keys := body.changedPropIds;
      var mods: seq<Change> := [];
      var i := 0;
      while i < |keys|
        invariant 0 <= i <= |keys|
        invariant Valid() && Evolved() && NoRepliesFrom(log, |old(log)|)
        invariant InputMods(keys[..i], body.inputs) == Some(mods)
        invariant !ShareWithOthers(service) ==> Unchanged()
        invariant ShareWithOthers(service) && i > 0 ==>
          exists k :: |old(log)| <= k < |log| && log[k] == Broadcast(mods, Some(client))
        invariant NoChildrenKeys(keys) ==> layout.Keys == old(layout).Keys
      {
        assert keys[..i + 1][..i] == keys[..i];
        var kv := SplitKey(keys[i]);
        if kv.None? {
          InputModsMeaning(keys, body.inputs);
          return Raised(MalformedChangedKey);
        }
        mods := Put(mods, Change(kv.value.0, kv.value.1, FindPropValue(body.inputs, kv.value.0, kv.value.1)));
        if ShareWithOthers(service) {
          ghost var log0 := log;
          ghost var l0 := layout;
          if NoChildrenKeys(keys) {
            InputModsPrefixNoChildren(keys, i + 1, body.inputs);
            SetPropsFrame(l0, mods);
          }
          r := ShareSharedMods(mods, Some(client), fuel);
          if r.Raised? {
            InputModsMeaning(keys, body.inputs);
            InputModsMeaning(keys[..i + 1], body.inputs);
            return;
          }
          assert log[|log0|] == Broadcast(mods, Some(client));
        }
        i := i + 1;
      }
      assert keys[..i] == keys;
      return Done;
    }

    /** `share_shared_mods(mods, x_client)` (dash/dash.py:462-465): send the mods
        without notification to every client but `except`, then apply them to the layout. */
    method ShareSharedMods(mods: seq<Change>, except: Option<nat>, fuel: nat) returns (r: Outcome)
      requires Valid()
      modifies this
      ensures Valid() && Evolved() && ErrorOk(r) && NoRepliesFrom(log, |old(log)|)
      ensures |log| > |old(log)| && log[|old(log)|] == Broadcast(mods, except)
      ensures NoChildren(mods) ==>
        && r == Done && log == old(log) + [Broadcast(mods, except)] && layout == SetProps(old(layout), mods)
        && args == old(args) && sharedCallbacksCalled == old(sharedCallbacksCalled)
      decreases fuel, 7
    {
      log := log + [Broadcast(mods, except)];
      r := ModLayout(mods, fuel);
    }

    /** `push_mods_coro(mods, client)` (dash/dash.py:468-492). */
    method PushModsCoro(mods: seq<Change>, client: Option<nat>, fuel: nat) returns (r: Outcome)
      requires Valid()
      modifies this
      ensures Valid() && Evolved() && ErrorOk(r) && NoRepliesFrom(log, |old(log)|)
      ensures client.Some? ==>
        r == Done && log == old(log) + [Notify(mods, client)]
        && args == old(args) && layout == old(layout) && sharedCallbacksCalled == old(sharedCallbacksCalled)
      ensures client.None? && old(ChainTargets(order, callbackMap, layout, mods, true)) != []
              && old(ChainTargets(order, callbackMap, layout, mods, false)) != [] ==>
        r == Raised(MixedSharedPush) && Unchanged()
      ensures client.None? && old(ChainTargets(order, callbackMap, layout, mods, true)) != []
              && old(ChainTargets(order, callbackMap, layout, mods, false)) == [] ==>
        |log| > |old(log)| && log[|old(log)|] == Broadcast(mods, None)
      ensures client.None? && old(ChainTargets(order, callbackMap, layout, mods, true)) != []
              && old(ChainTargets(order, callbackMap, layout, mods, false)) == [] && NoChildren(mods) && r.Done? ==>
        forall x :: x in old(ChainTargets(order, callbackMap, layout, mods, true)) ==> x in args
      ensures client.None? && old(ChainTargets(order, callbackMap, layout, mods, true)) == [] && NoChildren(mods) ==>
        r == Done && log == old(log) + [Notify(mods, None)] && layout == SetProps(old(layout), mods)
        && args == old(args) && sharedCallbacksCalled == old(sharedCallbacksCalled)
      decreases fuel, 9
    {
      var ids, xs := CallbackIntersect(DepsOf(mods), SharedOnly, None);
      if ids != [] && client.None? {
        if xs != [] {
          return Raised(MixedSharedPush);
        }
        r := PushShared(mods, fuel);
      } else {
        if client.None? {
          r := ModLayout(mods, fuel);
          if r.Raised? {
            return;
          }
        }
        log := log + [Notify(mods, client)];
        r := Done;
      }
    }

    /** The shared branch of `push_mods_coro` (dash/dash.py:482-483): the mods go to
        every client and into the layout, then the shared callbacks they meet are
        dispatched; the chain's non-shared list is not looked at. */
    method PushShared(mods: seq<Change>, fuel: nat) returns (r: Outcome)
      requires Valid()
      modifies this
      ensures Valid() && Evolved() && ErrorOk(r) && NoRepliesFrom(log, |old(log)|)
      ensures |log| > |old(log)| && log[|old(log)|] == Broadcast(mods, None)
      ensures NoChildren(mods) && r.Done? ==>
        forall x :: x in old(ChainTargets(order, callbackMap, layout, mods, true)) ==> x in args
      decreases fuel, 8
    {
      r := ShareSharedMods(mods, None, fuel);
      if r.Raised? {
        return;
      }
      ghost var l1 := layout;
      var ids, xs;
      r, ids, xs := DispatchChain(mods, fuel);
      if NoChildren(mods) {
        SetPropsFrame(old(layout), mods);
        ChainTargetsSameKeys(order, callbackMap, l1, old(layout), mods, true);
      }
    }

    /** `mod_layout(mods)` (dash/dash.py:455-459): every change through `handle_layout`, in order. */
    method ModLayout(mods: seq<Change>, fuel: nat) returns (r: Outcome)
      requires Valid()
      modifies this
      ensures Valid() && Evolved() && ErrorOk(r) && NoRepliesFrom(log, |old(log)|)
      ensures NoChildren(mods) ==>
        r == Done && layout == SetProps(old(layout), mods)
        && log == old(log) && args == old(args) && sharedCallbacksCalled == old(sharedCallbacksCalled)
      decreases fuel, 6
    {
      var i := 0;
      while i < |mods|
        invariant 0 <= i <= |mods|
        invariant Valid() && Evolved() && NoRepliesFrom(log, |old(log)|)
        invariant NoChildren(mods) ==>
          layout == SetProps(old(layout), mods[..i])
          && log == old(log) && args == old(args) && sharedCallbacksCalled == old(sharedCallbacksCalled)
      {
        assert mods[..i + 1][..i] == mods[..i];
        assert mods[i] in mods;
        r := HandleLayout(Some(mods[i].id), mods[i].property, mods[i].value, fuel);
        if r.Raised? {
          return;
        }
        i := i + 1;
      }
      assert mods[..i] == mods;
      return Done;
    }

    /** `handle_layout(id, prop, val)` (dash/dash.py:435-451): a new subtree (no id,
        or a `children` property) has its components inserted first-wins and its
        initial callbacks run; then the property is set on a known component. */
    method HandleLayout(id: Option<string>, prop: string, val: Value, fuel: nat) returns (r: Outcome)
      requires Valid()
      modifies this
      ensures Valid() && Evolved() && ErrorOk(r) && NoRepliesFrom(log, |old(log)|)
      ensures id.Some? && prop != "children" ==>
        r == Done && layout == SetProp(old(layout), id.value, prop, val)
        && log == old(log) && args == old(args) && sharedCallbacksCalled == old(sharedCallbacksCalled)
      ensures id.None? || prop == "children" ==> forall c :: c in flattenLayout(val) ==> c.id in layout
      decreases fuel, 5
    {
      if id.None? || prop == "children" {
        var comps := flattenLayout(val);
        InsertComponents(comps);
        r := InitialCallbacks(comps, fuel);
        if r.Raised? {
          return;
        }
      }
      if id.Some? && id.value != "" && prop != "" {
        layout := SetProp(layout, id.value, prop, val);
      }
      return Done;
    }

    /** The insertion loop of dash/dash.py:439-443. */
    method InsertComponents(comps: seq<Comp>)
      requires Valid()
      modifies this
      ensures Valid() && Evolved() && log == old(log) && args == old(args)
      ensures sharedCallbacksCalled == old(sharedCallbacksCalled)
      ensures layout == InsertFirstWins(old(layout), comps)
      ensures forall c :: c in comps ==> c.id in layout
    {
      var i := 0;
      while i < |comps|
        invariant 0 <= i <= |comps|
        invariant Valid() && Evolved() && log == old(log) && args == old(args)
        invariant sharedCallbacksCalled == old(sharedCallbacksCalled)
        invariant layout == InsertFirstWins(old(layout), comps[..i])
        invariant forall k :: 0 <= k < i ==> comps[k].id in layout
      {
        assert comps[..i + 1][..i] == comps[..i];
        if comps[i].id !in layout {
          layout := layout[comps[i].id := comps[i].props];
        }
        i := i + 1;
      }
      assert comps[..i] == comps;
    }

    /** `_dispatch_chain(props)` (dash/dash.py:1388-1395): dispatch every live shared
        callback with an input among the mods, with a body carrying the mods. */
    method DispatchChain(mods: seq<Change>, fuel: nat) returns (r: Outcome, ids: seq<string>, xs: seq<string>)
      requires Valid()
      modifies this
      ensures Valid() && Evolved() && ErrorOk(r) && NoRepliesFrom(log, |old(log)|)
      ensures ids == old(ChainTargets(order, callbackMap, layout, mods, true))
      ensures xs == old(ChainTargets(order, callbackMap, layout, mods, false))
      ensures forall x :: x in xs ==> x in callbackMap && !IsShared(callbackMap[x].service)
      ensures r.Done? ==> forall x :: x in ids ==> x in args
      decreases fuel, 2
    {
      ids, xs := CallbackIntersect(DepsOf(mods), SharedOnly, None);
      var built := BodiesFor(ids, ArgsOfChanges(mods));
      if built.Err? {
        return Raised(built.error), ids, xs;
      }
      var bodies := built.value;
      r := DispatchCallbacks(bodies, fuel);
      if r.Done? {
        forall x | x in ids ensures x in args {
          var k :| 0 <= k < |ids| && ids[k] == x;
          assert bodies[k] in bodies;
        }
      }
    }

    /** The bodies `_callback_body(output, changes)` for each of `outputs` in order
        (dash/dash.py:1391-1392 and dash/dash.py:1436); the first body that cannot
        be built is the error. */
    method BodiesFor(outputs: seq<string>, changes: seq<Arg>) returns (r: Result<seq<Body>, Error>)
      ensures r.Ok? ==> |r.value| == |outputs| && forall k :: 0 <= k < |outputs| ==> r.value[k].output == outputs[k]
      ensures r.Ok? ==> forall k :: 0 <= k < |outputs| ==>
        outputs[k] in callbackMap &&
        BuildBody(outputs[k], callbackMap[outputs[k]], if outputs[k] in args then Some(args[outputs[k]]) else None, layout, changes) == Ok(r.value[k])
      ensures r.Err? ==> exists k :: (
        && 0 <= k < |outputs|
        && (outputs[k] !in callbackMap ==> r.error == UnknownCallback)
        && (outputs[k] in callbackMap ==>
              BuildBody(outputs[k], callbackMap[outputs[k]], if outputs[k] in args then Some(args[outputs[k]]) else None, layout, changes) == Err(r.error)))
    {
      var bodies: seq<Body> := [];
      var i := 0;
      while i < |outputs|
        invariant 0 <= i <= |outputs|
        invariant |bodies| == i && forall k :: 0 <= k < i ==> bodies[k].output == outputs[k]
        invariant forall k :: 0 <= k < i ==>
          outputs[k] in callbackMap &&
          BuildBody(outputs[k], callbackMap[outputs[k]], if outputs[k] in args then Some(args[outputs[k]]) else None, layout, changes) == Ok(bodies[k])
      {
        var b := CallbackBody(outputs[i], changes);
        if b.Err? {
          return Err(b.error);
        }
        bodies := bodies + [b.value];
        i := i + 1;
      }
      return Ok(bodies);
    }

    /** `_dispatch_callbacks(bodies)` (dash/dash.py:1375-1386): every body is
        dispatched without client or request; the first error is the result. */
    method DispatchCallbacks(bodies: seq<Body>, fuel: nat) returns (r: Outcome)
      requires Valid()
      modifies this
      ensures Valid() && Evolved() && ErrorOk(r) && NoRepliesFrom(log, |old(log)|)
      ensures bodies == [] ==> r == Done && Unchanged()
      ensures fuel == 0 && bodies != [] ==> r == Raised(FuelExhausted) && Unchanged()
      ensures r.Done? ==> forall b :: b in bodies ==> Recorded(b.output)
      decreases fuel, 1
    {
      if bodies == [] {
        return Done;
      }
      if fuel == 0 {
        return Raised(FuelExhausted);
      }
      r := Done;
      var i := 0;
      while i < |bodies|
        invariant 0 <= i <= |bodies|
        invariant Valid() && Evolved() && ErrorOk(r) && NoRepliesFrom(log, |old(log)|)
        invariant r.Done? ==> forall k :: 0 <= k < i ==> Recorded(bodies[k].output)
      {
        var ri := Dispatch(bodies[i], None, None, fuel - 1);
        if r.Done? {
          r := ri;
        }
        i := i + 1;
      }
    }

    // -------------------------------------------------------------------------
    // Server-side initial callbacks

    /** `_initial_callbacks(comps)` (dash/dash.py:1397-1443): unless already done,
        seed the pending set and repeatedly dispatch its roots (the pending
        callbacks no pending callback feeds) until every pending callback has
        args. When no root is left the source loops forever; here that is
        `Diverges`, which can only happen on a cyclic pending set. */
    method InitialCallbacks(comps: seq<Comp>, fuel: nat) returns (r: Outcome)
      requires Valid()
      modifies this
      ensures Valid() && Evolved() && ErrorOk(r) && NoRepliesFrom(log, |old(log)|)
      ensures old(sharedCallbacksCalled) ==> r == Done && Unchanged()
      ensures !old(sharedCallbacksCalled) && old(AllInitialDone(callbackMap, args.Keys)) ==>
        r == Done && sharedCallbacksCalled && log == old(log) && args == old(args) && layout == old(layout)
      ensures !old(sharedCallbacksCalled) && old(PendingIn(order, callbackMap, layout, args.Keys, comps)) == {} ==>
        r == Done && log == old(log) && args == old(args) && layout == old(layout)
      ensures r.Done? && !old(sharedCallbacksCalled) ==> old(PendingIn(order, callbackMap, layout, args.Keys, comps)) <= args.Keys
      ensures r.Done? && !old(sharedCallbacksCalled) && layout.Keys == old(layout).Keys ==>
        PendingIn(order, callbackMap, layout, args.Keys, comps) == {}
      decreases fuel, 4
    {
      if sharedCallbacksCalled {
        return Done;
      }
      var all := AllInitialHaveArgs();
      if all {
        AllDoneNothingPending(order, callbackMap, layout, args.Keys, comps);
        sharedCallbacksCalled := true;
        return Done;
      }
      var pending := SeedPending(comps);
      ghost var l0, d0 := layout, args.Keys;
      ValidIdsMembers(order, callbackMap, layout, SharedInitial);
      r := PeelAll(pending, fuel);
      if r.Done? && layout.Keys == l0.Keys {
        SecondCallFindsNothing(order, callbackMap, l0, layout, d0, args.Keys, comps);
      }
    }

    /** The `while` loop of dash/dash.py:1427-1443: peel rounds of roots until
        nothing is pending. */
    method PeelAll(pending0: set<string>, fuel: nat) returns (r: Outcome)
      requires Valid()
      requires forall p :: p in pending0 ==> p in callbackMap && InitialTest(callbackMap[p].service) && p !in args
      modifies this
      ensures Valid() && Evolved() && ErrorOk(r) && NoRepliesFrom(log, |old(log)|)
      ensures pending0 == {} ==> r == Done && Unchanged()
      ensures r.Done? ==> pending0 <= args.Keys
      decreases fuel, 3
    {
      var pending := pending0;
      r := Done;
      while pending != {}
        invariant Valid() && Evolved() && ErrorOk(r) && NoRepliesFrom(log, |old(log)|)
        invariant pending0 == {} ==> Unchanged()
        invariant pending <= pending0 && pending0 - pending <= args.Keys
        invariant forall p :: p in pending ==> p in callbackMap && InitialTest(callbackMap[p].service) && p !in args
        decreases |pending|
      {
        var next, roots;
        r, next, roots := PeelRound(pending, fuel);
        if r.Raised? {
          return;
        }
        ProperSubsetSmaller(next, pending);
        pending := next;
      }
      return Done;
    }

    /** One round of the `while` loop of dash/dash.py:1427-1443: dispatch the roots
        of `pending` and keep the pending callbacks that still have no args. Every
        root leaves the set, because `dispatch` records args before running user
        code (dash/dash.py:1139-1141). No root at all is `Diverges`, which the
        source would spin on forever. */
    method PeelRound(pending: set<string>, fuel: nat) returns (r: Outcome, next: set<string>, roots: seq<string>)
      requires Valid() && pending != {}
      requires forall p :: p in pending ==> p in callbackMap && InitialTest(callbackMap[p].service) && p !in args
      modifies this
      ensures Valid() && Evolved() && ErrorOk(r) && NoRepliesFrom(log, |old(log)|)
      ensures forall x :: x in roots <==> x in pending && forall q :: q in pending ==> !Feeds(callbackMap, q, x)
      ensures roots == [] ==> r == Raised(Diverges(pending)) && Unchanged()
      ensures r.Done? ==> roots != [] && forall x :: x in roots ==> x in args
      ensures r.Done? ==> forall x :: x in next <==> x in pending && x !in args
      ensures r.Done? ==> next < pending
      decreases fuel, 2
    {
      next := pending;
      roots := PendingRoots(pending);
      if roots == [] {
        return Raised(Diverges(pending)), next, roots;
      }
      var built := BodiesFor(roots, []);
      if built.Err? {
        return Raised(built.error), next, roots;
      }
      var bodies := built.value;
      r := DispatchCallbacks(bodies, fuel);
      if r.Raised? {
        return;
      }
      forall x | x in roots ensures x in args {
        var k :| 0 <= k < |roots| && roots[k] == x;
        assert bodies[k] in bodies;
      }
      next := set o | o in pending && o !in args;
      assert roots[0] in pending && roots[0] !in next;
    }

    /** dash/dash.py:1433-1435: the pending callbacks whose inputs meet no output of
        a pending callback, found with `_callback_diff`; when the pending set is
        acyclic there is at least one. */
    method PendingRoots(pending: set<string>) returns (roots: seq<string>)
      requires Valid()
      requires forall p :: p in pending ==> p in callbackMap && InitialTest(callbackMap[p].service)
      ensures forall x :: x in roots <==> x in pending && forall q :: q in pending ==> !Feeds(callbackMap, q, x)
      ensures Acyclic(pending, callbackMap) && pending != {} ==> roots != []
    {
      var enum := Enumerate(pending);
      var outputs := OutputsLoop(enum);
      var xs;
      roots, xs := CallbackDiff(outputs, SharedInitial, Some(enum));
      forall x | x in pending
        ensures x in roots <==> forall q :: q in pending ==> !Feeds(callbackMap, q, x)
      {
        RootsUnfed(enum, callbackMap, x);
      }
      if Acyclic(pending, callbackMap) && pending != {} {
        RootExists(pending, callbackMap);
        var p :| p in pending && forall q :: q in pending ==> !Feeds(callbackMap, q, p);
        assert p in roots;
      }
    }

    /** The check of dash/dash.py:1403-1406: does every callback passing the initial
        test have args? */
    method AllInitialHaveArgs() returns (all: bool)
      requires Valid()
      ensures all == AllInitialDone(callbackMap, args.Keys)
    {
      all := true;
      var i := 0;
      while i < |order|
        invariant 0 <= i <= |order|
        invariant all == forall k :: 0 <= k < i ==> (InitialTest(callbackMap[order[k]].service) ==> order[k] in args)
      {
        if InitialTest(callbackMap[order[i]].service) && order[i] !in args {
          all := false;
          assert !AllInitialDone(callbackMap, args.Keys);
          return;
        }
        i := i + 1;
      }
    }

    /** dash/dash.py:1410-1425: the live callbacks passing the initial test without
        args, and among them those with an input on one of `comps`. */
    method SeedPending(comps: seq<Comp>) returns (pending: set<string>)
      requires Valid()
      ensures pending == PendingIn(order, callbackMap, layout, args.Keys, comps)
    {
      var valid := ValidCallbackIds(SharedInitial);
      var cands := WithoutArgs(valid);
      pending := PendingLoop(cands, callbackMap, comps);
      assert forall x :: x in pending <==> x in PendingIn(order, callbackMap, layout, args.Keys, comps);
    }

    /** The loop of dash/dash.py:1411-1416. */
    method WithoutArgs(valid: seq<string>) returns (cands: seq<string>)
      requires InRegistry(valid, callbackMap)
      ensures forall x :: x in cands <==> x in valid && InitialTest(callbackMap[x].service) && x !in args
      ensures InRegistry(cands, callbackMap)
    {
      cands := [];
      var i := 0;
      while i < |valid|
        invariant 0 <= i <= |valid|
        invariant forall x :: x in cands <==> x in valid[..i] && InitialTest(callbackMap[x].service) && x !in args
        invariant InRegistry(cands, callbackMap)
      {
        assert valid[..i + 1] == valid[..i] + [valid[i]];
        if InitialTest(callbackMap[valid[i]].service) && valid[i] !in args {
          cands := cands + [valid[i]];
        }
        i := i + 1;
      }
      assert valid[..i] == valid;
    }

    /** The nested loops of dash/dash.py:1420-1425. */
    static method PendingLoop(cands: seq<string>, cmap: map<string, Entry>, comps: seq<Comp>) returns (pending: set<string>)
      requires InRegistry(cands, cmap)
      ensures forall x :: x in pending <==> x in cands && Touches(cmap[x], comps)
    {
      pending := {};
      var j := 0;
      while j < |comps|
        invariant 0 <= j <= |comps|
        invariant forall x :: x in pending <==> x in cands && Touches(cmap[x], comps[..j])
      {
        var c := comps[j];
        var k := 0;
        while k < |cands|
          invariant 0 <= k <= |cands|
          invariant forall x :: x in pending <==>
            x in cands && (Touches(cmap[x], comps[..j]) || (x in cands[..k] && OnComponent(cmap[x], c.id)))
        {
          var on := InputOnComponent(cmap[cands[k]].inputs, c.id);
          assert cands[..k + 1] == cands[..k] + [cands[k]];
          if on {
            pending := pending + {cands[k]};
          }
          k := k + 1;
        }
        assert cands[..k] == cands;
        assert comps[..j + 1] == comps[..j] + [c];
        forall x | x in cmap ensures Touches(cmap[x], comps[..j + 1]) <==> Touches(cmap[x], comps[..j]) || OnComponent(cmap[x], c.id) {
          if OnComponent(cmap[x], c.id) {
            assert c in comps[..j + 1];
          }
        }
        j := j + 1;
      }
      assert comps[..j] == comps;
    }

    /** The innermost loop of dash/dash.py:1423-1425. */
    static method InputOnComponent(inputs: seq<Dep>, cid: string) returns (on: bool)
      ensures on <==> exists d :: d in inputs && d.id == cid
    {
      on := false;
      var i := 0;
      while i < |inputs|
        invariant 0 <= i <= |inputs|
        invariant on <==> exists k :: 0 <= k < i && inputs[k].id == cid
      {
        if cid == inputs[i].id {
          on := true;
        }
        i := i + 1;
      }
    }

    /** Python's iteration over a set: some order of its elements. */
    static method Enumerate(s: set<string>) returns (xs: seq<string>)
      ensures forall x :: x in xs <==> x in s
      ensures forall i, j :: 0 <= i < j < |xs| ==> xs[i] != xs[j]
    {
      xs := [];
      var rest := s;
      while rest != {}
        invariant forall x :: x in s <==> x in xs || x in rest
        invariant forall x :: x in xs ==> x !in rest
        invariant forall i, j :: 0 <= i < j < |xs| ==> xs[i] != xs[j]
        decreases |rest|
      {
        var x :| x in rest;
        xs := xs + [x];
        rest := rest - {x};
      }
    }

    /** The loop of dash/dash.py:1429-1431: the outputs of the pending callbacks. */
    method OutputsLoop(xs: seq<string>) returns (outputs: seq<Dep>)
      requires InRegistry(xs, callbackMap)
      ensures outputs == OutputsOfAll(xs, callbackMap)
    {
      outputs := [];
      var i := 0;
      while i < |xs|
        invariant 0 <= i <= |xs|
        invariant outputs == OutputsOfAll(xs[..i], callbackMap)
      {
        assert xs[..i + 1][..i] == xs[..i];
        outputs := outputs + callbackMap[xs[i]].outputs;
        i := i + 1;
      }
      assert xs[..i] == xs;
    }
  }
}
