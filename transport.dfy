/**
 * The socket transport as an append-only log of `(kind, payload, target)` events:
 * `pusher.respond(data, request_id)` answers one request and
 * `pusher.send(kind, mods, client | x_client)` pushes modifications.
 */
module Transport {
  import opened Common
  import opened Props
  import opened Returns

  /** `respond`, `send("mod", ...)` (no change notification at the client) and
      `send("mod_n", ...)` (the client's callbacks are notified). */
  datatype Kind = Reply | Mod | ModN

  /** `{}`, `{"response": mods, "multi": True}`, or a bare mods dict. */
  datatype Payload = EmptyReply | FullResponse(mods: seq<Change>) | ModsPayload(mods: seq<Change>)

  /** Who receives the event. */
  datatype Target = Request(rid: nat) | AllClients | AllExcept(client: nat) | OnlyClient(client: nat)

  datatype Event = Event(kind: Kind, payload: Payload, target: Target)

  function Respond(p: Payload, rid: nat): Event
  {
    Event(Reply, p, Request(rid))
  }

  /** `pusher.send("mod", mods, x_client=x)`: everybody, or everybody but `x`. */
  function Broadcast(mods: seq<Change>, except: Option<nat>): Event
  {
    Event(Mod, ModsPayload(mods), if except.Some? then AllExcept(except.value) else AllClients)
  }

  /** `pusher.send("mod_n", mods, client)`: one client, or all of them. */
  function Notify(mods: seq<Change>, client: Option<nat>): Event
  {
    Event(ModN, ModsPayload(mods), if client.Some? then OnlyClient(client.value) else AllClients)
  }

  /** No event of `log` from position `from` on answers a request. */
  predicate NoRepliesFrom(log: seq<Event>, from: nat)
  {
    forall k :: from <= k < |log| ==> log[k].kind != Reply
  }

  /** From position `from` on, `log` answers exactly one request: with `ev`, at position `at`. */
  predicate OnlyReplyAt(log: seq<Event>, from: nat, at: nat, ev: Event)
  {
    && from <= at < |log| && log[at] == ev && ev.kind == Reply
    && forall k :: from <= k < |log| && k != at ==> log[k].kind != Reply
  }

  /** What `dispatch` answers the requester with once the callback has returned
      (dash/dash.py:1256-1274), or None when an exception leaves it unanswered. */
  function ReplyFor(shared: bool, interp: Interpretation): (r: Option<Payload>)
    ensures interp.Invalid? <==> r.None?
    ensures r.Some? && r.value.FullResponse? <==> !shared && interp.Update?
    ensures r.Some? && r.value.FullResponse? ==> r.value.mods == interp.mods
    ensures r.Some? ==> !r.value.ModsPayload?
  {
    match interp
    case Invalid => None
    case Prevent => Some(EmptyReply)
    case Alternate(_) => Some(EmptyReply)
    case Update(m) => if shared then Some(EmptyReply) else Some(FullResponse(m))
  }

  /** Two adjacent stretches of the log without replies make one. */
  lemma QuietThenQuiet(log0: seq<Event>, log: seq<Event>, from: nat)
    requires log0 <= log && from <= |log0| && NoRepliesFrom(log0, from) && NoRepliesFrom(log, |log0|)
    ensures NoRepliesFrom(log, from)
  {
  }

  /** A stretch without replies followed by one answering a single request answers
      that request once, at the same place. */
  lemma QuietThenReply(log0: seq<Event>, log: seq<Event>, from: nat, at: nat, ev: Event)
    requires log0 <= log && from <= |log0| && NoRepliesFrom(log0, from) && OnlyReplyAt(log, |log0|, at, ev)
    ensures OnlyReplyAt(log, from, at, ev)
  {
  }
}
