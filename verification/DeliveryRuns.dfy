// The delivery protocol over whole runs: any interleaving of events arriving,
// proxies connecting, writing, failing, acknowledging and vanishing, the channel
// changing hands, and the daemon restarting on the file it left behind.

module DeliveryRuns {
  import opened Prelude
  import opened OrderedMaps
  import opened Json
  import opened QueueEvents
  import opened DeliveryIds
  import opened Delivery
  import O = Ownership

  // One connection as both sides see it: messages on their way to the proxy,
  // writes to Claude that have begun, acknowledgements on their way back.
  datatype Link = Link(open: bool, inbox: seq<Delivery>, writing: seq<Delivery>, acks: seq<string>)

  // A write that Claude accepted, and how long the log was then.
  datatype Write = Write(delivery: Delivery, logged: nat)

  // `log` is the only state of the daemon that outlives it; `channel` holds the
  // lease and the live connections that routing goes by. `returned` and `written`
  // are histories: the ids whose notify returned, and the writes Claude accepted.
  datatype World = World(log: seq<Event>, links: map<ConnId, Link>, channel: O.System,
                         returned: set<string>, written: set<Write>)

  // What became of a write to the log: made, not made, or made and then reported as failed.
  datatype Disk = Saved | Refused | SavedThenFailed

  // `sends` is how many messages get out before the connection's `send` throws.
  // `Started` is the end of the daemon's start, when Feishu is connected too.
  datatype Step =
    | Connect(c: ConnId)
    | Register(c: ConnId, session: O.Session, sends: nat)
    | ToolCall(c: ConnId, tool: O.Tool, args: O.Args, sends: nat)
    | Notify(content: string, meta: Meta, at: NumberText, generation: NumberText, disk: Disk, sends: nat)
    | Take(c: ConnId)
    | ClaudeAccepts(c: ConnId, i: nat)
    | ClaudeRefuses(c: ConnId, i: nat)
    | Ack(c: ConnId, at: NumberText, disk: Disk)
    | Disconnect(c: ConnId)
    | Restart
    | Started(sends: nat)

  predicate Open(w: World, c: ConnId) { c in w.links && w.links[c].open }

  // The connection that the owner selects, if any.
  function Target(channel: O.System): Option<ConnId> {
    var i := O.Select(channel.lease, channel.conns);
    if i.None? then None else Some(channel.conns[i.value].id)
  }

  function Route(links: map<ConnId, Link>, target: Option<ConnId>, ds: seq<Delivery>, sends: nat): map<ConnId, Link> {
    if target.None? || target.value !in links then links
    else
      var l := links[target.value];
      links[target.value := l.(inbox := l.inbox + ds[..Min(sends, |ds|)])]
  }

  function RemoveAt<T>(s: seq<T>, i: nat): seq<T>
    requires i < |s|
  {
    s[..i] + s[i + 1..]
  }

  function Close(l: Link): Link { l.(open := false, inbox := [], acks := []) }

  function DoNotify(w: World, s: Step): World
    requires s.Notify?
  {
    var d := DeliveryOf(s.content, s.meta);
    var log := Receive(w.log, s.content, s.meta, s.at, s.generation);
    if s.disk == Refused then w
    else if s.disk == SavedThenFailed then w.(log := log)
    else
      w.(log := log, returned := w.returned + {d.eventId},
         links := Route(w.links, Target(w.channel), [d], s.sends))
  }

  // The messages of what is pending.
  function Backlog(w: World): seq<Delivery> { Replay(Pending(Fold(w.log))) }

  // What is pending goes to the new owner first, when the registration makes one,
  // and to the owner again after it.
  function DoRegister(w: World, s: Step): World
    requires s.Register?
  {
    if !Open(w, s.c) then w
    else
      var channel := O.Next(w.channel, O.Register(s.c, s.session));
      var changed := s.session.role == O.Dispatcher && O.TakesOver(w.channel.lease);
      var ds := if changed then Backlog(w) + Backlog(w) else Backlog(w);
      w.(channel := channel, links := Route(w.links, Target(channel), ds, s.sends))
  }

  predicate Reroutes(o: O.Outcome) { o.OwnerNow? || o.Returned? || o.Reclaimed? }

  function DoTool(w: World, s: Step): World
    requires s.ToolCall?
  {
    if !Open(w, s.c) then w
    else
      var channel := O.Next(w.channel, O.ToolCall(s.c, s.tool, s.args));
      w.(channel := channel,
         links := if Reroutes(O.LastOutcome(channel)) then Route(w.links, Target(channel), Backlog(w), s.sends) else w.links)
  }

  function DoTake(w: World, c: ConnId): World {
    if !Open(w, c) || w.links[c].inbox == [] then w
    else
      var l := w.links[c];
      w.(links := w.links[c := l.(inbox := l.inbox[1..], writing := l.writing + [l.inbox[0]])])
  }

  // A write may finish on a connection that has closed meanwhile; its
  // acknowledgement then goes nowhere.
  function DoAccept(w: World, c: ConnId, i: nat): World {
    if c !in w.links || i >= |w.links[c].writing| then w
    else
      var l := w.links[c];
      var d := l.writing[i];
      var acks := if l.open then l.acks + [d.eventId] else l.acks;
      w.(links := w.links[c := l.(writing := RemoveAt(l.writing, i), acks := acks)], written := w.written + {Write(d, |w.log|)})
  }

  function DoRefuse(w: World, c: ConnId, i: nat): World {
    if c !in w.links || i >= |w.links[c].writing| then w
    else w.(links := w.links[c := w.links[c].(writing := RemoveAt(w.links[c].writing, i))])
  }

  function DoAck(w: World, s: Step): World
    requires s.Ack?
  {
    if !Open(w, s.c) || w.links[s.c].acks == [] then w
    else
      var l := w.links[s.c];
      w.(links := w.links[s.c := l.(acks := l.acks[1..])],
         log := if s.disk == Refused then w.log else MarkDelivered(w.log, l.acks[0], s.at))
  }

  function CloseAll(links: map<ConnId, Link>): map<ConnId, Link> { map c | c in links :: Close(links[c]) }

  function Next(w: World, s: Step): World {
    match s
    case Connect(c) =>
      if c in w.links then w
      else w.(links := w.links[c := Link(true, [], [], [])], channel := O.Next(w.channel, O.Connect(c)))
    case Register(_, _, _) => DoRegister(w, s)
    case ToolCall(_, _, _, _) => DoTool(w, s)
    case Notify(_, _, _, _, _, _) => DoNotify(w, s)
    case Take(c) => DoTake(w, c)
    case ClaudeAccepts(c, i) => DoAccept(w, c, i)
    case ClaudeRefuses(c, i) => DoRefuse(w, c, i)
    case Ack(_, _, _) => DoAck(w, s)
    case Disconnect(c) =>
      if c in w.links then w.(links := w.links[c := Close(w.links[c])], channel := O.Next(w.channel, O.Close(c))) else w
    case Restart => w.(links := CloseAll(w.links), channel := O.START)
    case Started(sends) => w.(links := Route(w.links, Target(w.channel), Backlog(w), sends))
  }

  function Start(): World { World([], map[], O.START, {}, {}) }

  function RunFrom(w: World, steps: seq<Step>): World {
    if steps == [] then w else Next(RunFrom(w, steps[..|steps| - 1]), steps[|steps| - 1])
  }

  function Run(steps: seq<Step>): World { RunFrom(Start(), steps) }

  // ----- the invariant -----

  // A message under the id of its own event, which has a row.
  ghost predicate Genuine(w: World, d: Delivery) {
    d.eventId == DefaultEventId(d.meta) && d.eventId in Fold(w.log).at
  }

  ghost predicate LinkOk(w: World, l: Link) {
    && (forall d :: d in l.inbox ==> Genuine(w, d))
    && (forall d :: d in l.writing ==> Genuine(w, d))
    && (forall id :: id in l.acks ==> Wrote(w, id))
  }

  ghost predicate LinksOk(w: World) { forall c :: c in w.links ==> LinkOk(w, w.links[c]) }

  ghost predicate Wrote(w: World, id: string) { exists x :: x in w.written && x.delivery.eventId == id }

  // Claude accepted the write after its event was logged.
  ghost predicate WriteOk(log: seq<Event>, x: Write) {
    && x.delivery.eventId == DefaultEventId(x.delivery.meta)
    && x.logged <= |log| && FirstReceived(log[..x.logged], x.delivery.eventId).Some?
  }

  // A write of the id was accepted before the row was marked.
  ghost predicate WroteFirst(w: World, id: string) {
    exists x :: x in w.written && x.delivery.eventId == id && WriteOk(w.log, x) && Unmarked(w.log, x.logged, id)
  }

  ghost predicate Unmarked(log: seq<Event>, n: nat, id: string) { n <= |log| && FirstDelivered(log[..n], id).None? }

  ghost predicate RowOk(w: World, r: Row) {
    r.eventId == DefaultEventId(r.meta) && (r.deliveredAt.Some? ==> WroteFirst(w, r.eventId))
  }

  ghost predicate RowsOk(w: World) {
    forall id :: id in Fold(w.log).at ==> Fold(w.log).at[id].eventId == id && RowOk(w, Fold(w.log).at[id])
  }

  ghost predicate WritesOk(w: World) { forall x :: x in w.written ==> WriteOk(w.log, x) }

  ghost predicate ReturnedOk(w: World) { forall id :: id in w.returned ==> id in Fold(w.log).at }

  ghost predicate ConnsOk(w: World) { forall x :: x in w.channel.conns ==> x.id in w.links }

  ghost predicate Inv(w: World) {
    Causal(w.log) && RowsOk(w) && LinksOk(w) && WritesOk(w) && ReturnedOk(w)
  }

  // ----- what a step does to the log -----

  lemma {:induction false} ReceiveEffect(log: seq<Event>, content: string, meta: Meta,
                                         at: NumberText, generation: NumberText)
    ensures var id, rows := DefaultEventId(meta), Fold(log).at;
      Fold(Receive(log, content, meta, at, generation)).at ==
      if id in rows then rows else rows[id := Row(id, content, meta, at, generation, None)]
    ensures Causal(log) ==> Causal(Receive(log, content, meta, at, generation))
  {
    var e := Received(DefaultEventId(meta), content, meta, at, generation);
    hide DefaultEventId, Fold, Causal;
    FoldSnoc(log, e);
    CausalSnoc(log, e);
  }

  lemma {:induction false} MarkEffect(log: seq<Event>, id: string, at: NumberText)
    ensures var rows := Fold(log).at;
      Fold(MarkDelivered(log, id, at)).at ==
      if id in rows && rows[id].deliveredAt.None? then rows[id := rows[id].(deliveredAt := Some(at))] else rows
    ensures Causal(log) ==> Causal(MarkDelivered(log, id, at))
  {
    hide Fold, Causal, FirstReceived;
    FoldSnoc(log, Delivered(id, at));
    CausalSnoc(log, Delivered(id, at));
    if Causal(log) { FoldMeaning(log, id); }
  }

  lemma CausalSnoc(log: seq<Event>, e: Event)
    ensures Causal(log + [e]) <==> Causal(log) && (e.Delivered? ==> FirstReceived(log, e.eventId).Some?)
  {
    assert (log + [e])[..|log|] == log;
  }

  ghost predicate Grew(a: World, b: World) {
    && a.log <= b.log && a.written <= b.written && a.returned <= b.returned
    && forall id :: id in Fold(a.log).at ==> id in Fold(b.log).at
  }

  lemma WriteGrew(a: seq<Event>, b: seq<Event>, x: Write)
    requires a <= b && x.logged <= |a|
    ensures WriteOk(a, x) == WriteOk(b, x)
    ensures forall id :: Unmarked(a, x.logged, id) == Unmarked(b, x.logged, id)
  {
    hide FirstReceived, FirstDelivered, DefaultEventId;
    assert b[..x.logged] == a[..x.logged];
  }

  lemma LinkGrew(a: World, b: World, l: Link)
    requires Grew(a, b) && LinkOk(a, l)
    ensures LinkOk(b, l)
  {
    hide Fold, DefaultEventId;
  }

  lemma {:induction false} RowGrew(a: World, b: World, r: Row)
    requires Grew(a, b) && RowOk(a, r)
    ensures RowOk(b, r)
  {
    hide Fold, DefaultEventId, WriteOk, Unmarked;
    if r.deliveredAt.Some? {
      var x :| x in a.written && x.delivery.eventId == r.eventId && WriteOk(a.log, x) && Unmarked(a.log, x.logged, r.eventId);
      assert x.logged <= |a.log| by { UnmarkedAt(a.log, x.logged, r.eventId); }
      WriteGrew(a.log, b.log, x);
    }
  }

  lemma UnmarkedAt(log: seq<Event>, n: nat, id: string)
    requires Unmarked(log, n, id)
    ensures n <= |log|
  {}

  lemma {:induction false} WritesGrew(a: World, b: World)
    requires Grew(a, b) && WritesOk(a) && b.written == a.written
    ensures WritesOk(b)
  {
    hide Fold, DefaultEventId, FirstReceived;
    forall x | x in b.written ensures WriteOk(b.log, x) {
      assert WriteOk(a.log, x);
      WriteGrew(a.log, b.log, x);
    }
  }

  // Only links and channel changed.
  lemma SameHistories(w: World, v: World)
    requires w.log == v.log && w.written == v.written && w.returned == v.returned
    ensures Grew(w, v)
    ensures RowsOk(w) ==> RowsOk(v)
    ensures WritesOk(w) ==> WritesOk(v)
    ensures ReturnedOk(w) ==> ReturnedOk(v)
    ensures forall l :: LinkOk(w, l) ==> LinkOk(v, l)
  {
    hide Fold, DefaultEventId, WriteOk, Unmarked;
  }

  lemma {:induction false} NotifyGrows(w: World, s: Step)
    requires s.Notify?
    ensures Grew(w, DoNotify(w, s))
  {
    hide Fold, DefaultEventId, Route, Target;
    ReceiveEffect(w.log, s.content, s.meta, s.at, s.generation);
  }

  lemma {:induction false} NotifyKeepsRows(w: World, s: Step)
    requires s.Notify? && RowsOk(w)
    ensures RowsOk(DoNotify(w, s))
  {
    hide Fold, DefaultEventId, Receive, Route, Target, Grew, RowOk, Causal;
    var v := DoNotify(w, s);
    NotifyGrows(w, s);
    ReceiveEffect(w.log, s.content, s.meta, s.at, s.generation);
    forall id | id in Fold(v.log).at ensures Fold(v.log).at[id].eventId == id && RowOk(v, Fold(v.log).at[id]) {
      if id in Fold(w.log).at {
        RowGrew(w, v, Fold(w.log).at[id]);
      } else {
        NewRowOk(v, s);
      }
    }
  }

  lemma NewRowOk(v: World, s: Step)
    requires s.Notify?
    ensures RowOk(v, Row(DefaultEventId(s.meta), s.content, s.meta, s.at, s.generation, None))
  {}

  lemma {:induction false} NotifyKeepsReturned(w: World, s: Step)
    requires s.Notify? && ReturnedOk(w)
    ensures ReturnedOk(DoNotify(w, s))
    ensures Causal(w.log) ==> Causal(DoNotify(w, s).log)
  {
    hide Fold, DefaultEventId, Receive, Route, Target, Causal;
    ReceiveEffect(w.log, s.content, s.meta, s.at, s.generation);
  }

  lemma {:induction false} RouteOk(w: World, links: map<ConnId, Link>, target: Option<ConnId>, ds: seq<Delivery>, sends: nat)
    requires forall c :: c in links ==> LinkOk(w, links[c])
    requires forall d :: d in ds ==> Genuine(w, d)
    ensures var after := Route(links, target, ds, sends); forall c :: c in after ==> LinkOk(w, after[c])
  {
    hide Genuine, Wrote;
  }

  lemma {:induction false} NotifyKeeps(w: World, s: Step)
    requires s.Notify? && Inv(w)
    ensures Inv(DoNotify(w, s)) && Grew(w, DoNotify(w, s))
  {
    hide Fold, DefaultEventId, Causal, Receive, Route, Target, RowsOk, WritesOk, ReturnedOk, LinkOk, Grew, Genuine;
    var v := DoNotify(w, s);
    NotifyKeepsRows(w, s);
    NotifyKeepsReturned(w, s);
    NotifyGrows(w, s);
    WritesGrew(w, v);
    NotifyKeepsLinks(w, v, s);
  }

  lemma {:induction false} NotifyKeepsLinks(w: World, v: World, s: Step)
    requires s.Notify? && v == DoNotify(w, s) && Grew(w, v) && LinksOk(w)
    ensures LinksOk(v)
  {
    hide Fold, DefaultEventId, Receive, Route, Target, LinkOk, Grew, Genuine;
    forall c | c in w.links ensures LinkOk(v, w.links[c]) { LinkGrew(w, v, w.links[c]); }
    if s.disk == Saved {
      NotifiedIsGenuine(w, s);
      RouteOk(v, w.links, Target(w.channel), [DeliveryOf(s.content, s.meta)], s.sends);
    }
  }

  lemma NotifiedIsGenuine(w: World, s: Step)
    requires s.Notify? && s.disk == Saved
    ensures Genuine(DoNotify(w, s), DeliveryOf(s.content, s.meta))
  {
    hide Fold, DefaultEventId, Route, Target, Causal;
    ReceiveEffect(w.log, s.content, s.meta, s.at, s.generation);
    hide Receive;
  }

  lemma {:induction false} BacklogGenuine(w: World)
    requires RowsOk(w)
    ensures forall d :: d in Backlog(w) ==> Genuine(w, d)
  {
    hide DefaultEventId, Fold, Filter;
    var rows := Fold(w.log);
    var pending := Pending(rows);
    forall d | d in Replay(pending) ensures Genuine(w, d) {
      var i :| 0 <= i < |pending| && Replay(pending)[i] == d;
      PendingIn(rows, pending[i]);
    }
  }

  // A rerouting, of the backlog once or twice, under any lease.
  lemma {:induction false} RerouteKeeps(w: World, channel: O.System, ds: seq<Delivery>, sends: nat)
    requires Inv(w) && forall d :: d in ds ==> d in Backlog(w)
    ensures var v := w.(channel := channel, links := Route(w.links, Target(channel), ds, sends)); Inv(v) && Grew(w, v)
  {
    hide Fold, DefaultEventId, Causal, RowsOk, WritesOk, ReturnedOk, Genuine, Wrote, Route, Backlog, Target, Grew;
    BacklogGenuine(w);
    RouteOk(w, w.links, Target(channel), ds, sends);
    SameHistories(w, w.(channel := channel, links := Route(w.links, Target(channel), ds, sends)));
  }

  lemma {:induction false} LinksKeep(w: World, links: map<ConnId, Link>, channel: O.System)
    requires Inv(w)
    requires forall c :: c in links ==> LinkOk(w, links[c])
    ensures Inv(w.(links := links, channel := channel)) && Grew(w, w.(links := links, channel := channel))
  {
    hide Fold, DefaultEventId, Causal, RowsOk, WritesOk, ReturnedOk, LinkOk, Grew;
    SameHistories(w, w.(links := links, channel := channel));
  }

  lemma {:induction false} TakeKeeps(w: World, c: ConnId)
    requires Inv(w)
    ensures Inv(DoTake(w, c)) && Grew(w, DoTake(w, c))
  {
    hide Fold, DefaultEventId, Causal, RowsOk, WritesOk, ReturnedOk, Genuine, Wrote, Grew;
    var v := DoTake(w, c);
    if Open(w, c) && w.links[c].inbox != [] {
      assert LinkOk(w, w.links[c]) && LinkOk(w, v.links[c]);
    }
    LinksKeep(w, v.links, v.channel);
  }

  lemma {:induction false} RefuseKeeps(w: World, c: ConnId, i: nat)
    requires Inv(w)
    ensures Inv(DoRefuse(w, c, i)) && Grew(w, DoRefuse(w, c, i))
  {
    hide Fold, DefaultEventId, Causal, RowsOk, WritesOk, ReturnedOk, Genuine, Wrote, Grew;
    var v := DoRefuse(w, c, i);
    if c in w.links && i < |w.links[c].writing| {
      assert LinkOk(w, w.links[c]) && LinkOk(w, v.links[c]);
    }
    LinksKeep(w, v.links, v.channel);
  }

  lemma {:induction false} AcceptedLinks(w: World, v: World, c: ConnId, i: nat)
    requires c in w.links && i < |w.links[c].writing| && v == DoAccept(w, c, i) && Grew(w, v) && LinksOk(w)
    ensures LinksOk(v)
  {
    hide Fold, DefaultEventId, Genuine, LinkOk, Grew, Wrote, WriteOk;
    AcceptedLink(w, v, w.links[c], i);
    forall k | k in v.links ensures LinkOk(v, v.links[k]) {
      LinkGrew(w, v, w.links[k]);
    }
  }

  lemma {:induction false} AcceptKeeps(w: World, c: ConnId, i: nat)
    requires Inv(w)
    ensures Inv(DoAccept(w, c, i)) && Grew(w, DoAccept(w, c, i))
  {
    hide Fold, DefaultEventId, Causal, FirstReceived, FirstDelivered, RowsOk, WritesOk, ReturnedOk, Genuine, WriteOk;
    var v := DoAccept(w, c, i);
    if c in w.links && i < |w.links[c].writing| {
      var d := w.links[c].writing[i];
      assert LinkOk(w, w.links[c]) && Genuine(w, d);
      assert Grew(w, v);
      hide Grew, LinkOk, LinksOk;
      AcceptedLinks(w, v, c, i);
      NewWriteOk(w, d);
      AcceptedRows(w, v);
    } else {
      SameHistories(w, w);
    }
  }

  lemma NewWriteOk(w: World, d: Delivery)
    requires Causal(w.log) && Genuine(w, d)
    ensures WriteOk(w.log, Write(d, |w.log|))
  {
    hide Fold, DefaultEventId, Causal, FirstReceived, FirstDelivered;
    FoldMeaning(w.log, d.eventId);
    assert w.log[..|w.log|] == w.log;
  }

  lemma {:induction false} AcceptedRows(w: World, v: World)
    requires Grew(w, v) && w.log == v.log && w.returned == v.returned
    requires RowsOk(w) && WritesOk(w) && ReturnedOk(w)
    requires forall x :: x in v.written && x !in w.written ==> WriteOk(w.log, x)
    ensures RowsOk(v) && WritesOk(v) && ReturnedOk(v)
  {
    hide Fold, DefaultEventId, Grew, RowOk, WriteOk;
    forall id | id in Fold(v.log).at ensures RowOk(v, Fold(v.log).at[id]) { RowGrew(w, v, Fold(w.log).at[id]); }
  }

  lemma {:induction false} AcceptedLink(w: World, v: World, l: Link, i: nat)
    requires Grew(w, v) && LinkOk(w, l) && i < |l.writing| && Write(l.writing[i], |w.log|) in v.written
    ensures LinkOk(v, l.(writing := RemoveAt(l.writing, i), acks := l.acks + [l.writing[i].eventId]))
    ensures LinkOk(v, l.(writing := RemoveAt(l.writing, i)))
  {
    hide Fold, DefaultEventId, Grew;
    LinkGrew(w, v, l);
    assert Write(l.writing[i], |w.log|).delivery == l.writing[i];
    assert Wrote(v, l.writing[i].eventId);
    hide Genuine, Wrote;
  }

  lemma {:induction false} AckKeeps(w: World, s: Step)
    requires s.Ack? && Inv(w)
    ensures Inv(DoAck(w, s)) && Grew(w, DoAck(w, s))
  {
    hide Fold, DefaultEventId, Causal, FirstReceived, FirstDelivered;
    var v := DoAck(w, s);
    if Open(w, s.c) && w.links[s.c].acks != [] {
      var l := w.links[s.c];
      assert LinkOk(w, l) && Wrote(w, l.acks[0]);
      MarkEffect(w.log, l.acks[0], s.at);
      assert Grew(w, v);
      WritesGrew(w, v);
      hide MarkDelivered, Wrote, Genuine, WriteOk;
      assert LinkOk(w, l.(acks := l.acks[1..]));
      hide LinkOk, Grew;
      forall k | k in v.links ensures LinkOk(v, v.links[k]) {
        LinkGrew(w, v, w.links[k]);
        LinkGrew(w, v, l.(acks := l.acks[1..]));
      }
      hide LinksOk;
      AckedRows(w, v, l.acks[0], s.at);
      StillReturned(w, v);
    } else {
      SameHistories(w, w);
    }
  }

  lemma StillReturned(w: World, v: World)
    requires Grew(w, v) && w.returned == v.returned && ReturnedOk(w)
    ensures ReturnedOk(v)
  {
    hide Fold;
  }

  lemma {:induction false} AckedRows(w: World, v: World, id: string, at: NumberText)
    requires Grew(w, v) && w.written == v.written && w.returned == v.returned
    requires v.log == w.log || v.log == MarkDelivered(w.log, id, at)
    requires Wrote(w, id) && WritesOk(w) && Causal(w.log)
    requires RowsOk(w)
    ensures RowsOk(v)
  {
    hide Fold, DefaultEventId, MarkDelivered, Wrote, Grew, RowOk, WritesOk, Causal;
    MarkEffect(w.log, id, at);
    forall k | k in Fold(v.log).at ensures Fold(v.log).at[k].eventId == k && RowOk(v, Fold(v.log).at[k]) {
      var r := Fold(w.log).at[k];
      RowGrew(w, v, r);
      if Fold(v.log).at[k] != r { MarkedRowOk(w, v, r, at); }
    }
  }

  lemma {:induction false} MarkedRowOk(w: World, v: World, r: Row, at: NumberText)
    requires Grew(w, v) && w.written == v.written && WritesOk(w) && Causal(w.log)
    requires r.eventId in Fold(w.log).at && Fold(w.log).at[r.eventId] == r && r.deliveredAt.None?
    requires Wrote(w, r.eventId) && RowOk(w, r)
    ensures RowOk(v, r.(deliveredAt := Some(at)))
  {
    hide Fold, DefaultEventId, FirstReceived, FirstDelivered, Causal;
    var x :| x in w.written && x.delivery.eventId == r.eventId;
    assert WriteOk(w.log, x);
    FoldMeaning(w.log, r.eventId);
    UnmarkedBefore(w.log, x.logged, r.eventId);
    WriteGrew(w.log, v.log, x);
  }

  lemma {:induction false} UnmarkedBefore(log: seq<Event>, n: nat, id: string)
    requires n <= |log| && FirstDelivered(log, id).None?
    ensures Unmarked(log, n, id)
  {
    hide FirstDelivered;
    assert log[..n] + log[n..] == log;
    if FirstDelivered(log[..n], id).Some? { FirstDeliveredMore(log[..n], log[n..], id); }
  }

  lemma {:induction false} ClosedLinks(w: World)
    requires LinksOk(w)
    ensures forall c :: c in w.links ==> LinkOk(w, Close(w.links[c]))
  {
    hide Genuine, Wrote;
    forall c | c in w.links ensures LinkOk(w, Close(w.links[c])) { assert LinkOk(w, w.links[c]); }
  }

  lemma {:induction false} StepKeeps(w: World, s: Step)
    requires Inv(w)
    ensures Inv(Next(w, s)) && Grew(w, Next(w, s))
  {
    hide DoNotify, DoTake, DoAccept, DoRefuse, DoAck, Causal, RowsOk, WritesOk, ReturnedOk, Route, Backlog, Target, Fold, Grew;
    ClosedLinks(w);
    LinksKeep(w, w.links, w.channel);
    match s
    case Connect(c) =>
      if c !in w.links {
        assert LinkOk(w, Link(true, [], [], []));
        LinksKeep(w, w.links[c := Link(true, [], [], [])], Next(w, s).channel);
      }
    case Register(_, _, _) => RegisterKeeps(w, s);
    case ToolCall(_, _, _, _) => ToolKeeps(w, s);
    case Notify(_, _, _, _, _, _) => NotifyKeeps(w, s);
    case Take(c) => TakeKeeps(w, c);
    case ClaudeAccepts(c, i) => AcceptKeeps(w, c, i);
    case ClaudeRefuses(c, i) => RefuseKeeps(w, c, i);
    case Ack(_, _, _) => AckKeeps(w, s);
    case Disconnect(c) =>
      hide LinkOk, Close;
      LinksKeep(w, Next(w, s).links, Next(w, s).channel);
    case Restart =>
      hide LinkOk, Close;
      LinksKeep(w, CloseAll(w.links), O.START);
    case Started(sends) => RerouteKeeps(w, w.channel, Backlog(w), sends);
  }

  lemma {:induction false} RegisterKeeps(w: World, s: Step)
    requires s.Register? && Inv(w)
    ensures Inv(DoRegister(w, s)) && Grew(w, DoRegister(w, s))
  {
    hide Inv, Route, Backlog, Target, Grew;
    if Open(w, s.c) {
      RerouteKeeps(w, DoRegister(w, s).channel, Backlog(w), s.sends);
      RerouteKeeps(w, DoRegister(w, s).channel, Backlog(w) + Backlog(w), s.sends);
    } else {
      SameInv(w);
    }
  }

  lemma {:induction false} ToolKeeps(w: World, s: Step)
    requires s.ToolCall? && Inv(w)
    ensures Inv(DoTool(w, s)) && Grew(w, DoTool(w, s))
  {
    hide Inv, Route, Backlog, Target, Grew;
    SameInv(w);
    if Open(w, s.c) {
      RerouteKeeps(w, DoTool(w, s).channel, Backlog(w), s.sends);
      LinksSame(w, DoTool(w, s).channel);
    }
  }

  lemma SameInv(w: World)
    requires Inv(w)
    ensures Grew(w, w)
  {
    hide Inv;
    SameHistories(w, w);
  }

  lemma LinksSame(w: World, channel: O.System)
    requires Inv(w)
    ensures Inv(w.(channel := channel)) && Grew(w, w.(channel := channel))
  {
    hide Causal, RowsOk, WritesOk, ReturnedOk, LinkOk, Grew;
    LinksKeep(w, w.links, channel);
  }

  lemma StartOk()
    ensures Inv(Start())
  {}

  lemma {:induction false} RunKeeps(steps: seq<Step>)
    ensures Inv(Run(steps))
  {
    hide Inv, Next, Start;
    if steps == [] {
      StartOk();
    } else {
      RunKeeps(steps[..|steps| - 1]);
      StepKeeps(Run(steps[..|steps| - 1]), steps[|steps| - 1]);
    }
  }

  // ----- the promises -----

  // A row is marked delivered only after a proxy wrote an event of its id to Claude:
  // the write was accepted when the log already held an event of that id and did
  // not yet hold the mark.
  lemma {:induction false} DeliveredWasWritten(steps: seq<Step>, id: string)
    requires id in Fold(Run(steps).log).at && Fold(Run(steps).log).at[id].deliveredAt.Some?
    ensures exists x ::
      && x in Run(steps).written && x.delivery.eventId == id && DefaultEventId(x.delivery.meta) == id
      && x.logged <= |Run(steps).log| && FirstReceived(Run(steps).log[..x.logged], id).Some?
      && FirstDelivered(Run(steps).log[..x.logged], id).None?
  {
    hide Run, Fold, DefaultEventId, FirstReceived, FirstDelivered;
    RunKeeps(steps);
    var w := Run(steps);
    assert RowOk(w, Fold(w.log).at[id]);
    var x :| x in w.written && x.delivery.eventId == id && WriteOk(w.log, x) && Unmarked(w.log, x.logged, id);
  }

  // The row of an event, the message a proxy is sent and the acknowledgement
  // that comes back carry one id: the one derived from the event's own meta.
  lemma {:induction false} OneIdThroughout(steps: seq<Step>, c: ConnId)
    requires c in Run(steps).links
    ensures var w, l := Run(steps), Run(steps).links[c];
      && (forall d :: d in l.inbox || d in l.writing ==> d.eventId == DefaultEventId(d.meta) && d.eventId in Fold(w.log).at)
      && (forall id :: id in l.acks ==> id in Fold(w.log).at && exists x :: x in w.written && DefaultEventId(x.delivery.meta) == id)
    ensures forall id :: id in Fold(Run(steps).log).at ==> DefaultEventId(Fold(Run(steps).log).at[id].meta) == id
  {
    hide Run, Fold, DefaultEventId, FirstReceived;
    RunKeeps(steps);
    var w, l := Run(steps), Run(steps).links[c];
    assert LinkOk(w, l);
    forall id | id in l.acks ensures id in Fold(w.log).at && exists x :: x in w.written && DefaultEventId(x.delivery.meta) == id {
      var x :| x in w.written && x.delivery.eventId == id;
      assert WriteOk(w.log, x);
      WrittenHasRow(w, x);
    }
  }

  lemma WrittenHasRow(w: World, x: Write)
    requires WriteOk(w.log, x) && Causal(w.log)
    ensures x.delivery.eventId in Fold(w.log).at
  {
    hide Fold, DefaultEventId, FirstReceived, FirstDelivered, Causal;
    FirstReceivedMore(w.log[..x.logged], w.log[x.logged..], x.delivery.eventId);
    assert w.log[..x.logged] + w.log[x.logged..] == w.log;
    FoldMeaning(w.log, x.delivery.eventId);
  }

  lemma {:induction false} RunMore(w: World, steps: seq<Step>, more: seq<Step>)
    ensures RunFrom(w, steps + more) == RunFrom(RunFrom(w, steps), more)
  {
    hide Next;
    if more == [] {
      assert steps + more == steps;
    } else {
      assert (steps + more)[..|steps + more| - 1] == steps + more[..|more| - 1];
      RunMore(w, steps, more[..|more| - 1]);
    }
  }

  lemma StepAppends(w: World, s: Step)
    ensures w.log <= Next(w, s).log && w.returned <= Next(w, s).returned
  {
    hide Fold, Route, Replay, Pending, DefaultEventId, Target, CloseAll;
  }

  lemma {:induction false} RunAppends(w: World, steps: seq<Step>)
    ensures w.log <= RunFrom(w, steps).log && w.returned <= RunFrom(w, steps).returned
  {
    hide Next;
    if steps != [] {
      RunAppends(w, steps[..|steps| - 1]);
      StepAppends(RunFrom(w, steps[..|steps| - 1]), steps[|steps| - 1]);
    }
  }

  lemma {:induction false} FirstReceivedMore(log: seq<Event>, more: seq<Event>, id: string)
    requires FirstReceived(log, id).Some?
    ensures FirstReceived(log + more, id) == FirstReceived(log, id)
  {
    if more == [] {
      assert log + more == log;
    } else {
      assert (log + more)[..|log + more| - 1] == log + more[..|more| - 1];
      FirstReceivedMore(log, more[..|more| - 1], id);
    }
  }

  lemma RunOn(steps: seq<Step>, more: seq<Step>)
    ensures Run(steps + more) == RunFrom(Run(steps), more)
  {
    RunMore(Start(), steps, more);
    hide RunFrom;
  }

  lemma LoggedAndReturned(steps: seq<Step>)
    ensures Causal(Run(steps).log) && ReturnedOk(Run(steps))
  {
    RunKeeps(steps);
    hide Run, Causal, RowsOk, LinksOk, WritesOk, ReturnedOk;
  }

  // An event whose notify returned is in the log for good: whatever happens
  // next, restarts included, its row is there with the content it had.
  lemma {:induction false} ReturnedStays(steps: seq<Step>, more: seq<Step>, id: string)
    requires id in Run(steps).returned
    ensures var before, after := Fold(Run(steps).log).at, Fold(Run(steps + more).log).at;
      && id in before && id in after
      && after[id] == before[id].(deliveredAt := after[id].deliveredAt)
      && (before[id].deliveredAt.Some? ==> after[id].deliveredAt.Some?)
  {
    hide Run, RunFrom, Fold, Causal;
    RunOn(steps, more);
    LoggedAndReturned(steps);
    LoggedAndReturned(steps + more);
    RunAppends(Run(steps), more);
    var a, b := Run(steps).log, Run(steps + more).log;
    assert b == a + b[|a|..];
    RowStays(a, b[|a|..], id);
  }

  lemma {:induction false} RowStays(log: seq<Event>, more: seq<Event>, id: string)
    requires Causal(log) && Causal(log + more) && id in Fold(log).at
    ensures var before, after := Fold(log).at, Fold(log + more).at;
      && id in after && after[id] == before[id].(deliveredAt := after[id].deliveredAt)
      && (before[id].deliveredAt.Some? ==> after[id].deliveredAt.Some?)
  {
    hide Fold, FirstReceived, FirstDelivered, Causal;
    FoldMeaning(log, id);
    FoldMeaning(log + more, id);
    FirstReceivedMore(log, more, id);
    if FirstDelivered(log, id).Some? { FirstDeliveredMore(log, more, id); }
  }

  lemma {:induction false} FirstDeliveredMore(log: seq<Event>, more: seq<Event>, id: string)
    requires FirstDelivered(log, id).Some?
    ensures FirstDelivered(log + more, id) == FirstDelivered(log, id)
  {
    if more == [] {
      assert log + more == log;
    } else {
      assert (log + more)[..|log + more| - 1] == log + more[..|more| - 1];
      FirstDeliveredMore(log, more[..|more| - 1], id);
    }
  }

  // ----- the row of an event is that of its first notify -----

  // The notify put its event into the log, whether or not it returned.
  predicate Logs(s: Step) { s.Notify? && s.disk != Refused }

  // The first notify of the id that did.
  function FirstLogged(steps: seq<Step>, id: string): Option<Step> {
    if steps == [] then None
    else
      var before, s := FirstLogged(steps[..|steps| - 1], id), steps[|steps| - 1];
      if before.Some? then before else if Logs(s) && DefaultEventId(s.meta) == id then Some(s) else None
  }

  ghost predicate RowOf(rows: Rows, id: string, first: Option<Step>) {
    && (id in rows.at <==> first.Some?)
    && (first.Some? ==>
          && first.value.Notify? && rows.at[id].eventId == id
          && rows.at[id].content == first.value.content && rows.at[id].meta == first.value.meta
          && rows.at[id].receivedAt == first.value.at && rows.at[id].byGeneration == first.value.generation)
  }

  lemma LogStep(w: World, s: Step)
    ensures Logs(s) ==> Next(w, s).log == Receive(w.log, s.content, s.meta, s.at, s.generation)
    ensures !Logs(s) ==>
      Next(w, s).log == w.log || (s.Ack? && exists id :: Next(w, s).log == MarkDelivered(w.log, id, s.at))
  {
    hide Fold, Receive, MarkDelivered, Route, Backlog, DefaultEventId, Target, CloseAll, O.Next;
  }

  lemma {:induction false} RowStep(w: World, s: Step, id: string, first: Option<Step>)
    requires RowOf(Fold(w.log), id, first)
    ensures RowOf(Fold(Next(w, s).log), id,
                  if first.None? && Logs(s) && DefaultEventId(s.meta) == id then Some(s) else first)
  {
    hide Fold, Receive, MarkDelivered, Next, DefaultEventId, Causal;
    LogStep(w, s);
    if Logs(s) {
      ReceiveEffect(w.log, s.content, s.meta, s.at, s.generation);
    } else if Next(w, s).log != w.log {
      var k :| Next(w, s).log == MarkDelivered(w.log, k, s.at);
      MarkEffect(w.log, k, s.at);
    }
  }

  // In every run an id has a row exactly when a notify of it got into the log, and
  // the row holds what the first such notify brought.
  lemma {:induction false} RowsAreFirstLogged(steps: seq<Step>, id: string)
    ensures RowOf(Fold(Run(steps).log), id, FirstLogged(steps, id))
  {
    hide Fold, Next, RowOf, DefaultEventId;
    if steps == [] {
      NothingLogged(id);
    } else {
      var p, s := steps[..|steps| - 1], steps[|steps| - 1];
      RowsAreFirstLogged(p, id);
      RowStep(Run(p), s, id, FirstLogged(p, id));
    }
  }

  lemma NothingLogged(id: string)
    ensures RowOf(Fold(Run([]).log), id, None)
  {}

  // No step before the `n`-th, but for the `but`-th, logged an event under the id.
  ghost predicate NewAt(steps: seq<Step>, n: nat, id: string, but: nat) {
    forall k :: 0 <= k < n && k < |steps| && k != but && Logs(steps[k]) ==> DefaultEventId(steps[k].meta) != id
  }

  lemma {:induction false} FirstLoggedAt(steps: seq<Step>, n: nat, id: string)
    requires n < |steps| && Logs(steps[n]) && DefaultEventId(steps[n].meta) == id && NewAt(steps, n, id, n)
    ensures FirstLogged(steps, id) == Some(steps[n])
  {
    hide DefaultEventId;
    var p := steps[..|steps| - 1];
    if n < |p| {
      FirstLoggedAt(p, n, id);
    } else {
      NoneLogged(p, id);
    }
  }

  lemma {:induction false} NoneLogged(steps: seq<Step>, id: string)
    requires NewAt(steps, |steps|, id, |steps|)
    ensures FirstLogged(steps, id) == None
  {
    hide DefaultEventId;
    if steps != [] { NoneLogged(steps[..|steps| - 1], id); }
  }

  // Two chat messages with different message ids, whatever else came before,
  // between and after them: each has a row of its own, with its own content.
  lemma {:induction false} MessagesKeepTheirOwn(steps: seq<Step>, i: nat, j: nat, x: string, y: string)
    requires i < j < |steps| && Logs(steps[i]) && Logs(steps[j])
    requires IsMessage(steps[i].meta, x) && IsMessage(steps[j].meta, y) && x != y
    requires NewAt(steps, i, x, i) && NewAt(steps, j, y, i)
    ensures var rows := Fold(Run(steps).log);
      && x in rows.at && rows.at[x].content == steps[i].content && rows.at[x].meta == steps[i].meta
      && y in rows.at && rows.at[y].content == steps[j].content && rows.at[y].meta == steps[j].meta
  {
    hide DefaultEventId, Run, Fold, IsMessage, Lacks, Carries;
    MessageIds(steps[i].meta, steps[j].meta, x, y);
    MessageId(steps[i].meta, x);
    MessageId(steps[j].meta, y);
    FirstLoggedAt(steps, i, x);
    FirstLoggedAt(steps, j, y);
    RowsAreFirstLogged(steps, x);
    RowsAreFirstLogged(steps, y);
  }

  lemma MessageId(meta: Meta, id: string)
    requires IsMessage(meta, id)
    ensures DefaultEventId(meta) == id
  {
    hide DefaultEventId, Carries, Lacks;
    EventIdWins(meta, id);
  }

  // ----- who is sent what -----

  // The channel knows exactly the connections that are open.
  ghost predicate ChannelKnows(w: World) { forall c :: O.Open(w.channel.conns, c) <==> Open(w, c) }

  lemma ConnsAfter(ch: O.System, e: O.Event)
    ensures var after := O.Next(ch, e).conns;
      forall c :: O.Open(after, c) <==>
        (e.Connect? && c == e.id) || (O.Open(ch.conns, c) && !(e.Close? && c == e.id))
  {
    hide O.Registered, O.Call;
    var before, after := ch.conns, O.Next(ch, e).conns;
    if e.Connect? && !O.Open(before, e.id) {
      assert after[|before|] == O.Connection(e.id, None);
      assert forall i :: 0 <= i < |before| ==> after[i] == before[i];
    }
    if e.Register? {
      AssignKeepsIds(before, e.id, e.session);
    }
    if e.Close? {
      forall c ensures O.Open(after, c) <==> O.Open(before, c) && c != e.id { CloseKeepsOthers(before, e.id, c); }
    }
  }

  lemma AssignKeepsIds(conns: seq<O.Connection>, id: nat, s: O.Session)
    ensures forall c :: O.Open(O.Assign(conns, id, s), c) <==> O.Open(conns, c)
  {
    var after := O.Assign(conns, id, s);
    assert forall i :: 0 <= i < |conns| ==> after[i].id == conns[i].id;
    forall c ensures O.Open(after, c) <==> O.Open(conns, c) {
      if x :| x in conns && x.id == c {
        var i :| 0 <= i < |conns| && conns[i] == x;
        assert after[i] in after;
      }
      if x :| x in after && x.id == c {
        var i :| 0 <= i < |after| && after[i] == x;
        assert conns[i] in conns;
      }
    }
  }

  lemma CloseKeepsOthers(conns: seq<O.Connection>, id: nat, c: nat)
    ensures O.Open(Filter((x: O.Connection) => x.id != id, conns), c) <==> O.Open(conns, c) && c != id
  {
    var kept := Filter((x: O.Connection) => x.id != id, conns);
    hide Filter;
    if x :| x in conns && x.id == c && c != id { assert x in kept; }
  }

  // Which links are open, and what the channel is told.
  lemma OpenAfter(w: World, s: Step)
    ensures forall c :: Open(Next(w, s), c) <==>
      (s.Connect? && c == s.c && c !in w.links) || (Open(w, c) && !s.Restart? && !(s.Disconnect? && c == s.c))
  {
    hide Fold, Receive, MarkDelivered, Backlog, DefaultEventId, Target, O.Next;
  }

  lemma ChannelAfter(w: World, s: Step)
    ensures var ch := Next(w, s).channel;
      match s
      case Connect(c) => ch == if c in w.links then w.channel else O.Next(w.channel, O.Connect(c))
      case Register(c, session, _) => ch == if Open(w, c) then O.Next(w.channel, O.Register(c, session)) else w.channel
      case ToolCall(c, tool, args, _) => ch == if Open(w, c) then O.Next(w.channel, O.ToolCall(c, tool, args)) else w.channel
      case Disconnect(c) => ch == if c in w.links then O.Next(w.channel, O.Close(c)) else w.channel
      case Restart => ch == O.START
      case _ => ch == w.channel
  {
    hide Fold, Receive, MarkDelivered, Backlog, DefaultEventId, Target, O.Next, CloseAll, Route;
  }

  lemma {:induction false} KnowsStep(w: World, s: Step)
    requires ChannelKnows(w)
    ensures ChannelKnows(Next(w, s))
  {
    OpenAfter(w, s);
    ChannelAfter(w, s);
    hide Next, O.Next;
    match s
    case Connect(c) => ConnsAfter(w.channel, O.Connect(c));
    case Register(c, session, _) => ConnsAfter(w.channel, O.Register(c, session));
    case ToolCall(c, tool, args, _) => ConnsAfter(w.channel, O.ToolCall(c, tool, args));
    case Disconnect(c) => ConnsAfter(w.channel, O.Close(c));
    case _ =>
  }

  lemma {:induction false} RunKnows(steps: seq<Step>)
    ensures ChannelKnows(Run(steps))
  {
    hide ChannelKnows, Next;
    if steps == [] {
      StartKnows();
    } else {
      RunKnows(steps[..|steps| - 1]);
      KnowsStep(Run(steps[..|steps| - 1]), steps[|steps| - 1]);
    }
  }

  lemma StartKnows()
    ensures ChannelKnows(Start())
  {}

  // Whomever the owner selects is there to be sent to.
  lemma {:induction false} TargetIsOpen(steps: seq<Step>)
    ensures var w := Run(steps); Target(w.channel).Some? ==> Open(w, Target(w.channel).value)
  {
    hide Run, O.FindSession, Open;
    RunKnows(steps);
    var w := Run(steps);
    if Target(w.channel).Some? {
      var i := O.Select(w.channel.lease, w.channel.conns);
      assert w.channel.conns[i.value] in w.channel.conns;
      assert O.Open(w.channel.conns, Target(w.channel).value);
    }
  }

  // The target's inbox gets `ds` behind what it holds, and nothing else changes.
  ghost predicate SentTo(before: map<ConnId, Link>, after: map<ConnId, Link>, target: Option<ConnId>, ds: seq<Delivery>) {
    && after.Keys == before.Keys
    && forall c :: c in before ==>
         if Some(c) == target then after[c] == before[c].(inbox := before[c].inbox + ds) else after[c] == before[c]
  }

  lemma RouteSends(links: map<ConnId, Link>, target: Option<ConnId>, ds: seq<Delivery>, sends: nat)
    ensures SentTo(links, Route(links, target, ds, sends), target, ds[..Min(sends, |ds|)])
  {}

  // In every reachable state: an event that is persisted goes at once to the one
  // the owner selects, with its own id, content and meta, unless the send throws;
  // nobody else is sent anything, and nobody at all without a target or a saved event.
  lemma {:induction false} NotifyReaches(steps: seq<Step>, s: Step)
    requires s.Notify?
    ensures var w, v := Run(steps), Run(steps + [s]);
      && (Target(w.channel).Some? ==> Target(w.channel).value in w.links)
      && SentTo(w.links, v.links, Target(w.channel),
                if s.disk == Saved && s.sends > 0 then [Delivery(DefaultEventId(s.meta), s.content, s.meta)] else [])
  {
    hide Run, RunFrom, Target, DefaultEventId, Next;
    TargetIsOpen(steps);
    RunOn(steps, [s]);
    RunOnce(Run(steps), s);
    NotifySends(Run(steps), s);
  }

  lemma RunOnce(w: World, s: Step)
    ensures RunFrom(w, [s]) == Next(w, s)
  {
    hide Next;
    assert [s][..0] == [];
  }

  lemma NotifySends(w: World, s: Step)
    requires s.Notify?
    ensures SentTo(w.links, Next(w, s).links, Target(w.channel),
                   if s.disk == Saved && s.sends > 0 then [Delivery(DefaultEventId(s.meta), s.content, s.meta)] else [])
  {
    hide Target, DefaultEventId, Receive, Route;
    var d := DeliveryOf(s.content, s.meta);
    assert [d][..Min(s.sends, 1)] == if s.sends > 0 then [d] else [];
    RouteSends(w.links, Target(w.channel), [d], s.sends);
    SentNothing(w.links, Target(w.channel));
  }

  lemma SentNothing(links: map<ConnId, Link>, target: Option<ConnId>)
    ensures SentTo(links, links, target, [])
  {
    assert forall c :: c in links ==> links[c].inbox + [] == links[c].inbox;
  }

  // In every reachable state: a proxy that registers, new or not, makes the daemon
  // send what is pending to the one who is then selected: once, and once before
  // that when it becomes the owner.
  lemma {:induction false} RegistrationSends(steps: seq<Step>, s: Step)
    requires s.Register? && Open(Run(steps), s.c)
    ensures var w, v := Run(steps), Run(steps + [s]);
      var ds := if s.session.role == O.Dispatcher
                   && (w.channel.lease.owner.None? || w.channel.lease.owner == w.channel.lease.dispatcher)
                then Backlog(w) + Backlog(w) else Backlog(w);
      && v.log == w.log
      && SentTo(w.links, v.links, Target(v.channel), ds[..Min(s.sends, |ds|)])
  {
    hide Run, RunFrom, Target, Next, Backlog;
    RunOn(steps, [s]);
    RunOnce(Run(steps), s);
    RegisterSends(Run(steps), s);
  }

  lemma RegisterSends(w: World, s: Step)
    requires s.Register? && Open(w, s.c)
    ensures var v := Next(w, s);
      var ds := if s.session.role == O.Dispatcher
                   && (w.channel.lease.owner.None? || w.channel.lease.owner == w.channel.lease.dispatcher)
                then Backlog(w) + Backlog(w) else Backlog(w);
      && v.log == w.log
      && SentTo(w.links, v.links, Target(v.channel), ds[..Min(s.sends, |ds|)])
  {
    hide Target, Backlog, Route, SentTo, O.Next;
    var v := Next(w, s);
    RouteSends(w.links, Target(v.channel), Backlog(w), s.sends);
    RouteSends(w.links, Target(v.channel), Backlog(w) + Backlog(w), s.sends);
  }

  // In every reachable state: a call that makes somebody owner sends what is
  // pending to the one who is then selected, in the order of the rows and as far
  // as the sends go; any other call sends nothing, and no call touches the log.
  lemma {:induction false} HandoverSends(steps: seq<Step>, s: Step)
    requires s.ToolCall? && Open(Run(steps), s.c)
    ensures var w, v := Run(steps), Run(steps + [s]);
      var o := O.LastOutcome(v.channel);
      && v.log == w.log
      && SentTo(w.links, v.links, Target(v.channel),
                if o.OwnerNow? || o.Returned? || o.Reclaimed? then Backlog(w)[..Min(s.sends, |Backlog(w)|)] else [])
  {
    hide Run, RunFrom, Target, Next, Backlog;
    RunOn(steps, [s]);
    RunOnce(Run(steps), s);
    ToolSends(Run(steps), s);
  }

  lemma ToolSends(w: World, s: Step)
    requires s.ToolCall? && Open(w, s.c)
    ensures var v := Next(w, s);
      var o := O.LastOutcome(v.channel);
      && v.log == w.log
      && SentTo(w.links, v.links, Target(v.channel),
                if o.OwnerNow? || o.Returned? || o.Reclaimed? then Backlog(w)[..Min(s.sends, |Backlog(w)|)] else [])
  {
    hide Target, Backlog, Route, SentTo, O.Next, O.LastOutcome;
    var v := Next(w, s);
    RouteSends(w.links, Target(v.channel), Backlog(w), s.sends);
    SentNothing(w.links, Target(v.channel));
  }

  // A daemon that has come up sends what is pending to a proxy that was faster.
  lemma {:induction false} StartSends(steps: seq<Step>, sends: nat)
    ensures var w, v := Run(steps), Run(steps + [Started(sends)]);
      v.log == w.log && SentTo(w.links, v.links, Target(w.channel), Backlog(w)[..Min(sends, |Backlog(w)|)])
  {
    hide Run, RunFrom, Target, Backlog, Route;
    RunOn(steps, [Started(sends)]);
    RunOnce(Run(steps), Started(sends));
    RouteSends(Run(steps).links, Target(Run(steps).channel), Backlog(Run(steps)), sends);
  }

  // So the new owner, when it is there, has every pending row's message.
  lemma {:induction false} NewOwnerHasBacklog(steps: seq<Step>, s: Step, r: Row)
    requires s.ToolCall? && Open(Run(steps), s.c) && s.sends >= |Backlog(Run(steps))|
    requires var o := O.LastOutcome(Run(steps + [s]).channel); o.OwnerNow? || o.Returned? || o.Reclaimed?
    requires Target(Run(steps + [s]).channel).Some? && r in Pending(Fold(Run(steps).log))
    ensures var v := Run(steps + [s]);
      var t := Target(v.channel).value;
      t in v.links && Delivery(r.eventId, r.content, r.meta) in v.links[t].inbox
  {
    hide Run, Target, Fold, Pending, Backlog, DefaultEventId, O.LastOutcome;
    HandoverSends(steps, s);
    TargetIsOpen(steps + [s]);
    RunKeeps(steps);
    RowInBacklog(Run(steps), r);
    var b := Backlog(Run(steps));
    assert b[..Min(s.sends, |b|)] == b;
  }

  // ----- no pending row is ever stuck -----

  // One message through a proxy that works: taken, written, acknowledged.
  function Round(c: ConnId, at: NumberText): seq<Step> { [Take(c), ClaudeAccepts(c, 0), Ack(c, at, Saved)] }

  function Rounds(c: ConnId, at: NumberText, n: nat): seq<Step> {
    if n == 0 then [] else Rounds(c, at, n - 1) + Round(c, at)
  }

  lemma {:induction false} RoundEffect(w: World, c: ConnId, at: NumberText)
    requires Open(w, c) && w.links[c].inbox != [] && w.links[c].writing == [] && w.links[c].acks == []
    ensures var v, l := RunFrom(w, Round(c, at)), w.links[c];
      && c in v.links && v.links[c] == l.(inbox := l.inbox[1..])
      && v.log == MarkDelivered(w.log, l.inbox[0].eventId, at)
  {
    var l := w.links[c];
    var d := l.inbox[0];
    var r := Round(c, at);
    RunThree(w, r[0], r[1], r[2]);
    hide RunFrom, MarkDelivered;
    TakeEffect(w, c);
    AcceptEffect(Next(w, r[0]), c, d);
    var w2 := Next(Next(w, r[0]), r[1]);
    hide Next;
    AckEffect(w2, c, at);
  }

  lemma TakeEffect(w: World, c: ConnId)
    requires Open(w, c) && w.links[c].inbox != [] && w.links[c].writing == []
    ensures var v, l := Next(w, Take(c)), w.links[c];
      c in v.links && v.links[c] == l.(inbox := l.inbox[1..], writing := [l.inbox[0]]) && v.log == w.log
  {
    assert [] + [w.links[c].inbox[0]] == [w.links[c].inbox[0]];
  }

  lemma AcceptEffect(w: World, c: ConnId, d: Delivery)
    requires Open(w, c) && w.links[c].writing == [d] && w.links[c].acks == []
    ensures var v, l := Next(w, ClaudeAccepts(c, 0)), w.links[c];
      c in v.links && v.links[c] == l.(writing := [], acks := [d.eventId]) && v.log == w.log
  {
    assert RemoveAt([d], 0) == [];
  }

  lemma AckEffect(w: World, c: ConnId, at: NumberText)
    requires Open(w, c) && |w.links[c].acks| == 1
    ensures var v, l := Next(w, Ack(c, at, Saved)), w.links[c];
      c in v.links && v.links[c] == l.(acks := []) && v.log == MarkDelivered(w.log, l.acks[0], at)
  {
    hide MarkDelivered;
    assert w.links[c].acks[1..] == [];
  }

  lemma RunThree(w: World, a: Step, b: Step, c: Step)
    ensures RunFrom(w, [a, b, c]) == Next(Next(Next(w, a), b), c)
  {
    hide Next;
    assert [a, b, c][..2] == [a, b] && [a, b][..1] == [a] && [a][..0] == [];
    assert RunFrom(w, [a]) == Next(w, a);
    assert RunFrom(w, [a, b]) == Next(Next(w, a), b);
  }

  lemma {:induction false} MarkedNotPending(log: seq<Event>, id: string, at: NumberText, r: Row)
    requires r in Pending(Fold(MarkDelivered(log, id, at)))
    ensures r in Pending(Fold(log)) && r.eventId != id
  {
    hide Fold, MarkDelivered, Pending;
    MarkEffect(log, id, at);
    FoldIds(log);
    PendingIn(Fold(log), r);
    PendingIn(Fold(MarkDelivered(log, id, at)), r);
  }

  // Every pending row still has its message among the last `|ds| - k` of `ds`.
  ghost predicate Covered(log: seq<Event>, ds: seq<Delivery>, k: nat) {
    forall r :: r in Pending(Fold(log)) ==> Awaits(r, ds, k)
  }

  ghost predicate Awaits(r: Row, ds: seq<Delivery>, k: nat) {
    exists j :: k <= j < |ds| && ds[j].eventId == r.eventId
  }

  lemma FirstCovered(log: seq<Event>, ds: seq<Delivery>, k: nat)
    requires Covered(log, ds, k)
    ensures Pending(Fold(log)) != [] ==> Awaits(Pending(Fold(log))[0], ds, k)
  {
    hide Fold, Pending;
  }

  lemma {:induction false} RoundsEffect(w: World, c: ConnId, at: NumberText, k: nat)
    requires Open(w, c) && k <= |w.links[c].inbox| && w.links[c].writing == [] && w.links[c].acks == []
    requires Covered(w.log, w.links[c].inbox, 0)
    ensures var v, l := RunFrom(w, Rounds(c, at, k)), w.links[c];
      && c in v.links && v.links[c] == l.(inbox := l.inbox[k..])
      && Covered(v.log, l.inbox, k)
  {
    hide Next, Fold, Pending, Round;
    var ds := w.links[c].inbox;
    if k == 0 {
      assert ds[0..] == ds;
    } else {
      RoundsEffect(w, c, at, k - 1);
      var u := RunFrom(w, Rounds(c, at, k - 1));
      RunMore(w, Rounds(c, at, k - 1), Round(c, at));
      RoundEffect(u, c, at);
      var v := RunFrom(u, Round(c, at));
      assert ds[k - 1..][1..] == ds[k..];
      hide RunFrom, MarkDelivered;
      forall r | r in Pending(Fold(v.log)) ensures Awaits(r, ds, k) {
        MarkedNotPending(u.log, ds[k - 1].eventId, at, r);
        assert Awaits(r, ds, k - 1);
      }
    }
  }

  // ----- who gets the backlog -----

  // Registering now makes this session's connection the one the owner selects: no
  // live proxy has its id, and it is the owner's own, or a dispatcher's that finds
  // no owner (an empty id counts as none) or the dispatcher before it as owner.
  ghost predicate Wins(l: O.Lease, conns: seq<O.Connection>, s: O.Session) {
    && s.sessionId != ""
    && (forall x :: x in conns && x.session.Some? ==> x.session.value.sessionId != s.sessionId)
    && var ownerless := l.owner.None? || l.owner == Some("");
       if s.role == O.Dispatcher then ownerless || l.owner == l.dispatcher || l.owner == Some(s.sessionId)
       else l.owner == Some(s.sessionId) || (ownerless && l.dispatcher == Some(s.sessionId))
  }

  lemma FindAppended(conns: seq<O.Connection>, x: O.Connection, id: string)
    ensures var r := O.FindSession(conns + [x], id);
      if O.FindSession(conns, id).Some? then r == O.FindSession(conns, id)
      else if x.session.Some? && x.session.value.sessionId == id then r == Some(|conns|)
      else r == None
  {
    hide O.FindSession;
    var all := conns + [x];
    var r := O.FindSession(all, id);
    assert all[|conns|] == x && all[|conns|] in all;
    assert forall i :: 0 <= i < |conns| ==> all[i] == conns[i] && conns[i] in conns && all[i] in all;
  }

  lemma {:induction false} SelectsTheNew(l: O.Lease, conns: seq<O.Connection>, c: ConnId, s: O.Session)
    ensures O.Select(O.Registered(l, s), conns + [O.Connection(c, Some(s))]) == Some(|conns|) <==> Wins(l, conns, s)
  {
    var m, x := O.Registered(l, s), O.Connection(c, Some(s));
    if m.owner.Some? { FindAppended(conns, x, m.owner.value); }
    if m.dispatcher.Some? { FindAppended(conns, x, m.dispatcher.value); }
    hide O.FindSession;
  }

  lemma {:induction false} Joins(ch: O.System, c: ConnId, s: O.Session)
    requires forall x :: x in ch.conns ==> x.id != c
    ensures var after := O.Next(O.Next(ch, O.Connect(c)), O.Register(c, s));
      after.conns == ch.conns + [O.Connection(c, Some(s))] && after.lease == O.Registered(ch.lease, s)
    ensures O.Next(ch, O.Connect(c)).lease == ch.lease
  {
    hide O.Registered;
    var mid := O.Next(ch, O.Connect(c));
    assert mid.conns == ch.conns + [O.Connection(c, None)];
    assert mid.conns[|ch.conns|] in mid.conns && O.Open(mid.conns, c);
    assert forall i :: 0 <= i < |ch.conns| ==> mid.conns[i] == ch.conns[i] && ch.conns[i] in ch.conns;
  }

  lemma {:induction false} RunConnsKeep(steps: seq<Step>)
    ensures ConnsOk(Run(steps))
  {
    hide Run;
    RunKnows(steps);
    forall x | x in Run(steps).channel.conns ensures x.id in Run(steps).links {
      assert O.Open(Run(steps).channel.conns, x.id);
    }
  }

  ghost predicate Idle(l: Link) { l.open && l.writing == [] && l.acks == [] }

  // One round after the other works the inbox off from the front, and forgets no row.
  lemma {:induction false} RoundsWork(w: World, c: ConnId, at: NumberText, k: nat, id: string)
    requires Open(w, c) && k <= |w.links[c].inbox| && w.links[c].writing == [] && w.links[c].acks == []
    ensures var v, l := RunFrom(w, Rounds(c, at, k)), w.links[c];
      && c in v.links && v.links[c] == l.(inbox := l.inbox[k..])
      && (id in Fold(w.log).at ==> id in Fold(v.log).at)
  {
    hide Next, Fold, Round;
    var ds := w.links[c].inbox;
    if k == 0 {
      assert ds[0..] == ds;
    } else {
      RoundsWork(w, c, at, k - 1, id);
      var u := RunFrom(w, Rounds(c, at, k - 1));
      RunMore(w, Rounds(c, at, k - 1), Round(c, at));
      RoundEffect(u, c, at);
      assert ds[k - 1..][1..] == ds[k..];
      hide RunFrom, MarkDelivered;
      MarkEffect(u.log, ds[k - 1].eventId, at);
    }
  }

  lemma {:induction false} LastRoundMarks(w: World, c: ConnId, at: NumberText)
    requires Open(w, c) && w.links[c].inbox != [] && w.links[c].writing == [] && w.links[c].acks == []
    requires var ds := w.links[c].inbox; ds[|ds| - 1].eventId in Fold(w.log).at
    ensures var ds := w.links[c].inbox;
      var id, rows := ds[|ds| - 1].eventId, Fold(RunFrom(w, Rounds(c, at, |ds|)).log);
      id in rows.at && rows.at[id].deliveredAt.Some?
  {
    hide Next, Fold, Round;
    var ds := w.links[c].inbox;
    var k, id := |ds| - 1, ds[|ds| - 1].eventId;
    RoundsWork(w, c, at, k, id);
    var u := RunFrom(w, Rounds(c, at, k));
    RunMore(w, Rounds(c, at, k), Round(c, at));
    assert ds[k..] == [ds[k]];
    RoundEffect(u, c, at);
    hide RunFrom, MarkDelivered;
    MarkEffect(u.log, id, at);
  }

  // From every reachable state with an idle target: when a new event has been
  // persisted and sent, and the target has worked off its inbox, the event's row is
  // marked delivered.
  lemma {:induction false} NotifiedIsDelivered(steps: seq<Step>, s: Step, c: ConnId, at: NumberText)
    requires s.Notify? && s.disk == Saved && s.sends > 0
    requires Target(Run(steps).channel) == Some(c) && c in Run(steps).links && Idle(Run(steps).links[c])
    ensures var v := Run(steps + [s]);
      && c in v.links
      && var id, rows := DefaultEventId(s.meta), Fold(RunFrom(v, Rounds(c, at, |v.links[c].inbox|)).log);
         id in rows.at && rows.at[id].deliveredAt.Some?
  {
    hide Run, Target, DefaultEventId, Next, Fold;
    NotifyReaches(steps, s);
    RowsAreFirstLogged(steps + [s], DefaultEventId(s.meta));
    assert (steps + [s])[..|steps|] == steps;
    LastRoundMarks(Run(steps + [s]), c, at);
  }

  // A new proxy connects and registers its session.
  function Opened(w: World, c: ConnId, s: O.Session): World {
    Next(Next(w, Connect(c)), Register(c, s, 2 * |Backlog(w)|))
  }

  // It works off what it was sent.
  function Worked(w: World, c: ConnId, at: NumberText): World {
    if c in w.links then RunFrom(w, Rounds(c, at, |w.links[c].inbox|)) else w
  }

  // The new connection is sent the whole backlog, once or twice, if it is the one
  // the owner selects, and nothing otherwise.
  lemma {:induction false} OpenedEffect(w: World, c: ConnId, s: O.Session)
    requires c !in w.links && ConnsOk(w)
    ensures var v := Opened(w, c, s);
      && v.log == w.log && c in v.links && Idle(v.links[c])
      && (if Wins(w.channel.lease, w.channel.conns, s) then Backlog(w) <= v.links[c].inbox
          else v.links[c].inbox == [])
      && v.channel.conns == w.channel.conns + [O.Connection(c, Some(s))]
      && v.channel.lease == O.Registered(w.channel.lease, s)
      && (forall d :: d in v.links[c].inbox ==> d in Backlog(w))
  {
    hide Wins, Backlog, O.Select, O.Next, O.Registered, O.TakesOver;
    Joins(w.channel, c, s);
    SelectsTheNew(w.channel.lease, w.channel.conns, c, s);
    var mid := Next(w, Connect(c));
    assert Open(mid, c) && mid.links[c] == Link(true, [], [], []);
    BacklogOf(w, mid);
    var v := Opened(w, c, s);
    var changed := s.role == O.Dispatcher && O.TakesOver(mid.channel.lease);
    var b := Backlog(w);
    var ds := if changed then b + b else b;
    assert v.links == Route(mid.links, Target(v.channel), ds, 2 * |b|);
    assert ds[..Min(2 * |b|, |ds|)] == ds && [] + ds == ds;
    if Target(v.channel).Some? && !Wins(w.channel.lease, w.channel.conns, s) {
      TargetIsOld(v.channel, w.channel.conns, c, s);
    }
  }

  lemma BacklogOf(w: World, v: World)
    requires w.log == v.log
    ensures Backlog(w) == Backlog(v)
  {}

  lemma TargetIsOld(ch: O.System, conns: seq<O.Connection>, c: ConnId, s: O.Session)
    requires ch.conns == conns + [O.Connection(c, Some(s))] && forall x :: x in conns ==> x.id != c
    requires Target(ch).Some? && O.Select(ch.lease, ch.conns) != Some(|conns|)
    ensures Target(ch) != Some(c)
  {
    hide O.FindSession;
    var i := O.Select(ch.lease, ch.conns).value;
    assert ch.conns[i] == conns[i] && conns[i] in conns;
  }

  // With the whole backlog in its inbox, a proxy that works leaves nothing pending.
  lemma {:induction false} WorkedEffect(w: World, b: World, c: ConnId, at: NumberText)
    requires RowsOk(b) && w.log == b.log && c in w.links && Idle(w.links[c])
    requires forall d :: d in Backlog(b) ==> d in w.links[c].inbox
    ensures Pending(Fold(Worked(w, c, at).log)) == []
  {
    hide Next, Fold, Pending, DefaultEventId, Replay;
    var ds := w.links[c].inbox;
    forall r | r in Pending(Fold(w.log)) ensures Awaits(r, ds, 0) {
      RowInBacklog(b, r);
      var j :| 0 <= j < |ds| && ds[j] == DeliveryOf(r.content, r.meta);
    }
    RoundsEffect(w, c, at, |ds|);
    FirstCovered(Worked(w, c, at).log, ds, |ds|);
  }

  lemma RowInBacklog(w: World, r: Row)
    requires RowsOk(w) && r in Pending(Fold(w.log))
    ensures DeliveryOf(r.content, r.meta) in Backlog(w) && DeliveryOf(r.content, r.meta).eventId == r.eventId
  {
    hide Fold, Pending, DefaultEventId;
    var pending := Pending(Fold(w.log));
    PendingIn(Fold(w.log), r);
    var j :| 0 <= j < |pending| && pending[j] == r;
    assert Backlog(w)[j] == DeliveryOf(r.content, r.meta);
    assert RowOk(w, r);
  }

  // From whatever state a run has reached: a new proxy that registers and works off
  // what it is sent gets every pending row delivered if and only if there is none
  // or the owner now selects it.
  lemma {:induction false} RegistrationDelivers(steps: seq<Step>, c: ConnId, s: O.Session, at: NumberText)
    requires c !in Run(steps).links
    ensures var w := Run(steps);
      Pending(Fold(Worked(Opened(w, c, s), c, at).log)) == [] <==>
      Pending(Fold(w.log)) == [] || Wins(w.channel.lease, w.channel.conns, s)
  {
    hide Run, Opened, Wins, Fold, Pending, DefaultEventId, Backlog, Next;
    var w := Run(steps);
    RunKeeps(steps);
    RunConnsKeep(steps);
    OpenedEffect(w, c, s);
    var v := Opened(w, c, s);
    if Wins(w.channel.lease, w.channel.conns, s) {
      WorkedEffect(v, w, c, at);
    } else {
      assert Rounds(c, at, 0) == [];
    }
    if Pending(Fold(w.log)) == [] {
      NoBacklog(w);
      WorkedEffect(v, w, c, at);
    }
  }

  lemma NoBacklog(w: World)
    requires Pending(Fold(w.log)) == []
    ensures Backlog(w) == []
  {}

  const NO_ARGS := O.Args(O.Undefined, O.Undefined)

  // What the new dispatcher gets by reclaiming the channel.
  function Reclaimed(w: World, c: ConnId): World { Next(w, ToolCall(c, O.Reclaim, NO_ARGS, |Backlog(w)|)) }

  lemma {:induction false} ReclaimSelects(ch: O.System, conns: seq<O.Connection>, c: ConnId, s: O.Session)
    requires ch.conns == conns + [O.Connection(c, Some(s))] && ch.lease.dispatcher == Some(s.sessionId)
    requires s.role == O.Dispatcher && s.sessionId != ""
    requires forall x :: x in conns ==> x.id != c
    requires forall x :: x in conns && x.session.Some? ==> x.session.value.sessionId != s.sessionId
    ensures var after := O.Next(ch, O.ToolCall(c, O.Reclaim, NO_ARGS));
      O.LastOutcome(after).Reclaimed? && Target(after) == Some(c) && after.conns == ch.conns
  {
    hide O.FindSession, O.SessionOf;
    SessionOfLast(conns, c, s);
    FindAppended(conns, O.Connection(c, Some(s)), s.sessionId);
    assert O.FindSession(conns, s.sessionId).None?;
  }

  lemma {:induction false} SessionOfLast(conns: seq<O.Connection>, c: ConnId, s: O.Session)
    requires forall x :: x in conns ==> x.id != c
    ensures O.SessionOf(conns + [O.Connection(c, Some(s))], c) == Some(s)
  {
    var all := conns + [O.Connection(c, Some(s))];
    if conns != [] {
      assert all[0] == conns[0] && conns[0] in conns;
      assert all[1..] == conns[1..] + [O.Connection(c, Some(s))];
      SessionOfLast(conns[1..], c, s);
    }
  }

  // Nothing stays stuck: whoever owns the channel, present or gone, a new dispatcher
  // under an id that no live proxy has can reclaim it and get every pending row delivered.
  lemma {:induction false} NothingIsStuck(steps: seq<Step>, c: ConnId, s: O.Session, at: NumberText)
    requires c !in Run(steps).links && s.role == O.Dispatcher && s.sessionId != ""
    requires forall x :: x in Run(steps).channel.conns && x.session.Some? ==> x.session.value.sessionId != s.sessionId
    ensures Pending(Fold(Worked(Reclaimed(Opened(Run(steps), c, s), c), c, at).log)) == []
  {
    hide Run, Opened, Wins, Fold, Pending, DefaultEventId, Backlog;
    var w := Run(steps);
    RunKeeps(steps);
    RunConnsKeep(steps);
    OpenedEffect(w, c, s);
    var v := Opened(w, c, s);
    BacklogOf(w, v);
    RegisteredDispatcher(w.channel.lease, s);
    ReclaimSelects(v.channel, w.channel.conns, c, s);
    hide O.Next, O.Registered;
    var u := Reclaimed(v, c);
    var b := Backlog(v);
    assert b[..Min(|b|, |b|)] == b;
    assert u.links[c] == v.links[c].(inbox := v.links[c].inbox + b) && u.log == w.log;
    hide Next;
    WorkedEffect(u, w, c, at);
  }

  lemma RegisteredDispatcher(l: O.Lease, s: O.Session)
    requires s.role == O.Dispatcher
    ensures O.Registered(l, s).dispatcher == Some(s.sessionId)
  {}
}
