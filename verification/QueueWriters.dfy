// Several daemons appending to one queue file. Each looks at the file and appends
// to it in two separate steps, so another daemon's append may come in between.

module QueueWriters {
  import opened Prelude
  import opened QueueEvents

  // A call of `enqueue` or `markDelivered` is written as the event it would append.
  predicate Wanted(rows: Rows, call: Event) {
    if call.Received? then call.eventId !in rows.at
    else call.eventId in rows.at && rows.at[call.eventId].deliveredAt.None?
  }

  datatype Step =
    | Check(writer: nat, call: Event)
    | Write(writer: nat)

  // `decided` holds the writers that are between their two steps, `enqueued` the
  // ids some call wanted queued, and `marked` the ids some call found and wanted
  // delivered.
  datatype State = State(log: seq<Event>, decided: map<nat, Event>, enqueued: set<string>, marked: set<string>)

  function Next(s: State, step: Step): State {
    match step
    case Check(w, call) =>
      if w in s.decided then s
      else
        var rows := Fold(s.log);
        s.(decided := if Wanted(rows, call) then s.decided[w := call] else s.decided,
           enqueued := if call.Received? then s.enqueued + {call.eventId} else s.enqueued,
           marked := if call.Delivered? && call.eventId in rows.at then s.marked + {call.eventId} else s.marked)
    case Write(w) =>
      if w !in s.decided then s
      else s.(log := s.log + [s.decided[w]], decided := s.decided - {w})
  }

  function Run(steps: seq<Step>): State {
    if steps == [] then State([], map[], {}, {})
    else Next(Run(steps[..|steps| - 1]), steps[|steps| - 1])
  }

  predicate HasReceived(log: seq<Event>, id: string) { FirstReceived(log, id).Some? }
  predicate HasDelivered(log: seq<Event>, id: string) { FirstDelivered(log, id).Some? }

  ghost predicate Deciding(decided: map<nat, Event>, received: bool, id: string) {
    exists w :: w in decided && decided[w].Received? == received && decided[w].eventId == id
  }

  ghost predicate MarksFound(s: State) {
    forall w :: w in s.decided && s.decided[w].Delivered? ==> HasReceived(s.log, s.decided[w].eventId)
  }

  ghost predicate QueuedTold(s: State, id: string) {
    id in s.enqueued <==> HasReceived(s.log, id) || Deciding(s.decided, true, id)
  }

  ghost predicate MarkedTold(s: State, id: string) {
    id in s.marked <==> HasDelivered(s.log, id) || Deciding(s.decided, false, id)
  }

  ghost predicate Inv(s: State) {
    && Causal(s.log)
    && MarksFound(s)
    && (forall id :: QueuedTold(s, id))
    && (forall id :: MarkedTold(s, id))
  }

  lemma {:induction false} HasSnoc(log: seq<Event>, e: Event, id: string)
    ensures HasReceived(log + [e], id) <==> HasReceived(log, id) || (e.Received? && e.eventId == id)
    ensures HasDelivered(log + [e], id) <==> HasDelivered(log, id) || (e.Delivered? && e.eventId == id)
  {
    assert (log + [e])[..|log|] == log;
  }

  lemma {:induction false} CheckDeciding(s: State, w: nat, call: Event, id: string, b: bool)
    requires w !in s.decided
    ensures var t := Next(s, Check(w, call));
      Deciding(t.decided, b, id) <==>
      Deciding(s.decided, b, id) || (w in t.decided && call.Received? == b && call.eventId == id)
  {
    hide Fold, Wanted;
    var t := Next(s, Check(w, call));
    if w in t.decided && call.Received? == b && call.eventId == id { assert t.decided[w] == call; }
    if Deciding(s.decided, b, id) {
      var v :| v in s.decided && s.decided[v].Received? == b && s.decided[v].eventId == id;
      assert t.decided[v] == s.decided[v];
    }
  }

  // What a check sees, in terms of the log.
  lemma CheckEffect(s: State, w: nat, call: Event)
    requires Causal(s.log) && w !in s.decided
    ensures var t := Next(s, Check(w, call));
      && t.log == s.log && (forall v :: v in t.decided && v != w ==> v in s.decided && t.decided[v] == s.decided[v])
      && (w in t.decided <==>
            if call.Received? then !HasReceived(s.log, call.eventId)
            else HasReceived(s.log, call.eventId) && !HasDelivered(s.log, call.eventId))
      && (w in t.decided ==> t.decided[w] == call)
      && (forall id :: id in t.enqueued <==> id in s.enqueued || (call.Received? && id == call.eventId))
      && (forall id :: id in t.marked <==>
            id in s.marked || (call.Delivered? && id == call.eventId && HasReceived(s.log, id)))
  {
    hide Fold, FirstReceived, FirstDelivered, Causal;
    FoldMeaning(s.log, call.eventId);
  }

  lemma {:induction false} CheckKeeps(s: State, w: nat, call: Event)
    requires Inv(s) && w !in s.decided
    ensures Inv(Next(s, Check(w, call)))
  {
    hide Next, HasReceived, HasDelivered, Deciding, Causal;
    var t := Next(s, Check(w, call));
    CheckEffect(s, w, call);
    forall id ensures QueuedTold(t, id) {
      assert QueuedTold(s, id);
      CheckDeciding(s, w, call, id, true);
    }
    forall id ensures MarkedTold(t, id) {
      assert MarkedTold(s, id);
      CheckDeciding(s, w, call, id, false);
    }
  }

  lemma {:induction false} WriteDeciding(s: State, w: nat, id: string, b: bool)
    requires w in s.decided
    ensures Deciding(s.decided, b, id) <==>
      Deciding(s.decided - {w}, b, id) || (s.decided[w].Received? == b && s.decided[w].eventId == id)
  {
    var t := s.decided - {w};
    if Deciding(s.decided, b, id) {
      var v :| v in s.decided && s.decided[v].Received? == b && s.decided[v].eventId == id;
      if v != w { assert t[v] == s.decided[v]; }
    }
    if Deciding(t, b, id) {
      var v :| v in t && t[v].Received? == b && t[v].eventId == id;
      assert t[v] == s.decided[v];
    }
  }

  lemma {:induction false} WriteKeeps(s: State, w: nat)
    requires Inv(s) && w in s.decided
    ensures Inv(Next(s, Write(w)))
  {
    var e := s.decided[w];
    var t := Next(s, Write(w));
    assert Causal(t.log) by { assert t.log[..|s.log|] == s.log; }
    hide Next, HasReceived, HasDelivered, Deciding, Causal;
    WriteEffect(s, w);
    forall id ensures QueuedTold(t, id) {
      assert QueuedTold(s, id);
      HasSnoc(s.log, e, id);
      WriteDeciding(s, w, id, true);
    }
    forall id ensures MarkedTold(t, id) {
      assert MarkedTold(s, id);
      HasSnoc(s.log, e, id);
      WriteDeciding(s, w, id, false);
    }
    forall v | v in t.decided && t.decided[v].Delivered? ensures HasReceived(t.log, t.decided[v].eventId) {
      HasSnoc(s.log, e, t.decided[v].eventId);
    }
  }

  lemma WriteEffect(s: State, w: nat)
    requires w in s.decided
    ensures Next(s, Write(w)) == s.(log := s.log + [s.decided[w]], decided := s.decided - {w})
  {}

  lemma {:induction false} RunKeeps(steps: seq<Step>)
    ensures Inv(Run(steps))
  {
    if steps != [] {
      RunKeeps(steps[..|steps| - 1]);
      var s := Run(steps[..|steps| - 1]);
      match steps[|steps| - 1]
      case Check(w, call) => if w !in s.decided { CheckKeeps(s, w, call); }
      case Write(w) => if w in s.decided { WriteKeeps(s, w); }
    }
  }

  // However the steps of the writers interleave, an id has one row, with the first
  // content received and the first time delivered, and the pending rows are
  // exactly those received and not delivered.
  lemma {:induction false} RowsOfAnyInterleaving(steps: seq<Step>, id: string, r: Row)
    ensures var log := Run(steps).log;
      && (id in Fold(log).at <==> FirstReceived(log, id).Some?)
      && (id in Fold(log).at ==>
            Fold(log).at[id] == FirstReceived(log, id).value.(deliveredAt := FirstDelivered(log, id)))
      && (r in Pending(Fold(log)) <==>
            FirstReceived(log, r.eventId) == Some(r) && FirstDelivered(log, r.eventId).None?)
  {
    hide Fold, FirstReceived, FirstDelivered, Pending, Run;
    RunKeeps(steps);
    FoldMeaning(Run(steps).log, id);
    PendingMeaning(Run(steps).log, r);
  }

  lemma {:induction false} PendingId(s: State, id: string)
    requires Inv(s) && s.decided == map[]
    ensures id in s.enqueued - s.marked <==> HasReceived(s.log, id) && !HasDelivered(s.log, id)
  {
    hide Causal, HasReceived, HasDelivered;
    assert QueuedTold(s, id) && MarkedTold(s, id);
  }

  lemma {:induction false} PendingHasId(log: seq<Event>, id: string)
    requires Causal(log)
    ensures (exists r :: r in Pending(Fold(log)) && r.eventId == id) <==> HasReceived(log, id) && !HasDelivered(log, id)
  {
    hide Fold, FirstReceived, FirstDelivered, Pending, Causal;
    if r :| r in Pending(Fold(log)) && r.eventId == id {
      PendingMeaning(log, r);
    }
    if HasReceived(log, id) && !HasDelivered(log, id) {
      var r := FirstReceived(log, id).value;
      FirstReceivedRow(log, id);
      PendingMeaning(log, r);
      assert r in Pending(Fold(log)) && r.eventId == id;
    }
  }

  // Once no writer is between its steps, the ids that are pending are those queued
  // without those marked.
  lemma {:induction false} PendingOfAnyInterleaving(steps: seq<Step>)
    requires Run(steps).decided == map[]
    ensures var s := Run(steps);
      (set r | r in Pending(Fold(s.log)) :: r.eventId) == s.enqueued - s.marked
  {
    RunKeeps(steps);
    hide Fold, HasReceived, HasDelivered, Pending, Run, Causal, QueuedTold, MarkedTold, MarksFound;
    var s := Run(steps);
    forall id ensures (exists r :: r in Pending(Fold(s.log)) && r.eventId == id) <==> id in s.enqueued - s.marked {
      PendingHasId(s.log, id);
      PendingId(s, id);
    }
  }

  // ----- the order of the steps is gone -----

  // The calls of a run. A writer that is between its steps starts no other.
  function Calls(steps: seq<Step>): set<Event> {
    if steps == [] then {}
    else
      var p, last := steps[..|steps| - 1], steps[|steps| - 1];
      Calls(p) + if last.Check? && last.writer !in Run(p).decided then {last.call} else {}
  }

  // Each call that marks an event looks at a log that holds the event.
  ghost predicate MarksFollow(steps: seq<Step>) {
    steps != [] ==>
      var p, last := steps[..|steps| - 1], steps[|steps| - 1];
      && MarksFollow(p)
      && (last.Check? && last.call.Delivered? ==> HasReceived(Run(p).log, last.call.eventId))
  }

  function QueuedIds(calls: set<Event>): set<string> { set e | e in calls && e.Received? :: e.eventId }

  function MarkedIds(calls: set<Event>): set<string> { set e | e in calls && e.Delivered? :: e.eventId }

  lemma {:induction false} CallsTell(steps: seq<Step>)
    ensures Run(steps).enqueued == QueuedIds(Calls(steps))
    ensures MarksFollow(steps) ==> Run(steps).marked == MarkedIds(Calls(steps))
  {
    if steps != [] {
      var p, last := steps[..|steps| - 1], steps[|steps| - 1];
      CallsTell(p);
      RunKeeps(p);
      hide Fold, FirstReceived, FirstDelivered, Causal, Wanted, QueuedIds, MarkedIds, QueuedTold, MarkedTold, MarksFound;
      match last
      case Check(w, call) =>
        CallsMore(Calls(p), call);
        if w !in Run(p).decided { CheckEffect(Run(p), w, call); }
      case Write(_) =>
    }
  }

  lemma CallsMore(calls: set<Event>, e: Event)
    ensures QueuedIds(calls + {e}) == QueuedIds(calls) + if e.Received? then {e.eventId} else {}
    ensures MarkedIds(calls + {e}) == MarkedIds(calls) + if e.Delivered? then {e.eventId} else {}
    ensures calls + {} == calls
  {}

  // Two schedules of the same calls that both come to rest, and in which marks
  // follow what they mark, leave the same ids pending: those queued by some call
  // and marked by none.
  lemma {:induction false} SchedulesAgree(a: seq<Step>, b: seq<Step>)
    requires Calls(a) == Calls(b)
    requires Run(a).decided == map[] && Run(b).decided == map[] && MarksFollow(a) && MarksFollow(b)
    ensures (set r | r in Pending(Fold(Run(a).log)) :: r.eventId) == QueuedIds(Calls(a)) - MarkedIds(Calls(a))
    ensures (set r | r in Pending(Fold(Run(a).log)) :: r.eventId) == (set r | r in Pending(Fold(Run(b).log)) :: r.eventId)
  {
    hide Run, Fold, Pending, Calls, MarksFollow;
    PendingOfAnyInterleaving(a);
    PendingOfAnyInterleaving(b);
    CallsTell(a);
    CallsTell(b);
  }
}
