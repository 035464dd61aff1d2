// Tool calls that a proxy forwards to the daemon: the waiting calls of one
// client, and what becomes of each of them over whole runs.

module ToolCalls {
  import opened Prelude
  import opened Json

  // The one answer the daemon gives to a call it ran.
  datatype Answer = Succeeded(result: Json) | Failed(error: string)

  // How the promise of a call ends.
  datatype Ending = Answered(answer: Answer) | Closed

  datatype Settlement = Settlement(id: nat, ending: Ending)

  datatype Call = Call(id: nat, name: string, args: Json)

  datatype Client = Client(pending: seq<nat>, nextId: nat, disconnected: bool, settled: seq<Settlement>)

  function EndAll(ids: seq<nat>): (r: seq<Settlement>)
    ensures |r| == |ids| && forall i :: 0 <= i < |r| ==> r[i] == Settlement(ids[i], Closed)
  {
    seq(|ids|, i requires 0 <= i < |ids| => Settlement(ids[i], Closed))
  }

  function Issue(c: Client): Client {
    if c.disconnected then c else c.(pending := c.pending + [c.nextId], nextId := c.nextId + 1)
  }

  function Settle(c: Client, id: nat, a: Answer): Client {
    if c.disconnected || id !in c.pending then c
    else c.(pending := Without(c.pending, id), settled := c.settled + [Settlement(id, Answered(a))])
  }

  function Shut(c: Client): Client {
    if c.disconnected then c else Client([], c.nextId, true, c.settled + EndAll(c.pending))
  }

  class ProxyClient {
    var pending: seq<nat>
    var nextId: nat
    var disconnected: bool
    // The calls sent to the daemon and the promises settled, in order.
    var sent: seq<Call>
    var settled: seq<Settlement>

    constructor ()
      ensures State() == Client([], 1, false, []) && sent == []
    {
      pending, nextId, disconnected, sent, settled := [], 1, false, [], [];
    }

    function State(): Client
      reads this
    {
      Client(pending, nextId, disconnected, settled)
    }

    // Without a value the promise was rejected at once.
    method CallTool(name: string, args: Json) returns (id: Option<nat>)
      modifies this
      ensures State() == Issue(old(State()))
      ensures id == if old(disconnected) then None else Some(old(nextId))
      ensures sent == if old(disconnected) then old(sent) else old(sent) + [Call(old(nextId), name, args)]
    {
      if disconnected { return None; }
      id := Some(nextId);
      nextId := nextId + 1;
      pending := pending + [id.value];
      sent := sent + [Call(id.value, name, args)];
    }

    method Disconnect()
      modifies this
      ensures State() == Shut(old(State()))
      ensures sent == old(sent)
    {
      if disconnected { return; }
      disconnected := true;
      var i := 0;
      assert settled + EndAll(pending)[..0] == settled;
      while i < |pending|
        invariant 0 <= i <= |pending|
        invariant pending == old(pending) && nextId == old(nextId) && disconnected && sent == old(sent)
        invariant settled == old(settled) + EndAll(pending)[..i]
      {
        assert EndAll(pending)[..i + 1] == EndAll(pending)[..i] + [Settlement(pending[i], Closed)];
        settled := settled + [Settlement(pending[i], Closed)];
        i := i + 1;
      }
      assert EndAll(pending)[..i] == EndAll(pending);
      pending := [];
    }

    method HandleToolResult(id: nat, answer: Answer) returns (known: bool)
      modifies this
      ensures State() == Settle(old(State()), id, answer)
      ensures known == (!old(disconnected) && id in old(pending))
      ensures sent == old(sent)
    {
      if disconnected || id !in pending { return false; }
      pending := Without(pending, id);
      settled := settled + [Settlement(id, Answered(answer))];
      return true;
    }
  }

  // ----- whole runs -----

  // A call the daemon ran to its end, and the message that goes back for it.
  datatype Ran = Ran(call: Call, answer: Answer)

  datatype Reply = Reply(id: nat, answer: Answer)

  // `outgoing` and `incoming` are what the socket carries; `running` are the calls
  // the daemon works on side by side. `made` and `answers` are histories: the calls
  // forwarded and the calls answered.
  datatype World = World(client: Client, live: bool, outgoing: seq<Call>, running: seq<Call>, incoming: seq<Reply>,
                         made: seq<Call>, answers: seq<Ran>)

  // `Break` is the socket dying before the client learns of it.
  datatype Step =
    | CallTool(name: string, args: Json)
    | Begin
    | Finish(i: nat, answer: Answer)
    | Hear
    | Break
    | Disconnect

  function DoCall(w: World, call: Call): World {
    w.(client := Issue(w.client), made := w.made + [call],
       outgoing := if w.live then w.outgoing + [call] else w.outgoing)
  }

  function DoFinish(w: World, i: nat, answer: Answer): World
    requires i < |w.running|
  {
    var call := w.running[i];
    w.(running := w.running[..i] + w.running[i + 1..],
       answers := w.answers + [Ran(call, answer)],
       incoming := if w.live then w.incoming + [Reply(call.id, answer)] else w.incoming)
  }

  function Next(w: World, s: Step): World {
    match s
    case CallTool(name, args) => if w.client.disconnected then w else DoCall(w, Call(w.client.nextId, name, args))
    case Begin =>
      if w.outgoing == [] then w else w.(outgoing := w.outgoing[1..], running := w.running + [w.outgoing[0]])
    case Finish(i, answer) => if i >= |w.running| then w else DoFinish(w, i, answer)
    case Hear =>
      if w.incoming == [] then w
      else w.(client := Settle(w.client, w.incoming[0].id, w.incoming[0].answer), incoming := w.incoming[1..])
    case Break => w.(live := false, outgoing := [], incoming := [])
    case Disconnect => w.(client := Shut(w.client), live := false, outgoing := [], incoming := [])
  }

  function Start(): World { World(Client([], 1, false, []), true, [], [], [], [], []) }

  function Run(steps: seq<Step>): World {
    if steps == [] then Start() else Next(Run(steps[..|steps| - 1]), steps[|steps| - 1])
  }

  // ----- counting ids -----

  function IdsOf<T>(id: T -> nat, s: seq<T>): multiset<nat> {
    if s == [] then multiset{} else IdsOf(id, s[..|s| - 1]) + multiset{id(s[|s| - 1])}
  }

  lemma {:induction false} IdsAppend<T>(id: T -> nat, a: seq<T>, b: seq<T>)
    ensures IdsOf(id, a + b) == IdsOf(id, a) + IdsOf(id, b)
  {
    if b == [] {
      assert a + b == a;
    } else {
      SplitLast(a, b);
      assert (a + b)[..|a + b| - 1] == a + b[..|b| - 1];
      IdsAppend(id, a, b[..|b| - 1]);
    }
  }

  lemma IdsOne<T>(id: T -> nat, x: T)
    ensures IdsOf(id, [x]) == multiset{id(x)}
  {
    assert [x][..0] == [];
  }

  lemma {:induction false} IdsRemove<T>(id: T -> nat, s: seq<T>, i: nat)
    requires i < |s|
    ensures IdsOf(id, s) == IdsOf(id, s[..i] + s[i + 1..]) + multiset{id(s[i])}
  {
    assert s == s[..i] + [s[i]] + s[i + 1..];
    IdsAppend(id, s[..i] + [s[i]], s[i + 1..]);
    IdsAppend(id, s[..i], [s[i]]);
    IdsAppend(id, s[..i], s[i + 1..]);
    IdsOne(id, s[i]);
  }

  lemma {:induction false} IdsAt<T>(id: T -> nat, s: seq<T>, n: nat)
    ensures n in IdsOf(id, s) <==> exists i :: 0 <= i < |s| && id(s[i]) == n
  {
    if s != [] {
      IdsAt(id, s[..|s| - 1], n);
      if i :| 0 <= i < |s| && id(s[i]) == n {
        if i < |s| - 1 { assert s[..|s| - 1][i] == s[i]; }
      }
    }
  }

  lemma {:induction false} IdsTwice<T>(id: T -> nat, s: seq<T>, i: nat, j: nat)
    requires i < j < |s| && id(s[i]) == id(s[j])
    ensures IdsOf(id, s)[id(s[i])] >= 2
  {
    IdsRemove(id, s, j);
    var r := s[..j] + s[j + 1..];
    IdsAt(id, r, id(s[i]));
    assert r[i] == s[i];
  }

  function CallId(c: Call): nat { c.id }
  function ReplyId(r: Reply): nat { r.id }
  function RanId(r: Ran): nat { r.call.id }
  function SettledId(s: Settlement): nat { s.id }
  function Self(n: nat): nat { n }

  lemma {:induction false} WithoutIds(s: seq<nat>, x: nat)
    requires x in s && IdsOf(Self, s)[x] == 1
    ensures IdsOf(Self, s) == IdsOf(Self, Without(s, x)) + multiset{x}
  {
    var p, e := s[..|s| - 1], s[|s| - 1];
    SplitLast([], s);
    WithoutSnoc(p, e, x);
    if e == x {
      IdsAt(Self, p, x);
      assert forall i :: 0 <= i < |p| ==> Self(p[i]) == p[i];
      assert x !in p;
    } else {
      WithoutIds(p, x);
      IdsAppend(Self, Without(p, x), [e]);
      IdsOne(Self, e);
    }
  }

  lemma {:induction false} EndAllIds(ids: seq<nat>)
    ensures IdsOf(SettledId, EndAll(ids)) == IdsOf(Self, ids)
  {
    if ids != [] {
      assert EndAll(ids)[..|ids| - 1] == EndAll(ids[..|ids| - 1]);
      EndAllIds(ids[..|ids| - 1]);
    }
  }

  // ----- the invariant -----

  // Every forwarded call is waiting or settled, and only once.
  ghost predicate Conserved(w: World) {
    && IdsOf(Self, w.client.pending) + IdsOf(SettledId, w.client.settled) == IdsOf(CallId, w.made)
    && w.client.nextId == |w.made| + 1
    && forall i :: 0 <= i < |w.made| ==> w.made[i].id == i + 1
  }

  // On a live socket every waiting call is somewhere on its way.
  ghost predicate UnderWay(w: World) {
    && (w.client.disconnected ==> w.client.pending == [] && !w.live)
    && (!w.live ==> w.outgoing == [] && w.incoming == [])
    && (w.live ==>
         IdsOf(CallId, w.outgoing) + IdsOf(CallId, w.running) + IdsOf(ReplyId, w.incoming) == IdsOf(Self, w.client.pending))
  }

  ghost predicate RanOnce(w: World) {
    IdsOf(CallId, w.outgoing) + IdsOf(CallId, w.running) + IdsOf(RanId, w.answers) <= IdsOf(CallId, w.made)
  }

  ghost predicate AnsweredAs(w: World, id: nat, answer: Answer) {
    exists r :: r in w.answers && r.call.id == id && r.answer == answer
  }

  ghost predicate Honest(w: World) {
    && (forall c :: c in w.outgoing || c in w.running ==> c in w.made)
    && (forall r :: r in w.answers ==> r.call in w.made)
    && (forall r :: r in w.incoming ==> AnsweredAs(w, r.id, r.answer))
    && (forall s :: s in w.client.settled ==> if s.ending.Closed? then w.client.disconnected else AnsweredAs(w, s.id, s.ending.answer))
  }

  ghost predicate Inv(w: World) { Conserved(w) && UnderWay(w) && RanOnce(w) && Honest(w) }

  lemma {:induction false} CountsAtMostOne<T>(id: T -> nat, s: seq<T>, n: nat)
    requires forall i :: 0 <= i < |s| ==> id(s[i]) == i + 1
    ensures IdsOf(id, s)[n] == if 1 <= n <= |s| then 1 else 0
  {
    if s != [] { CountsAtMostOne(id, s[..|s| - 1], n); }
  }

  lemma {:induction false} CallKeeps(w: World, call: Call)
    requires Inv(w) && !w.client.disconnected && call.id == w.client.nextId
    ensures Inv(DoCall(w, call))
  {
    hide IdsOf;
    IdsAppend(CallId, w.made, [call]);
    IdsAppend(CallId, w.outgoing, [call]);
    IdsAppend(Self, w.client.pending, [call.id]);
    IdsOne(CallId, call);
    IdsOne(Self, call.id);
    assert Honest(DoCall(w, call)) by { CallIsHonest(w, call); }
    hide Honest;
  }

  lemma CallIsHonest(w: World, call: Call)
    requires Honest(w) && !w.client.disconnected
    ensures Honest(DoCall(w, call))
  {
    assert forall id, a :: AnsweredAs(w, id, a) ==> AnsweredAs(DoCall(w, call), id, a);
  }

  lemma {:induction false} BeginKeeps(w: World)
    requires Inv(w) && w.outgoing != []
    ensures Inv(Next(w, Begin))
  {
    hide IdsOf, AnsweredAs;
    var call := w.outgoing[0];
    var v := Next(w, Begin);
    IdsRemove(CallId, w.outgoing, 0);
    assert w.outgoing[..0] + w.outgoing[1..] == w.outgoing[1..];
    IdsAppend(CallId, w.running, [call]);
    IdsOne(CallId, call);
    assert Honest(v) by { SameAnswers(w, v); }
    hide Honest;
  }

  lemma SameAnswers(w: World, v: World)
    requires forall r :: r in w.answers ==> r in v.answers
    ensures forall id, a :: AnsweredAs(w, id, a) ==> AnsweredAs(v, id, a)
  {}

  lemma {:induction false} FinishKeeps(w: World, i: nat, answer: Answer)
    requires Inv(w) && i < |w.running|
    ensures Inv(DoFinish(w, i, answer))
  {
    hide IdsOf, AnsweredAs;
    var call := w.running[i];
    var v := DoFinish(w, i, answer);
    IdsRemove(CallId, w.running, i);
    IdsAppend(RanId, w.answers, [Ran(call, answer)]);
    IdsOne(RanId, Ran(call, answer));
    IdsAppend(ReplyId, w.incoming, [Reply(call.id, answer)]);
    IdsOne(ReplyId, Reply(call.id, answer));
    assert Honest(v) by {
      SameAnswers(w, v);
      assert Ran(call, answer) in v.answers;
      assert AnsweredAs(v, call.id, answer) by { Witnessed(v, Ran(call, answer)); }
    }
    hide Honest;
  }

  lemma Witnessed(w: World, r: Ran)
    requires r in w.answers
    ensures AnsweredAs(w, r.call.id, r.answer)
  {}

  lemma {:induction false} HearConserves(w: World)
    requires Conserved(w) && UnderWay(w) && w.incoming != []
    ensures Conserved(Next(w, Hear)) && UnderWay(Next(w, Hear))
  {
    hide IdsOf, Without;
    var r := w.incoming[0];
    CountsAtMostOne(CallId, w.made, r.id);
    IdsRemove(ReplyId, w.incoming, 0);
    assert w.incoming[..0] + w.incoming[1..] == w.incoming[1..];
    Waits(w.client.pending, r.id);
    WithoutIds(w.client.pending, r.id);
    IdsAppend(SettledId, w.client.settled, [Settlement(r.id, Answered(r.answer))]);
    IdsOne(SettledId, Settlement(r.id, Answered(r.answer)));
    var v := Next(w, Hear);
    assert v.client.pending == Without(w.client.pending, r.id);
    assert IdsOf(Self, v.client.pending) == IdsOf(Self, w.client.pending) - multiset{r.id};
    assert IdsOf(ReplyId, v.incoming) == IdsOf(ReplyId, w.incoming) - multiset{r.id};
  }

  lemma Waits(pending: seq<nat>, id: nat)
    ensures id in IdsOf(Self, pending) <==> id in pending
  {
    IdsAt(Self, pending, id);
    hide IdsOf;
    assert forall i :: 0 <= i < |pending| ==> Self(pending[i]) == pending[i];
  }

  lemma {:induction false} HearIsHonest(w: World)
    requires Honest(w) && w.incoming != []
    ensures Honest(Next(w, Hear))
  {
    hide AnsweredAs, Without;
    var r, v := w.incoming[0], Next(w, Hear);
    SameAnswers(w, v);
    assert AnsweredAs(v, r.id, r.answer);
  }

  lemma {:induction false} HearKeeps(w: World)
    requires Inv(w) && w.incoming != []
    ensures Inv(Next(w, Hear))
  {
    hide Conserved, UnderWay, Honest, IdsOf, Settle;
    HearConserves(w);
    HearIsHonest(w);
  }

  lemma {:induction false} BreakKeeps(w: World)
    requires Inv(w)
    ensures Inv(Next(w, Break))
  {
    hide AnsweredAs, IdsOf;
    NoIds();
    SameAnswers(w, Next(w, Break));
  }

  lemma {:induction false} ShutConserves(w: World)
    requires Conserved(w) && UnderWay(w)
    ensures Conserved(Next(w, Disconnect)) && UnderWay(Next(w, Disconnect))
  {
    hide IdsOf;
    IdsAppend(SettledId, w.client.settled, EndAll(w.client.pending));
    EndAllIds(w.client.pending);
    NoIds();
  }

  lemma {:induction false} ShutIsHonest(w: World)
    requires Honest(w)
    ensures Honest(Next(w, Disconnect))
  {
    hide AnsweredAs;
    SameAnswers(w, Next(w, Disconnect));
  }

  lemma {:induction false} DisconnectKeeps(w: World)
    requires Inv(w)
    ensures Inv(Next(w, Disconnect))
  {
    hide Conserved, UnderWay, Honest, IdsOf, Shut;
    ShutConserves(w);
    ShutIsHonest(w);
    NoIds();
  }

  lemma NoIds()
    ensures IdsOf(Self, []) == multiset{} && IdsOf(CallId, []) == multiset{} && IdsOf(ReplyId, []) == multiset{}
  {}

  lemma {:induction false} StepKeeps(w: World, s: Step)
    requires Inv(w)
    ensures Inv(Next(w, s))
  {
    hide Inv, DoCall, DoFinish, Settle, Shut;
    match s
    case CallTool(name, args) =>
      if !w.client.disconnected { CallKeeps(w, Call(w.client.nextId, name, args)); }
    case Begin =>
      if w.outgoing != [] { BeginKeeps(w); }
    case Finish(i, answer) =>
      if i < |w.running| { FinishKeeps(w, i, answer); }
    case Hear =>
      if w.incoming != [] { HearKeeps(w); }
    case Break => BreakKeeps(w);
    case Disconnect => DisconnectKeeps(w);
  }

  lemma StartOk()
    ensures Inv(Start())
  {}

  lemma {:induction false} RunKeeps(steps: seq<Step>)
    ensures Inv(Run(steps))
  {
    hide Inv, Next, Start;
    if steps == [] {
      StartOk();
    } else {
      RunKeeps(steps[..|steps| - 1]);
      StepKeeps(Run(steps[..|steps| - 1]), steps[|steps| - 1]);
    }
  }

  // ----- the promises -----

  // A forwarded call waits and is unsettled, or was settled once and no longer waits.
  lemma {:induction false} EachCallEndsOnce(steps: seq<Step>, c: Call)
    requires c in Run(steps).made
    ensures var k := Run(steps).client;
      && (c.id in k.pending <==> forall s :: s in k.settled ==> s.id != c.id)
      && forall i, j :: 0 <= i < j < |k.settled| && k.settled[i].id == c.id ==> k.settled[j].id != c.id
  {
    hide Run, IdsOf, UnderWay, RanOnce, Honest;
    var w, k := Run(steps), Run(steps).client;
    RunKeeps(steps);
    CountsAtMostOne(CallId, w.made, c.id);
    Waits(k.pending, c.id);
    Settles(k.settled, c.id);
    assert IdsOf(Self, k.pending)[c.id] + IdsOf(SettledId, k.settled)[c.id] == 1;
    hide Conserved;
    forall i, j | 0 <= i < j < |k.settled| && k.settled[i].id == c.id ensures k.settled[j].id != c.id {
      if k.settled[j].id == c.id { IdsTwice(SettledId, k.settled, i, j); }
    }
  }

  lemma Settles(settled: seq<Settlement>, id: nat)
    ensures id in IdsOf(SettledId, settled) <==> exists s :: s in settled && s.id == id
  {
    IdsAt(SettledId, settled, id);
    hide IdsOf;
    if s :| s in settled && s.id == id {
      var i :| 0 <= i < |settled| && settled[i] == s;
      assert SettledId(settled[i]) == id;
    }
  }

  // The one run of a call that the daemon answered with `answer`.
  ghost predicate OnlyAnswer(w: World, i: nat, id: nat, answer: Answer) {
    && i < |w.answers| && w.answers[i].call.id == id && w.answers[i].answer == answer
    && w.answers[i].call in w.made
    && forall j :: 0 <= j < |w.answers| && j != i ==> w.answers[j].call.id != id
  }

  // What settles it is the one answer the daemon gave to that very call, or the disconnect.
  lemma {:induction false} EndsByItsOwnAnswer(steps: seq<Step>, s: Settlement)
    requires s in Run(steps).client.settled
    ensures s.ending.Closed? ==> Run(steps).client.disconnected
    ensures s.ending.Answered? ==> exists i :: OnlyAnswer(Run(steps), i, s.id, s.ending.answer)
  {
    hide Run, IdsOf, Conserved, UnderWay, RanOnce;
    var w := Run(steps);
    RunKeeps(steps);
    if s.ending.Answered? {
      var r :| r in w.answers && r.call.id == s.id && r.answer == s.ending.answer;
      var i :| 0 <= i < |w.answers| && w.answers[i] == r;
      RunsOnlyOnce(w, i);
      assert OnlyAnswer(w, i, s.id, s.ending.answer);
    }
  }

  lemma {:induction false} RunsOnlyOnce(w: World, i: nat)
    requires Conserved(w) && RanOnce(w) && i < |w.answers|
    ensures forall j :: 0 <= j < |w.answers| && j != i ==> w.answers[j].call.id != w.answers[i].call.id
  {
    hide IdsOf;
    var id := w.answers[i].call.id;
    CountsAtMostOne(CallId, w.made, id);
    assert IdsOf(RanId, w.answers)[id] <= 1;
    hide Conserved, RanOnce;
    forall j | 0 <= j < |w.answers| && j != i ensures w.answers[j].call.id != id {
      if w.answers[j].call.id == id { IdsTwice(RanId, w.answers, Min(i, j), i + j - Min(i, j)); }
    }
  }

  // After a disconnect nothing waits.
  lemma {:induction false} NothingWaitsAfterDisconnect(steps: seq<Step>, c: Call)
    requires Run(steps).client.disconnected && c in Run(steps).made
    ensures Run(steps).client.pending == []
    ensures exists s :: s in Run(steps).client.settled && s.id == c.id
  {
    EachCallEndsOnce(steps, c);
    hide Run;
    RunKeeps(steps);
  }

  // On a live socket a reply is never for an unknown id, and when nothing is on
  // its way nothing waits.
  lemma {:induction false} RepliesAreAwaited(steps: seq<Step>)
    ensures var w := Run(steps);
      && (forall r :: r in w.incoming ==> r.id in w.client.pending)
      && (w.live && w.outgoing == [] && w.running == [] && w.incoming == [] ==> w.client.pending == [])
  {
    hide Run, IdsOf, Honest, RanOnce;
    var w := Run(steps);
    RunKeeps(steps);
    NoIds();
    forall r | r in w.incoming ensures r.id in w.client.pending {
      IdsAt(ReplyId, w.incoming, r.id);
      Waits(w.client.pending, r.id);
      var i :| 0 <= i < |w.incoming| && w.incoming[i] == r;
      assert ReplyId(w.incoming[i]) == r.id;
    }
    if w.client.pending != [] {
      Waits(w.client.pending, w.client.pending[0]);
    }
  }
}
