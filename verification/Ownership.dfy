// Which session the daemon delivers inbound messages to: the owner, its lease epoch,
// and the one grant a dispatcher can give.

module Ownership {
  import opened Prelude

  datatype Role = Dispatcher | Teammate

  datatype Session = Session(sessionId: string, role: Role, metadata: map<string, string>)

  // A connection is known by its place in the insertion-ordered set; it has a
  // session once its proxy has registered.
  datatype Connection = Connection(id: nat, session: Option<Session>)

  datatype Tool = Status | Grant | Acquire | ReturnToDispatcher | Reclaim | OtherTool

  // An argument value of a tool call, as far as the selector looks at it. A member
  // that is not a string is `None`.
  datatype Value = Undefined | NullValue | Text(text: string) | Object(entries: seq<(string, Option<string>)>) | OtherValue

  datatype Args = Args(sessionId: Value, match_: Value)

  datatype Refusal =
    | NotRegistered | OnlyDispatcherGrants | OneSelectorOnly | NoSuchSession | BadMatch | NoMatch | AmbiguousMatch
    | SelectorRequired | DispatcherNeedsNoGrant | OnlyDispatcherAssigns | NotGranted | OnlyOwnerReturns
    | NoLiveDispatcher | OnlyDispatcherReclaims

  datatype Outcome =
    | NotHandled
    | Shown
    | Refused(why: Refusal)
    | GrantIssued(to: string)
    | OwnerNow(owner: string, epoch: nat)
    | Returned(owner: string, epoch: nat)
    | Reclaimed(owner: string, epoch: nat)

  datatype Lease = Lease(owner: Option<string>, dispatcher: Option<string>, granted: Option<string>, epoch: nat)

  // ----- selectors -----

  function FindSession(conns: seq<Connection>, id: string): (r: Option<nat>)
    ensures r.Some? ==> r.value < |conns| && conns[r.value].session.Some? && conns[r.value].session.value.sessionId == id
    ensures r.None? ==> forall c :: c in conns && c.session.Some? ==> c.session.value.sessionId != id
    ensures r.Some? ==> forall i :: 0 <= i < r.value && conns[i].session.Some? ==> conns[i].session.value.sessionId != id
  {
    if conns == [] then None
    else if conns[0].session.Some? && conns[0].session.value.sessionId == id then Some(0)
    else
      var r := FindSession(conns[1..], id);
      if r.Some? then Some(r.value + 1) else None
  }

  // A usable match: at least one member, and every member a string.
  function MatchOf(v: Value): Option<seq<(string, string)>> {
    if v.Object? && v.entries != [] && forall e :: e in v.entries ==> e.1.Some? then
      Some(seq(|v.entries|, i requires 0 <= i < |v.entries| =>
        assert v.entries[i] in v.entries; (v.entries[i].0, v.entries[i].1.value)))
    else None
  }

  method ParseMatch(v: Value) returns (r: Option<seq<(string, string)>>)
    ensures r == MatchOf(v)
  {
    if !v.Object? || |v.entries| == 0 { return None; }
    var out: seq<(string, string)> := [];
    for i := 0 to |v.entries|
      invariant |out| == i
      invariant forall k :: 0 <= k < i ==> v.entries[k].1 == Some(out[k].1) && out[k].0 == v.entries[k].0
    {
      if v.entries[i].1.None? { return None; }
      out := out + [(v.entries[i].0, v.entries[i].1.value)];
    }
    assert forall e :: e in v.entries ==> e.1.Some?;
    assert MatchOf(v).value == out;
    return Some(out);
  }

  predicate Matches(c: Connection, wanted: seq<(string, string)>) {
    c.session.Some? &&
    forall e :: e in wanted ==> e.0 in c.session.value.metadata && c.session.value.metadata[e.0] == e.1
  }

  datatype Selection = NoSelector | Unusable(why: Refusal) | Target(session: Session)

  function Resolve(args: Args, conns: seq<Connection>): (r: Selection)
    ensures r.Target? ==> exists c :: c in conns && c.session == Some(r.session)
  {
    var byId := args.sessionId.Text? && args.sessionId.text != "";
    var byMatch := !args.match_.Undefined? && !args.match_.NullValue?;
    if byId && byMatch then Unusable(OneSelectorOnly)
    else if byId then
      var found := FindSession(conns, args.sessionId.text);
      if found.None? then Unusable(NoSuchSession) else Target(conns[found.value].session.value)
    else if byMatch then
      var wanted := MatchOf(args.match_);
      if wanted.None? then Unusable(BadMatch)
      else
        var matched := Filter(c => Matches(c, wanted.value), conns);
        if |matched| == 0 then Unusable(NoMatch)
        else if |matched| > 1 then Unusable(AmbiguousMatch)
        else assert matched[0] in matched; Target(matched[0].session.value)
    else NoSelector
  }

  ghost predicate OnlyOne<T(!new)>(p: T -> bool, s: seq<T>, i: nat) {
    i < |s| && p(s[i]) && forall j :: 0 <= j < |s| && j != i ==> !p(s[j])
  }

  ghost predicate Two<T(!new)>(p: T -> bool, s: seq<T>) { exists i, j :: 0 <= i < j < |s| && p(s[i]) && p(s[j]) }

  lemma FilterNone<T(!new)>(p: T -> bool, s: seq<T>)
    ensures |Filter(p, s)| == 0 <==> forall x :: x in s ==> !p(x)
  {
    if |Filter(p, s)| > 0 {
      assert Filter(p, s)[0] in Filter(p, s);
    } else {
      assert forall x :: x !in Filter(p, s);
    }
  }

  lemma OnlyOneAtTheEnd<T(!new)>(p: T -> bool, q: seq<T>, x: T)
    requires p(x) && forall y :: y in q ==> !p(y)
    ensures OnlyOne(p, q + [x], |q|)
  {
    assert forall j :: 0 <= j < |q| ==> (q + [x])[j] == q[j] && q[j] in q;
  }

  lemma OnlyOneBefore<T(!new)>(p: T -> bool, q: seq<T>, x: T, i: nat)
    requires !p(x) && OnlyOne(p, q, i)
    ensures OnlyOne(p, q + [x], i) && (q + [x])[i] == q[i]
  {
    assert forall j :: 0 <= j < |q| ==> (q + [x])[j] == q[j];
  }

  lemma {:induction false} FilterOne<T(!new)>(p: T -> bool, s: seq<T>)
    requires |Filter(p, s)| == 1
    ensures exists i: nat :: OnlyOne(p, s, i) && s[i] == Filter(p, s)[0]
  {
    var q, x := s[..|s| - 1], s[|s| - 1];
    SplitLast([], s);
    assert s == q + [x];
    FilterSnoc(p, q, x);
    FilterNone(p, q);
    hide Filter, OnlyOne;
    if p(x) {
      OnlyOneAtTheEnd(p, q, x);
    } else {
      FilterOne(p, q);
      var i: nat :| OnlyOne(p, q, i) && q[i] == Filter(p, q)[0];
      OnlyOneBefore(p, q, x, i);
    }
  }

  lemma {:induction false} FilterTwo<T(!new)>(p: T -> bool, s: seq<T>)
    requires |Filter(p, s)| > 1
    ensures Two(p, s)
  {
    var q, x := s[..|s| - 1], s[|s| - 1];
    SplitLast([], s);
    FilterSnoc(p, q, x);
    if p(x) {
      var y := Filter(p, q)[0];
      assert y in Filter(p, q);
      hide Filter;
      var i :| 0 <= i < |q| && q[i] == y;
      assert s[i] == q[i] && p(s[i]) && p(s[|q|]);
    } else {
      FilterTwo(p, q);
      hide Filter;
      var i, j :| 0 <= i < j < |q| && p(q[i]) && p(q[j]);
      assert s[i] == q[i] && s[j] == q[j];
    }
  }

  // A selector by id finds the first live session of that id, or there is none. A
  // selector by match finds the one live session that matches, or none or two do.
  lemma {:induction false} ResolveNames(args: Args, conns: seq<Connection>)
    ensures var r := Resolve(args, conns);
      var byId, byMatch := args.sessionId.Text? && args.sessionId.text != "", !args.match_.Undefined? && !args.match_.NullValue?;
      && (byId && !byMatch ==>
            if r.Target? then
              exists i :: 0 <= i < |conns| && conns[i].session == Some(r.session) && r.session.sessionId == args.sessionId.text
                && forall j :: 0 <= j < i && conns[j].session.Some? ==> conns[j].session.value.sessionId != args.sessionId.text
            else forall x :: x in conns && x.session.Some? ==> x.session.value.sessionId != args.sessionId.text)
      && (!byId && byMatch && MatchOf(args.match_).Some? ==>
            var p := (x: Connection) => Matches(x, MatchOf(args.match_).value);
            if r.Target? then exists i: nat :: OnlyOne(p, conns, i) && conns[i].session == Some(r.session)
            else (r == Unusable(NoMatch) && forall x :: x in conns ==> !p(x)) || (r == Unusable(AmbiguousMatch) && Two(p, conns)))
  {
    hide MatchOf, Two;
    if MatchOf(args.match_).Some? {
      var p := (x: Connection) => Matches(x, MatchOf(args.match_).value);
      FilterNone(p, conns);
      if |Filter(p, conns)| == 1 { FilterOne(p, conns); }
      if |Filter(p, conns)| > 1 { FilterTwo(p, conns); }
      SameFilter(c => Matches(c, MatchOf(args.match_).value), p, conns);
      hide Filter;
    }
  }

  lemma {:induction false} SameFilter<T(!new)>(p: T -> bool, q: T -> bool, s: seq<T>)
    requires forall x :: p(x) == q(x)
    ensures Filter(p, s) == Filter(q, s)
  {
    if s != [] { SameFilter(p, q, s[..|s| - 1]); }
  }

  // ----- whom a selector names -----

  predicate ById(args: Args) { args.sessionId.Text? && args.sessionId.text != "" }

  predicate ByMatch(args: Args) { !args.match_.Undefined? && !args.match_.NullValue? }

  // An object with members, all of them strings.
  predicate Usable(v: Value) { v.Object? && v.entries != [] && forall e :: e in v.entries ==> e.1.Some? }

  // A live session whose metadata has every member of the match.
  predicate Fits(c: Connection, v: Value)
    requires Usable(v)
  {
    c.session.Some? && forall e :: e in v.entries ==>
      e.0 in c.session.value.metadata && Some(c.session.value.metadata[e.0]) == e.1
  }

  ghost predicate FirstWith(conns: seq<Connection>, i: int, id: string) {
    && 0 <= i < |conns| && conns[i].session.Some? && conns[i].session.value.sessionId == id
    && forall j :: 0 <= j < i && conns[j].session.Some? ==> conns[j].session.value.sessionId != id
  }

  ghost predicate OnlyFit(conns: seq<Connection>, i: int, v: Value)
    requires Usable(v)
  {
    0 <= i < |conns| && forall j :: 0 <= j < |conns| ==> (Fits(conns[j], v) <==> j == i)
  }

  // The first live session of the given id, or the only one that fits the given match.
  ghost predicate Names(args: Args, conns: seq<Connection>, s: Session) {
    || (ById(args) && !ByMatch(args) &&
        exists i :: FirstWith(conns, i, args.sessionId.text) && conns[i].session == Some(s))
    || (!ById(args) && ByMatch(args) && Usable(args.match_) &&
        exists i :: OnlyFit(conns, i, args.match_) && conns[i].session == Some(s))
  }

  lemma MatchFits(c: Connection, v: Value)
    ensures MatchOf(v).Some? <==> Usable(v)
    ensures Usable(v) ==> (Matches(c, MatchOf(v).value) <==> Fits(c, v))
  {
    if Usable(v) {
      var wanted := MatchOf(v).value;
      assert forall i :: 0 <= i < |wanted| ==> v.entries[i] in v.entries && wanted[i].0 == v.entries[i].0 && Some(wanted[i].1) == v.entries[i].1;
      if Matches(c, wanted) {
        forall e | e in v.entries ensures e.0 in c.session.value.metadata && Some(c.session.value.metadata[e.0]) == e.1 {
          var i :| 0 <= i < |v.entries| && v.entries[i] == e;
          assert wanted[i] in wanted;
        }
      }
    }
  }

  lemma {:induction false} IdNames(args: Args, conns: seq<Connection>, s: Session)
    requires ById(args) && !ByMatch(args)
    ensures Resolve(args, conns) == Target(s) <==> Names(args, conns, s)
  {
    var found := FindSession(conns, args.sessionId.text);
    hide FindSession;
    if found.Some? {
      assert FirstWith(conns, found.value, args.sessionId.text);
      forall i | FirstWith(conns, i, args.sessionId.text) ensures i == found.value {}
    } else {
      forall i ensures !FirstWith(conns, i, args.sessionId.text) {
        assert 0 <= i < |conns| ==> conns[i] in conns;
      }
    }
    hide FirstWith;
  }

  lemma {:induction false} MatchNames(args: Args, conns: seq<Connection>, s: Session)
    requires !ById(args) && ByMatch(args) && Usable(args.match_)
    ensures Resolve(args, conns) == Target(s) <==> Names(args, conns, s)
  {
    ResolveNames(args, conns);
    MatchFits(Connection(0, None), args.match_);
    hide Resolve, Matches, Fits, MatchOf, Usable;
    forall c ensures MatchOf(args.match_).Some? && (Matches(c, MatchOf(args.match_).value) <==> Fits(c, args.match_)) {
      MatchFits(c, args.match_);
    }
    var p := (x: Connection) => Matches(x, MatchOf(args.match_).value);
    if Resolve(args, conns).Target? {
      var k: nat :| OnlyOne(p, conns, k) && conns[k].session == Some(Resolve(args, conns).session);
      assert OnlyFit(conns, k, args.match_);
      forall i | OnlyFit(conns, i, args.match_) ensures i == k {}
    } else {
      forall i ensures !OnlyFit(conns, i, args.match_) {
        assert 0 <= i < |conns| ==> conns[i] in conns;
      }
    }
    hide OnlyFit;
  }

  // A selector resolves to a session if and only if it names it, and no selector is
  // seen exactly when none is given.
  lemma {:induction false} ResolveMeaning(args: Args, conns: seq<Connection>, s: Session)
    ensures Resolve(args, conns) == Target(s) <==> Names(args, conns, s)
    ensures Resolve(args, conns).NoSelector? <==> !ById(args) && !ByMatch(args)
  {
    if ById(args) && !ByMatch(args) { IdNames(args, conns, s); }
    if !ById(args) && ByMatch(args) && Usable(args.match_) { MatchNames(args, conns, s); }
    MatchFits(Connection(0, None), args.match_);
    hide Names, MatchOf, Matches, FindSession, Filter;
    NamesNothing(args, conns, s);
  }

  lemma NamesNothing(args: Args, conns: seq<Connection>, s: Session)
    ensures Names(args, conns, s) ==> ById(args) != ByMatch(args) && (ByMatch(args) ==> Usable(args.match_))
  {}

  // ----- what each operation does to the lease -----

  function SetOwner(l: Lease, id: string): Lease {
    if l.owner == Some(id) then l else l.(owner := Some(id), epoch := l.epoch + 1)
  }

  // Whether the owner is taken over by a dispatcher that registers.
  predicate TakesOver(l: Lease) { l.owner.None? || l.owner == l.dispatcher }

  function Registered(l: Lease, s: Session): Lease {
    if s.role != Dispatcher then l
    else
      var m := l.(dispatcher := Some(s.sessionId));
      if TakesOver(l) then SetOwner(m, s.sessionId) else m
  }

  // An id that is the empty string counts as no id here.
  function Select(l: Lease, conns: seq<Connection>): Option<nat> {
    if l.owner.Some? && l.owner.value != "" then FindSession(conns, l.owner.value)
    else if l.dispatcher.Some? && l.dispatcher.value != "" then FindSession(conns, l.dispatcher.value)
    else None
  }

  function LiveDispatcher(l: Lease, conns: seq<Connection>): Option<string> {
    if l.dispatcher.None? || l.dispatcher.value == "" || FindSession(conns, l.dispatcher.value).None? then None
    else l.dispatcher
  }

  function Call(l: Lease, caller: Option<Session>, tool: Tool, args: Args, conns: seq<Connection>): (Lease, Outcome) {
    match tool
    case OtherTool => (l, NotHandled)
    case Status => (l, Shown)
    case Grant =>
      if caller.None? then (l, Refused(NotRegistered))
      else if caller.value.role != Dispatcher then (l, Refused(OnlyDispatcherGrants))
      else (match Resolve(args, conns)
        case Unusable(why) => (l, Refused(why))
        case NoSelector => (l, Refused(SelectorRequired))
        case Target(s) =>
          if s.role == Dispatcher then (l, Refused(DispatcherNeedsNoGrant))
          else (l.(granted := Some(s.sessionId)), GrantIssued(s.sessionId)))
    case Acquire =>
      if caller.None? then (l, Refused(NotRegistered))
      else
        var selected := Resolve(args, conns);
        if selected.Unusable? then (l, Refused(selected.why))
        else
          var target := if selected.Target? then selected.session else caller.value;
          if caller.value.role != Dispatcher && target.sessionId != caller.value.sessionId then
            (l, Refused(OnlyDispatcherAssigns))
          else if caller.value.role != Dispatcher && l.granted != Some(caller.value.sessionId) then
            (l, Refused(NotGranted))
          else
            var m := SetOwner(l, target.sessionId);
            (if m.granted == Some(target.sessionId) then m.(granted := None) else m,
             OwnerNow(target.sessionId, m.epoch))
    case ReturnToDispatcher =>
      if caller.None? then (l, Refused(NotRegistered))
      else if caller.value.role != Dispatcher && l.owner != Some(caller.value.sessionId) then
        (l, Refused(OnlyOwnerReturns))
      else
        var d := LiveDispatcher(l, conns);
        if d.None? then (l, Refused(NoLiveDispatcher))
        else
          var m := SetOwner(l, d.value).(granted := None);
          (m, Returned(d.value, m.epoch))
    case Reclaim =>
      if caller.None? then (l, Refused(NotRegistered))
      else if caller.value.role != Dispatcher then (l, Refused(OnlyDispatcherReclaims))
      else
        var d := LiveDispatcher(l, conns);
        if d.None? then (l, Refused(NoLiveDispatcher))
        else
          var m := SetOwner(l, d.value).(granted := None);
          (m, Reclaimed(d.value, m.epoch))
  }

  class ChannelOwnerState {
    var owner: Option<string>
    var dispatcher: Option<string>
    var granted: Option<string>
    var leaseEpoch: nat

    constructor ()
      ensures State() == Lease(None, None, None, 0)
    {
      owner, dispatcher, granted, leaseEpoch := None, None, None, 0;
    }

    function State(): Lease
      reads this
    {
      Lease(owner, dispatcher, granted, leaseEpoch)
    }

    method ChangeOwner(id: string)
      modifies this
      ensures State() == SetOwner(old(State()), id)
    {
      if owner == Some(id) { return; }
      owner := Some(id);
      leaseEpoch := leaseEpoch + 1;
    }

    // True when the pending rows are to be routed again.
    method Register(session: Option<Session>) returns (changed: bool)
      modifies this
      ensures State() == if session.None? then old(State()) else Registered(old(State()), session.value)
      ensures changed == (session.Some? && session.value.role == Dispatcher && TakesOver(old(State())))
    {
      if session.None? { return false; }
      if session.value.role != Dispatcher { return false; }
      var previousDispatcher := dispatcher;
      dispatcher := Some(session.value.sessionId);
      if owner.None? || owner == previousDispatcher {
        ChangeOwner(session.value.sessionId);
        return true;
      }
      return false;
    }

    method ResolveSelector(args: Args, conns: seq<Connection>) returns (r: Selection)
      ensures r == Resolve(args, conns)
    {
      var byId := args.sessionId.Text? && args.sessionId.text != "";
      var byMatch := !args.match_.Undefined? && !args.match_.NullValue?;
      if byId && byMatch { return Unusable(OneSelectorOnly); }
      if byId {
        var found := FindSession(conns, args.sessionId.text);
        if found.None? { return Unusable(NoSuchSession); }
        return Target(conns[found.value].session.value);
      }
      if byMatch {
        var wanted := ParseMatch(args.match_);
        if wanted.None? { return Unusable(BadMatch); }
        var matched := Filter(c => Matches(c, wanted.value), conns);
        if |matched| == 0 { return Unusable(NoMatch); }
        if |matched| > 1 { return Unusable(AmbiguousMatch); }
        assert matched[0] in matched;
        return Target(matched[0].session.value);
      }
      return NoSelector;
    }

    method HandleTool(caller: Option<Session>, tool: Tool, args: Args, conns: seq<Connection>) returns (r: Outcome)
      modifies this
      ensures (State(), r) == Call(old(State()), caller, tool, args, conns)
    {
      hide Resolve, LiveDispatcher;
      match tool {
        case OtherTool => return NotHandled;
        case Status => return Shown;
        case Grant =>
          if caller.None? { return Refused(NotRegistered); }
          if caller.value.role != Dispatcher { return Refused(OnlyDispatcherGrants); }
          var selected := ResolveSelector(args, conns);
          if selected.Unusable? { return Refused(selected.why); }
          if selected.NoSelector? { return Refused(SelectorRequired); }
          if selected.session.role == Dispatcher { return Refused(DispatcherNeedsNoGrant); }
          granted := Some(selected.session.sessionId);
          return GrantIssued(selected.session.sessionId);
        case Acquire =>
          if caller.None? { return Refused(NotRegistered); }
          var selected := ResolveSelector(args, conns);
          if selected.Unusable? { return Refused(selected.why); }
          var target := if selected.Target? then selected.session else caller.value;
          if caller.value.role != Dispatcher && target.sessionId != caller.value.sessionId {
            return Refused(OnlyDispatcherAssigns);
          }
          if caller.value.role != Dispatcher && granted != Some(caller.value.sessionId) {
            return Refused(NotGranted);
          }
          ChangeOwner(target.sessionId);
          if granted == Some(target.sessionId) { granted := None; }
          return OwnerNow(target.sessionId, leaseEpoch);
        case ReturnToDispatcher =>
          if caller.None? { return Refused(NotRegistered); }
          if caller.value.role != Dispatcher && Some(caller.value.sessionId) != owner {
            return Refused(OnlyOwnerReturns);
          }
          var d := LiveDispatcher(State(), conns);
          if d.None? { return Refused(NoLiveDispatcher); }
          ChangeOwner(d.value);
          granted := None;
          return Returned(d.value, leaseEpoch);
        case Reclaim =>
          if caller.None? { return Refused(NotRegistered); }
          if caller.value.role != Dispatcher { return Refused(OnlyDispatcherReclaims); }
          var d := LiveDispatcher(State(), conns);
          if d.None? { return Refused(NoLiveDispatcher); }
          ChangeOwner(d.value);
          granted := None;
          return Reclaimed(d.value, leaseEpoch);
      }
    }
  }

  // ----- runs -----

  datatype Event =
    | Connect(id: nat)
    | Register(id: nat, session: Session)
    | Close(id: nat)
    | ToolCall(id: nat, tool: Tool, args: Args)

  // What one event came to: the session behind it, the outcome, the lease after it.
  datatype Entry = Entry(caller: Option<Session>, registered: bool, outcome: Outcome, lease: Lease)

  datatype System = System(lease: Lease, conns: seq<Connection>, trace: seq<Entry>)

  function SessionOf(conns: seq<Connection>, id: nat): Option<Session> {
    if conns == [] then None
    else if conns[0].id == id then conns[0].session
    else SessionOf(conns[1..], id)
  }

  function Assign(conns: seq<Connection>, id: nat, s: Session): seq<Connection> {
    seq(|conns|, i requires 0 <= i < |conns| => if conns[i].id == id then Connection(id, Some(s)) else conns[i])
  }

  predicate Open(conns: seq<Connection>, id: nat) { exists c :: c in conns && c.id == id }

  function Next(s: System, e: Event): System {
    match e
    case Connect(id) =>
      System(s.lease, if Open(s.conns, id) then s.conns else s.conns + [Connection(id, None)],
             s.trace + [Entry(None, false, NotHandled, s.lease)])
    case Close(id) =>
      System(s.lease, Filter((c: Connection) => c.id != id, s.conns),
             s.trace + [Entry(None, false, NotHandled, s.lease)])
    case Register(id, session) =>
      if !Open(s.conns, id) then System(s.lease, s.conns, s.trace + [Entry(None, false, NotHandled, s.lease)])
      else
        var l := Registered(s.lease, session);
        System(l, Assign(s.conns, id, session), s.trace + [Entry(Some(session), true, NotHandled, l)])
    case ToolCall(id, tool, args) =>
      var caller := SessionOf(s.conns, id);
      var (l, outcome) := Call(s.lease, caller, tool, args, s.conns);
      System(l, s.conns, s.trace + [Entry(caller, false, outcome, l)])
  }

  const START := System(Lease(None, None, None, 0), [], [])

  function Run(events: seq<Event>): System {
    if events == [] then START else Next(Run(events[..|events| - 1]), events[|events| - 1])
  }

  function LastOutcome(s: System): Outcome {
    if s.trace == [] then NotHandled else s.trace[|s.trace| - 1].outcome
  }

  // The grant made at `j` still stands: no later grant, no return and no reclaim has
  // come after it, and its session has not become owner since.
  predicate StandsFrom(trace: seq<Entry>, j: nat, id: string)
    requires j < |trace|
  {
    && trace[j].outcome == GrantIssued(id)
    && trace[j].caller.Some? && trace[j].caller.value.role == Dispatcher
    && forall k :: j < k < |trace| ==> !Ends(trace[k].outcome, id)
  }

  predicate Ends(o: Outcome, id: string) {
    o.GrantIssued? || o.Returned? || o.Reclaimed? || (o.OwnerNow? && o.owner == id)
  }

  ghost predicate GrantStands(trace: seq<Entry>, id: string) {
    exists j :: 0 <= j < |trace| && StandsFrom(trace, j, id)
  }

  predicate DispatcherSeen(trace: seq<Entry>) {
    exists i :: 0 <= i < |trace| && trace[i].registered && trace[i].caller.Some? && trace[i].caller.value.role == Dispatcher
  }

  // The number of times the owner changed.
  function OwnerChanges(trace: seq<Entry>): nat {
    if trace == [] then 0
    else
      var before := if |trace| == 1 then None else trace[|trace| - 2].lease.owner;
      OwnerChanges(trace[..|trace| - 1]) + if trace[|trace| - 1].lease.owner != before then 1 else 0
  }

  ghost predicate Inv(s: System) {
    && (s.trace != [] ==> s.trace[|s.trace| - 1].lease == s.lease)
    && (s.trace == [] ==> s.lease == START.lease)
    && (forall id :: s.lease.granted == Some(id) <==> GrantStands(s.trace, id))
    && (s.lease.owner.None? <==> !DispatcherSeen(s.trace))
    && (s.lease.owner.None? <==> s.lease.dispatcher.None?)
    && (forall c :: c in s.conns && c.session.Some? && c.session.value.role == Dispatcher ==> DispatcherSeen(s.trace))
    && (s.lease.granted.Some? ==> DispatcherSeen(s.trace))
    && s.lease.epoch == OwnerChanges(s.trace)
  }

  lemma {:induction false} GrantStandsSnoc(trace: seq<Entry>, e: Entry, id: string)
    ensures GrantStands(trace + [e], id) <==>
      (e.outcome == GrantIssued(id) && e.caller.Some? && e.caller.value.role == Dispatcher) ||
      (GrantStands(trace, id) && !Ends(e.outcome, id))
  {
    var t := trace + [e];
    if e.outcome == GrantIssued(id) && e.caller.Some? && e.caller.value.role == Dispatcher {
      assert StandsFrom(t, |trace|, id);
    }
    if GrantStands(trace, id) && !Ends(e.outcome, id) {
      var j :| 0 <= j < |trace| && StandsFrom(trace, j, id);
      assert StandsFrom(t, j, id);
    }
    if GrantStands(t, id) {
      var j :| 0 <= j < |t| && StandsFrom(t, j, id);
      if j < |trace| {
        assert t[|trace|] == e;
        assert forall k :: 0 <= k < |trace| ==> t[k] == trace[k];
        assert StandsFrom(trace, j, id);
      }
    }
  }

  lemma {:induction false} DispatcherSeenSnoc(trace: seq<Entry>, e: Entry)
    ensures DispatcherSeen(trace + [e]) <==>
      DispatcherSeen(trace) || (e.registered && e.caller.Some? && e.caller.value.role == Dispatcher)
  {
    var t := trace + [e];
    assert t[|trace|] == e;
    if DispatcherSeen(trace) {
      var i :| 0 <= i < |trace| && trace[i].registered && trace[i].caller.Some? && trace[i].caller.value.role == Dispatcher;
      assert t[i] == trace[i];
    }
  }

  lemma {:induction false} OwnerChangesSnoc(trace: seq<Entry>, e: Entry)
    ensures OwnerChanges(trace + [e]) ==
      OwnerChanges(trace) +
      if e.lease.owner != (if trace == [] then None else trace[|trace| - 1].lease.owner) then 1 else 0
  {
    assert (trace + [e])[..|trace|] == trace;
  }

  lemma {:induction false} SessionOfIn(conns: seq<Connection>, id: nat)
    ensures SessionOf(conns, id).Some? ==> exists c :: c in conns && c.session == SessionOf(conns, id)
  {
    if conns != [] && conns[0].id != id { SessionOfIn(conns[1..], id); }
  }

  // What a tool call can do to the lease.
  lemma CallEffect(l: Lease, caller: Option<Session>, tool: Tool, args: Args, conns: seq<Connection>)
    ensures var (m, o) := Call(l, caller, tool, args, conns);
      && m.dispatcher == l.dispatcher
      && m.epoch == l.epoch + (if m.owner == l.owner then 0 else 1)
      && (m.owner == l.owner || m.owner.Some?)
      && (o.GrantIssued? ==> m.granted == Some(o.to) && caller.Some? && caller.value.role == Dispatcher)
      && (o.OwnerNow? ==> m.owner == Some(o.owner) && caller.Some?)
      && (o.OwnerNow? ==> m.granted == if l.granted == Some(o.owner) then None else l.granted)
      && (o.OwnerNow? && caller.value.role != Dispatcher ==>
            o.owner == caller.value.sessionId && l.granted == Some(o.owner))
      && (o.Returned? || o.Reclaimed? ==> m.granted == None && m.owner == l.dispatcher && caller.Some?)
      && (!o.GrantIssued? && !o.OwnerNow? && !o.Returned? && !o.Reclaimed? ==> m == l)
  {
    hide Resolve, FindSession;
  }

  predicate IsDispatcher(s: Option<Session>) { s.Some? && s.value.role == Dispatcher }

  // Any step that changes the lease in one of these ways keeps the invariant.
  lemma {:induction false} StepKeeps(s: System, t: System, last: Entry)
    requires Inv(s) && t.trace == s.trace + [last] && t.lease == last.lease
    requires t.lease.epoch == s.lease.epoch + if t.lease.owner == s.lease.owner then 0 else 1
    requires last.outcome.GrantIssued? ==> IsDispatcher(last.caller)
    requires forall id :: t.lease.granted == Some(id) <==>
      last.outcome == GrantIssued(id) || (s.lease.granted == Some(id) && !Ends(last.outcome, id))
    requires t.lease.granted.Some? ==> DispatcherSeen(s.trace)
    requires t.lease.owner.None? <==> s.lease.owner.None? && !(last.registered && IsDispatcher(last.caller))
    requires t.lease.owner.None? <==> t.lease.dispatcher.None?
    requires forall c :: c in t.conns && IsDispatcher(c.session) ==>
      c in s.conns || (last.registered && IsDispatcher(last.caller))
    ensures Inv(t)
  {
    DispatcherSeenSnoc(s.trace, last);
    OwnerChangesSnoc(s.trace, last);
    forall id ensures GrantStands(t.trace, id) <==>
      (last.outcome == GrantIssued(id) && IsDispatcher(last.caller)) ||
      (GrantStands(s.trace, id) && !Ends(last.outcome, id))
    {
      GrantStandsSnoc(s.trace, last, id);
    }
    hide GrantStands, DispatcherSeen, OwnerChanges, Ends;
  }

  lemma {:induction false} NextKeeps(s: System, e: Event)
    requires Inv(s)
    ensures Inv(Next(s, e))
  {
    var t := Next(s, e);
    var last := t.trace[|t.trace| - 1];
    hide GrantStands, DispatcherSeen, OwnerChanges;
    match e
    case Connect(_) => StepKeeps(s, t, last);
    case Close(_) => StepKeeps(s, t, last);
    case Register(id, session) =>
      forall c | c in Assign(s.conns, id, session) ensures c in s.conns || c.session == Some(session) {}
      hide Assign, Inv;
      RegisterStep(s, id, session);
    case ToolCall(id, tool, args) =>
      hide Inv;
      CallStep(s, id, tool, args);
  }

  lemma {:induction false} RegisterStep(s: System, id: nat, session: Session)
    requires Inv(s)
    ensures Inv(Next(s, Register(id, session)))
  {
    var t := Next(s, Register(id, session));
    var last := t.trace[|t.trace| - 1];
    forall c | c in t.conns ensures c in s.conns || (last.registered && c.session == last.caller) {}
    hide GrantStands, DispatcherSeen, OwnerChanges, Assign, Open;
    StepKeeps(s, t, last);
  }

  lemma {:induction false} CallStep(s: System, id: nat, tool: Tool, args: Args)
    requires Inv(s)
    ensures Inv(Next(s, ToolCall(id, tool, args)))
  {
    var t := Next(s, ToolCall(id, tool, args));
    var last := t.trace[|t.trace| - 1];
    SessionOfIn(s.conns, id);
    CallEffect(s.lease, last.caller, tool, args, s.conns);
    hide GrantStands, DispatcherSeen, OwnerChanges, Call;
    StepKeeps(s, t, last);
  }

  lemma {:induction false} RunKeeps(events: seq<Event>)
    ensures Inv(Run(events)) && |Run(events).trace| == |events|
  {
    if events != [] {
      RunKeeps(events[..|events| - 1]);
      NextKeeps(Run(events[..|events| - 1]), events[|events| - 1]);
    }
  }

  // A teammate that asks for itself becomes the owner exactly when the dispatcher's
  // latest grant names it and still stands.
  lemma {:induction false} TeammateNeedsStandingGrant(events: seq<Event>, id: nat, args: Args)
    requires var s := Run(events); var caller := SessionOf(s.conns, id);
      && caller.Some? && caller.value.role == Teammate
      && !Resolve(args, s.conns).Unusable?
      && (Resolve(args, s.conns).Target? ==> Resolve(args, s.conns).session.sessionId == caller.value.sessionId)
    ensures var s := Run(events); var me := SessionOf(s.conns, id).value.sessionId;
      var after := Run(events + [ToolCall(id, Acquire, args)]);
      && (GrantStands(s.trace, me) <==> LastOutcome(after).OwnerNow?)
      && (GrantStands(s.trace, me) ==> after.lease.owner == Some(me) && !GrantStands(after.trace, me))
      && (!GrantStands(s.trace, me) ==> after.lease == s.lease)
  {
    hide Run, Next, GrantStands, Resolve;
    var s, e := Run(events), ToolCall(id, Acquire, args);
    RunSnoc(events, e);
    CallNext(s, id, Acquire, args);
    GrantIsRecorded(events);
    GrantIsRecorded(events + [e]);
  }

  lemma RunSnoc(events: seq<Event>, e: Event)
    ensures Run(events + [e]) == Next(Run(events), e)
  {
    hide Next;
    assert (events + [e])[..|events|] == events;
  }

  lemma CallNext(s: System, id: nat, tool: Tool, args: Args)
    ensures var (l, outcome) := Call(s.lease, SessionOf(s.conns, id), tool, args, s.conns);
      var t := Next(s, ToolCall(id, tool, args));
      t.lease == l && LastOutcome(t) == outcome
  {
    hide Call;
  }

  lemma GrantIsRecorded(events: seq<Event>)
    ensures forall id :: Run(events).lease.granted == Some(id) <==> GrantStands(Run(events).trace, id)
  {
    hide Run, GrantStands;
    RunKeeps(events);
  }

  // ----- what the tools achieve -----

  // The call of a registered session, in a run.
  ghost predicate Calls(events: seq<Event>, id: nat, me: Session) { SessionOf(Run(events).conns, id) == Some(me) }

  // A dispatcher makes owner exactly the live session that its selector names, or
  // itself without a selector; a selector that names nobody changes nothing.
  lemma {:induction false} DispatcherAssigns(events: seq<Event>, id: nat, args: Args, me: Session)
    requires Calls(events, id, me) && me.role == Dispatcher
    ensures var s, after := Run(events), Run(events + [ToolCall(id, Acquire, args)]);
      && (forall t :: Names(args, s.conns, t) ==>
            after.lease.owner == Some(t.sessionId) && LastOutcome(after).OwnerNow? && LastOutcome(after).owner == t.sessionId)
      && (!ById(args) && !ByMatch(args) ==>
            after.lease.owner == Some(me.sessionId) && LastOutcome(after).OwnerNow? && LastOutcome(after).owner == me.sessionId)
      && ((ById(args) || ByMatch(args)) && (forall t :: !Names(args, s.conns, t)) ==>
            after.lease == s.lease && LastOutcome(after).Refused?)
  {
    hide Run, Next, Resolve, Names;
    var s, e := Run(events), ToolCall(id, Acquire, args);
    RunSnoc(events, e);
    CallNext(s, id, Acquire, args);
    forall t ensures Resolve(args, s.conns) == Target(t) <==> Names(args, s.conns, t)
      ensures Resolve(args, s.conns).NoSelector? <==> !ById(args) && !ByMatch(args)
    {
      ResolveMeaning(args, s.conns, t);
    }
  }

  // A dispatcher's grant stands for exactly the live teammate that its selector
  // names, and leaves the owner as it is; no other call for a grant changes anything.
  lemma {:induction false} DispatcherGrants(events: seq<Event>, id: nat, args: Args, me: Session, t: Session)
    requires Calls(events, id, me)
    ensures var s, after := Run(events), Run(events + [ToolCall(id, Grant, args)]);
      && (me.role == Dispatcher && t.role == Teammate && Names(args, s.conns, t) ==>
            after.lease == s.lease.(granted := Some(t.sessionId)) && GrantStands(after.trace, t.sessionId))
      && (me.role != Dispatcher || (t.role == Dispatcher && Names(args, s.conns, t)) || (forall u :: !Names(args, s.conns, u)) ==>
            after.lease == s.lease && LastOutcome(after).Refused?)
  {
    hide Run, Next, Resolve, Names, GrantStands;
    var s, e := Run(events), ToolCall(id, Grant, args);
    RunSnoc(events, e);
    CallNext(s, id, Grant, args);
    GrantIsRecorded(events + [e]);
    forall u ensures Resolve(args, s.conns) == Target(u) <==> Names(args, s.conns, u) {
      ResolveMeaning(args, s.conns, u);
    }
  }

  // The dispatcher that registered last has a live session.
  ghost predicate DispatcherLives(s: System) {
    && s.lease.dispatcher.Some? && s.lease.dispatcher.value != ""
    && exists c :: c in s.conns && c.session.Some? && Some(c.session.value.sessionId) == s.lease.dispatcher
  }

  lemma LivesFinds(s: System)
    ensures LiveDispatcher(s.lease, s.conns) == if DispatcherLives(s) then s.lease.dispatcher else None
    ensures DispatcherLives(s) ==> s.lease.dispatcher.Some?
  {
    hide FindSession;
    if s.lease.dispatcher.Some? && FindSession(s.conns, s.lease.dispatcher.value).Some? {
      assert s.conns[FindSession(s.conns, s.lease.dispatcher.value).value] in s.conns;
    }
  }

  lemma CallGivesBack(l: Lease, me: Session, tool: Tool, args: Args, conns: seq<Connection>)
    requires tool == ReturnToDispatcher || tool == Reclaim
    ensures var (m, o) := Call(l, Some(me), tool, args, conns);
      var d := LiveDispatcher(l, conns);
      if d.Some? && (me.role == Dispatcher || (tool == ReturnToDispatcher && l.owner == Some(me.sessionId)))
      then (o.Returned? || o.Reclaimed?) && m.owner == d && m.granted.None?
      else o.Refused? && m == l
  {
    hide LiveDispatcher, Resolve;
  }

  // The owner or a dispatcher can return the channel, and a dispatcher can reclaim
  // it, if and only if the dispatcher lives; it is then the owner, and no grant stands.
  lemma {:induction false} GivenBack(events: seq<Event>, id: nat, tool: Tool, args: Args, me: Session)
    requires Calls(events, id, me) && (tool == ReturnToDispatcher || tool == Reclaim)
    ensures var s, after := Run(events), Run(events + [ToolCall(id, tool, args)]);
      var o := LastOutcome(after);
      && (o.Returned? || o.Reclaimed? <==>
            DispatcherLives(s) &&
            (me.role == Dispatcher || (tool == ReturnToDispatcher && s.lease.owner == Some(me.sessionId))))
      && (o.Returned? || o.Reclaimed? ==>
            after.lease.owner == s.lease.dispatcher && forall t :: !GrantStands(after.trace, t))
      && (!o.Returned? && !o.Reclaimed? ==> after.lease == s.lease && o.Refused?)
  {
    hide Run, Next, Call, GrantStands, DispatcherLives, LiveDispatcher;
    var s, e := Run(events), ToolCall(id, tool, args);
    RunSnoc(events, e);
    CallNext(s, id, tool, args);
    CallGivesBack(s.lease, me, tool, args, s.conns);
    LivesFinds(s);
    GrantIsRecorded(events + [e]);
  }

  // A connection without a session can do nothing with the channel.
  lemma {:induction false} NobodyCalls(events: seq<Event>, id: nat, tool: Tool, args: Args)
    requires SessionOf(Run(events).conns, id).None?
    ensures Run(events + [ToolCall(id, tool, args)]).lease == Run(events).lease
  {
    hide Run, Next;
    RunSnoc(events, ToolCall(id, tool, args));
    CallNext(Run(events), id, tool, args);
  }

  // The id of the dispatcher that registered last on an open connection.
  function LatestDispatcher(events: seq<Event>): Option<string> {
    if events == [] then None
    else
      var p, e := events[..|events| - 1], events[|events| - 1];
      if e.Register? && e.session.role == Dispatcher && Open(Run(p).conns, e.id) then Some(e.session.sessionId)
      else LatestDispatcher(p)
  }

  // It is the one that deliveries, returns and reclaims fall back to, in every run.
  lemma {:induction false} DispatcherIsLatest(events: seq<Event>)
    ensures Run(events).lease.dispatcher == LatestDispatcher(events)
  {
    if events != [] {
      var p, e := events[..|events| - 1], events[|events| - 1];
      DispatcherIsLatest(p);
      hide Call, Assign, SessionOf, Open;
      if e.ToolCall? { CallEffect(Run(p).lease, SessionOf(Run(p).conns, e.id), e.tool, e.args, Run(p).conns); }
    }
  }

  // No other call of a teammate makes it, or anyone else it names, the owner.
  lemma {:induction false} TeammateAcquiresOnlyItself(events: seq<Event>, e: Event)
    requires e.ToolCall? && SessionOf(Run(events).conns, e.id).Some?
    requires SessionOf(Run(events).conns, e.id).value.role == Teammate
    requires LastOutcome(Run(events + [e])).OwnerNow?
    ensures var s := Run(events); var me := SessionOf(s.conns, e.id).value.sessionId;
      Run(events + [e]).lease.owner == Some(me) && GrantStands(s.trace, me)
  {
    RunKeeps(events);
    var s := Run(events);
    assert (events + [e])[..|events|] == events;
    CallEffect(s.lease, SessionOf(s.conns, e.id), e.tool, e.args, s.conns);
    hide GrantStands, Resolve, Call;
  }

  // The owner changes by a tool call that says so, or by a dispatcher that registers
  // while there is no owner or the owner is the dispatcher before it. A teammate
  // that owns the channel keeps it through every registration and every close.
  lemma {:induction false} OwnerChangesOnlySo(events: seq<Event>, e: Event)
    requires Run(events + [e]).lease.owner != Run(events).lease.owner
    ensures var s := Run(events);
      || (e.ToolCall? && var o := Call(s.lease, SessionOf(s.conns, e.id), e.tool, e.args, s.conns).1;
          o.OwnerNow? || o.Returned? || o.Reclaimed?)
      || (e.Register? && e.session.role == Dispatcher &&
          (!DispatcherSeen(s.trace) || s.lease.owner == s.lease.dispatcher))
  {
    RunKeeps(events);
    assert (events + [e])[..|events|] == events;
    var s := Run(events);
    assert Run(events + [e]) == Next(s, e);
    assert s.lease.owner.None? ==> !DispatcherSeen(s.trace);
    hide Run, Inv, DispatcherSeen, Next, Call;
    OwnerStep(s, e);
  }

  lemma {:induction false} OwnerStep(s: System, e: Event)
    requires Next(s, e).lease.owner != s.lease.owner
    requires s.lease.owner.None? ==> !DispatcherSeen(s.trace)
    ensures e.ToolCall? || (e.Register? && e.session.role == Dispatcher)
    ensures e.ToolCall? ==> var o := Call(s.lease, SessionOf(s.conns, e.id), e.tool, e.args, s.conns).1;
      o.OwnerNow? || o.Returned? || o.Reclaimed?
    ensures e.Register? ==> !DispatcherSeen(s.trace) || s.lease.owner == s.lease.dispatcher
  {
    hide DispatcherSeen, Assign, Open, SessionOf;
    match e
    case Connect(_) =>
    case Close(_) =>
    case Register(_, _) => hide Call;
    case ToolCall(id, tool, args) =>
      CallEffect(s.lease, SessionOf(s.conns, id), tool, args, s.conns);
      assert Next(s, e).lease == Call(s.lease, SessionOf(s.conns, id), tool, args, s.conns).0;
      hide Call, Next;
  }

  lemma NextTrace(s: System, e: Event)
    ensures |Next(s, e).trace| == |s.trace| + 1
    ensures Next(s, e).trace[..|s.trace|] == s.trace
    ensures Next(s, e).trace[|s.trace|].lease == Next(s, e).lease
  {
    hide Call, Registered, Assign, Open, SessionOf, Filter;
  }

  lemma {:induction false} LeaseAt(events: seq<Event>, k: nat)
    requires k < |events|
    ensures |Run(events).trace| == |events|
    ensures Run(events).trace[k].lease == Run(events[..k + 1]).lease
  {
    hide Next;
    var p := events[..|events| - 1];
    NextTrace(Run(p), events[|events| - 1]);
    if |events| > 1 { LeaseAt(p, if k < |p| then k else 0); } else { RunNothing(); }
    if k == |events| - 1 {
      assert events[..k + 1] == events;
    } else {
      assert p[..k + 1] == events[..k + 1];
      assert Run(events).trace[..|p|][k] == Run(p).trace[k];
    }
  }

  lemma RunNothing()
    ensures Run([]).trace == []
  {}

  lemma {:induction false} EpochGrows(events: seq<Event>, k: nat)
    requires k <= |events|
    ensures Run(events[..k]).lease.epoch <= Run(events).lease.epoch
    ensures Run(events[..k]).lease.epoch == Run(events).lease.epoch ==>
      Run(events[..k]).lease.owner == Run(events).lease.owner
  {
    if k == |events| {
      assert events[..k] == events;
    } else {
      var p, e := events[..|events| - 1], events[|events| - 1];
      EpochGrows(p, k);
      assert p[..k] == events[..k];
      var s := Run(p);
      if e.ToolCall? { CallEffect(s.lease, SessionOf(s.conns, e.id), e.tool, e.args, s.conns); }
      hide Call;
    }
  }

  lemma {:induction false} SameEpochSameOwner(events: seq<Event>, i: nat, j: nat)
    requires i <= j <= |events|
    ensures Run(events[..i]).lease.epoch == Run(events[..j]).lease.epoch ==>
      Run(events[..i]).lease.owner == Run(events[..j]).lease.owner
  {
    EpochGrows(events[..j], i);
    assert events[..j][..i] == events[..i];
  }

  // The epoch counts the owner changes, so no epoch has two owners; and there is an
  // owner exactly when a dispatcher has registered.
  lemma {:induction false} LeaseOfEveryRun(events: seq<Event>, i: nat, j: nat)
    requires i < |events| && j < |events|
    ensures var s := Run(events);
      && s.lease.epoch == OwnerChanges(s.trace)
      && (s.lease.owner.None? <==> !DispatcherSeen(s.trace))
      && |s.trace| == |events|
      && (s.trace[i].lease.epoch == s.trace[j].lease.epoch ==> s.trace[i].lease.owner == s.trace[j].lease.owner)
  {
    RunKeeps(events);
    hide Run, OwnerChanges, DispatcherSeen, GrantStands;
    LeaseAt(events, i);
    LeaseAt(events, j);
    if i <= j { SameEpochSameOwner(events, i + 1, j + 1); } else { SameEpochSameOwner(events, j + 1, i + 1); }
  }

  // The target of a delivery is a connection of the owner, or nobody, unless the
  // owner's id is the empty string while a dispatcher with another id is connected.
  lemma {:induction false} SelectTarget(events: seq<Event>)
    ensures var s := Run(events); var r := Select(s.lease, s.conns);
      (r.None? || Some(s.conns[r.value].session.value.sessionId) == s.lease.owner)
      <==> !(s.lease.owner == Some("") && LiveDispatcher(s.lease, s.conns).Some?)
  {
    RunKeeps(events);
    hide Run, OwnerChanges, DispatcherSeen, GrantStands;
  }

  // Such a run: a teammate registers with an empty id, the dispatcher grants it the
  // channel by a match, and it acquires.
  const EMPTY_ID_RUN := [
    Connect(0), Register(0, Session("d", Dispatcher, map[])),
    Connect(1), Register(1, Session("", Teammate, map["k" := "v"])),
    ToolCall(0, Grant, Args(Undefined, Object([("k", Some("v"))]))),
    ToolCall(1, Acquire, Args(Undefined, Undefined))]

  // It makes the empty id the owner, and deliveries go to the dispatcher.
  lemma {:induction false} SelectMissesAnEmptyId()
    ensures var s := Run(EMPTY_ID_RUN);
      && s.lease == Lease(Some(""), Some("d"), None, 2) && LastOutcome(s) == OwnerNow("", 2)
      && Select(s.lease, s.conns) == Some(0) && s.conns[0].session.value.sessionId == "d"
  {
    var e := EMPTY_ID_RUN;
    var c0 := Connection(0, Some(Session("d", Dispatcher, map[])));
    var c1 := Connection(1, Some(Session("", Teammate, map["k" := "v"])));
    EmptyIdSetUp();
    var s4 := Run(e[..4]);
    assert s4.conns == [c0, c1] && s4.lease == Lease(Some("d"), Some("d"), None, 1);
    MatchFinds(c0, c1);
    hide Resolve;
    var s5 := Next(s4, e[4]);
    assert s5.lease == Lease(Some("d"), Some("d"), Some(""), 1) && s5.conns == [c0, c1];
    NoSelectorGiven([c0, c1]);
    assert SessionOf([c0, c1], 1) == c1.session by { assert [c0, c1][1..] == [c1]; }
    var s6 := Next(s5, e[5]);
    assert s6.lease == Lease(Some(""), Some("d"), None, 2) && s6.conns == [c0, c1];
    hide Next;
    assert e[..5][..4] == e[..4] && e[..6][..5] == e[..5] && e[..6] == e;
    assert Run(e[..5]) == s5;
  }

  lemma NoSelectorGiven(conns: seq<Connection>)
    ensures Resolve(Args(Undefined, Undefined), conns) == NoSelector
  {}

  lemma {:induction false} EmptyIdSetUp()
    ensures var s := Run(EMPTY_ID_RUN[..4]);
      && s.lease == Lease(Some("d"), Some("d"), None, 1)
      && s.conns == [Connection(0, Some(Session("d", Dispatcher, map[]))),
                     Connection(1, Some(Session("", Teammate, map["k" := "v"])))]
  {
    hide Next, Call, Resolve;
    var e := EMPTY_ID_RUN;
    assert e[..4][..3] == e[..3] && e[..3][..2] == e[..2] && e[..2][..1] == e[..1] && e[..1][..0] == [];
    DispatcherRegisters();
    var s2 := Next(Next(START, e[0]), e[1]);
    assert Run(e[..1]) == Next(START, e[0]);
    assert Run(e[..2]) == s2;
    assert !Open(s2.conns, 1);
    FirstConnects(s2, 1);
    TeammateRegisters(Next(s2, e[2]));
    assert Run(e[..3]) == Next(s2, e[2]);
  }

  lemma FirstConnects(s: System, c: nat)
    requires !Open(s.conns, c)
    ensures Next(s, Connect(c)).conns == s.conns + [Connection(c, None)] && Next(s, Connect(c)).lease == s.lease
  {
    hide Call, Resolve;
  }

  lemma DispatcherRegisters()
    ensures var s := Next(Next(START, Connect(0)), Register(0, Session("d", Dispatcher, map[])));
      && s.lease == Lease(Some("d"), Some("d"), None, 1)
      && s.conns == [Connection(0, Some(Session("d", Dispatcher, map[])))]
  {
    hide Call, Resolve;
    var s1 := Next(START, Connect(0));
    assert s1.conns == [Connection(0, None)] && s1.lease == START.lease;
    assert s1.conns[0] in s1.conns;
  }

  lemma TeammateRegisters(s: System)
    requires s.lease == Lease(Some("d"), Some("d"), None, 1)
    requires s.conns == [Connection(0, Some(Session("d", Dispatcher, map[])))] + [Connection(1, None)]
    ensures var t := Next(s, Register(1, Session("", Teammate, map["k" := "v"])));
      && t.lease == s.lease
      && t.conns == [Connection(0, Some(Session("d", Dispatcher, map[]))),
                     Connection(1, Some(Session("", Teammate, map["k" := "v"])))]
  {
    hide Call, Resolve;
    assert s.conns[1] in s.conns;
  }

  lemma {:induction false} MatchFinds(c0: Connection, c1: Connection)
    requires c0.session.Some? && "k" !in c0.session.value.metadata
    requires c1.session.Some? && "k" in c1.session.value.metadata && c1.session.value.metadata["k"] == "v"
    ensures Resolve(Args(Undefined, Object([("k", Some("v"))])), [c0, c1]) == Target(c1.session.value)
  {
    var conns := [c0, c1];
    var v := Object([("k", Some("v"))]);
    assert MatchOf(v).Some? && MatchOf(v).value == [("k", "v")];
    assert !Matches(c0, [("k", "v")]) by { assert ("k", "v") in [("k", "v")]; }
    assert Matches(c1, [("k", "v")]);
    var p := c => Matches(c, MatchOf(v).value);
    assert conns[..1] == [c0] && [c0][..0] == [];
    assert Filter(p, []) == [];
    assert Filter(p, [c0]) == [];
    assert Filter(p, conns) == [c1];
  }
}
