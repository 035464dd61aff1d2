// Pairing over whole runs: messages decided while codes are being sent, and an
// operator approving codes.

module PairingRuns {
  import opened Prelude
  import opened OrderedMaps
  import opened PairingGate

  // What happened, in order: a code was sent, or an operator approved one.
  datatype Note = Sent(code: string) | Approved(code: string, entry: Entry)

  // A pairing decision whose code is being sent, and how much had happened when it
  // was taken. It is stored, as it is, once the code is out.
  datatype Draft = Draft(access: Access, code: string, resend: bool, since: nat)

  // `stored` is the file. `expiry` is the end of each code ever put into a request,
  // `clock` the latest time a message was seen, `history` what happened.
  datatype World = World(stored: Access, drafts: seq<Draft>, clock: int, expiry: map<string, int>, history: seq<Note>)

  // `quiet` is a message whose decision is used but stored only if it delivers.
  datatype Step = Message(input: Input, quiet: bool) | CodeSent(i: nat) | CodeLost(i: nat) | Approve(code: string)

  // What approving a request grants.
  function Granted(a: Access, e: Entry): Access {
    if e.kind == Dm then (if e.senderId in a.allowFrom then a else a.(allowFrom := a.allowFrom + [e.senderId]))
    else a.(groups := a.groups[e.chatId := GroupRule(true, [])])
  }

  function DoMessage(w: World, i: Input, quiet: bool): World {
    var d := Gate(i, w.stored);
    var clock := if w.clock < i.now then i.now else w.clock;
    match d.action
    case Pair(code, isResend) =>
      if quiet then w.(clock := clock)
      else w.(clock := clock, drafts := w.drafts + [Draft(d.access, code, isResend, |w.history|)],
              expiry := if isResend then w.expiry else w.expiry[code := i.now + PAIRING_TTL_MS])
    case Drop(_) => if quiet then w.(clock := clock) else w.(clock := clock, stored := d.access)
    case Deliver => w.(clock := clock, stored := d.access)
  }

  function Others(drafts: seq<Draft>, i: nat): seq<Draft>
    requires i < |drafts|
  {
    drafts[..i] + drafts[i + 1..]
  }

  function Next(w: World, s: Step): World {
    match s
    case Message(input, quiet) => DoMessage(w, input, quiet)
    case CodeSent(i) =>
      if i >= |w.drafts| then w
      else
        var d := w.drafts[i];
        w.(stored := d.access, drafts := Others(w.drafts, i), history := w.history + [Sent(d.code)])
    case CodeLost(i) => if i >= |w.drafts| then w else w.(drafts := Others(w.drafts, i))
    case Approve(code) =>
      if code !in w.stored.pending.at then w
      else
        var e := w.stored.pending.at[code];
        w.(stored := Granted(w.stored, e).(pending := Delete(w.stored.pending, code)),
           history := w.history + [Approved(code, e)])
  }

  function Begin(start: Access, clock: int): World { World(start, [], clock, map[], []) }

  function Run(w: World, steps: seq<Step>): World {
    if steps == [] then w else Next(Run(w, steps[..|steps| - 1]), steps[|steps| - 1])
  }

  lemma RunSnoc(w: World, steps: seq<Step>, s: Step)
    ensures Run(w, []) == w
    ensures Run(w, steps + [s]) == Next(Run(w, steps), s)
  {
    hide Next;
    assert (steps + [s])[..|steps|] == steps;
  }

  // The draft a step sends, if it sends one.
  predicate Sends(w: World, s: Step) { s.CodeSent? && s.i < |w.drafts| }

  lemma OthersIn(drafts: seq<Draft>, i: nat)
    requires i < |drafts|
    ensures forall d :: d in Others(drafts, i) ==> d in drafts
  {}

  // ----- the bounds, in every interleaving -----

  ghost predicate SoundAll(w: World) {
    Sound(w.stored.pending) && forall d :: d in w.drafts ==> Sound(d.access.pending)
  }

  lemma ApprovalIsSound(m: Requests, code: string)
    requires Sound(m)
    ensures Sound(Delete(m, code))
  {
    hide SameParty;
  }

  lemma {:induction false} StepSound(w: World, s: Step)
    requires SoundAll(w)
    ensures SoundAll(Next(w, s))
  {
    hide Gate, Sound;
    match s
    case Message(input, _) => GateKeeps(input, w.stored);
    case CodeSent(i) =>
      if i < |w.drafts| { OthersIn(w.drafts, i); }
    case CodeLost(i) =>
      if i < |w.drafts| { OthersIn(w.drafts, i); }
    case Approve(code) => ApprovalIsSound(w.stored.pending, code);
  }

  lemma {:induction false} RunSound(w: World, steps: seq<Step>)
    requires SoundAll(w)
    ensures SoundAll(Run(w, steps))
  {
    hide SoundAll, Next;
    if steps != [] {
      RunSound(w, steps[..|steps| - 1]);
      StepSound(Run(w, steps[..|steps| - 1]), steps[|steps| - 1]);
    }
  }

  // From the defaults on, however messages, code replies and approvals interleave:
  // at most ten requests, one or two replies each, one request a sender and one a group.
  lemma {:induction false} RequestsStayBounded(clock: int, steps: seq<Step>)
    ensures var m := Run(Begin(DEFAULTS, clock), steps).stored.pending;
      && |m.keys| <= 10
      && (forall c :: c in m.at ==> 1 <= m.at[c].replies <= 2)
      && forall c, d :: c in m.at && d in m.at && SameParty(m.at[c], m.at[d]) ==> c == d
  {
    DefaultsAreSound();
    hide Run, SameParty;
    RunSound(Begin(DEFAULTS, clock), steps);
  }

  // A message that needs no code leaves no expired request in the file, and all others.
  lemma {:induction false} MessagesTidyUp(w: World, i: Input, quiet: bool, c: string)
    requires !Gate(i, w.stored).action.Pair? && (quiet ==> Gate(i, w.stored).action.Deliver?)
    ensures var m := Next(w, Message(i, quiet)).stored.pending;
      && (c in m.at <==> c in w.stored.pending.at && w.stored.pending.at[c].expiresAt > i.now)
      && (c in m.at ==> m.at[c] == w.stored.pending.at[c])
  {
    hide Gate, Pruned;
    GateEffect(i, w.stored);
    PrunedMeaning(w.stored.pending, i.now);
  }

  // ----- what approvals have granted -----

  function PoliciesAfter(start: Access, history: seq<Note>): Access {
    if history == [] then start
    else
      var before, n := PoliciesAfter(start, history[..|history| - 1]), history[|history| - 1];
      if n.Approved? then Granted(before, n.entry) else before
  }

  lemma PoliciesSnoc(start: Access, history: seq<Note>, n: Note)
    ensures PoliciesAfter(start, history + [n]) ==
      if n.Approved? then Granted(PoliciesAfter(start, history), n.entry) else PoliciesAfter(start, history)
  {
    assert (history + [n])[..|history|] == history;
  }

  lemma {:induction false} PoliciesKeepRequests(start: Access, history: seq<Note>)
    ensures PoliciesAfter(start, history).pending == start.pending
  {
    if history != [] { PoliciesKeepRequests(start, history[..|history| - 1]); }
  }

  // Every approval so far is in force, and nothing else has changed.
  ghost predicate InForce(start: Access, w: World) { SamePolicies(PoliciesAfter(start, w.history), w.stored) }

  // No approval granted anything while the code was being sent.
  ghost predicate NothingGranted(start: Access, w: World, s: Step) {
    Sends(w, s) && w.drafts[s.i].since <= |w.history| ==>
      PoliciesAfter(start, w.history[..w.drafts[s.i].since]) == PoliciesAfter(start, w.history)
  }

  ghost predicate AlwaysInForce(start: Access, w: World, steps: seq<Step>) {
    InForce(start, Run(w, steps)) && (steps != [] ==> AlwaysInForce(start, w, steps[..|steps| - 1]))
  }

  ghost predicate NeverGrantedMeanwhile(start: Access, w: World, steps: seq<Step>) {
    steps != [] ==>
      NothingGranted(start, Run(w, steps[..|steps| - 1]), steps[|steps| - 1])
      && NeverGrantedMeanwhile(start, w, steps[..|steps| - 1])
  }

  ghost predicate DraftInForce(start: Access, w: World, d: Draft) {
    d.since <= |w.history| && SamePolicies(PoliciesAfter(start, w.history[..d.since]), d.access)
  }

  ghost predicate DraftsInForce(start: Access, w: World) { forall d :: d in w.drafts ==> DraftInForce(start, w, d) }

  lemma DraftStays(start: Access, w: World, v: World, d: Draft)
    requires DraftInForce(start, w, d) && w.history <= v.history
    ensures DraftInForce(start, v, d)
  {
    assert v.history[..d.since] == w.history[..d.since];
  }

  lemma MessageInForce(start: Access, w: World, i: Input, quiet: bool)
    requires InForce(start, w) && DraftsInForce(start, w)
    ensures InForce(start, DoMessage(w, i, quiet)) && DraftsInForce(start, DoMessage(w, i, quiet))
  {
    hide Gate, PoliciesAfter;
    GateLeavesPolicies(i, w.stored);
    assert w.history[..|w.history|] == w.history;
  }

  lemma DraftsStay(start: Access, w: World, v: World)
    requires DraftsInForce(start, w) && w.history <= v.history && forall d :: d in v.drafts ==> d in w.drafts
    ensures DraftsInForce(start, v)
  {
    hide DraftInForce;
    forall d | d in v.drafts ensures DraftInForce(start, v, d) { DraftStays(start, w, v, d); }
  }

  lemma SendingInForce(start: Access, w: World, s: Step)
    requires InForce(start, w) && DraftsInForce(start, w) && Sends(w, s)
    ensures InForce(start, Next(w, s)) <==> NothingGranted(start, w, s)
  {
    hide PoliciesAfter;
    var d := w.drafts[s.i];
    assert DraftInForce(start, w, d);
    PoliciesSnoc(start, w.history, Sent(d.code));
    PoliciesKeepRequests(start, w.history);
    PoliciesKeepRequests(start, w.history[..d.since]);
  }

  lemma ApprovalInForce(start: Access, w: World, code: string)
    requires InForce(start, w)
    ensures InForce(start, Next(w, Approve(code)))
  {
    hide PoliciesAfter;
    if code in w.stored.pending.at {
      PoliciesSnoc(start, w.history, Approved(code, w.stored.pending.at[code]));
    }
  }

  lemma {:induction false} GrantStep(start: Access, w: World, s: Step)
    requires InForce(start, w) && DraftsInForce(start, w)
    ensures InForce(start, Next(w, s)) <==> NothingGranted(start, w, s)
    ensures InForce(start, Next(w, s)) ==> DraftsInForce(start, Next(w, s))
  {
    hide DoMessage, PoliciesAfter, DraftsInForce;
    match s
    case Message(input, quiet) => MessageInForce(start, w, input, quiet);
    case CodeSent(i) =>
      if i < |w.drafts| {
        SendingInForce(start, w, s);
        OthersIn(w.drafts, i);
        DraftsStay(start, w, Next(w, s));
      }
    case CodeLost(i) =>
      if i < |w.drafts| {
        OthersIn(w.drafts, i);
        DraftsStay(start, w, Next(w, s));
      }
    case Approve(code) =>
      ApprovalInForce(start, w, code);
      DraftsStay(start, w, Next(w, s));
  }

  // Approvals are in force throughout a run if and only if no code was sent whose
  // decision was taken before an approval that granted something: storing that
  // decision would take the grant back.
  lemma {:induction false} ApprovalsSurvive(start: Access, clock: int, steps: seq<Step>)
    ensures AlwaysInForce(start, Begin(start, clock), steps) <==> NeverGrantedMeanwhile(start, Begin(start, clock), steps)
    ensures AlwaysInForce(start, Begin(start, clock), steps) ==> DraftsInForce(start, Run(Begin(start, clock), steps))
  {
    hide Next, InForce, DraftsInForce, NothingGranted;
    var w := Begin(start, clock);
    if steps == [] {
      BeginInForce(start, clock);
    } else {
      ApprovalsSurvive(start, clock, steps[..|steps| - 1]);
      var u := Run(w, steps[..|steps| - 1]);
      if AlwaysInForce(start, w, steps[..|steps| - 1]) {
        InForceAtEnd(start, w, steps[..|steps| - 1]);
        GrantStep(start, u, steps[|steps| - 1]);
      }
    }
  }

  lemma InForceAtEnd(start: Access, w: World, steps: seq<Step>)
    requires AlwaysInForce(start, w, steps)
    ensures InForce(start, Run(w, steps))
  {
    hide InForce, Run;
  }

  lemma BeginInForce(start: Access, clock: int)
    ensures InForce(start, Begin(start, clock)) && DraftsInForce(start, Begin(start, clock))
  {}

  ghost predicate ApprovedSender(history: seq<Note>, id: string) {
    exists k :: 0 <= k < |history| && history[k].Approved? && history[k].entry.kind == Dm && history[k].entry.senderId == id
  }

  ghost predicate ApprovedGroup(history: seq<Note>, id: string) {
    exists k :: 0 <= k < |history| && history[k].Approved? && history[k].entry.kind == OfGroup && history[k].entry.chatId == id
  }

  lemma {:induction false} ApprovedSnoc(history: seq<Note>, n: Note, id: string)
    ensures ApprovedSender(history + [n], id) <==>
      ApprovedSender(history, id) || (n.Approved? && n.entry.kind == Dm && n.entry.senderId == id)
    ensures ApprovedGroup(history + [n], id) <==>
      ApprovedGroup(history, id) || (n.Approved? && n.entry.kind == OfGroup && n.entry.chatId == id)
  {
    var h := history + [n];
    assert h[|history|] == n && forall k :: 0 <= k < |history| ==> h[k] == history[k];
  }

  // What is in force: the senders on the list are those that were on it and those
  // approved; the groups with an entry are those that had one and those approved,
  // whose entry asks for a mention and lets every member through; nothing else changed.
  lemma {:induction false} ApprovedAreAdmitted(start: Access, history: seq<Note>, id: string)
    ensures var p := PoliciesAfter(start, history);
      && p.dmPolicy == start.dmPolicy && p.groupPolicy == start.groupPolicy && p.pending == start.pending
      && (id in p.allowFrom <==> id in start.allowFrom || ApprovedSender(history, id))
      && (id in p.groups <==> id in start.groups || ApprovedGroup(history, id))
      && (id in p.groups ==> p.groups[id] == if ApprovedGroup(history, id) then GroupRule(true, []) else start.groups[id])
  {
    hide ApprovedSender, ApprovedGroup;
    if history == [] {
      NothingApproved(id);
    } else {
      var before, n := history[..|history| - 1], history[|history| - 1];
      ApprovedAreAdmitted(start, before, id);
      SplitLast([], history);
      ApprovedSnoc(before, n, id);
    }
  }

  lemma NothingApproved(id: string)
    ensures !ApprovedSender([], id) && !ApprovedGroup([], id)
  {}

  // So an approved sender's direct messages get through, under any direct policy that
  // lets anybody through, and so does each mention of the bot in an approved group.
  lemma {:induction false} ApprovedGetThrough(start: Access, history: seq<Note>, i: Input)
    requires i.senderId != ""
    ensures i.chat == P2p && start.dmPolicy != DmDisabled && ApprovedSender(history, i.senderId) ==>
      Admitted(i, PoliciesAfter(start, history))
    ensures i.chat == GroupChat && start.groupPolicy == Allowlist && ApprovedGroup(history, i.chatId) ==>
      (Admitted(i, PoliciesAfter(start, history)) <==> NamesBot(i.mentions, i.botOpenId))
  {
    hide PoliciesAfter, ApprovedSender, ApprovedGroup, NamesBot;
    ApprovedAreAdmitted(start, history, i.senderId);
    ApprovedAreAdmitted(start, history, i.chatId);
  }

  // As long as no approval is lost, a message is delivered exactly if the policies
  // with every approval in force admit it.
  lemma {:induction false} DeliveryFollowsApprovals(start: Access, clock: int, steps: seq<Step>, i: Input)
    requires NeverGrantedMeanwhile(start, Begin(start, clock), steps)
    ensures var w := Run(Begin(start, clock), steps);
      Gate(i, w.stored).action.Deliver? <==> Admitted(i, PoliciesAfter(start, w.history))
  {
    hide Run, Gate, NeverGrantedMeanwhile, PoliciesAfter, NamesBot;
    ApprovalsSurvive(start, clock, steps);
    InForceAtEnd(start, Begin(start, clock), steps);
    hide AlwaysInForce;
    DeliversTheAdmitted(i, Run(Begin(start, clock), steps).stored);
  }

  predicate OnlySent(history: seq<Note>) { forall n :: n in history ==> n.Sent? }

  lemma {:induction false} SendingGrantsNothing(start: Access, history: seq<Note>)
    requires OnlySent(history)
    ensures PoliciesAfter(start, history) == start
  {
    if history != [] {
      assert history[|history| - 1] in history;
      SendingGrantsNothing(start, history[..|history| - 1]);
    }
  }

  lemma {:induction false} MessagesOnlySend(w: World, steps: seq<Step>)
    requires OnlySent(w.history) && forall s :: s in steps ==> !s.Approve?
    ensures OnlySent(Run(w, steps).history)
  {
    if steps != [] {
      assert forall x :: x in steps[..|steps| - 1] ==> x in steps;
      assert !steps[|steps| - 1].Approve?;
      MessagesOnlySend(w, steps[..|steps| - 1]);
      hide Gate;
    }
  }

  lemma {:induction false} MessagesNeverLoseGrants(start: Access, w: World, steps: seq<Step>)
    requires OnlySent(w.history) && forall s :: s in steps ==> !s.Approve?
    ensures NeverGrantedMeanwhile(start, w, steps)
  {
    if steps != [] {
      var p := steps[..|steps| - 1];
      assert forall x :: x in p ==> x in steps;
      MessagesNeverLoseGrants(start, w, p);
      MessagesOnlySend(w, p);
      hide Run, Next;
      var u, s := Run(w, p), steps[|steps| - 1];
      if Sends(u, s) && u.drafts[s.i].since <= |u.history| {
        SendingGrantsNothing(start, u.history);
        SendingGrantsNothing(start, u.history[..u.drafts[s.i].since]);
      }
    }
  }

  // No run of messages alone lets anybody in or shuts anybody out, however the
  // sending of codes interleaves.
  lemma {:induction false} MessagesChangeNobodysAccess(start: Access, clock: int, steps: seq<Step>, i: Input)
    requires forall s :: s in steps ==> !s.Approve?
    ensures Gate(i, Run(Begin(start, clock), steps).stored).action.Deliver? <==> Gate(i, start).action.Deliver?
  {
    hide Run, Gate, NeverGrantedMeanwhile, PoliciesAfter, NamesBot;
    var w := Begin(start, clock);
    MessagesNeverLoseGrants(start, w, steps);
    MessagesOnlySend(w, steps);
    SendingGrantsNothing(start, Run(w, steps).history);
    DeliveryFollowsApprovals(start, clock, steps, i);
    DeliversTheAdmitted(i, start);
  }

  // ----- which codes are remembered -----

  // How often a code was sent, and whether it was used up by an approval.
  function Times(history: seq<Note>, code: string): int {
    if history == [] then 0
    else Times(history[..|history| - 1], code) + if history[|history| - 1] == Sent(code) then 1 else 0
  }

  predicate IsUsed(history: seq<Note>, code: string) { exists n :: n in history && n.Approved? && n.code == code }

  // What the store should say of a code: how often it was sent, or nothing of it
  // when it never was or has been approved.
  ghost function Standing(history: seq<Note>, code: string): Option<int> {
    if IsUsed(history, code) || Times(history, code) == 0 then None else Some(Times(history, code))
  }

  function Replies(m: Requests, code: string): Option<int> {
    if code in m.at then Some(m.at[code].replies) else None
  }

  predicate Lives(w: World, code: string) { code in w.expiry && w.expiry[code] > w.clock }

  // Every unexpired code is stored with its true count if it was sent and not
  // approved yet, and is not stored otherwise.
  ghost predicate Remembered(w: World) {
    forall c :: Lives(w, c) ==> Replies(w.stored.pending, c) == Standing(w.history, c)
  }

  // What a draft would store is what has happened up to its decision and the
  // sending of its own code.
  ghost predicate DraftTells(w: World, d: Draft) {
    && d.since <= |w.history|
    && forall c :: Lives(w, c) ==> Replies(d.access.pending, c) == Standing(w.history[..d.since] + [Sent(d.code)], c)
  }

  ghost predicate DraftsTell(w: World) { forall d :: d in w.drafts ==> DraftTells(w, d) }

  // Since the decision whose code is now sent, no unexpired code has changed its standing.
  ghost predicate Undisturbed(w: World, s: Step) {
    Sends(w, s) && w.drafts[s.i].since <= |w.history| ==>
      forall c :: Lives(w, c) ==> SameStanding(w, w.drafts[s.i], c)
  }

  ghost predicate SameStanding(w: World, d: Draft, c: string)
    requires d.since <= |w.history|
  {
    Standing(w.history[..d.since] + [Sent(d.code)], c) == Standing(w.history + [Sent(d.code)], c)
  }

  // No code is put into a request that was in one before.
  ghost predicate FreshCodes(w: World, steps: seq<Step>) {
    steps != [] ==>
      && FreshCodes(w, steps[..|steps| - 1])
      && FreshStep(Run(w, steps[..|steps| - 1]), steps[|steps| - 1])
  }

  predicate FreshStep(w: World, s: Step) { s.Message? ==> s.input.newCode !in w.expiry }

  ghost predicate AlwaysRemembered(w: World, steps: seq<Step>) {
    Remembered(Run(w, steps)) && (steps != [] ==> AlwaysRemembered(w, steps[..|steps| - 1]))
  }

  ghost predicate NeverDisturbed(w: World, steps: seq<Step>) {
    steps != [] ==>
      Undisturbed(Run(w, steps[..|steps| - 1]), steps[|steps| - 1]) && NeverDisturbed(w, steps[..|steps| - 1])
  }

  lemma TimesSnoc(history: seq<Note>, n: Note, code: string)
    ensures Times(history + [n], code) == Times(history, code) + if n == Sent(code) then 1 else 0
    ensures IsUsed(history + [n], code) <==> IsUsed(history, code) || (n.Approved? && n.code == code)
  {
    assert (history + [n])[..|history|] == history;
  }

  lemma {:induction false} TimesPositive(history: seq<Note>, code: string)
    ensures Times(history, code) >= 0
    ensures (forall n :: n in history ==> n.code != code) ==> Times(history, code) == 0 && !IsUsed(history, code)
  {
    if history != [] { TimesPositive(history[..|history| - 1], code); }
  }

  lemma StandingSnoc(history: seq<Note>, n: Note, code: string)
    ensures n.code != code ==> Standing(history + [n], code) == Standing(history, code)
    ensures n == Sent(code) && IsUsed(history, code) ==> Standing(history + [n], code) == None
    ensures n == Sent(code) && !IsUsed(history, code) ==> Standing(history + [n], code) == Some(Times(history, code) + 1)
    ensures n.Approved? && n.code == code ==> Standing(history + [n], code) == None
  {
    TimesSnoc(history, n, code);
    TimesPositive(history, code);
    hide Times, IsUsed;
  }

  // Requests carry the end of their code.
  ghost predicate Dated(expiry: map<string, int>, m: Requests) {
    forall c :: c in m.at ==> c in expiry && m.at[c].expiresAt == expiry[c]
  }

  ghost predicate Known(w: World) {
    && Dated(w.expiry, w.stored.pending)
    && (forall d :: d in w.drafts ==> Dated(w.expiry, d.access.pending) && d.code in w.expiry)
    && forall n :: n in w.history ==> n.code in w.expiry
  }

  ghost predicate Tracked(w: World) { Known(w) && Remembered(w) && DraftsTell(w) }

  // What a decision writes down carries the ends of the codes.
  lemma DecisionDated(i: Input, access: Access, expiry: map<string, int>)
    requires Dated(expiry, access.pending) && i.newCode !in expiry
    ensures var d := Gate(i, access);
      match d.action
      case Pair(code, true) => code in expiry && Dated(expiry, d.access.pending)
      case Pair(code, false) => code == i.newCode && Dated(expiry[code := i.now + PAIRING_TTL_MS], d.access.pending)
      case _ => Dated(expiry, d.access.pending)
  {
    hide Gate, Pruned, PairingGate.Alive, SameParty;
    PrunedMeaning(access.pending, i.now);
    GateEffect(i, access);
  }

  // It tells of an unexpired code what the store told, and of its own code one sending more.
  lemma DecisionTells(i: Input, access: Access, expiry: map<string, int>, history: seq<Note>, c: string)
    requires Dated(expiry, access.pending) && i.newCode !in expiry
    requires c in expiry && expiry[c] > i.now
    requires Replies(access.pending, c) == Standing(history, c)
    ensures var d := Gate(i, access);
      Replies(d.access.pending, c) == Standing(if d.action.Pair? then history + [Sent(d.action.code)] else history, c)
  {
    hide Gate, Pruned, SameParty, Times, IsUsed;
    PrunedMeaning(access.pending, i.now);
    GateEffect(i, access);
    var d := Gate(i, access);
    assert Replies(Pruned(access.pending, i.now), c) == Replies(access.pending, c);
    if d.action.Pair? { StandingSnoc(history, Sent(d.action.code), c); }
  }

  lemma NewCodeTold(i: Input, access: Access, history: seq<Note>)
    requires Gate(i, access).action == Pair(i.newCode, false)
    requires forall n :: n in history ==> n.code != i.newCode
    ensures Replies(Gate(i, access).access.pending, i.newCode) == Standing(history + [Sent(i.newCode)], i.newCode)
  {
    hide Gate, Pruned, SameParty, Times, IsUsed;
    GateEffect(i, access);
    TimesPositive(history, i.newCode);
    StandingSnoc(history, Sent(i.newCode), i.newCode);
  }

  // A code nobody knows yet has no standing and is in no request.
  lemma UnknownCode(w: World, c: string)
    requires Known(w) && c !in w.expiry
    ensures Replies(w.stored.pending, c) == None == Standing(w.history, c)
    ensures forall d :: d in w.drafts && d.since <= |w.history| ==>
      Replies(d.access.pending, c) == None == Standing(w.history[..d.since] + [Sent(d.code)], c)
  {
    hide Times, IsUsed, Standing;
    NoStanding(w.history, c);
    forall d | d in w.drafts && d.since <= |w.history|
      ensures Replies(d.access.pending, c) == None == Standing(w.history[..d.since] + [Sent(d.code)], c)
    {
      NoStanding(w.history[..d.since], c);
      StandingSnoc(w.history[..d.since], Sent(d.code), c);
    }
  }

  lemma NoStanding(history: seq<Note>, c: string)
    requires forall n :: n in history ==> n.code != c
    ensures Standing(history, c) == None
  {
    TimesPositive(history, c);
  }

  lemma {:induction false} MessageKnown(w: World, i: Input, quiet: bool)
    requires Known(w) && i.newCode !in w.expiry
    ensures Known(DoMessage(w, i, quiet))
  {
    hide Gate;
    DecisionDated(i, w.stored, w.expiry);
  }

  lemma {:induction false} MessageRemembered(w: World, i: Input, quiet: bool)
    requires Tracked(w) && i.newCode !in w.expiry
    ensures Remembered(DoMessage(w, i, quiet))
  {
    hide Gate, Standing, DraftsTell;
    var v := DoMessage(w, i, quiet);
    DecisionDated(i, w.stored, w.expiry);
    forall c | Lives(v, c) ensures Replies(v.stored.pending, c) == Standing(v.history, c) {
      if c in w.expiry {
        assert Lives(w, c);
        DecisionTells(i, w.stored, w.expiry, w.history, c);
      } else {
        UnknownCode(w, c);
      }
    }
  }

  lemma {:induction false} MessageDraftsTell(w: World, i: Input, quiet: bool)
    requires Tracked(w) && i.newCode !in w.expiry
    ensures DraftsTell(DoMessage(w, i, quiet))
  {
    hide Gate, Standing, Remembered;
    var v := DoMessage(w, i, quiet);
    DecisionDated(i, w.stored, w.expiry);
    forall d | d in v.drafts ensures DraftTells(v, d) {
      if d in w.drafts {
        OldDraftTells(w, v, d, i);
      } else {
        NewDraftTells(w, v, d, i, quiet);
      }
    }
  }

  lemma OldDraftTells(w: World, v: World, d: Draft, i: Input)
    requires Known(w) && d in w.drafts && DraftTells(w, d)
    requires v.history == w.history && v.clock >= w.clock
    requires v.expiry == w.expiry || (i.newCode !in w.expiry && v.expiry == w.expiry[i.newCode := i.now + PAIRING_TTL_MS])
    ensures DraftTells(v, d)
  {
    hide Standing;
    forall c | Lives(v, c) ensures Replies(d.access.pending, c) == Standing(v.history[..d.since] + [Sent(d.code)], c) {
      if c !in w.expiry { UnknownCode(w, c); } else { assert Lives(w, c); }
    }
  }

  lemma NewDraftTells(w: World, v: World, d: Draft, i: Input, quiet: bool)
    requires Known(w) && Remembered(w) && i.newCode !in w.expiry
    requires v == DoMessage(w, i, quiet) && d in v.drafts && d !in w.drafts
    ensures DraftTells(v, d)
  {
    hide Gate, Standing;
    var g := Gate(i, w.stored);
    assert g.action.Pair? && d == Draft(g.access, g.action.code, g.action.isResend, |w.history|);
    assert w.history[..|w.history|] == w.history;
    DecisionDated(i, w.stored, w.expiry);
    forall c | Lives(v, c) ensures Replies(d.access.pending, c) == Standing(v.history[..d.since] + [Sent(d.code)], c) {
      if c in w.expiry {
        assert Lives(w, c);
        DecisionTells(i, w.stored, w.expiry, w.history, c);
      } else {
        NewCodeTold(i, w.stored, w.history);
      }
    }
  }

  // The step in question: storing a draft keeps every unexpired code's standing
  // exactly if none has changed since the draft's decision.
  lemma {:induction false} SendingStep(w: World, s: Step)
    requires Tracked(w) && Sends(w, s)
    ensures Remembered(Next(w, s)) <==> Undisturbed(w, s)
    ensures Known(Next(w, s)) && DraftsTell(Next(w, s))
  {
    hide Standing;
    var d, v := w.drafts[s.i], Next(w, s);
    OthersIn(w.drafts, s.i);
    assert DraftTells(w, d);
    forall c ensures Lives(v, c) == Lives(w, c) {}
    forall x | x in v.drafts ensures DraftTells(v, x) { DraftTellsOn(w, v, x); }
  }

  lemma DraftTellsOn(w: World, v: World, d: Draft)
    requires DraftTells(w, d) && w.history <= v.history && v.expiry == w.expiry && v.clock == w.clock
    ensures DraftTells(v, d)
  {
    hide Standing;
    assert v.history[..d.since] == w.history[..d.since];
  }

  lemma {:induction false} ApprovalStep(w: World, code: string)
    requires Tracked(w)
    ensures Tracked(Next(w, Approve(code)))
  {
    hide Standing, Granted;
    var v := Next(w, Approve(code));
    if code in w.stored.pending.at {
      ApprovalRemembered(w, code);
      forall x | x in v.drafts ensures DraftTells(v, x) { DraftTellsOn(w, v, x); }
    }
  }

  lemma ApprovalRemembered(w: World, code: string)
    requires Remembered(w) && code in w.stored.pending.at
    ensures Remembered(Next(w, Approve(code)))
  {
    hide Standing;
    var v := Next(w, Approve(code));
    forall c | Lives(v, c) ensures Replies(v.stored.pending, c) == Standing(v.history, c) {
      StandingSnoc(w.history, Approved(code, w.stored.pending.at[code]), c);
      assert Lives(w, c);
    }
  }

  lemma {:induction false} TrackStep(w: World, s: Step)
    requires Tracked(w) && FreshStep(w, s)
    ensures Remembered(Next(w, s)) <==> Undisturbed(w, s)
    ensures Remembered(Next(w, s)) ==> Tracked(Next(w, s))
  {
    hide Known, Remembered, DraftsTell, DoMessage;
    match s
    case Message(input, quiet) =>
      MessageKnown(w, input, quiet);
      MessageRemembered(w, input, quiet);
      MessageDraftsTell(w, input, quiet);
    case CodeSent(i) => if i < |w.drafts| { SendingStep(w, s); }
    case CodeLost(i) => if i < |w.drafts| { LosingStep(w, s); }
    case Approve(code) => ApprovalStep(w, code);
  }

  lemma LosingStep(w: World, s: Step)
    requires Tracked(w) && s.CodeLost? && s.i < |w.drafts|
    ensures Tracked(Next(w, s))
  {
    hide Standing, Dated;
    OthersIn(w.drafts, s.i);
    var v := Next(w, s);
    forall x | x in v.drafts ensures DraftTells(v, x) { DraftTellsOn(w, v, x); }
  }

  lemma BeginTracked(clock: int)
    ensures Tracked(Begin(DEFAULTS, clock))
  {}

  // Throughout a run every unexpired code that was sent and not approved is stored
  // with the true count of its sendings, and no other is stored, if and only if no
  // code was sent after the standing of an unexpired code had changed since the
  // decision behind it.
  lemma {:induction false} CodesAreRemembered(clock: int, steps: seq<Step>)
    requires FreshCodes(Begin(DEFAULTS, clock), steps)
    ensures AlwaysRemembered(Begin(DEFAULTS, clock), steps) <==> NeverDisturbed(Begin(DEFAULTS, clock), steps)
    ensures AlwaysRemembered(Begin(DEFAULTS, clock), steps) ==> Tracked(Run(Begin(DEFAULTS, clock), steps))
  {
    hide Next, Tracked, Remembered, Undisturbed, FreshStep;
    var w := Begin(DEFAULTS, clock);
    if steps == [] {
      BeginTracked(clock);
      assert Remembered(w) by { TrackedRemembers(w); }
    } else {
      var p := steps[..|steps| - 1];
      CodesAreRemembered(clock, p);
      if AlwaysRemembered(w, p) { TrackStep(Run(w, p), steps[|steps| - 1]); }
    }
  }

  lemma TrackedRemembers(w: World)
    requires Tracked(w)
    ensures Remembered(w)
  {}

  // ----- the condition, in terms of what was sent meanwhile -----

  lemma {:induction false} TimesAppend(a: seq<Note>, b: seq<Note>, code: string)
    ensures Times(a + b, code) == Times(a, code) + Times(b, code)
  {
    if b == [] {
      assert a + b == a;
    } else {
      SplitLast(a, b);
      assert (a + b)[..|a + b| - 1] == a + b[..|b| - 1];
      TimesAppend(a, b[..|b| - 1], code);
    }
  }

  lemma {:induction false} SentAtLeastOnce(history: seq<Note>, code: string)
    ensures Times(history, code) > 0 <==> Sent(code) in history
  {
    if history != [] {
      var p := history[..|history| - 1];
      SplitLast([], history);
      SentAtLeastOnce(p, code);
      TimesPositive(p, code);
    }
  }

  ghost predicate NothingLivingSent(w: World, since: nat) {
    forall j :: since <= j < |w.history| ==> !Lives(w, w.history[j].code)
  }

  // With no approval so far, a sending is undisturbed if and only if no code that
  // is still unexpired was sent since its decision.
  lemma {:induction false} DisturbedBySending(w: World, s: Step)
    requires OnlySent(w.history) && Sends(w, s) && w.drafts[s.i].since <= |w.history|
    ensures Undisturbed(w, s) <==> NothingLivingSent(w, w.drafts[s.i].since)
  {
    hide Times, Lives;
    var d := w.drafts[s.i];
    forall c ensures SameStanding(w, d, c) <==> Sent(c) !in w.history[d.since..] { SentMeanwhile(w, d, c); }
    hide SameStanding, OnlySent;
    LivingSent(w, d.since);
    hide NothingLivingSent;
  }

  lemma {:induction false} LivingSent(w: World, since: nat)
    requires OnlySent(w.history) && since <= |w.history|
    ensures NothingLivingSent(w, since) <==> forall c :: Lives(w, c) ==> Sent(c) !in w.history[since..]
  {
    hide Lives;
    var q := w.history[since..];
    forall c | Sent(c) in q ensures exists j :: since <= j < |w.history| && w.history[j].code == c {
      var k :| 0 <= k < |q| && q[k] == Sent(c);
      assert w.history[since + k] == q[k];
    }
    forall j | since <= j < |w.history| ensures Sent(w.history[j].code) in q {
      SentNote(w, j);
      assert q[j - since] == w.history[j];
    }
  }

  lemma SentNote(w: World, j: nat)
    requires OnlySent(w.history) && j < |w.history|
    ensures w.history[j] == Sent(w.history[j].code)
  {
    assert w.history[j] in w.history;
  }

  lemma SentMeanwhile(w: World, d: Draft, c: string)
    requires OnlySent(w.history) && d.since <= |w.history|
    ensures SameStanding(w, d, c) <==> Sent(c) !in w.history[d.since..]
  {
    hide Times;
    var p, q := w.history[..d.since], w.history[d.since..];
    assert w.history == p + q;
    TimesAppend(p, q, c);
    SentAtLeastOnce(q, c);
    TimesPositive(p, c);
    TimesPositive(q, c);
    TimesSnoc(p, Sent(d.code), c);
    TimesSnoc(w.history, Sent(d.code), c);
    NoneUsed(p, c);
    NoneUsed(w.history, c);
    hide IsUsed, OnlySent;
  }

  lemma NoneUsed(history: seq<Note>, c: string)
    requires OnlySent(history)
    ensures !IsUsed(history, c)
  {}

  // A decision that is sent before anything else happens disturbs nothing.
  lemma AtOnceIsUndisturbed(start: Access, w: World, s: Step)
    requires Sends(w, s) && w.drafts[s.i].since == |w.history|
    ensures Undisturbed(w, s) && NothingGranted(start, w, s)
  {
    hide Standing;
    assert w.history[..|w.history|] == w.history;
  }

  // ----- how often a code goes out -----

  // Time does not run backwards.
  ghost predicate ClockRuns(w: World, steps: seq<Step>) {
    steps != [] ==>
      && ClockRuns(w, steps[..|steps| - 1])
      && OnTime(Run(w, steps[..|steps| - 1]), steps[|steps| - 1])
  }

  predicate OnTime(w: World, s: Step) { s.Message? ==> s.input.now >= w.clock }

  // The code that is sent has not been sent since its decision.
  predicate NotResentMeanwhile(w: World, s: Step) {
    Sends(w, s) && w.drafts[s.i].since <= |w.history| ==>
      Times(w.history[..w.drafts[s.i].since], w.drafts[s.i].code) == Times(w.history, w.drafts[s.i].code)
  }

  ghost predicate NeverResentMeanwhile(w: World, steps: seq<Step>) {
    steps != [] ==>
      NotResentMeanwhile(Run(w, steps[..|steps| - 1]), steps[|steps| - 1]) && NeverResentMeanwhile(w, steps[..|steps| - 1])
  }

  // The store counted the code truly when the draft was decided: the draft counts
  // one sending more than there had been.
  predicate CountedTruly(w: World, d: Draft) {
    d.since <= |w.history| && Replies(d.access.pending, d.code) == Some(Times(w.history[..d.since], d.code) + 1)
  }

  // The code that is sent was counted truly at its decision, and has not been sent since.
  predicate SentTruly(w: World, s: Step) {
    Sends(w, s) ==> CountedTruly(w, w.drafts[s.i]) && NotResentMeanwhile(w, s)
  }

  ghost predicate AlwaysSentTruly(w: World, steps: seq<Step>) {
    steps != [] ==>
      SentTruly(Run(w, steps[..|steps| - 1]), steps[|steps| - 1]) && AlwaysSentTruly(w, steps[..|steps| - 1])
  }

  lemma DecisionCounts(i: Input, a: Access)
    requires i.newCode !in a.pending.at && Gate(i, a).action.Pair?
    ensures var g := Gate(i, a);
      Replies(g.access.pending, g.action.code) == Some(Replies(a.pending, g.action.code).GetOr(0) + 1)
  {
    hide Gate, Pruned, SameParty, PairingGate.Alive, OneEach;
    PrunedMeaning(a.pending, i.now);
    GateEffect(i, a);
  }

  lemma FreshIsNotPending(w: World, code: string)
    requires Known(w) && code !in w.expiry
    ensures code !in w.stored.pending.at
  {}

  // What a draft counts of its own code is one more than the store did.
  lemma CountedAtDecision(w: World, i: Input)
    requires Known(w) && i.newCode !in w.expiry && Gate(i, w.stored).action.Pair?
    ensures var g, v := Gate(i, w.stored), Next(w, Message(i, false));
      var d := v.drafts[|w.drafts|];
      && d.code == g.action.code && d.since == |w.history|
      && Replies(d.access.pending, d.code) == Some(Replies(w.stored.pending, d.code).GetOr(0) + 1)
      && (CountedTruly(v, d) <==> Replies(w.stored.pending, d.code).GetOr(0) == Times(w.history, d.code))
  {
    hide Gate, Times, Next, Replies, Known;
    FreshIsNotPending(w, i.newCode);
    DecisionCounts(i, w.stored);
    StartSending(w, i);
    var g := Gate(i, w.stored);
    assert Next(w, Message(i, false)).drafts[|w.drafts|] ==
      Draft(g.access, g.action.code, g.action.isResend, |w.history|);
    assert w.history[..|w.history|] == w.history;
  }

  ghost predicate TwiceAtMost(history: seq<Note>) { forall c :: Times(history, c) <= 2 }

  // Requests are of codes that were sent, but for the one a draft is about to send.
  ghost predicate OfSent(w: World, m: Requests, own: Option<string>) {
    forall c :: c in m.at ==> Some(c) == own || Sent(c) in w.history
  }

  // A first code was never sent and counts one; one that is sent again was sent and counts two.
  ghost predicate DraftCounts(w: World, d: Draft) {
    && d.since <= |w.history|
    && OfSent(w, d.access.pending, Some(d.code))
    && Replies(d.access.pending, d.code) == Some(if d.resend then 2 else 1)
    && if d.resend then Sent(d.code) in w.history[..d.since] else Sent(d.code) !in w.history
  }

  ghost predicate OwnCodes(drafts: seq<Draft>) {
    forall i, j :: 0 <= i < |drafts| && 0 <= j < |drafts| && i != j && !drafts[i].resend ==> drafts[j].code != drafts[i].code
  }

  ghost predicate Counting(w: World) {
    && OfSent(w, w.stored.pending, None) && OwnCodes(w.drafts)
    && forall d :: d in w.drafts ==> DraftCounts(w, d)
  }

  lemma DraftCountsOn(w: World, v: World, d: Draft)
    requires DraftCounts(w, d) && w.history <= v.history
    requires d.resend || Sent(d.code) !in v.history
    ensures DraftCounts(v, d)
  {
    hide Times;
    assert v.history[..d.since] == w.history[..d.since];
  }

  lemma DecisionOfSent(w: World, i: Input)
    requires OfSent(w, w.stored.pending, None)
    ensures var d := Gate(i, w.stored);
      OfSent(w, d.access.pending, if d.action.Pair? then Some(d.action.code) else None)
    ensures var d := Gate(i, w.stored); d.action.Pair? && d.action.isResend ==> Sent(d.action.code) in w.history
    ensures var d := Gate(i, w.stored); d.action.Pair? && !d.action.isResend ==> d.action.code == i.newCode
    ensures var d := Gate(i, w.stored); Sound(w.stored.pending) && d.action.Pair? ==>
      Replies(d.access.pending, d.action.code) == Some(if d.action.isResend then 2 else 1)
  {
    hide Gate, Pruned, SameParty, PairingGate.Alive, OneEach;
    PrunedMeaning(w.stored.pending, i.now);
    GateEffect(i, w.stored);
  }

  lemma {:induction false} MessageCounts(w: World, i: Input, quiet: bool)
    requires Known(w) && SoundAll(w) && Counting(w) && i.newCode !in w.expiry
    ensures Counting(DoMessage(w, i, quiet))
  {
    hide Gate, Times, Sound, OwnCodes, Dated;
    var v, g := DoMessage(w, i, quiet), Gate(i, w.stored);
    DecisionOfSent(w, i);
    if g.action.Pair? {
      var d := Draft(g.access, g.action.code, g.action.isResend, |w.history|);
      assert w.history[..|w.history|] == w.history;
      assert DraftCounts(v, d);
      forall x | x in w.drafts ensures DraftCounts(v, x) && (!x.resend ==> d.code != x.code) && (!d.resend ==> x.code != d.code) {
        DraftCountsOn(w, v, x);
      }
      OwnCodesSnoc(w.drafts, d);
    } else {
      forall x | x in w.drafts ensures DraftCounts(v, x) { DraftCountsOn(w, v, x); }
    }
  }

  lemma OwnCodesSnoc(drafts: seq<Draft>, d: Draft)
    requires OwnCodes(drafts)
    requires forall x :: x in drafts ==> (!x.resend ==> d.code != x.code) && (!d.resend ==> x.code != d.code)
    ensures OwnCodes(drafts + [d])
  {
    assert forall k :: 0 <= k < |drafts| ==> (drafts + [d])[k] == drafts[k] && drafts[k] in drafts;
  }

  lemma OthersOwnCodes(drafts: seq<Draft>, i: nat)
    requires i < |drafts| && OwnCodes(drafts)
    ensures OwnCodes(Others(drafts, i))
    ensures forall d :: d in Others(drafts, i) && !d.resend ==> d.code != drafts[i].code
  {
    var o := Others(drafts, i);
    assert forall k :: 0 <= k < |o| ==> o[k] == drafts[if k < i then k else k + 1];
  }

  lemma {:induction false} SendingCounts(w: World, s: Step)
    requires Counting(w) && Sends(w, s)
    ensures Counting(Next(w, s))
  {
    hide Times, OwnCodes;
    var d, v := w.drafts[s.i], Next(w, s);
    OthersIn(w.drafts, s.i);
    OthersOwnCodes(w.drafts, s.i);
    assert DraftCounts(w, d);
    forall x | x in v.drafts ensures DraftCounts(v, x) { DraftCountsOn(w, v, x); }
  }

  lemma {:induction false} CountStep(w: World, s: Step)
    requires Known(w) && SoundAll(w) && Counting(w) && FreshStep(w, s)
    ensures Counting(Next(w, s))
  {
    hide Known, SoundAll, DoMessage, Times;
    match s
    case Message(input, quiet) => MessageCounts(w, input, quiet);
    case CodeSent(i) => if i < |w.drafts| { SendingCounts(w, s); }
    case CodeLost(i) =>
      if i < |w.drafts| {
        OthersIn(w.drafts, i);
        OthersOwnCodes(w.drafts, i);
        hide OwnCodes;
      }
    case Approve(code) => ApprovalCounts(w, code);
  }

  lemma ApprovalCounts(w: World, code: string)
    requires Counting(w)
    ensures Counting(Next(w, Approve(code)))
  {
    hide Times, OwnCodes;
    var v := Next(w, Approve(code));
    if code in w.stored.pending.at {
      forall x | x in v.drafts ensures DraftCounts(v, x) { DraftCountsOn(w, v, x); }
    }
  }

  // Sending a code is its third time exactly if it was not counted truly at its
  // decision, or was sent since.
  lemma {:induction false} TwiceStep(w: World, s: Step)
    requires Counting(w) && TwiceAtMost(w.history)
    ensures TwiceAtMost(Next(w, s).history) <==> SentTruly(w, s)
  {
    hide DoMessage, Counting, SentTruly, Times;
    if Sends(w, s) {
      var d := w.drafts[s.i];
      TwiceSending(w, s);
      forall c ensures Times(w.history + [Sent(d.code)], c) == Times(w.history, c) + if c == d.code then 1 else 0 {
        TimesSnoc(w.history, Sent(d.code), c);
      }
    } else if s.Approve? && s.code in w.stored.pending.at {
      var n := Approved(s.code, w.stored.pending.at[s.code]);
      NothingIsTrue(w, s);
      forall c ensures Times(w.history + [n], c) == Times(w.history, c) { TimesSnoc(w.history, n, c); }
    } else {
      NothingIsTrue(w, s);
      assert Next(w, s).history == w.history by { MessagesNote(w, s); }
    }
  }

  lemma NothingIsTrue(w: World, s: Step)
    requires !Sends(w, s)
    ensures SentTruly(w, s)
  {}

  lemma {:induction false} TwiceSending(w: World, s: Step)
    requires Counting(w) && Sends(w, s)
    ensures SentTruly(w, s) <==> Times(w.history, w.drafts[s.i].code) < MAX_PAIRING_REPLIES
  {
    hide OfSent, OwnCodes, Times;
    var d := w.drafts[s.i];
    assert DraftCounts(w, d);
    var p, q := w.history[..d.since], w.history[d.since..];
    assert w.history == p + q;
    TimesAppend(p, q, d.code);
    TimesPositive(p, d.code);
    TimesPositive(q, d.code);
    SentAtLeastOnce(w.history, d.code);
    SentAtLeastOnce(p, d.code);
  }

  lemma MessagesNote(w: World, s: Step)
    requires !Sends(w, s) && (s.Approve? ==> s.code !in w.stored.pending.at)
    ensures Next(w, s).history == w.history
  {
    hide Gate;
  }

  lemma {:induction false} HistoryGrows(w: World, s: Step, c: string)
    ensures Times(w.history, c) <= Times(Next(w, s).history, c)
  {
    hide Gate;
    if Sends(w, s) {
      TimesSnoc(w.history, Sent(w.drafts[s.i].code), c);
    } else if s.Approve? && s.code in w.stored.pending.at {
      TimesSnoc(w.history, Approved(s.code, w.stored.pending.at[s.code]), c);
    }
    hide Times;
  }

  lemma BeginCounts(clock: int)
    ensures Counting(Begin(DEFAULTS, clock)) && SoundAll(Begin(DEFAULTS, clock))
    ensures TwiceAtMost(Begin(DEFAULTS, clock).history)
  {
    DefaultsAreSound();
  }

  lemma {:induction false} KnownStep(w: World, s: Step)
    requires Known(w) && FreshStep(w, s)
    ensures Known(Next(w, s))
  {
    hide Dated, DoMessage;
    match s
    case Message(input, quiet) => MessageKnown(w, input, quiet);
    case CodeSent(i) => if i < |w.drafts| { OthersIn(w.drafts, i); }
    case CodeLost(i) => if i < |w.drafts| { OthersIn(w.drafts, i); }
    case Approve(code) => ApprovalKnown(w, code);
  }

  lemma ApprovalKnown(w: World, code: string)
    requires Known(w)
    ensures Known(Next(w, Approve(code)))
  {}

  lemma {:induction false} CountingRun(clock: int, steps: seq<Step>)
    requires FreshCodes(Begin(DEFAULTS, clock), steps)
    ensures var u := Run(Begin(DEFAULTS, clock), steps); Known(u) && SoundAll(u) && Counting(u)
  {
    hide Next, Known, Counting, SoundAll, FreshStep;
    var w := Begin(DEFAULTS, clock);
    BeginCounts(clock);
    RunSound(w, steps);
    if steps == [] {
      assert Known(w) by { BeginKnown(clock); }
    } else {
      var p := steps[..|steps| - 1];
      CountingRun(clock, p);
      KnownStep(Run(w, p), steps[|steps| - 1]);
      CountStep(Run(w, p), steps[|steps| - 1]);
    }
  }

  lemma BeginKnown(clock: int)
    ensures Known(Begin(DEFAULTS, clock))
  {}

  // In every run no code goes out more than twice if and only if each sending was
  // decided while the store counted its code truly, and its code was not sent
  // between that decision and the sending.
  lemma {:induction false} CodesGoOutTwiceAtMost(clock: int, steps: seq<Step>)
    requires FreshCodes(Begin(DEFAULTS, clock), steps)
    ensures TwiceAtMost(Run(Begin(DEFAULTS, clock), steps).history) <==> AlwaysSentTruly(Begin(DEFAULTS, clock), steps)
  {
    hide Next, Counting, SoundAll, Known, FreshStep, SentTruly, Times;
    var w := Begin(DEFAULTS, clock);
    if steps == [] {
      BeginCounts(clock);
    } else {
      var p, s := steps[..|steps| - 1], steps[|steps| - 1];
      CodesGoOutTwiceAtMost(clock, p);
      CountingRun(clock, p);
      var u := Run(w, p);
      forall c ensures Times(u.history, c) <= Times(Next(u, s).history, c) { HistoryGrows(u, s, c); }
      if TwiceAtMost(u.history) { TwiceStep(u, s); }
    }
  }

  ghost predicate DraftsTrue(w: World) { forall d :: d in w.drafts ==> CountedTruly(w, d) }

  lemma CountedTrulyOn(w: World, v: World, d: Draft)
    requires CountedTruly(w, d) && w.history <= v.history
    ensures CountedTruly(v, d)
  {
    hide Times;
    assert v.history[..d.since] == w.history[..d.since];
  }

  // A store that remembers its codes counts them truly.
  lemma NewDraftTrue(w: World, i: Input)
    requires Tracked(w) && i.now >= w.clock && i.newCode !in w.expiry && Gate(i, w.stored).action.Pair?
    ensures var v := Next(w, Message(i, false)); CountedTruly(v, v.drafts[|w.drafts|])
  {
    hide Gate, Pruned, SameParty, Times, DraftsTell;
    CountedAtDecision(w, i);
    PrunedMeaning(w.stored.pending, i.now);
    GateEffect(i, w.stored);
    var g := Gate(i, w.stored);
    if g.action.isResend {
      assert Lives(w, g.action.code);
    } else {
      TimesPositive(w.history, i.newCode);
    }
  }

  lemma {:induction false} TrueStep(w: World, s: Step)
    requires Tracked(w) && DraftsTrue(w) && FreshStep(w, s) && OnTime(w, s)
    ensures DraftsTrue(Next(w, s))
  {
    hide Gate, Tracked, CountedTruly;
    var v := Next(w, s);
    forall d | d in v.drafts ensures CountedTruly(v, d) {
      if d in w.drafts {
        HistoryAppends(w, s);
        CountedTrulyOn(w, v, d);
      } else {
        NewDraftTrue(w, s.input);
      }
    }
  }

  lemma HistoryAppends(w: World, s: Step)
    ensures w.history <= Next(w, s).history
  {
    hide Gate;
  }

  lemma {:induction false} TrueRun(clock: int, steps: seq<Step>)
    requires FreshCodes(Begin(DEFAULTS, clock), steps) && ClockRuns(Begin(DEFAULTS, clock), steps)
    requires NeverDisturbed(Begin(DEFAULTS, clock), steps)
    ensures DraftsTrue(Run(Begin(DEFAULTS, clock), steps))
    ensures AlwaysSentTruly(Begin(DEFAULTS, clock), steps) <==> NeverResentMeanwhile(Begin(DEFAULTS, clock), steps)
  {
    hide Next, Tracked, Undisturbed, FreshStep, OnTime, CountedTruly, NotResentMeanwhile, SentTruly;
    if steps != [] {
      var p := steps[..|steps| - 1];
      TrueRun(clock, p);
      CodesAreRemembered(clock, p);
      TrueStep(Run(Begin(DEFAULTS, clock), p), steps[|steps| - 1]);
      SentTrulyIf(Run(Begin(DEFAULTS, clock), p), steps[|steps| - 1]);
    }
  }

  lemma SentTrulyIf(w: World, s: Step)
    requires DraftsTrue(w)
    ensures SentTruly(w, s) <==> NotResentMeanwhile(w, s)
  {
    hide CountedTruly, Times;
  }

  // While codes are remembered they are counted truly, so that only sending a code
  // again between a decision and its sending makes it go out a third time.
  lemma RememberedCodesGoOutTwice(clock: int, steps: seq<Step>)
    requires FreshCodes(Begin(DEFAULTS, clock), steps) && ClockRuns(Begin(DEFAULTS, clock), steps)
    requires NeverDisturbed(Begin(DEFAULTS, clock), steps)
    ensures TwiceAtMost(Run(Begin(DEFAULTS, clock), steps).history) <==>
      NeverResentMeanwhile(Begin(DEFAULTS, clock), steps)
  {
    hide Run, TwiceAtMost, FreshCodes, ClockRuns, NeverDisturbed, AlwaysSentTruly, NeverResentMeanwhile;
    TrueRun(clock, steps);
    CodesGoOutTwiceAtMost(clock, steps);
  }

  // ----- one after the other nothing is lost; overlapping, each promise is -----

  // Every code is out, or given up, before anything else is sent or approved.
  ghost predicate OneAtATime(w: World, steps: seq<Step>) {
    steps != [] ==>
      && OneAtATime(w, steps[..|steps| - 1])
      && AtOnce(Run(w, steps[..|steps| - 1]), steps[|steps| - 1])
  }

  predicate AtOnce(w: World, s: Step) { Sends(w, s) ==> w.drafts[s.i].since == |w.history| }

  lemma {:induction false} OneAtATimeIsClean(start: Access, w: World, steps: seq<Step>)
    requires OneAtATime(w, steps)
    ensures NeverDisturbed(w, steps) && NeverResentMeanwhile(w, steps) && NeverGrantedMeanwhile(start, w, steps)
  {
    hide Undisturbed, NothingGranted, NotResentMeanwhile, Run, Next;
    if steps != [] {
      var u, s := Run(w, steps[..|steps| - 1]), steps[|steps| - 1];
      OneAtATimeIsClean(start, w, steps[..|steps| - 1]);
      if Sends(u, s) {
        AtOnceIsUndisturbed(start, u, s);
        AtOnceIsFirst(u, s);
      } else {
        NothingSent(start, u, s);
      }
    }
  }

  lemma NothingSent(start: Access, w: World, s: Step)
    requires !Sends(w, s)
    ensures Undisturbed(w, s) && NothingGranted(start, w, s) && NotResentMeanwhile(w, s)
  {}

  lemma AtOnceIsFirst(w: World, s: Step)
    requires Sends(w, s) && w.drafts[s.i].since == |w.history|
    ensures NotResentMeanwhile(w, s)
  {
    hide Times;
    assert w.history[..|w.history|] == w.history;
  }

  // Code after code, all three promises hold: codes are remembered with their
  // counts, none goes out more than twice, and approvals stay in force.
  lemma {:induction false} OneAtATimeKeepsAll(clock: int, steps: seq<Step>)
    requires FreshCodes(Begin(DEFAULTS, clock), steps) && ClockRuns(Begin(DEFAULTS, clock), steps)
    requires OneAtATime(Begin(DEFAULTS, clock), steps)
    ensures AlwaysRemembered(Begin(DEFAULTS, clock), steps)
    ensures TwiceAtMost(Run(Begin(DEFAULTS, clock), steps).history)
    ensures AlwaysInForce(DEFAULTS, Begin(DEFAULTS, clock), steps)
  {
    hide Run, Next, TwiceAtMost, FreshCodes, ClockRuns, OneAtATime, AlwaysRemembered, AlwaysInForce;
    OneAtATimeIsClean(DEFAULTS, Begin(DEFAULTS, clock), steps);
    CodesAreRemembered(clock, steps);
    RememberedCodesGoOutTwice(clock, steps);
    ApprovalsSurvive(DEFAULTS, clock, steps);
  }

  lemma StartSending(w: World, i: Input)
    requires Gate(i, w.stored).action.Pair?
    ensures var g, v := Gate(i, w.stored), Next(w, Message(i, false));
      && v.drafts == w.drafts + [Draft(g.access, g.action.code, g.action.isResend, |w.history|)]
      && v.stored == w.stored && v.history == w.history
  {
    hide Gate;
  }

  lemma SendFirst(w: World)
    requires w.drafts != []
    ensures var d, v := w.drafts[0], Next(w, CodeSent(0));
      v.stored == d.access && v.drafts == w.drafts[1..] && v.history == w.history + [Sent(d.code)]
  {
    assert w.drafts[..0] + w.drafts[1..] == w.drafts[1..];
  }

  // A message, and its code sent at once.
  function Paired(w: World, i: Input): World { Next(Next(w, Message(i, false)), CodeSent(0)) }

  // Two messages decided before the code of either is out.
  function BothDecided(w: World, first: Input, second: Input): World {
    Next(Next(w, Message(first, false)), Message(second, false))
  }

  lemma {:induction false} BothSent(w: World, first: Input, second: Input)
    requires w.drafts == [] && Gate(first, w.stored).action.Pair? && Gate(second, w.stored).action.Pair?
    ensures var a, b := Gate(first, w.stored), Gate(second, w.stored);
      var u := Next(BothDecided(w, first, second), CodeSent(0));
      var v := Next(u, CodeSent(0));
      && u.stored == a.access && v.stored == b.access
      && v.history == w.history + [Sent(a.action.code), Sent(b.action.code)]
  {
    hide Gate;
    StartSending(w, first);
    StartSending(Next(w, Message(first, false)), second);
    var both := BothDecided(w, first, second);
    hide Next;
    SendFirst(both);
    SendFirst(Next(both, CodeSent(0)));
  }

  // Two first messages of one new direct sender: the code of the first was sent, and
  // the store of the second forgets it.
  lemma {:induction false} OverlapForgetsACode(clock: int, first: Input, second: Input)
    requires first.chat == P2p && second.chat == P2p && first.senderId == second.senderId != ""
    requires first.newCode != second.newCode
    ensures var u := Next(BothDecided(Begin(DEFAULTS, clock), first, second), CodeSent(0));
      && first.newCode in u.stored.pending.at
      && first.newCode !in Next(u, CodeSent(0)).stored.pending.at
      && second.newCode in Next(u, CodeSent(0)).stored.pending.at
  {
    FirstDecision(first);
    FirstDecision(second);
    hide Gate, Next, BothDecided;
    BothSent(Begin(DEFAULTS, clock), first, second);
  }

  lemma FirstDecision(i: Input)
    requires i.chat == P2p && i.senderId != ""
    ensures Gate(i, DEFAULTS).action == Pair(i.newCode, false)
    ensures forall c :: c in Gate(i, DEFAULTS).access.pending.at <==> c == i.newCode
    ensures Gate(i, DEFAULTS).access.pending.at[i.newCode] ==
      Entry(Dm, i.senderId, i.chatId, i.now, i.now + PAIRING_TTL_MS, 1)
    ensures SamePolicies(DEFAULTS, Gate(i, DEFAULTS).access)
  {}

  // The state after one new direct sender got a code.
  lemma {:induction false} PairedOnce(clock: int, i: Input)
    requires i.chat == P2p && i.senderId != ""
    ensures var w := Paired(Begin(DEFAULTS, clock), i);
      && w.stored == Gate(i, DEFAULTS).access && w.drafts == [] && w.history == [Sent(i.newCode)]
  {
    FirstDecision(i);
    hide Gate;
    var w := Begin(DEFAULTS, clock);
    StartSending(w, i);
    var v := Next(w, Message(i, false));
    hide Next;
    SendFirst(v);
  }

  // A further message of a sender with one request and one reply gets the same code.
  lemma {:induction false} SecondDecision(i: Input, a: Access, code: string, e: Entry)
    requires i.chat == P2p && i.senderId != "" && SamePolicies(DEFAULTS, a)
    requires forall c :: c in a.pending.at && a.pending.at[c].senderId == i.senderId ==> c == code
    requires code in a.pending.at && a.pending.at[code] == e && e.kind == Dm && e.senderId == i.senderId && e.replies == 1 && e.expiresAt > i.now
    ensures Gate(i, a).action == Pair(code, true)
    ensures code in Gate(i, a).access.pending.at && Gate(i, a).access.pending.at[code].replies == 2
  {
    var m := Pruned(a.pending, i.now);
    PrunedMeaning(a.pending, i.now);
    hide Pruned, FirstCode;
    assert code in m.keys;
    assert DmRequest(m, i.senderId) == Some(code);
  }

  // Two more messages of that sender, decided on the same store: the code goes out
  // three times, and the store counts two.
  lemma {:induction false} OverlapSendsThrice(clock: int, first: Input, second: Input, third: Input)
    requires first.chat == P2p && second.chat == P2p && third.chat == P2p
    requires first.senderId == second.senderId == third.senderId != ""
    requires second.now < first.now + PAIRING_TTL_MS && third.now < first.now + PAIRING_TTL_MS
    ensures var w := Paired(Begin(DEFAULTS, clock), first);
      var v := Next(Next(BothDecided(w, second, third), CodeSent(0)), CodeSent(0));
      && Times(v.history, first.newCode) == 3
      && first.newCode in v.stored.pending.at && v.stored.pending.at[first.newCode].replies == 2
  {
    var w := Paired(Begin(DEFAULTS, clock), first);
    var a := Gate(first, DEFAULTS).access;
    FirstDecision(first);
    PairedOnce(clock, first);
    hide Gate, Next, Paired, BothDecided;
    SecondDecision(second, a, first.newCode, a.pending.at[first.newCode]);
    SecondDecision(third, a, first.newCode, a.pending.at[first.newCode]);
    BothSent(w, second, third);
    ThreeTimes(first.newCode);
  }

  lemma ThreeTimes(code: string)
    ensures Times([Sent(code)] + [Sent(code), Sent(code)], code) == 3
  {
    TimesAppend([Sent(code)], [Sent(code), Sent(code)], code);
    TimesAppend([Sent(code)], [Sent(code)], code);
    assert [Sent(code), Sent(code)] == [Sent(code)] + [Sent(code)];
    assert [Sent(code)][..0] == [];
    assert Times([Sent(code)], code) == 1;
  }

  // Another sender's message, decided before a second reply goes out and stored after
  // it, takes that reply out of the count; the next message of the first sender,
  // with nothing in between, gets the code a third time.
  lemma {:induction false} StaleStoreSendsThrice(clock: int, first: Input, second: Input, other: Input, third: Input)
    requires first.chat == P2p && second.chat == P2p && other.chat == P2p && third.chat == P2p
    requires first.senderId == second.senderId == third.senderId != "" && other.senderId != ""
    requires other.senderId != first.senderId && other.newCode != first.newCode
    requires second.now < first.now + PAIRING_TTL_MS && third.now < first.now + PAIRING_TTL_MS
    requires other.now < first.now + PAIRING_TTL_MS
    ensures var w := Paired(Begin(DEFAULTS, clock), first);
      var v := Next(Next(BothDecided(w, second, other), CodeSent(0)), CodeSent(0));
      && v.drafts == [] && Replies(v.stored.pending, first.newCode) == Some(1)
      && Times(Paired(v, third).history, first.newCode) == 3
  {
    hide Gate, Next, Paired, BothDecided;
    var w := Paired(Begin(DEFAULTS, clock), first);
    StaleStore(clock, first, second, other);
    var v := Next(Next(BothDecided(w, second, other), CodeSent(0)), CodeSent(0));
    SecondDecision(third, v.stored, first.newCode, v.stored.pending.at[first.newCode]);
    PairedAgain(v, third);
    TimesSnoc(v.history, Sent(first.newCode), first.newCode);
    hide Times;
  }

  lemma {:induction false} StaleStore(clock: int, first: Input, second: Input, other: Input)
    requires first.chat == P2p && second.chat == P2p && other.chat == P2p
    requires first.senderId == second.senderId != "" && other.senderId != ""
    requires other.senderId != first.senderId && other.newCode != first.newCode
    requires second.now < first.now + PAIRING_TTL_MS && other.now < first.now + PAIRING_TTL_MS
    ensures var w := Paired(Begin(DEFAULTS, clock), first);
      var v := Next(Next(BothDecided(w, second, other), CodeSent(0)), CodeSent(0));
      && v.drafts == [] && Times(v.history, first.newCode) == 2 && SamePolicies(DEFAULTS, v.stored)
      && first.newCode in v.stored.pending.at
      && v.stored.pending.at[first.newCode] ==
           Entry(Dm, first.senderId, first.chatId, first.now, first.now + PAIRING_TTL_MS, 1)
      && (forall c :: c in v.stored.pending.at && v.stored.pending.at[c].senderId == first.senderId ==> c == first.newCode)
  {
    hide Gate, Next, Paired, BothDecided, Times;
    var w := Paired(Begin(DEFAULTS, clock), first);
    var a, code := Gate(first, DEFAULTS).access, first.newCode;
    FirstDecision(first);
    PairedOnce(clock, first);
    SecondDecision(second, a, code, a.pending.at[code]);
    OnePending(a.pending, code);
    OtherAddsOne(other, a, code);
    BothSent(w, second, other);
    BothSentDrafts(w, second, other);
    TwoOfThree(code, other.newCode);
  }

  lemma OnePending(m: Requests, code: string)
    requires forall c :: c in m.at <==> c == code
    ensures |m.keys| <= 1
  {
    if m.keys != [] {
      assert m.keys[0] in m.keys && m.keys[|m.keys| - 1] in m.keys;
    }
  }

  lemma TwoOfThree(code: string, b: string)
    requires code != b
    ensures Times([Sent(code)] + [Sent(code), Sent(b)], code) == 2
  {
    TimesSnoc([], Sent(code), code);
    TimesSnoc([Sent(code)], Sent(code), code);
    TimesSnoc([Sent(code), Sent(code)], Sent(b), code);
    assert [] + [Sent(code)] == [Sent(code)] && [Sent(code)] + [Sent(code)] == [Sent(code), Sent(code)];
    assert [Sent(code)] + [Sent(code), Sent(b)] == [Sent(code), Sent(code)] + [Sent(b)];
  }

  lemma BothSentDrafts(w: World, first: Input, second: Input)
    requires w.drafts == [] && Gate(first, w.stored).action.Pair? && Gate(second, w.stored).action.Pair?
    ensures Next(Next(BothDecided(w, first, second), CodeSent(0)), CodeSent(0)).drafts == []
  {
    hide Gate;
    StartSending(w, first);
    StartSending(Next(w, Message(first, false)), second);
    var both := BothDecided(w, first, second);
    hide Next;
    SendFirst(both);
    SendFirst(Next(both, CodeSent(0)));
  }

  lemma PairedAgain(w: World, i: Input)
    requires w.drafts == [] && Gate(i, w.stored).action.Pair?
    ensures Paired(w, i).history == w.history + [Sent(Gate(i, w.stored).action.code)]
  {
    hide Gate;
    StartSending(w, i);
    var v := Next(w, Message(i, false));
    hide Next;
    SendFirst(v);
  }

  lemma {:induction false} OtherAddsOne(i: Input, a: Access, code: string)
    requires i.chat == P2p && i.senderId != "" && SamePolicies(DEFAULTS, a)
    requires forall c :: c in a.pending.at <==> c == code
    requires a.pending.at[code].senderId != i.senderId && |a.pending.keys| < MAX_PENDING && i.newCode != code
    requires a.pending.at[code].expiresAt > i.now
    ensures var g := Gate(i, a);
      && g.action == Pair(i.newCode, false) && SamePolicies(DEFAULTS, g.access)
      && (forall c :: c in g.access.pending.at <==> c == code || c == i.newCode)
      && g.access.pending.at[code] == a.pending.at[code] && g.access.pending.at[i.newCode].senderId == i.senderId
  {
    OtherDecision(i, a, code);
    GateLeavesPolicies(i, a);
    GateEffect(i, a);
    PrunedMeaning(a.pending, i.now);
    hide Gate, Pruned, SameParty;
  }

  // An approval made while another sender's code is being sent is taken back by the
  // store of that sender's decision.
  lemma {:induction false} OverlapTakesBackAnApproval(clock: int, first: Input, other: Input)
    requires first.chat == P2p && other.chat == P2p && first.senderId != "" && other.senderId != ""
    requires first.senderId != other.senderId && first.newCode != other.newCode
    ensures var w := Paired(Begin(DEFAULTS, clock), first);
      var u := Next(Next(w, Message(other, false)), Approve(first.newCode));
      first.senderId in u.stored.allowFrom && first.senderId !in Next(u, CodeSent(0)).stored.allowFrom
  {
    var w := Paired(Begin(DEFAULTS, clock), first);
    var a := Gate(first, DEFAULTS).access;
    FirstDecision(first);
    PairedOnce(clock, first);
    OtherDecision(other, a, first.newCode);
    GateLeavesPolicies(other, a);
    hide Gate, Paired;
    StartSending(w, other);
    var d := Next(w, Message(other, false));
    ApproveEffect(d, first.newCode);
    hide Next;
    SendFirst(Next(d, Approve(first.newCode)));
  }

  lemma ApproveEffect(w: World, code: string)
    requires code in w.stored.pending.at
    ensures var e, v := w.stored.pending.at[code], Next(w, Approve(code));
      v.drafts == w.drafts && (e.kind == Dm ==> e.senderId in v.stored.allowFrom)
  {}

  lemma {:induction false} OtherDecision(i: Input, a: Access, code: string)
    requires i.chat == P2p && i.senderId != "" && SamePolicies(DEFAULTS, a)
    requires forall c :: c in a.pending.at <==> c == code
    requires a.pending.at[code].senderId != i.senderId && |a.pending.keys| < MAX_PENDING
    ensures Gate(i, a).action.Pair?
  {
    var m := Pruned(a.pending, i.now);
    PrunedMeaning(a.pending, i.now);
    hide Pruned, FirstCode;
    assert DmRequest(m, i.senderId) == None;
  }
}
