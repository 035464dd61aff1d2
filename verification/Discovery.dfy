// What a chat's bots are known as and what the session was told about them:
// the per-chat store, and the one-shot discovery context of a delivery.

module ChatBots {
  import opened Prelude

  const MAX_SEEN_EVENT_IDS := 200

  datatype Chat = Chat(openIds: seq<string>, introduced: seq<string>, baselineAt: Option<int>,
                       needsBaseline: bool, pending: seq<string>, seenEvents: seq<string>)

  function Include(s: seq<string>, id: string): seq<string> { if id in s then s else s + [id] }

  function Drop(s: seq<string>, gone: seq<string>): (r: seq<string>)
    ensures forall id :: id in r <==> id in s && id !in gone
  {
    Filter((id: string) => id !in gone, s)
  }

  function Record(c: Chat, id: string, introduced: bool): Chat {
    c.(openIds := Include(c.openIds, id), introduced := if introduced then Include(c.introduced, id) else c.introduced)
  }

  // A bot that was not known before is also queued for the session.
  function Learn(c: Chat, id: string, introduced: bool): Chat {
    var r := Record(c, id, introduced);
    if id in c.openIds then r else r.(pending := Include(r.pending, id))
  }

  function Seen(s: seq<string>, id: string): seq<string> {
    if id in s then s else LastN(s + [id], MAX_SEEN_EVENT_IDS)
  }

  class ChatBotsStore {
    var openIds: seq<string>
    var introduced: seq<string>
    var baselineAt: Option<int>
    var needsBaseline: bool
    var pending: seq<string>
    var seenEvents: seq<string>

    constructor ()
      ensures State() == Chat([], [], None, false, [], [])
    {
      openIds, introduced, baselineAt, needsBaseline, pending, seenEvents := [], [], None, false, [], [];
    }

    function State(): Chat
      reads this
    {
      Chat(openIds, introduced, baselineAt, needsBaseline, pending, seenEvents)
    }

    method RecordChatMember(openId: string, asIntroduced: bool) returns (wasNew: bool)
      modifies this
      ensures State() == Record(old(State()), openId, asIntroduced)
      ensures wasNew == (openId !in old(openIds))
    {
      wasNew := false;
      if openId !in openIds {
        openIds := openIds + [openId];
        wasNew := true;
      }
      if asIntroduced && openId !in introduced {
        introduced := introduced + [openId];
      }
    }

    method EnqueuePendingNewBot(openId: string)
      modifies this
      ensures State() == old(State()).(pending := Include(old(pending), openId))
    {
      if openId !in pending { pending := pending + [openId]; }
    }

    method ClearPendingNewBots(gone: seq<string>)
      modifies this
      ensures State() == old(State()).(pending := Drop(old(pending), gone))
    {
      var kept: seq<string> := [];
      var i := 0;
      var keep := (id: string) => id !in gone;
      while i < |pending|
        invariant 0 <= i <= |pending| && State() == old(State())
        invariant kept == Filter(keep, pending[..i])
      {
        FilterTake(keep, pending, i);
        if pending[i] !in gone { kept := kept + [pending[i]]; }
        i := i + 1;
      }
      assert pending[..i] == pending;
      pending := kept;
    }

    method MarkNeedsBaseline()
      modifies this
      ensures State() == old(State()).(needsBaseline := true)
    {
      needsBaseline := true;
    }

    method CommitBaselineInjected(now: int)
      modifies this
      ensures State() == old(State()).(baselineAt := Some(now), needsBaseline := false)
    {
      baselineAt := Some(now);
      needsBaseline := false;
    }

    method RecordSeenEvent(eventId: string) returns (wasNew: bool)
      modifies this
      ensures State() == old(State()).(seenEvents := Seen(old(seenEvents), eventId))
      ensures wasNew == (eventId !in old(seenEvents))
    {
      if eventId in seenEvents { return false; }
      seenEvents := seenEvents + [eventId];
      if |seenEvents| > MAX_SEEN_EVENT_IDS {
        seenEvents := seenEvents[|seenEvents| - MAX_SEEN_EVENT_IDS..];
      }
      return true;
    }
  }

  // ----- the seen events are the last ones accepted -----

  function SeenAfter(ids: seq<string>): seq<string> {
    if ids == [] then [] else Seen(SeenAfter(ids[..|ids| - 1]), ids[|ids| - 1])
  }

  // The ids that were new when they came.
  function Accepted(ids: seq<string>): seq<string> {
    if ids == [] then []
    else
      var before, id := ids[..|ids| - 1], ids[|ids| - 1];
      if id in SeenAfter(before) then Accepted(before) else Accepted(before) + [id]
  }

  // However many member events came: the ids kept are exactly the last 200
  // accepted ones, without duplicates, so a redelivery within those is refused.
  lemma {:induction false} SeenAreTheLastAccepted(ids: seq<string>)
    ensures SeenAfter(ids) == LastN(Accepted(ids), 200)
    ensures NoDup(SeenAfter(ids))
  {
    if ids != [] {
      var before, id := ids[..|ids| - 1], ids[|ids| - 1];
      SeenAreTheLastAccepted(before);
      hide SeenAfter;
      LastSnoc(Accepted(before), id, MAX_SEEN_EVENT_IDS);
      assert SeenAfter(ids) == Seen(SeenAfter(before), id) by { SeenStep(ids); }
    }
  }

  lemma SeenStep(ids: seq<string>)
    requires ids != []
    ensures SeenAfter(ids) == Seen(SeenAfter(ids[..|ids| - 1]), ids[|ids| - 1])
  {}

  lemma LastSnoc(s: seq<string>, id: string, n: nat)
    requires n > 0
    ensures LastN(LastN(s, n) + [id], n) == LastN(s + [id], n)
    ensures NoDup(LastN(s, n)) && id !in LastN(s, n) ==> NoDup(LastN(LastN(s, n) + [id], n))
  {
    if |s| > n {
      assert (s[|s| - n..] + [id])[1..] == (s + [id])[|s| + 1 - n..];
    }
  }
}

module Discovery {
  import opened Prelude
  import opened ChatBots

  // What a delivery shows, and what its commit takes off the queue.
  datatype Context = Context(baseline: bool, shown: seq<string>, clears: seq<string>)

  // `self` is the bot's own open id, when it is known.
  function Peers(self: Option<string>, ids: seq<string>): (r: seq<string>)
    ensures forall id :: id in r <==> id in ids && Some(id) != self
  {
    Filter((id: string) => Some(id) != self, ids)
  }

  function Observe(self: Option<string>, c: Chat, id: string): Chat {
    if id == "" || Some(id) == self then c else Learn(c, id, false)
  }

  function IntroduceAll(c: Chat, ids: seq<string>): Chat {
    if ids == [] then c else Learn(IntroduceAll(c, ids[..|ids| - 1]), ids[|ids| - 1], true)
  }

  // A bot that introduces itself; the message was already observed.
  function Ambient(self: Option<string>, c: Chat, id: string): Chat { Record(Observe(self, c, id), id, true) }

  // A message of a bot in an authorized group. One without a sender id is no event:
  // decoding it gives nothing.
  function FromBot(self: Option<string>, c: Chat, id: string, introduces: bool): Chat {
    if id == "" then c else if introduces then Ambient(self, c, id) else Observe(self, c, id)
  }

  function Build(self: Option<string>, c: Chat): Context {
    if c.needsBaseline && c.baselineAt.None? then Context(true, Peers(self, c.openIds), c.pending)
    else Context(false, Peers(self, c.pending), Peers(self, c.pending))
  }

  function Commit(c: Chat, x: Context, now: int): Chat {
    var d := c.(pending := Drop(c.pending, x.clears));
    if x.baseline then d.(baselineAt := Some(now), needsBaseline := false) else d
  }

  // The mentioned bots an introduction is about.
  datatype Mention = Mention(openId: string, name: string)

  function External(self: Option<string>, mentions: seq<Mention>): seq<string> {
    if mentions == [] then []
    else
      var m := mentions[|mentions| - 1];
      External(self, mentions[..|mentions| - 1])
        + if m.openId != "" && m.name != "" && Some(m.openId) != self then [m.openId] else []
  }

  class Discoverer {
    const store: ChatBotsStore
    const self: Option<string>

    constructor (store: ChatBotsStore, self: Option<string>)
      ensures this.store == store && this.self == self
    {
      this.store := store;
      this.self := self;
    }

    method ObserveBotSender(isBot: bool, senderId: string)
      modifies store
      ensures store.State() == if isBot then Observe(self, old(store.State()), senderId) else old(store.State())
    {
      if !isBot || senderId == "" || Some(senderId) == self { return; }
      var wasNew := store.RecordChatMember(senderId, false);
      if wasNew { store.EnqueuePendingNewBot(senderId); }
    }

    // The part of the message handler that learns from a bot's message in an
    // authorized group.
    method HandleBotMessage(senderId: string, introduces: bool)
      modifies store
      ensures store.State() == FromBot(self, old(store.State()), senderId, introduces)
    {
      if senderId == "" { return; }
      ObserveBotSender(true, senderId);
      if introduces {
        var _ := store.RecordChatMember(senderId, true);
      }
    }

    method HandleIntroduce(mentions: seq<Mention>)
      modifies store
      ensures store.State() == IntroduceAll(old(store.State()), External(self, mentions))
    {
      hide Learn;
      var external := External(self, mentions);
      var i := 0;
      ghost var before := store.State();
      while i < |external|
        invariant 0 <= i <= |external|
        invariant store.State() == IntroduceAll(before, external[..i])
      {
        assert external[..i + 1][..i] == external[..i];
        ghost var c := store.State();
        var wasNew := store.RecordChatMember(external[i], true);
        if wasNew { store.EnqueuePendingNewBot(external[i]); }
        LearnCases(c, external[i], true);
        i := i + 1;
      }
      assert external[..i] == external;
    }

    method BuildDiscoveryContext() returns (x: Context)
      ensures x == Build(self, store.State())
    {
      if store.needsBaseline && store.baselineAt.None? {
        x := Context(true, Peers(self, store.openIds), store.pending);
      } else {
        var pending := Peers(self, store.pending);
        x := Context(false, pending, pending);
      }
    }

    method CommitContext(x: Context, now: int)
      modifies store
      ensures store.State() == Commit(old(store.State()), x, now)
    {
      hide Drop;
      if x.baseline { store.CommitBaselineInjected(now); }
      if |x.clears| > 0 {
        store.ClearPendingNewBots(x.clears);
      } else {
        DropNothing(store.pending);
      }
    }
  }

  lemma LearnCases(c: Chat, id: string, introduced: bool)
    ensures Learn(c, id, introduced) ==
      if id in c.openIds then Record(c, id, introduced)
      else Record(c, id, introduced).(pending := Include(c.pending, id))
  {}

  lemma {:induction false} DropNothing(s: seq<string>)
    ensures Drop(s, []) == s
  {
    if s != [] { DropNothing(s[..|s| - 1]); }
  }

  // ----- whole runs -----

  // `contexts` are built but not yet delivered or given up; `told` is the history
  // of the bots that successful deliveries showed.
  datatype World = World(chat: Chat, contexts: seq<Context>, told: set<string>)

  datatype Step =
    | BotMessage(id: string, introduces: bool)
    | Introduced(mentions: seq<Mention>)
    | Joined
    | Built
    | Delivered(i: nat, now: int)
    | NotDelivered(i: nat)

  function Members(s: seq<string>): set<string> { set id | id in s }

  function Next(self: Option<string>, w: World, s: Step): World {
    match s
    case BotMessage(id, introduces) => w.(chat := FromBot(self, w.chat, id, introduces))
    case Introduced(mentions) => w.(chat := IntroduceAll(w.chat, External(self, mentions)))
    case Joined => w.(chat := w.chat.(needsBaseline := true))
    case Built => w.(contexts := w.contexts + [Build(self, w.chat)])
    case Delivered(i, now) =>
      if i >= |w.contexts| then w
      else
        var x := w.contexts[i];
        World(Commit(w.chat, x, now), w.contexts[..i] + w.contexts[i + 1..], w.told + Members(x.shown))
    case NotDelivered(i) =>
      if i >= |w.contexts| then w else w.(contexts := w.contexts[..i] + w.contexts[i + 1..])
  }

  function Start(): World { World(Chat([], [], None, false, [], []), [], {}) }

  function Run(self: Option<string>, steps: seq<Step>): World {
    if steps == [] then Start() else Next(self, Run(self, steps[..|steps| - 1]), steps[|steps| - 1])
  }

  // ----- the invariant -----

  ghost predicate Subset(a: seq<string>, b: seq<string>) { forall id :: id in a ==> id in b }

  ghost predicate ListsOk(self: Option<string>, c: Chat) {
    && NoDup(c.openIds) && NoDup(c.pending) && NoDup(c.introduced)
    && Subset(c.pending, c.openIds) && Subset(c.introduced, c.openIds)
    && forall id :: id in c.pending ==> Some(id) != self
  }

  // A discovered peer was told or is queued, and not both.
  ghost predicate ToldOrQueued(self: Option<string>, w: World) {
    && (forall id :: id in w.chat.openIds && Some(id) != self ==> (id in w.told <==> id !in w.chat.pending))
    && forall id :: id in w.told ==> id in w.chat.openIds && id !in w.chat.pending
  }

  // What a context clears it shows, and what it shows is queued no more unless it clears it.
  ghost predicate ContextOk(c: Chat, x: Context) {
    && Subset(x.clears, x.shown) && Subset(x.shown, c.openIds)
    && forall id :: id in x.shown && id in c.pending ==> id in x.clears
  }

  ghost predicate ContextsOk(w: World) { forall x :: x in w.contexts ==> ContextOk(w.chat, x) }

  ghost predicate Inv(self: Option<string>, w: World) {
    ListsOk(self, w.chat) && ToldOrQueued(self, w) && ContextsOk(w)
  }

  // The chat learned more: nothing known before was queued again.
  ghost predicate Grew(a: Chat, b: Chat) {
    && Subset(a.openIds, b.openIds)
    && forall id :: id in a.openIds ==> (id in b.pending <==> id in a.pending)
  }

  lemma IncludeOk(s: seq<string>, id: string)
    requires NoDup(s)
    ensures NoDup(Include(s, id)) && forall k :: k in Include(s, id) <==> k in s || k == id
  {}

  lemma {:induction false} LearnKeeps(self: Option<string>, c: Chat, id: string, introduced: bool)
    requires ListsOk(self, c) && Some(id) != self
    ensures var d := Learn(c, id, introduced);
      && ListsOk(self, d) && Grew(c, d)
      && forall k :: k in d.openIds && k !in c.openIds ==> k in d.pending
  {
    IncludeOk(c.openIds, id);
    IncludeOk(c.introduced, id);
    IncludeOk(c.pending, id);
    hide NoDup, Include;
  }

  lemma {:induction false} GrowthKeeps(self: Option<string>, w: World, d: Chat)
    requires Inv(self, w) && ListsOk(self, d) && Grew(w.chat, d)
    requires forall k :: k in d.openIds && k !in w.chat.openIds && Some(k) != self ==> k in d.pending
    ensures Inv(self, w.(chat := d))
  {
    hide NoDup;
  }

  lemma {:induction false} IntroduceKeeps(self: Option<string>, c: Chat, ids: seq<string>)
    requires ListsOk(self, c)
    requires forall id :: id in ids ==> Some(id) != self
    ensures var d := IntroduceAll(c, ids);
      && ListsOk(self, d) && Grew(c, d)
      && forall k :: k in d.openIds && k !in c.openIds ==> k in d.pending
  {
    if ids != [] {
      hide Learn, ListsOk;
      var p, id := ids[..|ids| - 1], ids[|ids| - 1];
      assert id in ids && forall k :: k in p ==> k in ids;
      IntroduceKeeps(self, c, p);
      LearnKeeps(self, IntroduceAll(c, p), id, true);
    }
  }

  lemma {:induction false} ExternalOk(self: Option<string>, mentions: seq<Mention>)
    ensures forall id :: id in External(self, mentions) ==> Some(id) != self
  {
    if mentions != [] { ExternalOk(self, mentions[..|mentions| - 1]); }
  }

  lemma {:induction false} ObserveKeeps(self: Option<string>, c: Chat, id: string)
    requires ListsOk(self, c)
    ensures var d := Observe(self, c, id);
      && ListsOk(self, d) && Grew(c, d)
      && forall k :: k in d.openIds && k !in c.openIds ==> k in d.pending
  {
    hide Learn, ListsOk;
    if id != "" && Some(id) != self { LearnKeeps(self, c, id, false); }
  }

  lemma {:induction false} FromBotKeeps(self: Option<string>, c: Chat, id: string, introduces: bool)
    requires ListsOk(self, c)
    ensures var d := FromBot(self, c, id, introduces);
      && ListsOk(self, d) && Grew(c, d)
      && forall k :: k in d.openIds && k !in c.openIds && Some(k) != self ==> k in d.pending
  {
    ObserveKeeps(self, c, id);
    var o := Observe(self, c, id);
    hide Observe;
    IncludeOk(o.openIds, id);
    IncludeOk(o.introduced, id);
    if id != "" && Some(id) != self { ObserveRecords(self, c, id); }
    hide NoDup, Include;
  }

  lemma ObserveRecords(self: Option<string>, c: Chat, id: string)
    requires id != "" && Some(id) != self
    ensures id in Observe(self, c, id).openIds
  {}

  lemma {:induction false} BuildKeeps(self: Option<string>, c: Chat)
    requires ListsOk(self, c)
    ensures ContextOk(c, Build(self, c))
  {
    hide NoDup;
  }

  lemma {:induction false} CommitKeeps(self: Option<string>, w: World, x: Context, now: int)
    requires Inv(self, w) && ContextOk(w.chat, x)
    ensures Inv(self, World(Commit(w.chat, x, now), w.contexts, w.told + Members(x.shown)))
  {
    FilterNoDup((id: string) => id !in x.clears, w.chat.pending);
    hide NoDup, Filter;
  }

  lemma FewerContexts(self: Option<string>, w: World, contexts: seq<Context>)
    requires Inv(self, w) && forall x :: x in contexts ==> x in w.contexts
    ensures Inv(self, w.(contexts := contexts))
  {
    hide ListsOk, ContextOk;
  }

  lemma {:induction false} StepKeeps(self: Option<string>, w: World, s: Step)
    requires Inv(self, w)
    ensures Inv(self, Next(self, w, s))
  {
    hide ListsOk, FromBot, IntroduceAll, Build, Commit, ContextOk, Grew;
    match s
    case BotMessage(id, introduces) =>
      FromBotKeeps(self, w.chat, id, introduces);
      GrowthKeeps(self, w, FromBot(self, w.chat, id, introduces));
    case Introduced(mentions) =>
      ExternalOk(self, mentions);
      IntroduceKeeps(self, w.chat, External(self, mentions));
      GrowthKeeps(self, w, IntroduceAll(w.chat, External(self, mentions)));
    case Joined => JoinKeeps(self, w);
    case Built => BuildKeeps(self, w.chat);
    case Delivered(i, now) =>
      if i < |w.contexts| {
        CommitKeeps(self, w, w.contexts[i], now);
        FewerContexts(self, World(Commit(w.chat, w.contexts[i], now), w.contexts, w.told + Members(w.contexts[i].shown)),
                      w.contexts[..i] + w.contexts[i + 1..]);
      }
    case NotDelivered(i) =>
      if i < |w.contexts| { FewerContexts(self, w, w.contexts[..i] + w.contexts[i + 1..]); }
  }

  lemma JoinKeeps(self: Option<string>, w: World)
    requires Inv(self, w)
    ensures Inv(self, w.(chat := w.chat.(needsBaseline := true)))
  {
    hide NoDup;
  }

  lemma StartOk(self: Option<string>)
    ensures Inv(self, Start())
  {}

  lemma {:induction false} RunKeeps(self: Option<string>, steps: seq<Step>)
    ensures Inv(self, Run(self, steps))
  {
    hide Inv, Next, Start;
    if steps == [] {
      StartOk(self);
    } else {
      RunKeeps(self, steps[..|steps| - 1]);
      StepKeeps(self, Run(self, steps[..|steps| - 1]), steps[|steps| - 1]);
    }
  }

  // ----- the promises -----

  // Whatever was observed between building a context and committing it: a
  // discovered peer bot was shown in a successful delivery or is still queued,
  // and never both.
  lemma {:induction false} PeersAreToldOrQueued(self: Option<string>, steps: seq<Step>, id: string)
    requires id in Run(self, steps).chat.openIds && Some(id) != self
    ensures id in Run(self, steps).told <==> id !in Run(self, steps).chat.pending
  {
    hide Run;
    RunKeeps(self, steps);
  }

  // ----- what is known of whom -----

  // A mention of an introduction that is about another bot.
  ghost predicate Mentioned(self: Option<string>, mentions: seq<Mention>, id: string) {
    id != "" && Some(id) != self && exists k :: 0 <= k < |mentions| && mentions[k].openId == id && mentions[k].name != ""
  }

  // The step shows the bot: as the sender of a message, or mentioned in an introduction.
  ghost predicate Sees(self: Option<string>, s: Step, id: string) {
    || (s.BotMessage? && s.id == id && id != "" && Some(id) != self)
    || Introduces(self, s, id)
  }

  // The step introduces the bot: by itself, or by a mention.
  ghost predicate Introduces(self: Option<string>, s: Step, id: string) {
    || (s.BotMessage? && s.id == id && id != "" && s.introduces)
    || (s.Introduced? && Mentioned(self, s.mentions, id))
  }

  lemma {:induction false} ExternalMentions(self: Option<string>, mentions: seq<Mention>, id: string)
    ensures id in External(self, mentions) <==> Mentioned(self, mentions, id)
  {
    if mentions != [] {
      var p, last := mentions[..|mentions| - 1], |mentions| - 1;
      ExternalMentions(self, p, id);
      assert forall k :: 0 <= k < last ==> p[k] == mentions[k];
    }
  }

  lemma LearnSees(c: Chat, id: string, introduced: bool, x: string)
    ensures x in Learn(c, id, introduced).openIds <==> x in c.openIds || x == id
    ensures x in Learn(c, id, introduced).introduced <==> x in c.introduced || (x == id && introduced)
  {}

  lemma {:induction false} IntroduceSees(c: Chat, ids: seq<string>, x: string)
    ensures x in IntroduceAll(c, ids).openIds <==> x in c.openIds || x in ids
    ensures x in IntroduceAll(c, ids).introduced <==> x in c.introduced || x in ids
  {
    if ids != [] {
      var p, last := ids[..|ids| - 1], ids[|ids| - 1];
      SplitLast([], ids);
      IntroduceSees(c, p, x);
      LearnSees(IntroduceAll(c, p), last, true, x);
      hide Learn;
    }
  }

  lemma {:induction false} StepSees(self: Option<string>, w: World, s: Step, x: string)
    ensures x in Next(self, w, s).chat.openIds <==> x in w.chat.openIds || Sees(self, s, x)
    ensures x in Next(self, w, s).chat.introduced <==> x in w.chat.introduced || Introduces(self, s, x)
  {
    hide FromBot, IntroduceAll, External, Mentioned, Build, Drop;
    match s
    case BotMessage(id, introduces) => BotSees(self, w.chat, id, introduces, x);
    case Introduced(mentions) =>
      ExternalMentions(self, mentions, x);
      IntroduceSees(w.chat, External(self, mentions), x);
    case _ =>
  }

  lemma BotSees(self: Option<string>, c: Chat, id: string, introduces: bool, x: string)
    ensures var d := FromBot(self, c, id, introduces);
      && (x in d.openIds <==> x in c.openIds || (x == id != "" && (Some(id) != self || introduces)))
      && (x in d.introduced <==> x in c.introduced || (x == id != "" && introduces))
  {
    LearnSees(c, id, false, x);
    hide Learn;
  }

  // In every run: the bots that are discovered are exactly those that a step showed,
  // and the introduced ones exactly those that a step introduced.
  lemma {:induction false} KnownAreSeen(self: Option<string>, steps: seq<Step>, x: string)
    ensures x in Run(self, steps).chat.openIds <==> exists k :: 0 <= k < |steps| && Sees(self, steps[k], x)
    ensures x in Run(self, steps).chat.introduced <==> exists k :: 0 <= k < |steps| && Introduces(self, steps[k], x)
  {
    hide Next, Sees, Introduces;
    if steps != [] {
      var p, last := steps[..|steps| - 1], |steps| - 1;
      KnownAreSeen(self, p, x);
      StepSees(self, Run(self, p), steps[last], x);
      assert forall k :: 0 <= k < last ==> p[k] == steps[k];
    }
  }

  // ----- what a context shows -----

  // Until a baseline is committed, one is wanted as soon as the bot has joined.
  ghost predicate WantsBaseline(self: Option<string>, steps: seq<Step>) {
    var c := Run(self, steps).chat;
    c.baselineAt.None? ==> (c.needsBaseline <==> exists k :: 0 <= k < |steps| && steps[k].Joined?)
  }

  lemma IntroducedKeeps(self: Option<string>, w: World, s: Step)
    requires s.Introduced? || s.BotMessage?
    ensures var c := Next(self, w, s).chat; c.needsBaseline == w.chat.needsBaseline && c.baselineAt == w.chat.baselineAt
  {
    if s.Introduced? { IntroduceFlags(w.chat, External(self, s.mentions)); }
  }

  lemma {:induction false} IntroduceFlags(c: Chat, ids: seq<string>)
    ensures IntroduceAll(c, ids).needsBaseline == c.needsBaseline && IntroduceAll(c, ids).baselineAt == c.baselineAt
  {
    if ids != [] { IntroduceFlags(c, ids[..|ids| - 1]); }
  }

  lemma {:induction false} BaselineWanted(self: Option<string>, steps: seq<Step>)
    ensures WantsBaseline(self, steps)
  {
    if steps != [] {
      var p, last := steps[..|steps| - 1], |steps| - 1;
      BaselineWanted(self, p);
      assert forall k :: 0 <= k < last ==> p[k] == steps[k];
      if steps[last].Introduced? || steps[last].BotMessage? { IntroducedKeeps(self, Run(self, p), steps[last]); }
      hide FromBot, IntroduceAll, External, Build, Drop;
    }
  }

  // In every run: a context is a baseline from the joining on until one has been
  // committed, and shows all discovered peers; any other shows exactly the
  // discovered peers that no successful delivery has shown.
  lemma {:induction false} ContextShows(self: Option<string>, steps: seq<Step>, id: string)
    ensures var w := Run(self, steps);
      var x := Build(self, w.chat);
      && (x.baseline <==> w.chat.baselineAt.None? && exists k :: 0 <= k < |steps| && steps[k].Joined?)
      && (id in x.shown <==>
            id in w.chat.openIds && Some(id) != self && (x.baseline || id !in w.told))
  {
    hide Run, NoDup, Subset;
    BaselineWanted(self, steps);
    RunKeeps(self, steps);
    var w := Run(self, steps);
    QueuedIsKnown(self, w, id);
    hide ContextsOk;
  }

  lemma QueuedIsKnown(self: Option<string>, w: World, id: string)
    requires Inv(self, w)
    ensures id in w.chat.pending ==> id in w.chat.openIds
  {
    hide NoDup;
  }

  // Delivering a baseline commits it.
  lemma {:induction false} BaselineCommits(self: Option<string>, steps: seq<Step>, i: nat, now: int)
    requires i < |Run(self, steps).contexts| && Run(self, steps).contexts[i].baseline
    ensures Run(self, steps + [Delivered(i, now)]).chat.baselineAt == Some(now)
  {
    hide Run;
    RunSnoc(self, steps, Delivered(i, now));
  }

  lemma {:induction false} ListsAreSets(self: Option<string>, steps: seq<Step>)
    ensures var c := Run(self, steps).chat;
      && NoDup(c.openIds) && NoDup(c.pending) && NoDup(c.introduced)
      && Subset(c.pending, c.openIds) && Subset(c.introduced, c.openIds)
  {
    hide Run, NoDup, Subset;
    RunKeeps(self, steps);
  }

  // No bot is announced as new after a delivery that showed it.
  lemma {:induction false} NewsIsNew(self: Option<string>, steps: seq<Step>, id: string)
    requires !Build(self, Run(self, steps).chat).baseline
    requires id in Build(self, Run(self, steps).chat).shown
    ensures id !in Run(self, steps).told
  {
    hide Run, NoDup;
    RunKeeps(self, steps);
  }

  lemma RunSnoc(self: Option<string>, steps: seq<Step>, s: Step)
    ensures Run(self, steps + [s]) == Next(self, Run(self, steps), s)
  {
    hide Next;
    assert (steps + [s])[..|steps|] == steps;
  }

  // The baseline is one-shot: once committed, no later delivery shows it.
  lemma {:induction false} BaselineOnce(self: Option<string>, steps: seq<Step>, more: seq<Step>)
    requires Run(self, steps).chat.baselineAt.Some?
    ensures !Build(self, Run(self, steps + more).chat).baseline
  {
    hide Run;
    BaselineStays(self, steps, more);
  }

  lemma {:induction false} BaselineStays(self: Option<string>, steps: seq<Step>, more: seq<Step>)
    requires Run(self, steps).chat.baselineAt.Some?
    ensures Run(self, steps + more).chat.baselineAt.Some?
  {
    hide Next, Run;
    if more == [] {
      assert steps + more == steps;
    } else {
      var p, s := more[..|more| - 1], more[|more| - 1];
      BaselineStays(self, steps, p);
      assert steps + more == (steps + p) + [s];
      RunSnoc(self, steps + p, s);
      BaselineStep(self, Run(self, steps + p), s);
    }
  }

  lemma BaselineStep(self: Option<string>, w: World, s: Step)
    requires w.chat.baselineAt.Some?
    ensures Next(self, w, s).chat.baselineAt.Some?
  {
    if s.Introduced? { IntroduceBaseline(w.chat, External(self, s.mentions)); }
  }

  lemma {:induction false} IntroduceBaseline(c: Chat, ids: seq<string>)
    ensures IntroduceAll(c, ids).baselineAt == c.baselineAt
  {
    if ids != [] { IntroduceBaseline(c, ids[..|ids| - 1]); }
  }
}
