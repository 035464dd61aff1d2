// The gate in front of the session: who is delivered, and the pairing requests
// that unknown senders and groups leave behind.

module PairingGate {
  import opened Prelude
  import opened OrderedMaps

  const MAX_PENDING := 10
  const MAX_PAIRING_REPLIES := 2
  const PAIRING_TTL_MS := 60 * 60 * 1000

  datatype Kind = Dm | OfGroup

  datatype Entry = Entry(kind: Kind, senderId: string, chatId: string, createdAt: int, expiresAt: int, replies: int)

  datatype DmPolicy = DmPairing | DmAllowlist | DmDisabled

  datatype GroupPolicy = Block | Allowlist | FollowUser

  datatype GroupRule = GroupRule(requireMention: bool, allowFrom: seq<string>)

  // The pairing requests by their code.
  type Requests = OrderedMap<string, Entry>

  datatype Access = Access(dmPolicy: DmPolicy, groupPolicy: GroupPolicy, allowFrom: seq<string>,
                           groups: map<string, GroupRule>, pending: Requests)

  datatype Mention = Mention(openId: Option<string>, unionId: Option<string>)

  datatype ChatType = P2p | GroupChat | OtherChat

  datatype Input = Input(senderId: string, senderIsBot: bool, chatId: string, chat: ChatType, now: int, newCode: string,
                         mentions: seq<Mention>, botOpenId: Option<string>, introduced: set<string>)

  datatype Reason =
    | NoSender | UnknownChatType | DirectDisabled | SenderNotAllowed | ReplyCapReached | TooManyPending
    | GroupsBlocked | BotIdUnknown | NotMentioned | SenderNotInGroup | GroupAlreadyPending

  datatype Action = Deliver | Drop(reason: Reason) | Pair(code: string, isResend: bool)

  datatype Decision = Decision(action: Action, access: Access, changed: bool)

  // ----- expired requests -----

  predicate Alive(e: Entry, now: int) { e.expiresAt > now }

  // What is kept of the first `n` requests.
  function PrunedTo(m: Requests, now: int, n: nat): Requests
    requires n <= |m.keys|
  {
    if n == 0 then Empty()
    else
      var code := m.keys[n - 1];
      if Alive(m.at[code], now) then Set(PrunedTo(m, now, n - 1), code, m.at[code]) else PrunedTo(m, now, n - 1)
  }

  function Pruned(m: Requests, now: int): Requests { PrunedTo(m, now, |m.keys|) }

  lemma {:induction false} PrunedToMeaning(m: Requests, now: int, n: nat)
    requires n <= |m.keys|
    ensures var r := PrunedTo(m, now, n);
      && |r.keys| <= n
      && (forall c :: c in r.at <==> c in m.keys[..n] && Alive(m.at[c], now))
      && (forall c :: c in r.at ==> r.at[c] == m.at[c])
  {
    if n > 0 {
      PrunedToMeaning(m, now, n - 1);
      assert m.keys[..n] == m.keys[..n - 1] + [m.keys[n - 1]];
      assert m.keys[n - 1] !in m.keys[..n - 1];
      hide Alive;
    }
  }

  predicate AnyExpired(m: Requests, now: int, n: nat)
    requires n <= |m.keys|
  {
    exists j :: 0 <= j < n && !Alive(m.at[m.keys[j]], now)
  }

  lemma AnyExpiredStep(m: Requests, now: int, n: nat)
    requires n < |m.keys|
    ensures AnyExpired(m, now, n + 1) <==> AnyExpired(m, now, n) || !Alive(m.at[m.keys[n]], now)
  {
    hide Alive;
  }

  lemma AnyExpiredAtAll(m: Requests, now: int)
    ensures AnyExpired(m, now, |m.keys|) <==> exists code :: code in m.at && !Alive(m.at[code], now)
  {
    hide Alive;
    assert forall code :: code in m.at ==> code in m.keys;
  }

  lemma NewestNotKept(m: Requests, now: int, n: nat)
    requires n < |m.keys|
    ensures m.keys[n] !in PrunedTo(m, now, n).at
  {
    hide Alive, PrunedTo;
    PrunedToMeaning(m, now, n);
  }

  lemma {:induction false} NothingExpired(m: Requests, now: int, n: nat)
    requires n <= |m.keys| && !AnyExpired(m, now, n)
    ensures PrunedTo(m, now, n).keys == m.keys[..n]
  {
    if n == 0 {
      PrunedStart(m, now);
    } else {
      hide Alive, AnyExpired, PrunedTo;
      AnyExpiredStep(m, now, n - 1);
      PrunedStep(m, now, n - 1);
      NothingExpired(m, now, n - 1);
      NewestNotKept(m, now, n - 1);
      TakeSnoc(m.keys, n - 1);
    }
  }

  lemma AliveUntil(now: int)
    ensures forall e :: Alive(e, now) <==> e.expiresAt > now
  {}

  // Exactly the requests that have not expired are kept, as they are.
  lemma PrunedMeaning(m: Requests, now: int)
    ensures |Pruned(m, now).keys| <= |m.keys|
    ensures forall c :: c in Pruned(m, now).at <==> c in m.at && m.at[c].expiresAt > now
    ensures forall c :: c in Pruned(m, now).at ==> Pruned(m, now).at[c] == m.at[c]
    ensures (exists c :: c in m.at && m.at[c].expiresAt <= now) <==> Pruned(m, now) != m
  {
    AliveUntil(now);
    hide Alive, PrunedTo, AnyExpired;
    PrunedToMeaning(m, now, |m.keys|);
    assert m.keys[..|m.keys|] == m.keys;
    AnyExpiredAtAll(m, now);
    if !AnyExpired(m, now, |m.keys|) {
      NothingExpired(m, now, |m.keys|);
      assert Pruned(m, now).at == m.at;
    }
  }

  lemma PrunedStart(m: Requests, now: int)
    ensures PrunedTo(m, now, 0) == Empty() && !AnyExpired(m, now, 0)
  {}

  lemma PrunedStep(m: Requests, now: int, n: nat)
    requires n < |m.keys|
    ensures PrunedTo(m, now, n + 1) ==
      if Alive(m.at[m.keys[n]], now) then Set(PrunedTo(m, now, n), m.keys[n], m.at[m.keys[n]]) else PrunedTo(m, now, n)
  {}

  lemma PrunedChanges(m: Requests, now: int)
    ensures AnyExpired(m, now, |m.keys|) <==> Pruned(m, now) != m
  {
    PrunedMeaning(m, now);
    AliveUntil(now);
    AnyExpiredAtAll(m, now);
    hide Alive, AnyExpired, PrunedTo;
  }

  // Without an expired request the state is returned as it was.
  method PruneExpiredPending(access: Access, now: int) returns (r: Access, changed: bool)
    ensures r == access.(pending := Pruned(access.pending, now))
    ensures changed == (Pruned(access.pending, now) != access.pending)
  {
    hide Alive, AnyExpired, PrunedTo;
    PrunedStart(access.pending, now);
    PrunedChanges(access.pending, now);
    var kept: Requests := Empty();
    changed := false;
    var i := 0;
    var keys := access.pending.keys;
    while i < |keys|
      invariant 0 <= i <= |keys|
      invariant kept == PrunedTo(access.pending, now, i)
      invariant changed == AnyExpired(access.pending, now, i)
    {
      AnyExpiredStep(access.pending, now, i);
      PrunedStep(access.pending, now, i);
      var entry := access.pending.at[keys[i]];
      if Alive(entry, now) { kept := Set(kept, keys[i], entry); } else { changed := true; }
      i := i + 1;
    }
    r := if changed then access.(pending := kept) else access;
  }

  // ----- the gate -----

  // The first request of a kind that `wanted` picks.
  function FirstCode(keys: seq<string>, m: map<string, Entry>, wanted: Entry -> bool): (r: Option<string>)
    ensures r.Some? ==> r.value in keys && r.value in m && wanted(m[r.value])
    ensures r.None? ==> forall code :: code in keys && code in m ==> !wanted(m[code])
  {
    if keys == [] then None
    else if keys[0] in m && wanted(m[keys[0]]) then Some(keys[0])
    else FirstCode(keys[1..], m, wanted)
  }

  function DmRequest(m: Requests, senderId: string): Option<string> {
    FirstCode(m.keys, m.at, (e: Entry) => e.kind == Dm && e.senderId == senderId)
  }

  function GroupRequest(m: Requests, chatId: string): Option<string> {
    FirstCode(m.keys, m.at, (e: Entry) => e.kind == OfGroup && e.chatId == chatId)
  }

  predicate BotMentioned(mentions: seq<Mention>, botOpenId: Option<string>) {
    && botOpenId.Some? && botOpenId.value != ""
    && exists m :: m in mentions && m.openId.OrElse(m.unionId) == botOpenId
  }

  function Request(a: Access, i: Input, kind: Kind): Access {
    a.(pending := Set(a.pending, i.newCode, Entry(kind, i.senderId, i.chatId, i.now, i.now + PAIRING_TTL_MS, 1)))
  }

  function GateDirect(i: Input, a: Access, changed: bool): Decision {
    if a.dmPolicy == DmDisabled then Decision(Drop(DirectDisabled), a, changed)
    else if i.senderId in a.allowFrom then Decision(Deliver, a, changed)
    else if a.dmPolicy == DmAllowlist then Decision(Drop(SenderNotAllowed), a, changed)
    else
      var code := DmRequest(a.pending, i.senderId);
      if code.Some? then
        var e := a.pending.at[code.value];
        if e.replies >= MAX_PAIRING_REPLIES then Decision(Drop(ReplyCapReached), a, changed)
        else
          var again := a.(pending := Set(a.pending, code.value, e.(replies := e.replies + 1)));
          Decision(Pair(code.value, true), again, true)
      else if |a.pending.keys| >= MAX_PENDING then Decision(Drop(TooManyPending), a, changed)
      else Decision(Pair(i.newCode, false), Request(a, i, Dm), true)
  }

  function GateFollowUser(i: Input, a: Access, changed: bool): Decision {
    if i.botOpenId.None? then Decision(Drop(BotIdUnknown), a, changed)
    else if !BotMentioned(i.mentions, i.botOpenId) then Decision(Drop(NotMentioned), a, changed)
    else if i.senderId !in a.allowFrom && !(i.senderIsBot && i.senderId in i.introduced) then
      Decision(Drop(SenderNotAllowed), a, changed)
    else Decision(Deliver, a, changed)
  }

  function GateUnconfiguredGroup(i: Input, a: Access, changed: bool): Decision {
    if i.botOpenId.None? then Decision(Drop(BotIdUnknown), a, changed)
    else if !BotMentioned(i.mentions, i.botOpenId) then Decision(Drop(NotMentioned), a, changed)
    else if GroupRequest(a.pending, i.chatId).Some? then Decision(Drop(GroupAlreadyPending), a, changed)
    else if |a.pending.keys| >= MAX_PENDING then Decision(Drop(TooManyPending), a, changed)
    else Decision(Pair(i.newCode, false), Request(a, i, OfGroup), true)
  }

  function GateAllowlist(i: Input, a: Access, changed: bool): Decision {
    if i.chatId !in a.groups then GateUnconfiguredGroup(i, a, changed)
    else
      var rule := a.groups[i.chatId];
      if rule.allowFrom != [] && i.senderId !in rule.allowFrom then
        Decision(Drop(SenderNotInGroup), a, changed)
      else if rule.requireMention && i.botOpenId.None? then
        Decision(Drop(BotIdUnknown), a, changed)
      else if rule.requireMention && !BotMentioned(i.mentions, i.botOpenId) then Decision(Drop(NotMentioned), a, changed)
      else Decision(Deliver, a, changed)
  }

  function Gate(i: Input, access: Access): Decision {
    var a := access.(pending := Pruned(access.pending, i.now));
    var changed := a.pending != access.pending;
    if i.senderId == "" then Decision(Drop(NoSender), a, changed)
    else match i.chat
      case P2p => GateDirect(i, a, changed)
      case GroupChat =>
        (match a.groupPolicy
         case Block => Decision(Drop(GroupsBlocked), a, changed)
         case FollowUser => GateFollowUser(i, a, changed)
         case Allowlist => GateAllowlist(i, a, changed))
      case OtherChat => Decision(Drop(UnknownChatType), a, changed)
  }

  // ----- what every decision keeps -----

  ghost predicate SamePolicies(a: Access, b: Access) { b == a.(pending := b.pending) }

  // Two requests of one sender, or of one group.
  predicate SameParty(e: Entry, f: Entry) {
    e.kind == f.kind && if e.kind == Dm then e.senderId == f.senderId else e.chatId == f.chatId
  }

  ghost predicate OneEach(m: Requests) {
    forall c, d :: c in m.at && d in m.at && SameParty(m.at[c], m.at[d]) ==> c == d
  }

  ghost predicate RepliesInRange(m: Requests) {
    forall c :: c in m.at ==> 1 <= m.at[c].replies <= MAX_PAIRING_REPLIES
  }

  ghost predicate Sound(m: Requests) {
    && |m.keys| <= MAX_PENDING
    && RepliesInRange(m)
    && OneEach(m)
  }

  lemma PruningKeeps(m: Requests, now: int)
    requires Sound(m)
    ensures Sound(Pruned(m, now))
  {
    PrunedMeaning(m, now);
    hide PrunedTo, Pruned, SameParty, Alive;
  }

  lemma NoRequestYet(m: Requests, e: Entry)
    requires if e.kind == Dm then DmRequest(m, e.senderId).None? else GroupRequest(m, e.chatId).None?
    ensures forall c :: c in m.at ==> !SameParty(m.at[c], e)
  {
    hide FirstCode;
    forall c | c in m.at ensures !SameParty(m.at[c], e) {
      assert c in m.keys;
    }
  }

  // A first request under any code keeps the bounds, used before or not.
  lemma RequestKeeps(m: Requests, code: string, e: Entry)
    requires Sound(m) && |m.keys| < MAX_PENDING && e.replies == 1
    requires if e.kind == Dm then DmRequest(m, e.senderId).None? else GroupRequest(m, e.chatId).None?
    ensures Sound(Set(m, code, e))
  {
    NoRequestYet(m, e);
    var r := Set(m, code, e);
    SamePartyBothWays();
    hide DmRequest, GroupRequest, SameParty;
    assert OneEach(r);
  }

  lemma SamePartyBothWays()
    ensures forall e, f :: SameParty(e, f) ==> SameParty(f, e)
  {}

  function OneMore(e: Entry): Entry { e.(replies := e.replies + 1) }

  lemma OneMoreIsOfTheParty(e: Entry, f: Entry)
    ensures SameParty(OneMore(e), f) == SameParty(e, f) == SameParty(f, e) == SameParty(f, OneMore(e))
  {}

  lemma ResentIsOneEach(m: Requests, code: string)
    requires OneEach(m) && code in m.at
    ensures OneEach(Set(m, code, OneMore(m.at[code])))
  {
    hide SameParty, OneMore;
    var r := Set(m, code, OneMore(m.at[code]));
    forall c, d | c in r.at && d in r.at && SameParty(r.at[c], r.at[d]) ensures c == d {
      if c == code { OneMoreIsOfTheParty(m.at[code], m.at[d]); }
      if d == code { OneMoreIsOfTheParty(m.at[code], m.at[c]); }
    }
  }

  lemma ResentIsInRange(m: Requests, code: string)
    requires RepliesInRange(m) && code in m.at && m.at[code].replies < MAX_PAIRING_REPLIES
    ensures RepliesInRange(Set(m, code, OneMore(m.at[code])))
  {}

  lemma ResendKeeps(m: Requests, code: string)
    requires Sound(m) && code in m.at && m.at[code].replies < MAX_PAIRING_REPLIES
    ensures Sound(Set(m, code, m.at[code].(replies := m.at[code].replies + 1)))
  {
    hide OneEach, SameParty, NoDup;
    ResentIsOneEach(m, code);
    ResentIsInRange(m, code);
  }

  lemma {:induction false} DirectKeeps(i: Input, a: Access, changed: bool)
    requires Sound(a.pending)
    ensures SamePolicies(a, GateDirect(i, a, changed).access) && Sound(GateDirect(i, a, changed).access.pending)
  {
    hide FirstCode, Sound;
    var code := DmRequest(a.pending, i.senderId);
    if code.Some? && a.pending.at[code.value].replies < MAX_PAIRING_REPLIES {
      ResendKeeps(a.pending, code.value);
    } else if code.None? && |a.pending.keys| < MAX_PENDING {
      RequestKeeps(a.pending, i.newCode, Entry(Dm, i.senderId, i.chatId, i.now, i.now + PAIRING_TTL_MS, 1));
    }
  }

  lemma {:induction false} UnconfiguredKeeps(i: Input, a: Access, changed: bool)
    requires Sound(a.pending)
    ensures var d := GateUnconfiguredGroup(i, a, changed); SamePolicies(a, d.access) && Sound(d.access.pending)
  {
    hide FirstCode, Sound, BotMentioned;
    if GroupRequest(a.pending, i.chatId).None? && |a.pending.keys| < MAX_PENDING {
      RequestKeeps(a.pending, i.newCode, Entry(OfGroup, i.senderId, i.chatId, i.now, i.now + PAIRING_TTL_MS, 1));
    }
  }

  lemma {:induction false} GateKeeps(i: Input, access: Access)
    requires Sound(access.pending)
    ensures SamePolicies(access, Gate(i, access).access) && Sound(Gate(i, access).access.pending)
  {
    hide Pruned, BotMentioned, Sound, GateDirect, GateUnconfiguredGroup;
    PruningKeeps(access.pending, i.now);
    var a := access.(pending := Pruned(access.pending, i.now));
    var changed := a.pending != access.pending;
    DirectKeeps(i, a, changed);
    UnconfiguredKeeps(i, a, changed);
  }

  const DEFAULTS := Access(DmPairing, Allowlist, [], map[], Empty())

  lemma DefaultsAreSound()
    ensures Sound(DEFAULTS.pending)
  {}

  // A decision leaves everything but the requests alone.
  lemma GateLeavesPolicies(i: Input, access: Access)
    ensures SamePolicies(access, Gate(i, access).access)
  {
    hide Pruned, BotMentioned, DmRequest, GroupRequest;
  }

  // ----- who is delivered -----

  // The bot's id is known and some mention has it: as its open id, or as its union
  // id when it has no open id.
  predicate NamesBot(mentions: seq<Mention>, botOpenId: Option<string>) {
    && botOpenId.Some? && botOpenId.value != ""
    && exists k :: 0 <= k < |mentions| && MentionIs(mentions[k], botOpenId.value)
  }

  predicate MentionIs(m: Mention, id: string) {
    m.openId == Some(id) || (m.openId.None? && m.unionId == Some(id))
  }

  lemma MentionMeaning(mentions: seq<Mention>, botOpenId: Option<string>)
    ensures BotMentioned(mentions, botOpenId) <==> NamesBot(mentions, botOpenId)
  {
    if botOpenId.Some? {
      forall m ensures MentionIs(m, botOpenId.value) <==> m.openId.OrElse(m.unionId) == botOpenId {}
      hide MentionIs;
      if m :| m in mentions && m.openId.OrElse(m.unionId) == botOpenId {
        var k :| 0 <= k < |mentions| && mentions[k] == m;
        assert MentionIs(mentions[k], botOpenId.value);
      }
      if k :| 0 <= k < |mentions| && MentionIs(mentions[k], botOpenId.value) {
        assert mentions[k] in mentions;
      }
    }
  }

  // Whether a message gets through, from the policies alone.
  predicate Admitted(i: Input, a: Access) {
    && i.senderId != ""
    && match i.chat
       case P2p => a.dmPolicy != DmDisabled && i.senderId in a.allowFrom
       case OtherChat => false
       case GroupChat =>
         if a.groupPolicy == Allowlist then
           && i.chatId in a.groups
           && (a.groups[i.chatId].allowFrom == [] || i.senderId in a.groups[i.chatId].allowFrom)
           && (a.groups[i.chatId].requireMention ==> NamesBot(i.mentions, i.botOpenId))
         else
           && a.groupPolicy == FollowUser && NamesBot(i.mentions, i.botOpenId)
           && (i.senderId in a.allowFrom || (i.senderIsBot && i.senderId in i.introduced))
  }

  lemma MentionNeedsId(mentions: seq<Mention>, botOpenId: Option<string>)
    ensures BotMentioned(mentions, botOpenId) ==> botOpenId.Some?
  {}

  lemma DeliversTheAdmitted(i: Input, a: Access)
    ensures Gate(i, a).action.Deliver? <==> Admitted(i, a)
  {
    MentionMeaning(i.mentions, i.botOpenId);
    MentionNeedsId(i.mentions, i.botOpenId);
    hide Pruned, DmRequest, GroupRequest, Request, BotMentioned, NamesBot;
  }

  // A decision says that it changed the state exactly if it did, as long as new codes are new.
  lemma ChangesAreTold(i: Input, a: Access)
    requires i.newCode !in a.pending.at
    ensures Gate(i, a).changed <==> Gate(i, a).access != a
  {
    PrunedMeaning(a.pending, i.now);
    hide Pruned, FirstCode, BotMentioned;
  }

  // ----- how often a code is sent -----

  // The request that a message starts.
  function Fresh(i: Input): Entry {
    Entry(if i.chat == P2p then Dm else OfGroup, i.senderId, i.chatId, i.now, i.now + 3_600_000, 1)
  }

  // What a decision does to the requests that have not expired: one more reply to
  // the sender's own request, or a first request of its party, or nothing.
  ghost predicate Effect(i: Input, before: Requests, d: Decision) {
    match d.action
    case Pair(code, true) =>
      && i.chat == P2p && code in before.at && before.at[code].replies < 2
      && before.at[code].kind == Dm && before.at[code].senderId == i.senderId
      && d.access.pending == Set(before, code, before.at[code].(replies := before.at[code].replies + 1))
    case Pair(code, false) =>
      && code == i.newCode && |before.keys| < 10
      && (forall c :: c in before.at ==> !SameParty(before.at[c], Fresh(i)))
      && d.access.pending == Set(before, code, Fresh(i))
    case _ => d.access.pending == before
  }

  lemma DirectEffect(i: Input, a: Access, changed: bool)
    requires i.chat == P2p
    ensures Effect(i, a.pending, GateDirect(i, a, changed))
  {
    hide FirstCode, SameParty;
    if DmRequest(a.pending, i.senderId).None? { NoRequestYet(a.pending, Fresh(i)); }
  }

  lemma UnconfiguredEffect(i: Input, a: Access, changed: bool)
    requires i.chat == GroupChat
    ensures Effect(i, a.pending, GateUnconfiguredGroup(i, a, changed))
  {
    hide FirstCode, BotMentioned, SameParty;
    if GroupRequest(a.pending, i.chatId).None? { NoRequestYet(a.pending, Fresh(i)); }
  }

  lemma GateEffect(i: Input, access: Access)
    ensures Effect(i, Pruned(access.pending, i.now), Gate(i, access))
  {
    hide Pruned, BotMentioned, GateDirect, GateUnconfiguredGroup, Fresh, SameParty;
    var a := access.(pending := Pruned(access.pending, i.now));
    var changed := a.pending != access.pending;
    if i.chat == P2p { DirectEffect(i, a, changed); }
    if i.chat == GroupChat { UnconfiguredEffect(i, a, changed); }
  }

  // Whether a message may ask for a pairing at all, from the policies alone.
  predicate MayPair(i: Input, a: Access) {
    && i.senderId != ""
    && match i.chat
       case P2p => a.dmPolicy == DmPairing && i.senderId !in a.allowFrom
       case GroupChat =>
         a.groupPolicy == Allowlist && i.chatId !in a.groups && NamesBot(i.mentions, i.botOpenId)
       case OtherChat => false
  }

  // Whether the unexpired requests leave room for an answer to it.
  ghost predicate Room(i: Input, m: Requests) {
    if exists c :: c in m.at && SameParty(m.at[c], Fresh(i)) then
      i.chat == P2p && forall c :: c in m.at && SameParty(m.at[c], Fresh(i)) ==> m.at[c].replies < 2
    else |m.keys| < 10
  }

  // A code is sent exactly to a message that may pair and finds room: a first
  // request for a sender or group without one while fewer than ten are pending, or
  // a second reply to a direct sender.
  lemma {:induction false} PairsThoseWithRoom(i: Input, a: Access)
    requires Sound(a.pending)
    ensures Gate(i, a).action.Pair? <==> MayPair(i, a) && Room(i, Pruned(a.pending, i.now))
  {
    hide Pruned, BotMentioned, NamesBot, Sound, Room, GateDirect, GateUnconfiguredGroup;
    MentionMeaning(i.mentions, i.botOpenId);
    var m := a.(pending := Pruned(a.pending, i.now));
    PruningKeeps(a.pending, i.now);
    MentionNeedsId(i.mentions, i.botOpenId);
    if i.chat == P2p { DirectPairs(i, m, m.pending != a.pending); }
    if i.chat == GroupChat { GroupPairs(i, m, m.pending != a.pending); }
  }

  lemma DirectPairs(i: Input, a: Access, changed: bool)
    requires i.chat == P2p && Sound(a.pending)
    ensures GateDirect(i, a, changed).action.Pair? <==>
      a.dmPolicy == DmPairing && i.senderId !in a.allowFrom && Room(i, a.pending)
  {
    RequestOf(i, a.pending);
    hide Room, DmRequest, Sound;
  }

  lemma GroupPairs(i: Input, a: Access, changed: bool)
    requires i.chat == GroupChat && Sound(a.pending)
    ensures GateUnconfiguredGroup(i, a, changed).action.Pair? <==>
      BotMentioned(i.mentions, i.botOpenId) && Room(i, a.pending)
  {
    RequestOf(i, a.pending);
    MentionNeedsId(i.mentions, i.botOpenId);
    hide Room, GroupRequest, Sound, BotMentioned;
  }

  lemma RequestOf(i: Input, m: Requests)
    requires Sound(m)
    ensures i.chat == P2p ==>
      var code := DmRequest(m, i.senderId);
      Room(i, m) <==> if code.Some? then m.at[code.value].replies < MAX_PAIRING_REPLIES else |m.keys| < MAX_PENDING
    ensures i.chat == GroupChat ==> (Room(i, m) <==> GroupRequest(m, i.chatId).None? && |m.keys| < MAX_PENDING)
  {
    hide FirstCode;
    assert forall c :: c in m.at ==> c in m.keys;
  }

  // Messages one at a time: each decision is stored before the next is taken.
  function OneByOne(inputs: seq<Input>): Access {
    if inputs == [] then DEFAULTS else Gate(inputs[|inputs| - 1], OneByOne(inputs[..|inputs| - 1])).access
  }

  function SentCodes(inputs: seq<Input>): seq<string> {
    if inputs == [] then []
    else
      var p := inputs[..|inputs| - 1];
      var action := Gate(inputs[|inputs| - 1], OneByOne(p)).action;
      SentCodes(p) + if action.Pair? then [action.code] else []
  }

  // No code is generated that was sent before.
  ghost predicate FreshCodes(inputs: seq<Input>) {
    inputs != [] ==>
      FreshCodes(inputs[..|inputs| - 1]) && inputs[|inputs| - 1].newCode !in SentCodes(inputs[..|inputs| - 1])
  }

  ghost predicate Counted(m: Requests, sent: seq<string>) {
    && (forall c :: c in m.at ==> multiset(sent)[c] == m.at[c].replies)
    && forall c :: multiset(sent)[c] <= MAX_PAIRING_REPLIES
  }

  lemma CountPruned(m: Requests, now: int, sent: seq<string>)
    requires Counted(m, sent)
    ensures Counted(Pruned(m, now), sent)
  {
    PrunedMeaning(m, now);
    hide Alive, Pruned;
  }

  lemma CountSet(m: Requests, code: string, e: Entry, sent: seq<string>)
    requires Counted(m, sent) && e.replies == multiset(sent)[code] + 1 <= MAX_PAIRING_REPLIES
    ensures Counted(Set(m, code, e), sent + [code])
  {
    assert multiset(sent + [code]) == multiset(sent) + multiset{code};
  }

  lemma {:induction false} CountKeeps(i: Input, access: Access, sent: seq<string>)
    requires Counted(access.pending, sent) && i.newCode !in sent
    ensures var d := Gate(i, access); Counted(d.access.pending, sent + if d.action.Pair? then [d.action.code] else [])
  {
    hide Gate, Alive, Pruned, SameParty;
    GateEffect(i, access);
    CountPruned(access.pending, i.now, sent);
    var m, d := Pruned(access.pending, i.now), Gate(i, access);
    assert sent + [] == sent;
    if d.action.Pair? {
      var code := d.action.code;
      hide Counted;
      if d.action.isResend {
        CountOf(m, sent, code);
        CountSet(m, code, m.at[code].(replies := m.at[code].replies + 1), sent);
      } else {
        CountSet(m, code, Fresh(i), sent);
      }
    }
  }

  lemma CountOf(m: Requests, sent: seq<string>, code: string)
    requires Counted(m, sent) && code in m.at
    ensures multiset(sent)[code] == m.at[code].replies
  {}

  lemma {:induction false} CountRun(inputs: seq<Input>)
    requires FreshCodes(inputs)
    ensures Counted(OneByOne(inputs).pending, SentCodes(inputs))
  {
    hide Gate, Counted;
    if inputs == [] {
      NothingCounted();
    } else {
      CountRun(inputs[..|inputs| - 1]);
      CountKeeps(inputs[|inputs| - 1], OneByOne(inputs[..|inputs| - 1]), SentCodes(inputs[..|inputs| - 1]));
    }
  }

  lemma NothingCounted()
    ensures Counted(DEFAULTS.pending, [])
  {}

  // Message after message, no code is sent more than twice, and the count in
  // its request is how often it was.
  lemma {:induction false} CodesAreSentTwiceAtMost(inputs: seq<Input>, code: string)
    requires FreshCodes(inputs)
    ensures multiset(SentCodes(inputs))[code] <= 2
    ensures var m := OneByOne(inputs).pending;
      code in m.at ==> m.at[code].replies == multiset(SentCodes(inputs))[code]
  {
    hide OneByOne, SentCodes;
    CountRun(inputs);
  }
}
