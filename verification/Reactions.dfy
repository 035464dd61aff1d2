// The "received" reaction the channel puts on a message and takes off again when
// the chat is answered. Two asynchronous operations share three collections; each
// stretch between two awaits is one step here.

module Reactions {
  import opened Prelude
  import opened OrderedMaps

  const CLEARED_TOMBSTONE_CAP := 1024

  datatype Mark = Mark(chatId: string, reactionId: string)
  datatype Add = Add(chatId: string, cleared: bool)

  // A reaction on a message.
  type Reaction = (string, string)

  datatype Memory = Memory(
    pending: OrderedMap<string, Mark>,
    inFlight: OrderedMap<string, Add>,
    tombstones: seq<string>)

  // ----- what each stretch does to the memory -----

  function Remember(tombstones: seq<string>, m: string): seq<string> {
    var s := Without(tombstones, m) + [m];
    if |s| > CLEARED_TOMBSTONE_CAP then s[1..] else s
  }

  function RememberAll(tombstones: seq<string>, ms: seq<string>): seq<string> {
    if ms == [] then tombstones
    else Remember(RememberAll(tombstones, ms[..|ms| - 1]), ms[|ms| - 1])
  }

  lemma RememberNone(tombstones: seq<string>, p: string -> bool)
    ensures RememberAll(tombstones, Filter(p, [])) == tombstones
  {}

  lemma RememberAllSnoc(tombstones: seq<string>, ms: seq<string>, m: string)
    ensures RememberAll(tombstones, ms + [m]) == Remember(RememberAll(tombstones, ms), m)
  {
    assert (ms + [m])[..|ms|] == ms;
  }

  predicate Marks(mem: Memory, kind: string, m: string, chat: string) {
    && kind == "message" && m != "" && chat != ""
    && m !in mem.pending.at && m !in mem.inFlight.at && m !in mem.tombstones
  }

  function StartMark(mem: Memory, m: string, chat: string): Memory {
    mem.(inFlight := Set(mem.inFlight, m, Add(chat, false)))
  }

  // What the remote call comes back with: an exception, or an id that may be missing.
  datatype AddResult = Failed | Replied(reactionId: string)

  predicate MustRemove(mem: Memory, m: string, result: AddResult)
    requires m in mem.inFlight.at
  {
    result.Replied? && result.reactionId != "" && mem.inFlight.at[m].cleared
  }

  function FinishAdd(mem: Memory, m: string, result: AddResult): Memory
    requires m in mem.inFlight.at
  {
    if MustRemove(mem, m, result) then mem
    else if result.Replied? && result.reactionId != "" then
      mem.(pending := Set(mem.pending, m, Mark(mem.inFlight.at[m].chatId, result.reactionId)),
           inFlight := Delete(mem.inFlight, m))
    else mem.(inFlight := Delete(mem.inFlight, m))
  }

  function FinishRemove(mem: Memory, m: string): Memory {
    mem.(inFlight := Delete(mem.inFlight, m))
  }

  function InChat(inFlight: OrderedMap<string, Add>, chat: string): string -> bool {
    m => m in inFlight.at && inFlight.at[m].chatId == chat
  }

  function AddsOf(inFlight: OrderedMap<string, Add>, chat: string): seq<string> {
    Filter(InChat(inFlight, chat), inFlight.keys)
  }

  function Flag(inFlight: OrderedMap<string, Add>, chat: string): OrderedMap<string, Add> {
    RawMap(inFlight.keys, map m | m in inFlight.at ::
      if inFlight.at[m].chatId == chat then inFlight.at[m].(cleared := true) else inFlight.at[m])
  }

  // The same for the messages in `done` only.
  function FlagOnly(inFlight: OrderedMap<string, Add>, chat: string, done: seq<string>): OrderedMap<string, Add> {
    RawMap(inFlight.keys, map m | m in inFlight.at ::
      if m in done && inFlight.at[m].chatId == chat then inFlight.at[m].(cleared := true) else inFlight.at[m])
  }

  lemma FlagOneMore(inFlight: OrderedMap<string, Add>, chat: string, done: seq<string>, m: string)
    requires m in inFlight.keys
    ensures m in FlagOnly(inFlight, chat, done).at
    ensures InChat(inFlight, chat)(m) == (FlagOnly(inFlight, chat, done).at[m].chatId == chat)
    ensures InChat(inFlight, chat)(m) == (inFlight.at[m].chatId == chat)
    ensures inFlight.at[m].chatId != chat ==> FlagOnly(inFlight, chat, done + [m]) == FlagOnly(inFlight, chat, done)
    ensures inFlight.at[m].chatId == chat ==>
      FlagOnly(inFlight, chat, done + [m]) ==
      Set(FlagOnly(inFlight, chat, done), m, FlagOnly(inFlight, chat, done).at[m].(cleared := true))
  {}

  lemma FlagNoneOrAll(inFlight: OrderedMap<string, Add>, chat: string)
    ensures FlagOnly(inFlight, chat, []) == inFlight
    ensures FlagOnly(inFlight, chat, inFlight.keys) == Flag(inFlight, chat)
  {
    assert FlagOnly(inFlight, chat, []).at == inFlight.at;
    assert FlagOnly(inFlight, chat, inFlight.keys).at == Flag(inFlight, chat).at;
  }

  function StartClear(mem: Memory, chat: string): Memory {
    mem.(inFlight := Flag(mem.inFlight, chat),
         tombstones := RememberAll(mem.tombstones, AddsOf(mem.inFlight, chat)))
  }

  function PendingOf(pending: OrderedMap<string, Mark>, chat: string): (r: seq<Reaction>)
    ensures forall p :: p in r ==> p.0 in pending.at && pending.at[p.0] == Mark(chat, p.1)
  {
    var ms := Filter(m => m in pending.at && pending.at[m].chatId == chat, pending.keys);
    seq(|ms|, i requires 0 <= i < |ms| => assert ms[i] in ms; (ms[i], pending.at[ms[i]].reactionId))
  }

  // It lists every pending reaction of the chat, and no other, each message once.
  lemma {:induction false} PendingOfMeaning(pending: OrderedMap<string, Mark>, chat: string)
    ensures forall m, r :: (m, r) in PendingOf(pending, chat) <==> m in pending.at && pending.at[m] == Mark(chat, r)
    ensures NoDup(PendingOf(pending, chat))
  {
    var ms := Filter(m => m in pending.at && pending.at[m].chatId == chat, pending.keys);
    var list := PendingOf(pending, chat);
    FilterNoDup(m => m in pending.at && pending.at[m].chatId == chat, pending.keys);
    hide Filter;
    forall m, r | m in pending.at && pending.at[m] == Mark(chat, r) ensures (m, r) in list {
      assert m in ms;
      var i :| 0 <= i < |ms| && ms[i] == m;
      assert list[i] == (m, r);
    }
    assert forall i :: 0 <= i < |list| ==> list[i].0 == ms[i];
  }

  function ClearOne(mem: Memory, m: string): Memory {
    mem.(pending := Delete(mem.pending, m), tombstones := Remember(mem.tombstones, m))
  }

  // ----- the channel core's own collections -----

  class ReactionTracker {
    var pendingReactions: OrderedMap<string, Mark>
    var inFlightAdds: OrderedMap<string, Add>
    var clearedMessages: seq<string>

    constructor ()
      ensures State() == Memory(Empty(), Empty(), [])
    {
      pendingReactions, inFlightAdds, clearedMessages := Empty(), Empty(), [];
    }

    function State(): Memory
      reads this
    {
      Memory(pendingReactions, inFlightAdds, clearedMessages)
    }

    method RememberCleared(m: string)
      modifies this`clearedMessages
      ensures clearedMessages == Remember(old(clearedMessages), m)
    {
      clearedMessages := Without(clearedMessages, m);
      clearedMessages := clearedMessages + [m];
      if |clearedMessages| > CLEARED_TOMBSTONE_CAP {
        var oldest := clearedMessages[0];
        clearedMessages := clearedMessages[1..];
      }
    }

    // Up to the call of the remote add; true when there is one.
    method MarkReceived(kind: string, m: string, chat: string) returns (adding: bool)
      modifies this
      ensures adding == Marks(old(State()), kind, m, chat)
      ensures State() == if adding then StartMark(old(State()), m, chat) else old(State())
    {
      if kind != "message" { return false; }
      if m == "" || chat == "" { return false; }
      if m in pendingReactions.at || m in inFlightAdds.at || m in clearedMessages { return false; }
      inFlightAdds := Set(inFlightAdds, m, Add(chat, false));
      return true;
    }

    // From the result of the remote add to the end, or to the call of the remote
    // removal, whose reaction is then returned.
    method AddReturned(m: string, result: AddResult) returns (remove: Option<string>)
      requires m in inFlightAdds.at
      modifies this
      ensures State() == FinishAdd(old(State()), m, result)
      ensures remove == if MustRemove(old(State()), m, result) then Some(result.reactionId) else None
    {
      if result.Replied? && result.reactionId != "" {
        if inFlightAdds.at[m].cleared { return Some(result.reactionId); }
        pendingReactions := Set(pendingReactions, m, Mark(inFlightAdds.at[m].chatId, result.reactionId));
      }
      inFlightAdds := Delete(inFlightAdds, m);
      return None;
    }

    method RemoveReturned(m: string)
      modifies this
      ensures State() == FinishRemove(old(State()), m)
    {
      inFlightAdds := Delete(inFlightAdds, m);
    }

    // Flags the adds of the chat and takes the list of reactions to remove.
    method ClearReceived(chat: string) returns (pending: seq<Reaction>)
      modifies this
      ensures State() == StartClear(old(State()), chat)
      ensures pending == PendingOf(old(pendingReactions), chat)
      ensures forall id, r :: (id, r) in pending <==>
        id in old(pendingReactions).at && old(pendingReactions).at[id] == Mark(chat, r)
    {
      PendingOfMeaning(pendingReactions, chat);
      ghost var before := State();
      ghost var p := InChat(before.inFlight, chat);
      FlagNoneOrAll(before.inFlight, chat);
      RememberNone(before.tombstones, p);
      hide Flag, FlagOnly, Remember, RememberAll, InChat, Filter, PendingOf;
      var keys := inFlightAdds.keys;
      assert keys[..0] == [];
      var i := 0;
      while i < |keys|
        invariant 0 <= i <= |keys| && keys == before.inFlight.keys && pendingReactions == before.pending
        invariant inFlightAdds == FlagOnly(before.inFlight, chat, keys[..i])
        invariant clearedMessages == RememberAll(before.tombstones, Filter(p, keys[..i]))
      {
        var m := keys[i];
        assert keys[..i + 1] == keys[..i] + [m];
        FlagOneMore(before.inFlight, chat, keys[..i], m);
        FilterTake(p, keys, i);
        RememberAllSnoc(before.tombstones, Filter(p, keys[..i]), m);
        var record := inFlightAdds.at[m];
        if record.chatId == chat {
          inFlightAdds := Set(inFlightAdds, m, record.(cleared := true));
          RememberCleared(m);
        }
        i := i + 1;
      }
      assert keys[..|keys|] == keys;
      pending := PendingOf(pendingReactions, chat);
    }

    // One turn of the removal loop, up to the call of the remote removal.
    method ClearTurn(m: string)
      modifies this
      ensures State() == ClearOne(old(State()), m)
    {
      pendingReactions := Delete(pendingReactions, m);
      RememberCleared(m);
    }
  }

  // ----- every interleaving -----

  // Where an add is: the remote call is out, or has been answered, or the removal
  // it asked for is out, or that has been answered too.
  datatype AddPhase = Calling | Answered(result: AddResult) | Removing(reactionId: string) | Removed

  // A clear that waits for the removal of `current`, which Feishu has carried out
  // once `done`, and has `rest` of its list before it.
  datatype Clear = Clear(current: Reaction, done: bool, rest: seq<Reaction>)

  // `live` are the reactions on Feishu. `stranded` are those nothing will remove
  // any more: the id never came back, the removal failed, or a clear dropped the
  // record of another reaction than the one it removes. `used` are the ids Feishu
  // has given out, `evicted` says that a tombstone has been dropped, and `cleared`
  // is the history of the messages that were cleared.
  datatype World = World(
    mem: Memory,
    adds: map<string, AddPhase>,
    clears: map<nat, Clear>,
    live: set<Reaction>,
    stranded: set<Reaction>,
    used: set<string>,
    evicted: bool,
    cleared: seq<string>)

  datatype Step =
    | Deliver(kind: string, m: string, chat: string)
    | AddFails(m: string)
    | AddDone(m: string, reactionId: string, told: bool)
    | AddResumes(m: string)
    | AddRemovalDone(m: string, ok: bool)
    | AddRemovalResumes(m: string)
    | Reply(task: nat, chat: string)
    | ClearRemovalDone(task: nat, ok: bool)
    | ClearResumes(task: nat)

  predicate Evicts(before: seq<string>, m: string) { |Without(before, m)| >= CLEARED_TOMBSTONE_CAP }

  predicate EvictsAny(before: seq<string>, ms: seq<string>) {
    ms != [] && (EvictsAny(before, ms[..|ms| - 1]) || Evicts(RememberAll(before, ms[..|ms| - 1]), ms[|ms| - 1]))
  }

  // The turn of a clear with `list` still before it: it takes the first entry, or ends.
  function Turn(w: World, task: nat, list: seq<Reaction>): World {
    if list == [] then w.(clears := w.clears - {task})
    else
      var (m, r) := list[0];
      var stale := if m in w.mem.pending.at && w.mem.pending.at[m].reactionId != r
                   then {(m, w.mem.pending.at[m].reactionId)} else {};
      w.(mem := ClearOne(w.mem, m),
         clears := w.clears[task := Clear(list[0], false, list[1..])],
         stranded := w.stranded + stale,
         evicted := w.evicted || Evicts(w.mem.tombstones, m),
         cleared := w.cleared + [m])
  }

  function Flagged(w: World, chat: string): World {
    w.(mem := StartClear(w.mem, chat),
       evicted := w.evicted || EvictsAny(w.mem.tombstones, AddsOf(w.mem.inFlight, chat)),
       cleared := w.cleared + AddsOf(w.mem.inFlight, chat))
  }

  function RemoteRemoval(w: World, p: Reaction, ok: bool): World {
    if ok then w.(live := w.live - {p}, stranded := w.stranded - {p})
    else w.(stranded := w.stranded + ({p} * w.live))
  }

  function Next(w: World, step: Step): World {
    match step
    case Deliver(kind, m, chat) =>
      if Marks(w.mem, kind, m, chat) then w.(mem := StartMark(w.mem, m, chat), adds := w.adds[m := Calling]) else w
    case AddFails(m) =>
      if m in w.adds && w.adds[m].Calling? then w.(adds := w.adds[m := Answered(Failed)]) else w
    case AddDone(m, r, told) =>
      if m in w.adds && w.adds[m].Calling? && r != "" && r !in w.used then
        w.(adds := w.adds[m := Answered(Replied(if told then r else ""))],
           live := w.live + {(m, r)},
           stranded := if told then w.stranded else w.stranded + {(m, r)},
           used := w.used + {r})
      else w
    case AddResumes(m) =>
      if m in w.adds && m in w.mem.inFlight.at && w.adds[m].Answered? then
        var result := w.adds[m].result;
        w.(mem := FinishAdd(w.mem, m, result),
           adds := if MustRemove(w.mem, m, result) then w.adds[m := Removing(result.reactionId)] else w.adds - {m})
      else w
    case AddRemovalDone(m, ok) =>
      if m in w.adds && w.adds[m].Removing? then
        RemoteRemoval(w, (m, w.adds[m].reactionId), ok).(adds := w.adds[m := Removed])
      else w
    case AddRemovalResumes(m) =>
      if m in w.adds && w.adds[m].Removed? then w.(mem := FinishRemove(w.mem, m), adds := w.adds - {m}) else w
    case Reply(task, chat) =>
      if task in w.clears then w
      else
        Turn(Flagged(w, chat), task, PendingOf(w.mem.pending, chat))
    case ClearRemovalDone(task, ok) =>
      if task in w.clears && !w.clears[task].done then
        RemoteRemoval(w, w.clears[task].current, ok).(clears := w.clears[task := w.clears[task].(done := true)])
      else w
    case ClearResumes(task) =>
      if task in w.clears && w.clears[task].done then Turn(w, task, w.clears[task].rest) else w
  }

  const START := World(Memory(Empty(), Empty(), []), map[], map[], {}, {}, {}, false, [])

  function Run(steps: seq<Step>): World {
    if steps == [] then START else Next(Run(steps[..|steps| - 1]), steps[|steps| - 1])
  }

  predicate IsPending(w: World, p: Reaction) {
    p.0 in w.mem.pending.at && w.mem.pending.at[p.0].reactionId == p.1
  }

  // An add that is not over yet will record the reaction as pending, or remove it.
  predicate AddOwns(w: World, p: Reaction) {
    p.0 in w.adds && (w.adds[p.0] == Answered(Replied(p.1)) || w.adds[p.0] == Removing(p.1))
  }

  // A clear has asked for the removal of the reaction.
  ghost predicate ClearOwns(w: World, p: Reaction) {
    exists t :: t in w.clears && w.clears[t].current == p && !w.clears[t].done
  }

  predicate Listed(c: Clear, p: Reaction) { p == c.current || p in c.rest }

  // Every reaction on Feishu is somebody's, or lost.
  ghost predicate Accounted(w: World) {
    forall p :: p in w.live ==> IsPending(w, p) || AddOwns(w, p) || ClearOwns(w, p) || p in w.stranded
  }

  // What is recorded is on Feishu, and not lost.
  ghost predicate Recorded(w: World) {
    && (forall p :: IsPending(w, p) ==> p in w.live && p !in w.stranded)
    && (forall p :: AddOwns(w, p) && p.1 != "" ==> p in w.live && p !in w.stranded)
    && (forall p :: p in w.stranded ==> p in w.live)
  }

  // The ids of a clear were given out, to no unfinished add.
  ghost predicate ListsKnown(w: World) {
    && (forall t, p :: t in w.clears && Listed(w.clears[t], p) ==> p.1 in w.used && !AddOwns(w, p))
    && (forall t :: t in w.clears ==> !IsPending(w, w.clears[t].current))
  }

  // A message is in flight as long as its add is not over, and not pending by then.
  ghost predicate Apart(w: World) {
    && w.adds.Keys == w.mem.inFlight.at.Keys
    && forall m :: m in w.mem.pending.at ==> m !in w.mem.inFlight.at
  }

  // Ids are given out once.
  ghost predicate IdsUsed(w: World) {
    "" !in w.used && forall p :: p in w.live ==> p.1 in w.used
  }

  ghost predicate Inv(w: World) {
    && Apart(w)
    && Accounted(w)
    && Recorded(w)
    && IdsUsed(w)
    && ListsKnown(w)
  }

  // A clear's list may be worked on: each entry is an id given out to no unfinished add.
  ghost predicate Clearable(w: World, list: seq<Reaction>) {
    forall p :: p in list ==> p.1 in w.used && !AddOwns(w, p)
  }

  // What a turn changes: the entry is no longer pending, and is asked to be removed;
  // another reaction that was pending on its message is stranded.
  lemma {:induction false} TurnEffect(w: World, task: nat, list: seq<Reaction>, v: World)
    requires v == Turn(w, task, list)
    ensures v.live == w.live && v.used == w.used && v.adds == w.adds && v.mem.inFlight == w.mem.inFlight
    ensures forall m :: m in v.mem.pending.at <==> m in w.mem.pending.at && (list == [] || m != list[0].0)
    ensures forall p :: IsPending(v, p) <==> IsPending(w, p) && (list == [] || p.0 != list[0].0)
    ensures forall p :: AddOwns(v, p) == AddOwns(w, p)
    ensures forall p :: p in v.stranded <==>
      p in w.stranded || (list != [] && IsPending(w, p) && p.0 == list[0].0 && p != list[0])
    ensures forall t :: t != task ==> (t in v.clears <==> t in w.clears)
    ensures forall t :: t != task && t in w.clears ==> v.clears[t] == w.clears[t]
    ensures task in v.clears <==> list != []
    ensures list != [] ==> v.clears[task] == Clear(list[0], false, list[1..])
  {
    hide Remember, Evicts;
    if list != [] {
      assert v.mem.pending.at == w.mem.pending.at - {list[0].0};
    }
  }

  lemma {:induction false} TurnAccounts(w: World, task: nat, list: seq<Reaction>, p: Reaction)
    requires Accounted(w) && (task in w.clears ==> w.clears[task].done)
    requires p in w.live
    ensures var v := Turn(w, task, list);
      IsPending(v, p) || AddOwns(v, p) || ClearOwns(v, p) || p in v.stranded
  {
    var v := Turn(w, task, list);
    TurnEffect(w, task, list, v);
    hide IsPending, AddOwns, Turn;
    if list != [] && p == list[0] {
      assert v.clears[task].current == p;
    } else if ClearOwns(w, p) {
      var t :| t in w.clears && w.clears[t].current == p && !w.clears[t].done;
      assert v.clears[t] == w.clears[t];
    }
  }

  lemma PendingOrOwned(w: World, p: Reaction)
    requires Apart(w)
    ensures !(IsPending(w, p) && AddOwns(w, p))
  {}

  lemma {:induction false} TurnRecorded(w: World, task: nat, list: seq<Reaction>)
    requires Apart(w) && Recorded(w)
    ensures Recorded(Turn(w, task, list))
  {
    var v := Turn(w, task, list);
    hide IsPending, AddOwns, Turn;
    TurnEffect(w, task, list, v);
    forall p | AddOwns(v, p) && p.1 != "" ensures p in v.live && p !in v.stranded {
      PendingOrOwned(w, p);
    }
  }

  lemma TurnListed(w: World, task: nat, list: seq<Reaction>, t: nat, p: Reaction)
    requires ListsKnown(w) && Clearable(w, list)
    requires var v := Turn(w, task, list); t in v.clears && Listed(v.clears[t], p)
    ensures p.1 in w.used && !AddOwns(w, p)
  {
    var v := Turn(w, task, list);
    hide IsPending, AddOwns, Turn;
    TurnEffect(w, task, list, v);
    if t != task { assert Listed(w.clears[t], p); } else { assert p in list; }
  }

  lemma TurnCurrent(w: World, task: nat, list: seq<Reaction>, t: nat)
    requires ListsKnown(w)
    requires var v := Turn(w, task, list); t in v.clears
    ensures var v := Turn(w, task, list); !IsPending(v, v.clears[t].current)
  {
    var v := Turn(w, task, list);
    hide IsPending, AddOwns, Turn;
    TurnEffect(w, task, list, v);
    if t != task { assert !IsPending(w, w.clears[t].current); }
  }

  lemma TurnOwns(w: World, task: nat, list: seq<Reaction>, p: Reaction)
    ensures var v := Turn(w, task, list); v.used == w.used && AddOwns(v, p) == AddOwns(w, p)
  {
    hide ClearOne, Evicts;
  }

  lemma {:induction false} TurnListsKnown(w: World, task: nat, list: seq<Reaction>)
    requires ListsKnown(w) && Clearable(w, list)
    ensures ListsKnown(Turn(w, task, list))
  {
    hide IsPending, AddOwns, Turn, Listed, Clearable;
    var v := Turn(w, task, list);
    forall t, p | t in v.clears && Listed(v.clears[t], p) ensures p.1 in v.used && !AddOwns(v, p) {
      TurnListed(w, task, list, t, p);
      TurnOwns(w, task, list, p);
    }
    forall t | t in v.clears ensures !IsPending(v, v.clears[t].current) {
      TurnCurrent(w, task, list, t);
    }
  }

  lemma {:induction false} TurnKeeps(w: World, task: nat, list: seq<Reaction>)
    requires Inv(w) && Clearable(w, list)
    requires task in w.clears ==> w.clears[task].done
    ensures Inv(Turn(w, task, list))
  {
    var v := Turn(w, task, list);
    hide IsPending, AddOwns, ClearOwns, Turn, ListsKnown, Recorded, Clearable;
    TurnEffect(w, task, list, v);
    TurnListsKnown(w, task, list);
    TurnRecorded(w, task, list);
    forall p | p in v.live ensures IsPending(v, p) || AddOwns(v, p) || ClearOwns(v, p) || p in v.stranded {
      TurnAccounts(w, task, list, p);
    }
  }

  lemma {:induction false} RemoteRemovalKeeps(w: World, p: Reaction, ok: bool, v: World)
    requires Inv(w) && !IsPending(w, p)
    requires v.mem == w.mem && v.used == w.used && v.adds.Keys == w.adds.Keys
    requires v.live == RemoteRemoval(w, p, ok).live && v.stranded == RemoteRemoval(w, p, ok).stranded
    requires forall q :: AddOwns(v, q) <==> AddOwns(w, q) && q != p
    requires forall q :: q != p ==> (ClearOwns(v, q) <==> ClearOwns(w, q))
    requires v.clears.Keys == w.clears.Keys
    requires forall t :: t in w.clears ==> v.clears[t].current == w.clears[t].current && v.clears[t].rest == w.clears[t].rest
    ensures Inv(v)
  {
    forall q ensures IsPending(v, q) == IsPending(w, q) {}
    hide IsPending, AddOwns, ClearOwns;
    forall t, q | t in v.clears && Listed(v.clears[t], q) ensures q.1 in v.used && !AddOwns(v, q) {
      assert Listed(w.clears[t], q);
    }
    forall q | q in v.live ensures IsPending(v, q) || AddOwns(v, q) || ClearOwns(v, q) || q in v.stranded {
      assert q in w.live;
    }
  }

  // The reaction is in the same hands.
  ghost predicate SameOwner(w: World, v: World, p: Reaction) {
    IsPending(v, p) == IsPending(w, p) && AddOwns(v, p) == AddOwns(w, p) && ClearOwns(v, p) == ClearOwns(w, p)
  }

  ghost predicate SameOwners(w: World, v: World) {
    && v.live == w.live && v.stranded == w.stranded && v.used == w.used && v.clears == w.clears
    && forall p :: SameOwner(w, v, p)
  }

  lemma {:induction false} SameOwnersKeep(w: World, v: World)
    requires Inv(w) && SameOwners(w, v) && Apart(v)
    ensures Inv(v)
  {
    hide Apart, IsPending, AddOwns, ClearOwns;
    forall p ensures IsPending(v, p) == IsPending(w, p)
      ensures AddOwns(v, p) == AddOwns(w, p)
      ensures ClearOwns(v, p) == ClearOwns(w, p)
    {
      assert SameOwner(w, v, p);
    }
    hide SameOwners, SameOwner;
    assert Accounted(v) && Recorded(v) && ListsKnown(v) && IdsUsed(v);
  }

  lemma SameClearsSameOwner(w: World, v: World, p: Reaction)
    requires v.clears == w.clears && v.mem.pending == w.mem.pending
    requires p.0 in w.adds || p.0 in v.adds ==> AddOwns(v, p) == AddOwns(w, p)
    ensures SameOwner(w, v, p)
  {}

  lemma {:induction false} DeliverKeeps(w: World, kind: string, m: string, chat: string)
    requires Inv(w)
    ensures Inv(Next(w, Deliver(kind, m, chat)))
  {
    hide Turn, Flagged, RemoteRemoval, FinishAdd, FinishRemove, MustRemove;
    if Marks(w.mem, kind, m, chat) {
      var v := Next(w, Deliver(kind, m, chat));
      hide Accounted, Recorded, ListsKnown, IdsUsed;
      forall p ensures SameOwner(w, v, p) {
        SameClearsSameOwner(w, v, p);
      }
      hide Next, SameOwner;
      SameOwnersKeep(w, v);
    }
  }

  lemma {:induction false} AddFailsKeeps(w: World, m: string)
    requires Inv(w)
    ensures Inv(Next(w, AddFails(m)))
  {
    hide Turn, Flagged, RemoteRemoval, StartMark, FinishAdd, FinishRemove, Marks, MustRemove;
    hide Accounted, Recorded, ListsKnown, IdsUsed;
    var v := Next(w, AddFails(m));
    if v != w {
      forall p ensures SameOwner(w, v, p) {
        SameClearsSameOwner(w, v, p);
      }
      hide SameOwner;
      SameOwnersKeep(w, v);
    }
  }

  ghost predicate AddsNow(w: World, m: string, r: string, told: bool, v: World) {
    && v == Next(w, AddDone(m, r, told)) && v != w
  }

  lemma AddDoneEffect(w: World, m: string, r: string, told: bool, v: World)
    requires AddsNow(w, m, r, told, v)
    ensures r != "" && r !in w.used && v.used == w.used + {r}
    ensures v.mem == w.mem && v.clears == w.clears && v.adds.Keys == w.adds.Keys
    ensures v.live == w.live + {(m, r)}
    ensures v.stranded == if told then w.stranded else w.stranded + {(m, r)}
  {
    hide Turn, Flagged, RemoteRemoval, StartMark, FinishAdd, FinishRemove, Marks, MustRemove;
  }

  // The new reaction belongs to its add, when its id came back.
  ghost predicate OwnedNow(w: World, m: string, r: string, told: bool, v: World, p: Reaction) {
    && IsPending(v, p) == IsPending(w, p) && ClearOwns(v, p) == ClearOwns(w, p)
    && (AddOwns(v, p) <==> AddOwns(w, p) || p == (m, if told then r else ""))
  }

  lemma AddDoneOwns(w: World, m: string, r: string, told: bool, v: World, p: Reaction)
    requires AddsNow(w, m, r, told, v)
    ensures OwnedNow(w, m, r, told, v, p)
  {
    hide Turn, Flagged, RemoteRemoval, StartMark, FinishAdd, FinishRemove, Marks, MustRemove;
  }

  lemma AddDoneAccounted(w: World, m: string, r: string, told: bool, v: World)
    requires Accounted(w) && AddsNow(w, m, r, told, v)
    ensures Accounted(v)
  {
    hide IsPending, AddOwns, ClearOwns, AddsNow;
    AddDoneEffect(w, m, r, told, v);
    forall p | p in v.live ensures IsPending(v, p) || AddOwns(v, p) || ClearOwns(v, p) || p in v.stranded {
      AddDoneOwns(w, m, r, told, v, p);
    }
  }

  lemma AddDoneRecorded(w: World, m: string, r: string, told: bool, v: World)
    requires Recorded(w) && IdsUsed(w) && AddsNow(w, m, r, told, v)
    ensures Recorded(v)
  {
    hide IsPending, AddOwns, ClearOwns, AddsNow;
    AddDoneEffect(w, m, r, told, v);
    forall p | IsPending(v, p) || (AddOwns(v, p) && p.1 != "") ensures p in v.live && p !in v.stranded {
      AddDoneOwns(w, m, r, told, v, p);
    }
  }

  lemma AddDoneListsKnown(w: World, m: string, r: string, told: bool, v: World)
    requires ListsKnown(w) && IdsUsed(w) && AddsNow(w, m, r, told, v)
    ensures ListsKnown(v)
  {
    hide IsPending, AddOwns, ClearOwns, AddsNow;
    AddDoneEffect(w, m, r, told, v);
    forall t, p | t in v.clears && Listed(v.clears[t], p) ensures p.1 in v.used && !AddOwns(v, p) {
      AddDoneOwns(w, m, r, told, v, p);
    }
    forall t | t in v.clears ensures !IsPending(v, v.clears[t].current) {
      AddDoneOwns(w, m, r, told, v, v.clears[t].current);
    }
  }

  lemma {:induction false} AddDoneKeeps(w: World, m: string, r: string, told: bool)
    requires Inv(w)
    ensures Inv(Next(w, AddDone(m, r, told)))
  {
    var v := Next(w, AddDone(m, r, told));
    if v != w {
      hide Next, Accounted, Recorded, ListsKnown;
      AddDoneEffect(w, m, r, told, v);
      AddDoneAccounted(w, m, r, told, v);
      AddDoneRecorded(w, m, r, told, v);
      AddDoneListsKnown(w, m, r, told, v);
    }
  }

  ghost predicate Resumes(w: World, m: string, r: string, v: World) {
    && m in w.adds && m in w.mem.inFlight.at && m !in w.mem.pending.at && w.adds[m].Answered?
    && w.adds.Keys == w.mem.inFlight.at.Keys
    && v == Next(w, AddResumes(m))
    && r == if w.adds[m].result.Replied? then w.adds[m].result.reactionId else ""
  }

  // The add hands the reaction on: to the pending ones, or to its own removal.
  lemma AddResumesEffect(w: World, m: string, r: string, v: World)
    requires Resumes(w, m, r, v)
    ensures v.clears == w.clears && v.live == w.live && v.stranded == w.stranded && v.used == w.used
    ensures v.adds.Keys == v.mem.inFlight.at.Keys
    ensures forall n :: n in v.mem.inFlight.at ==> n in w.mem.inFlight.at
    ensures forall n :: n in v.mem.pending.at && n !in w.mem.pending.at ==> n == m && n !in v.mem.inFlight.at
  {
    hide Turn, Flagged, RemoteRemoval, StartMark, FinishRemove, Marks;
  }

  lemma AddResumesApart(w: World, m: string, r: string, v: World)
    requires Apart(w) && Resumes(w, m, r, v)
    ensures Apart(v)
  {
    hide Next;
    AddResumesEffect(w, m, r, v);
  }

  // What `AddResumesHandsOn` says of one reaction.
  ghost predicate HandedOn(w: World, m: string, r: string, v: World, p: Reaction) {
    && (IsPending(w, p) ==> IsPending(v, p))
    && (IsPending(v, p) ==> IsPending(w, p) || (p == (m, r) && r != "" && AddOwns(w, p)))
    && (p.1 != "" && AddOwns(v, p) ==> AddOwns(w, p))
    && (p.1 != "" && AddOwns(w, p) ==> AddOwns(v, p) || IsPending(v, p))
    && ClearOwns(v, p) == ClearOwns(w, p)
  }

  ghost predicate HandsOn(w: World, m: string, r: string, v: World) {
    && v.clears == w.clears && v.live == w.live && v.stranded == w.stranded && v.used == w.used
    && forall p :: HandedOn(w, m, r, v, p)
  }

  ghost predicate GoesToRemoval(w: World, m: string, r: string, v: World) {
    m in w.adds && w.adds[m] == Answered(Replied(r)) && v == w.(adds := w.adds[m := Removing(r)])
  }

  ghost predicate GoesToPending(w: World, m: string, r: string, v: World) {
    && m in w.adds && m in w.mem.inFlight.at && (r != "" ==> w.adds[m] == Answered(Replied(r)))
    && (w.adds[m] == Answered(Failed) || w.adds[m] == Answered(Replied(r)))
    && v.adds == w.adds - {m} && v.clears == w.clears && m !in w.mem.pending.at
    && v.mem.pending.at ==
       if r != "" then w.mem.pending.at[m := Mark(w.mem.inFlight.at[m].chatId, r)] else w.mem.pending.at
  }

  lemma ResumesEitherWay(w: World, m: string, r: string, v: World)
    requires Resumes(w, m, r, v)
    ensures GoesToRemoval(w, m, r, v) || GoesToPending(w, m, r, v)
  {
    hide Turn, Flagged, RemoteRemoval, StartMark, FinishRemove, Marks;
  }

  lemma ToRemoval(w: World, m: string, r: string, v: World, p: Reaction)
    requires GoesToRemoval(w, m, r, v)
    ensures HandedOn(w, m, r, v, p)
  {}

  lemma ToPending(w: World, m: string, r: string, v: World, p: Reaction)
    requires GoesToPending(w, m, r, v)
    ensures HandedOn(w, m, r, v, p)
  {}

  lemma AddResumesHandsOn(w: World, m: string, r: string, v: World, p: Reaction)
    requires Resumes(w, m, r, v)
    ensures HandedOn(w, m, r, v, p)
  {
    hide Resumes, GoesToRemoval, GoesToPending, HandedOn;
    ResumesEitherWay(w, m, r, v);
    if GoesToRemoval(w, m, r, v) { ToRemoval(w, m, r, v, p); } else { ToPending(w, m, r, v, p); }
  }

  lemma HandsOnRecorded(w: World, m: string, r: string, v: World)
    requires Recorded(w) && HandsOn(w, m, r, v)
    ensures Recorded(v)
  {
    hide IsPending, AddOwns, ClearOwns;
    forall p | IsPending(v, p) || (AddOwns(v, p) && p.1 != "") ensures p in v.live && p !in v.stranded {
      assert HandedOn(w, m, r, v, p);
    }
  }

  lemma HandsOnAccounted(w: World, m: string, r: string, v: World)
    requires Accounted(w) && IdsUsed(w) && HandsOn(w, m, r, v)
    ensures Accounted(v)
  {
    hide IsPending, AddOwns, ClearOwns;
    forall p | p in v.live ensures IsPending(v, p) || AddOwns(v, p) || ClearOwns(v, p) || p in v.stranded {
      assert HandedOn(w, m, r, v, p);
    }
  }

  lemma HandsOnListsKnown(w: World, m: string, r: string, v: World)
    requires ListsKnown(w) && IdsUsed(w) && HandsOn(w, m, r, v)
    ensures ListsKnown(v)
  {
    hide IsPending, AddOwns, ClearOwns;
    forall t, p | t in v.clears && Listed(v.clears[t], p) ensures p.1 in v.used && !AddOwns(v, p) {
      assert HandedOn(w, m, r, v, p);
    }
    forall t | t in w.clears ensures !IsPending(v, w.clears[t].current) {
      assert Listed(w.clears[t], w.clears[t].current);
      assert HandedOn(w, m, r, v, w.clears[t].current);
    }
  }

  lemma {:induction false} AddResumesKeeps(w: World, m: string)
    requires Inv(w)
    ensures Inv(Next(w, AddResumes(m)))
  {
    hide Turn, Flagged, RemoteRemoval, StartMark, FinishAdd, FinishRemove, Marks, MustRemove;
    hide Accounted, Recorded, ListsKnown, HandedOn;
    var v := Next(w, AddResumes(m));
    if v != w {
      var r := if w.adds[m].result.Replied? then w.adds[m].result.reactionId else "";
      assert Resumes(w, m, r, v);
      hide Next, Resumes;
      AddResumesEffect(w, m, r, v);
      AddResumesApart(w, m, r, v);
      forall p ensures HandedOn(w, m, r, v, p) {
        AddResumesHandsOn(w, m, r, v, p);
      }
      HandsOnAccounted(w, m, r, v);
      HandsOnRecorded(w, m, r, v);
      HandsOnListsKnown(w, m, r, v);
    }
  }

  lemma {:induction false} AddRemovalDoneKeeps(w: World, m: string, ok: bool)
    requires Inv(w)
    ensures Inv(Next(w, AddRemovalDone(m, ok)))
  {
    hide Turn, Flagged, StartMark, FinishAdd, Marks, MustRemove;
    var v := Next(w, AddRemovalDone(m, ok));
    if v != w {
      var p: Reaction := (m, w.adds[m].reactionId);
      assert AddOwns(w, p) || p.1 == "";
      forall q ensures ClearOwns(v, q) == ClearOwns(w, q) {}
      forall q ensures AddOwns(v, q) <==> AddOwns(w, q) && q != p {}
      hide AddOwns, ClearOwns;
      RemoteRemovalKeeps(w, p, ok, v);
    }
  }

  lemma {:induction false} AddRemovalResumesKeeps(w: World, m: string)
    requires Inv(w)
    ensures Inv(Next(w, AddRemovalResumes(m)))
  {
    hide Turn, Flagged, StartMark, FinishAdd, Marks, MustRemove;
    hide Accounted, Recorded, ListsKnown, IdsUsed;
    var v := Next(w, AddRemovalResumes(m));
    if v != w {
      forall p ensures SameOwner(w, v, p) {
        SameClearsSameOwner(w, v, p);
      }
      assert v.adds.Keys == w.adds.Keys - {m};
      hide SameOwner;
      SameOwnersKeep(w, v);
    }
  }

  lemma {:induction false} PendingOfKnown(w: World, chat: string)
    requires Inv(w)
    ensures Clearable(w, PendingOf(w.mem.pending, chat))
  {
    hide Accounted, ListsKnown;
    var list := PendingOf(w.mem.pending, chat);
    forall p | p in list ensures p.1 in w.used && !AddOwns(w, p) {
      assert IsPending(w, p);
      PendingOrOwned(w, p);
    }
  }

  lemma {:induction false} FlaggedKeeps(w: World, chat: string)
    requires Inv(w)
    ensures Inv(Flagged(w, chat)) && Clearable(Flagged(w, chat), PendingOf(w.mem.pending, chat))
  {
    hide Accounted, Recorded, ListsKnown, IdsUsed, PendingOf, EvictsAny, RememberAll;
    var v := Flagged(w, chat);
    assert v.mem.inFlight.at.Keys == w.mem.inFlight.at.Keys;
    forall p ensures SameOwner(w, v, p) {
      SameClearsSameOwner(w, v, p);
    }
    hide SameOwner;
    SameOwnersKeep(w, v);
    PendingOfKnown(v, chat);
  }

  lemma {:induction false} ReplyKeeps(w: World, task: nat, chat: string)
    requires Inv(w)
    ensures Inv(Next(w, Reply(task, chat)))
  {
    if task !in w.clears {
      var v := Flagged(w, chat);
      FlaggedKeeps(w, chat);
      var list := PendingOf(w.mem.pending, chat);
      hide PendingOf, Turn, Inv;
      TurnKeeps(v, task, list);
    }
  }

  lemma {:induction false} ClearRemovalOwns(w: World, task: nat, ok: bool, v: World, q: Reaction)
    requires task in w.clears && !w.clears[task].done && q != w.clears[task].current
    requires v.clears == w.clears[task := w.clears[task].(done := true)]
    ensures ClearOwns(v, q) <==> ClearOwns(w, q)
  {
    if ClearOwns(w, q) {
      var t :| t in w.clears && w.clears[t].current == q && !w.clears[t].done;
      assert v.clears[t] == w.clears[t];
    }
    if ClearOwns(v, q) {
      var t :| t in v.clears && v.clears[t].current == q && !v.clears[t].done;
      assert v.clears[t] == w.clears[t];
    }
  }

  lemma {:induction false} ClearRemovalDoneKeeps(w: World, task: nat, ok: bool)
    requires Inv(w)
    ensures Inv(Next(w, ClearRemovalDone(task, ok)))
  {
    hide Flagged, StartMark, FinishAdd, FinishRemove, Marks, MustRemove, Turn;
    var v := Next(w, ClearRemovalDone(task, ok));
    if v != w {
      var p := w.clears[task].current;
      assert Listed(w.clears[task], p);
      forall q ensures AddOwns(v, q) == AddOwns(w, q) {}
      hide AddOwns, ClearOwns;
      forall q | q != p ensures ClearOwns(v, q) <==> ClearOwns(w, q) {
        ClearRemovalOwns(w, task, ok, v, q);
      }
      RemoteRemovalKeeps(w, p, ok, v);
    }
  }

  lemma {:induction false} ClearResumesKeeps(w: World, task: nat)
    requires Inv(w)
    ensures Inv(Next(w, ClearResumes(task)))
  {
    hide Flagged, StartMark, FinishAdd, FinishRemove, Marks, MustRemove, Turn;
    if task in w.clears && w.clears[task].done {
      hide AddOwns, IsPending, ClearOwns;
      forall p | p in w.clears[task].rest ensures p.1 in w.used && !AddOwns(w, p) {
        assert Listed(w.clears[task], p);
      }
      TurnKeeps(w, task, w.clears[task].rest);
    }
  }

  lemma {:induction false} NextKeeps(w: World, step: Step)
    requires Inv(w)
    ensures Inv(Next(w, step))
  {
    hide Inv, Next;
    match step
    case Deliver(kind, m, chat) => DeliverKeeps(w, kind, m, chat);
    case AddFails(m) => AddFailsKeeps(w, m);
    case AddDone(m, r, told) => AddDoneKeeps(w, m, r, told);
    case AddResumes(m) => AddResumesKeeps(w, m);
    case AddRemovalDone(m, ok) => AddRemovalDoneKeeps(w, m, ok);
    case AddRemovalResumes(m) => AddRemovalResumesKeeps(w, m);
    case Reply(task, chat) => ReplyKeeps(w, task, chat);
    case ClearRemovalDone(task, ok) => ClearRemovalDoneKeeps(w, task, ok);
    case ClearResumes(task) => ClearResumesKeeps(w, task);
  }

  lemma {:induction false} RunKeeps(steps: seq<Step>)
    ensures Inv(Run(steps))
  {
    if steps != [] {
      RunKeeps(steps[..|steps| - 1]);
      NextKeeps(Run(steps[..|steps| - 1]), steps[|steps| - 1]);
    }
  }

  // In every interleaving each reaction on Feishu is pending, or owned by an
  // unfinished add or clear, or was lost to one of the three faults; and no
  // message is both pending and in flight.
  lemma {:induction false} NoReactionIsForgotten(steps: seq<Step>, p: Reaction)
    ensures var w := Run(steps);
      && (p in w.live ==> IsPending(w, p) || AddOwns(w, p) || ClearOwns(w, p) || p in w.stranded)
      && (p.0 in w.mem.pending.at ==> p.0 !in w.mem.inFlight.at)
  {
    RunKeeps(steps);
  }

  // With nothing under way, the reactions on Feishu are the pending ones and those lost.
  lemma {:induction false} LiveAtRest(steps: seq<Step>, p: Reaction)
    requires Run(steps).adds == map[] && Run(steps).clears == map[]
    ensures var w := Run(steps); p in w.live <==> IsPending(w, p) || p in w.stranded
    ensures var w := Run(steps); !(IsPending(w, p) && p in w.stranded)
  {
    RunKeeps(steps);
  }

  // ----- without a fault -----

  // A reaction is added whose id never comes back, or a removal is refused while
  // the reaction is there. A refusal of what is gone already is none.
  predicate Fault(w: World, step: Step) {
    match step
    case AddDone(m, r, told) => !told && m in w.adds && w.adds[m].Calling? && r != "" && r !in w.used
    case AddRemovalDone(m, ok) => !ok && m in w.adds && w.adds[m].Removing? && (m, w.adds[m].reactionId) in w.live
    case ClearRemovalDone(task, ok) =>
      !ok && task in w.clears && !w.clears[task].done && w.clears[task].current in w.live
    case _ => false
  }

  ghost predicate Faultless(steps: seq<Step>) {
    steps != [] ==> Faultless(steps[..|steps| - 1]) && !Fault(Run(steps[..|steps| - 1]), steps[|steps| - 1])
  }

  // Nothing is lost; an entry that a clear still has before it is pending with that
  // very reaction, or has been cleared; and what has been cleared stays off.
  ghost predicate RestsKnown(w: World) {
    forall t, p :: t in w.clears && p in w.clears[t].rest ==> p.0 in w.mem.tombstones || IsPending(w, p)
  }

  ghost predicate ClearedStayOff(w: World) {
    && (forall m :: m in w.mem.tombstones ==> m !in w.mem.pending.at)
    && (forall m :: m in w.mem.tombstones && m in w.mem.inFlight.at ==> w.mem.inFlight.at[m].cleared)
  }

  ghost predicate Orderly(w: World) { w.stranded == {} && RestsKnown(w) && ClearedStayOff(w) }

  lemma RememberKeeps(t: seq<string>, m: string)
    requires !Evicts(t, m)
    ensures forall x :: x in Remember(t, m) <==> x in t || x == m
  {}

  lemma {:induction false} RememberAllKeeps(t: seq<string>, ms: seq<string>)
    requires !EvictsAny(t, ms)
    ensures forall x :: x in RememberAll(t, ms) <==> x in t || x in ms
  {
    hide Evicts, Remember;
    if ms != [] {
      RememberAllKeeps(t, ms[..|ms| - 1]);
      RememberKeeps(RememberAll(t, ms[..|ms| - 1]), ms[|ms| - 1]);
    }
  }

  lemma {:induction false} TurnOrderly(w: World, task: nat, list: seq<Reaction>)
    requires Inv(w) && Orderly(w) && !Turn(w, task, list).evicted
    requires forall p :: p in list ==> p.0 in w.mem.tombstones || IsPending(w, p)
    ensures Orderly(Turn(w, task, list))
  {
    var v := Turn(w, task, list);
    if list != [] { RememberKeeps(w.mem.tombstones, list[0].0); }
    TurnEffect(w, task, list, v);
    assert v.mem.tombstones == if list == [] then w.mem.tombstones else Remember(w.mem.tombstones, list[0].0);
    if list != [] {
      assert list[0] in list;
      assert forall p :: p in list[1..] ==> p in list;
      forall p | IsPending(w, p) && p.0 == list[0].0 ensures p == list[0] {}
    }
    hide Turn, Remember, Evicts, AddOwns;
    forall t, p | t in v.clears && p in v.clears[t].rest ensures p.0 in v.mem.tombstones || IsPending(v, p) {
      if t != task { assert p in w.clears[t].rest; }
    }
  }

  lemma {:induction false} FlaggedOrderly(w: World, chat: string)
    requires Inv(w) && Orderly(w) && !Flagged(w, chat).evicted
    ensures Orderly(Flagged(w, chat))
    ensures forall p :: p in PendingOf(w.mem.pending, chat) ==> IsPending(Flagged(w, chat), p)
  {
    var v := Flagged(w, chat);
    RememberAllKeeps(w.mem.tombstones, AddsOf(w.mem.inFlight, chat));
    assert forall m :: m in v.mem.tombstones <==> m in w.mem.tombstones || m in AddsOf(w.mem.inFlight, chat);
    forall p ensures IsPending(v, p) == IsPending(w, p) {}
    hide RememberAll, EvictsAny, IsPending;
    forall m | m in AddsOf(w.mem.inFlight, chat) ensures m in w.mem.inFlight.at && w.mem.inFlight.at[m].chatId == chat {
      assert InChat(w.mem.inFlight, chat)(m);
    }
  }

  lemma AddResumesStayOff(w: World, m: string, r: string, v: World)
    requires ClearedStayOff(w) && Resumes(w, m, r, v)
    ensures v.mem.tombstones == w.mem.tombstones && ClearedStayOff(v)
  {
    hide Turn, Flagged, RemoteRemoval, StartMark, FinishRemove, Marks;
    var result := w.adds[m].result;
    if MustRemove(w.mem, m, result) {
      assert v.mem == w.mem;
      hide Next, FinishAdd;
    } else {
      assert v.mem.inFlight.at == w.mem.inFlight.at - {m} && v.mem.tombstones == w.mem.tombstones;
      assert forall n :: n in v.mem.pending.at ==> n in w.mem.pending.at || n == m;
      assert m in v.mem.pending.at ==> !w.mem.inFlight.at[m].cleared;
      hide Next, FinishAdd, MustRemove;
    }
  }

  lemma {:induction false} AddResumesOrderly(w: World, m: string)
    requires Inv(w) && Orderly(w)
    ensures Orderly(Next(w, AddResumes(m)))
  {
    hide Turn, Flagged, RemoteRemoval, StartMark, FinishAdd, FinishRemove, Marks, MustRemove;
    hide Accounted, Recorded, ListsKnown, IdsUsed, ClearedStayOff, IsPending;
    var v := Next(w, AddResumes(m));
    if v != w {
      var r := if w.adds[m].result.Replied? then w.adds[m].result.reactionId else "";
      assert Resumes(w, m, r, v);
      hide Next, Resumes;
      AddResumesEffect(w, m, r, v);
      AddResumesStayOff(w, m, r, v);
      forall t, p | t in v.clears && p in v.clears[t].rest ensures p.0 in v.mem.tombstones || IsPending(v, p) {
        AddResumesHandsOn(w, m, r, v, p);
      }
    }
  }

  // A removal takes no reaction out of the memory, and adds none.
  lemma RemovalEffect(w: World, step: Step, v: World)
    requires v == Next(w, step)
    requires step.AddRemovalDone? || step.AddRemovalResumes? || step.ClearRemovalDone?
    ensures v.mem.tombstones == w.mem.tombstones && v.mem.pending == w.mem.pending
    ensures forall m :: m in v.mem.inFlight.at ==> m in w.mem.inFlight.at && v.mem.inFlight.at[m] == w.mem.inFlight.at[m]
    ensures v.clears.Keys == w.clears.Keys && forall t :: t in w.clears ==> v.clears[t].rest == w.clears[t].rest
  {
    hide Turn, Flagged, StartMark, FinishAdd, Marks, MustRemove;
  }

  lemma FaultlessRemoval(w: World, step: Step)
    requires step.AddRemovalDone? || step.AddRemovalResumes? || step.ClearRemovalDone?
    requires w.stranded == {} && !Fault(w, step)
    ensures Next(w, step).stranded == {}
  {
    hide Turn, Flagged, StartMark, FinishAdd, FinishRemove, Marks, MustRemove;
  }

  lemma {:induction false} RemovalOrderly(w: World, step: Step)
    requires Orderly(w) && !Fault(w, step)
    requires step.AddRemovalDone? || step.AddRemovalResumes? || step.ClearRemovalDone?
    ensures Orderly(Next(w, step))
  {
    hide Next, Fault;
    var v := Next(w, step);
    RemovalEffect(w, step, v);
    FaultlessRemoval(w, step);
    forall t, p | t in v.clears && p in v.clears[t].rest ensures p.0 in v.mem.tombstones || IsPending(v, p) {
      assert p in w.clears[t].rest;
    }
  }

  lemma {:induction false} AddOrderly(w: World, step: Step)
    requires Orderly(w) && !Fault(w, step) && (step.Deliver? || step.AddFails? || step.AddDone?)
    ensures Orderly(Next(w, step))
  {
    hide Turn, Flagged, RemoteRemoval, FinishAdd, FinishRemove, MustRemove;
    var v := Next(w, step);
    forall p ensures IsPending(v, p) == IsPending(w, p) {}
    assert v.mem.tombstones == w.mem.tombstones && v.mem.pending == w.mem.pending && v.clears == w.clears;
    hide IsPending;
  }

  lemma {:induction false} NextOrderly(w: World, step: Step)
    requires Inv(w) && Orderly(w) && !Fault(w, step) && !Next(w, step).evicted
    ensures Orderly(Next(w, step))
  {
    match step
    case Reply(task, chat) =>
      if task !in w.clears {
        FlaggedKeeps(w, chat);
        var list := PendingOf(w.mem.pending, chat);
        assert !Flagged(w, chat).evicted;
        FlaggedOrderly(w, chat);
        hide Inv, Orderly, Flagged, PendingOf, IsPending, Turn;
        TurnOrderly(Flagged(w, chat), task, list);
      }
    case ClearResumes(task) =>
      if task in w.clears && w.clears[task].done {
        hide Turn, Inv;
        TurnOrderly(w, task, w.clears[task].rest);
      }
    case AddResumes(m) => AddResumesOrderly(w, m);
    case Deliver(_, _, _) => AddOrderly(w, step);
    case AddFails(_) => AddOrderly(w, step);
    case AddDone(_, _, _) => AddOrderly(w, step);
    case AddRemovalDone(_, _) => RemovalOrderly(w, step);
    case AddRemovalResumes(_) => RemovalOrderly(w, step);
    case ClearRemovalDone(_, _) => RemovalOrderly(w, step);
  }

  lemma NextEvicted(w: World, step: Step)
    ensures w.evicted ==> Next(w, step).evicted
  {
    hide StartClear, ClearOne, StartMark, FinishAdd, FinishRemove, EvictsAny, Evicts;
  }

  lemma {:induction false} RunOrderly(steps: seq<Step>)
    requires Faultless(steps) && !Run(steps).evicted
    ensures Orderly(Run(steps))
  {
    if steps != [] {
      var p := steps[..|steps| - 1];
      NextEvicted(Run(p), steps[|steps| - 1]);
      RunOrderly(p);
      RunKeeps(p);
      hide Orderly, Inv, Next, Fault;
      NextOrderly(Run(p), steps[|steps| - 1]);
    }
  }

  // When ids come back, no removal is refused while its reaction is there, and no tombstone is dropped, no reaction is
  // lost in any interleaving: with nothing under way the reactions on Feishu are
  // exactly the pending ones, and a message that was answered carries none.
  lemma {:induction false} NoReactionIsStranded(steps: seq<Step>, p: Reaction)
    requires Faultless(steps) && !Run(steps).evicted
    requires Run(steps).adds == map[] && Run(steps).clears == map[]
    ensures var w := Run(steps); p in w.live <==> IsPending(w, p)
    ensures var w := Run(steps); p.0 in w.mem.tombstones ==> p !in w.live
  {
    RunKeeps(steps);
    RunOrderly(steps);
  }

  // ----- what a message and a reply bring about -----

  lemma RunSnoc(steps: seq<Step>, s: Step)
    ensures Run(steps + [s]) == Next(Run(steps), s)
  {
    hide Next;
    assert (steps + [s])[..|steps|] == steps;
  }

  lemma MarkStarts(w: World, m: string, chat: string)
    requires Marks(w.mem, "message", m, chat)
    ensures var v := Next(w, Deliver("message", m, chat));
      && v.adds == w.adds[m := Calling] && v.used == w.used
      && m in v.mem.inFlight.at && v.mem.inFlight.at[m] == Add(chat, false)
  {
    hide Marks;
  }

  lemma AddComesBack(w: World, m: string, r: string)
    requires m in w.adds && w.adds[m].Calling? && r != "" && r !in w.used
    ensures var v := Next(w, AddDone(m, r, true));
      v.adds == w.adds[m := Answered(Replied(r))] && v.mem == w.mem && (m, r) in v.live
  {}

  lemma AddIsRecorded(w: World, m: string, r: string)
    requires m in w.adds && w.adds[m] == Answered(Replied(r)) && r != ""
    requires m in w.mem.inFlight.at && !w.mem.inFlight.at[m].cleared
    ensures var v := Next(w, AddResumes(m));
      v.live == w.live && m in v.mem.pending.at && v.mem.pending.at[m] == Mark(w.mem.inFlight.at[m].chatId, r)
  {}

  // In every reachable state: a message that is not known yet gets its reaction,
  // which is on Feishu and pending once the add has come back.
  lemma {:induction false} MessageGetsItsReaction(steps: seq<Step>, m: string, chat: string, r: string)
    requires m != "" && chat != "" && r != "" && r !in Run(steps).used
    requires var mem := Run(steps).mem; m !in mem.pending.at && m !in mem.inFlight.at && m !in mem.tombstones
    ensures var w := Run(steps + [Deliver("message", m, chat)] + [AddDone(m, r, true)] + [AddResumes(m)]);
      && (m, r) in w.live && m in w.mem.pending.at && w.mem.pending.at[m] == Mark(chat, r)
  {
    hide Run, Next;
    RunSnoc(steps, Deliver("message", m, chat));
    RunSnoc(steps + [Deliver("message", m, chat)], AddDone(m, r, true));
    RunSnoc(steps + [Deliver("message", m, chat)] + [AddDone(m, r, true)], AddResumes(m));
    var w := Run(steps);
    MarkStarts(w, m, chat);
    var w1 := Next(w, Deliver("message", m, chat));
    AddComesBack(w1, m, r);
    AddIsRecorded(Next(w1, AddDone(m, r, true)), m, r);
  }

  // The clear has the reaction before it, or has asked for its removal and waits.
  predicate Ahead(w: World, task: nat, p: Reaction) {
    task in w.clears && (p in w.clears[task].rest || (p == w.clears[task].current && !w.clears[task].done))
  }

  // It is on its way off, or off already and its id used up.
  predicate TakenOff(w: World, task: nat, p: Reaction) { p.1 in w.used && (Ahead(w, task, p) || p !in w.live) }

  // A removal of the clear is refused while the reaction is there.
  predicate Refuses(w: World, s: Step, task: nat) { s.ClearRemovalDone? && s.task == task && Fault(w, s) }

  // All removals of the clear are carried out.
  predicate CarriedOut(before: seq<Step>, task: nat, more: seq<Step>) {
    more != [] ==>
      && CarriedOut(before, task, more[..|more| - 1])
      && !Refuses(Run(before + more[..|more| - 1]), more[|more| - 1], task)
  }

  lemma NothingReturns(w: World, s: Step, p: Reaction)
    requires p.1 in w.used && p !in w.live
    ensures p.1 in Next(w, s).used && p !in Next(w, s).live
  {
    hide StartClear, ClearOne, StartMark, FinishAdd, FinishRemove, EvictsAny, Evicts, PendingOf, MustRemove, Marks;
  }

  lemma UsedStays(w: World, s: Step)
    ensures w.used <= Next(w, s).used
  {
    hide StartClear, ClearOne, StartMark, FinishAdd, FinishRemove, EvictsAny, Evicts, PendingOf, MustRemove, Marks;
  }

  lemma ClearGoesOn(w: World, s: Step, task: nat, p: Reaction)
    requires Ahead(w, task, p) && !Refuses(w, s, task)
    ensures Ahead(Next(w, s), task, p) || p !in Next(w, s).live
  {
    hide StartClear, ClearOne, StartMark, FinishAdd, FinishRemove, EvictsAny, Evicts, PendingOf, MustRemove, Marks;
    if s.ClearResumes? && s.task == task && w.clears[task].done {
      var list := w.clears[task].rest;
      assert p in list && (p == list[0] || p in list[1..]);
    }
  }

  lemma {:induction false} TakenOffStays(w: World, s: Step, task: nat, p: Reaction)
    requires TakenOff(w, task, p) && !Refuses(w, s, task)
    ensures TakenOff(Next(w, s), task, p)
  {
    hide Next, Refuses, Ahead;
    UsedStays(w, s);
    if p !in w.live { NothingReturns(w, s, p); } else { ClearGoesOn(w, s, task, p); }
  }

  lemma {:induction false} RunTakesOff(before: seq<Step>, task: nat, more: seq<Step>, p: Reaction)
    requires TakenOff(Run(before), task, p) && CarriedOut(before, task, more)
    ensures TakenOff(Run(before + more), task, p)
  {
    hide Run, Next, TakenOff, Refuses;
    if more == [] {
      assert before + more == before;
    } else {
      var q, s := more[..|more| - 1], more[|more| - 1];
      RunTakesOff(before, task, q, p);
      SplitLast(before, more);
      RunSnoc(before + q, s);
      TakenOffStays(Run(before + q), s, task, p);
    }
  }

  lemma ReplyTurns(w: World, task: nat, chat: string)
    requires task !in w.clears
    ensures Next(w, Reply(task, chat)) == Turn(Flagged(w, chat), task, PendingOf(w.mem.pending, chat))
  {
    hide Turn, Flagged, PendingOf;
  }

  lemma TurnsTo(w: World, task: nat, list: seq<Reaction>, p: Reaction)
    requires p in list
    ensures Ahead(Turn(w, task, list), task, p) && Turn(w, task, list).used == w.used
  {
    hide ClearOne, Evicts;
    assert p == list[0] || p in list[1..];
  }

  lemma FlaggedUses(w: World, chat: string)
    ensures Flagged(w, chat).used == w.used
  {
    hide StartClear, EvictsAny;
  }

  lemma PendingIsUsed(w: World, p: Reaction)
    requires Inv(w) && IsPending(w, p)
    ensures p.1 in w.used
  {
    hide IsPending, Accounted, ListsKnown;
  }

  lemma {:induction false} ReplyStarts(w: World, task: nat, chat: string, p: Reaction)
    requires Inv(w) && task !in w.clears && p.0 in w.mem.pending.at && w.mem.pending.at[p.0] == Mark(chat, p.1)
    ensures TakenOff(Next(w, Reply(task, chat)), task, p)
  {
    PendingIsUsed(w, p);
    hide Next, Turn, Flagged, PendingOf, Inv, Ahead;
    PendingOfMeaning(w.mem.pending, chat);
    assert (p.0, p.1) == p;
    ReplyTurns(w, task, chat);
    FlaggedUses(w, chat);
    TurnsTo(Flagged(w, chat), task, PendingOf(w.mem.pending, chat), p);
  }

  // A reply takes off every reaction that was pending in its chat: once its clear
  // has ended, with its removals carried out, the reaction is neither on Feishu nor
  // pending, whatever happened meanwhile.
  lemma {:induction false} ReplyTakesOff(steps: seq<Step>, task: nat, chat: string, more: seq<Step>, m: string, r: string)
    requires task !in Run(steps).clears
    requires m in Run(steps).mem.pending.at && Run(steps).mem.pending.at[m] == Mark(chat, r)
    requires CarriedOut(steps + [Reply(task, chat)], task, more)
    requires task !in Run(steps + [Reply(task, chat)] + more).clears
    ensures var w := Run(steps + [Reply(task, chat)] + more); (m, r) !in w.live && !IsPending(w, (m, r))
  {
    hide Run, Next, CarriedOut;
    RunKeeps(steps);
    RunSnoc(steps, Reply(task, chat));
    ReplyStarts(Run(steps), task, chat, (m, r));
    RunTakesOff(steps + [Reply(task, chat)], task, more, (m, r));
    RunKeeps(steps + [Reply(task, chat)] + more);
    hide Accounted, ListsKnown, IdsUsed, Apart;
  }

  // The message has been cleared, or is still before the clear.
  ghost predicate ToBeCleared(w: World, task: nat, m: string) {
    m in w.mem.tombstones || (task in w.clears && exists r :: (m, r) in w.clears[task].rest)
  }

  lemma TurnRemembers(w: World, task: nat, list: seq<Reaction>, m: string)
    requires !Turn(w, task, list).evicted
    ensures m in w.mem.tombstones ==> m in Turn(w, task, list).mem.tombstones
    ensures list != [] && m == list[0].0 ==> m in Turn(w, task, list).mem.tombstones
  {
    if list != [] { RememberKeeps(w.mem.tombstones, list[0].0); }
    hide Remember, Evicts;
  }

  lemma FlaggedRemembers(w: World, chat: string, m: string)
    requires !Flagged(w, chat).evicted
    ensures m in w.mem.tombstones ==> m in Flagged(w, chat).mem.tombstones
    ensures m in w.mem.inFlight.at && w.mem.inFlight.at[m].chatId == chat ==> m in Flagged(w, chat).mem.tombstones
  {
    RememberAllKeeps(w.mem.tombstones, AddsOf(w.mem.inFlight, chat));
    assert m in w.mem.inFlight.at ==> m in w.mem.inFlight.keys;
    hide RememberAll, EvictsAny, Filter;
  }

  lemma {:induction false} StepRemembers(w: World, s: Step, m: string)
    requires !Next(w, s).evicted && m in w.mem.tombstones
    ensures m in Next(w, s).mem.tombstones
  {
    hide Turn, Flagged, PendingOf, StartMark, FinishAdd, FinishRemove, MustRemove, Marks;
    match s
    case Reply(task, chat) =>
      if task !in w.clears {
        var list := PendingOf(w.mem.pending, chat);
        TurnEvicted(Flagged(w, chat), task, list);
        FlaggedRemembers(w, chat, m);
        TurnRemembers(Flagged(w, chat), task, list, m);
      }
    case ClearResumes(task) =>
      if task in w.clears && w.clears[task].done { TurnRemembers(w, task, w.clears[task].rest, m); }
    case AddResumes(k) => if k in w.mem.inFlight.at { AddKeepsTombstones(w, k); }
    case Deliver(_, k, chat) => DeliverKeepsTombstones(w.mem, k, chat);
    case AddRemovalResumes(k) => RemoveKeepsTombstones(w.mem, k);
    case _ =>
  }

  lemma TurnEvicted(w: World, task: nat, list: seq<Reaction>)
    ensures w.evicted ==> Turn(w, task, list).evicted
  {
    hide ClearOne, Evicts;
  }

  lemma AddKeepsTombstones(w: World, m: string)
    requires m in w.mem.inFlight.at
    ensures forall result :: FinishAdd(w.mem, m, result).tombstones == w.mem.tombstones
  {}

  lemma DeliverKeepsTombstones(mem: Memory, m: string, chat: string)
    ensures StartMark(mem, m, chat).tombstones == mem.tombstones
  {}

  lemma RemoveKeepsTombstones(mem: Memory, m: string)
    ensures FinishRemove(mem, m).tombstones == mem.tombstones
  {}

  lemma OthersLeaveTheRest(w: World, s: Step, task: nat)
    requires task in w.clears && !(s.ClearResumes? && s.task == task && w.clears[task].done)
    ensures task in Next(w, s).clears && Next(w, s).clears[task].rest == w.clears[task].rest
  {
    hide StartClear, ClearOne, StartMark, FinishAdd, FinishRemove, EvictsAny, Evicts, PendingOf, MustRemove, Marks;
  }

  lemma ResumesTurns(w: World, task: nat)
    requires task in w.clears && w.clears[task].done
    ensures Next(w, ClearResumes(task)) == Turn(w, task, w.clears[task].rest)
  {
    hide Turn;
  }

  lemma {:induction false} ClearingGoesOn(w: World, s: Step, task: nat, m: string, r: string)
    requires task in w.clears && (m, r) in w.clears[task].rest && !Next(w, s).evicted
    ensures ToBeCleared(Next(w, s), task, m)
  {
    hide Next, Turn;
    if s.ClearResumes? && s.task == task && w.clears[task].done {
      ResumesTurns(w, task);
      TurnClears(w, task, w.clears[task].rest, m, r);
    } else {
      OthersLeaveTheRest(w, s, task);
    }
  }

  lemma {:induction false} ToBeClearedStays(w: World, s: Step, task: nat, m: string)
    requires ToBeCleared(w, task, m) && !Next(w, s).evicted
    ensures ToBeCleared(Next(w, s), task, m)
  {
    hide Next;
    if m in w.mem.tombstones {
      StepRemembers(w, s, m);
    } else {
      var r :| (m, r) in w.clears[task].rest;
      ClearingGoesOn(w, s, task, m, r);
    }
  }

  lemma {:induction false} RunClears(before: seq<Step>, task: nat, more: seq<Step>, m: string)
    requires ToBeCleared(Run(before), task, m) && !Run(before + more).evicted
    ensures ToBeCleared(Run(before + more), task, m)
  {
    hide Run, Next, ToBeCleared;
    if more == [] {
      assert before + more == before;
    } else {
      var q, s := more[..|more| - 1], more[|more| - 1];
      SplitLast(before, more);
      RunSnoc(before + q, s);
      NextEvicted(Run(before + q), s);
      RunClears(before, task, q, m);
      ToBeClearedStays(Run(before + q), s, task, m);
    }
  }

  // The chat knows the message: its reaction is pending, or is being added.
  predicate InChatNow(w: World, chat: string, m: string) {
    || (m in w.mem.pending.at && w.mem.pending.at[m].chatId == chat)
    || (m in w.mem.inFlight.at && w.mem.inFlight.at[m].chatId == chat)
  }

  lemma TurnClears(w: World, task: nat, list: seq<Reaction>, m: string, r: string)
    requires (m, r) in list && !Turn(w, task, list).evicted
    ensures ToBeCleared(Turn(w, task, list), task, m)
  {
    hide Turn;
    TurnRemembers(w, task, list, m);
    if m != list[0].0 { TurnRest(w, task, list); }
  }

  lemma TurnRest(w: World, task: nat, list: seq<Reaction>)
    requires list != []
    ensures var v := Turn(w, task, list); task in v.clears && v.clears[task].rest == list[1..]
  {
    hide ClearOne, Evicts;
  }

  lemma {:induction false} ReplyClears(w: World, task: nat, chat: string, m: string)
    requires task !in w.clears && InChatNow(w, chat, m) && !Next(w, Reply(task, chat)).evicted
    ensures ToBeCleared(Next(w, Reply(task, chat)), task, m)
  {
    hide Next, Turn, Flagged, PendingOf;
    var list := PendingOf(w.mem.pending, chat);
    var v := Flagged(w, chat);
    ReplyTurns(w, task, chat);
    TurnEvicted(v, task, list);
    FlaggedRemembers(w, chat, m);
    TurnRemembers(v, task, list, m);
    if m in w.mem.pending.at && w.mem.pending.at[m].chatId == chat {
      PendingOfMeaning(w.mem.pending, chat);
      TurnClears(v, task, list, m, w.mem.pending.at[m].reactionId);
    }
  }

  lemma {:induction false} EvictedLater(steps: seq<Step>, more: seq<Step>)
    requires Run(steps).evicted
    ensures Run(steps + more).evicted
  {
    hide Run, Next;
    if more == [] {
      assert steps + more == steps;
    } else {
      var q, s := more[..|more| - 1], more[|more| - 1];
      SplitLast(steps, more);
      RunSnoc(steps + q, s);
      EvictedLater(steps, q);
      NextEvicted(Run(steps + q), s);
    }
  }

  // An answered message carries no reaction in the end: whatever was pending in the
  // chat at the reply, or being added just then, is gone once nothing is under way,
  // as long as ids come back, removals are carried out and no tombstone was dropped.
  lemma {:induction false} AnsweredCarriesNone(steps: seq<Step>, task: nat, chat: string, more: seq<Step>, m: string)
    requires task !in Run(steps).clears && InChatNow(Run(steps), chat, m)
    requires var all := steps + [Reply(task, chat)] + more;
      Faultless(all) && !Run(all).evicted && Run(all).adds == map[] && Run(all).clears == map[]
    ensures forall r :: (m, r) !in Run(steps + [Reply(task, chat)] + more).live
  {
    hide Run, Next, Faultless, InChatNow;
    var before := steps + [Reply(task, chat)];
    RunSnoc(steps, Reply(task, chat));
    if Run(before).evicted { EvictedLater(before, more); }
    ReplyClears(Run(steps), task, chat, m);
    RunClears(before, task, more, m);
    forall r ensures (m, r) !in Run(before + more).live { NoReactionIsStranded(before + more, (m, r)); }
  }

  // ----- the tombstones are a bounded memory of the messages cleared -----

  // The distinct messages of a history, in the order of their last occurrence.
  function ByRecency(history: seq<string>): seq<string> {
    if history == [] then []
    else Without(ByRecency(history[..|history| - 1]), history[|history| - 1]) + [history[|history| - 1]]
  }

  lemma NoDupSnoc<T>(s: seq<T>, x: T)
    requires NoDup(s) && x !in s
    ensures NoDup(s + [x])
  {}

  lemma {:induction false} ByRecencyNoDup(history: seq<string>)
    ensures NoDup(ByRecency(history))
    ensures forall m :: m in ByRecency(history) <==> m in history
  {
    if history != [] {
      hide Without, NoDup;
      var before, m := history[..|history| - 1], history[|history| - 1];
      ByRecencyNoDup(before);
      WithoutNoDup(ByRecency(before), m);
      NoDupSnoc(Without(ByRecency(before), m), m);
      assert history == before + [m];
    } else {
      assert NoDup<string>([]);
    }
  }

  lemma {:induction false} RememberLast(all: seq<string>, m: string)
    requires NoDup(all)
    ensures Remember(LastN(all, CLEARED_TOMBSTONE_CAP), m) == LastN(Without(all, m) + [m], CLEARED_TOMBSTONE_CAP)
  {
    var k := |all| - CLEARED_TOMBSTONE_CAP;
    if k <= 0 {
      RememberLastSmall(all, m);
    } else {
      hide Remember, LastN, NoDup, Without;
      assert all == all[..k] + all[k..];
      assert LastN(all, CLEARED_TOMBSTONE_CAP) == all[k..] by { LastNDrop(all, CLEARED_TOMBSTONE_CAP); }
      RememberLastBig(all[..k], all[k..], m);
    }
  }

  lemma LastNDrop<T>(s: seq<T>, n: nat)
    requires |s| > n
    ensures LastN(s, n) == s[|s| - n..]
  {}

  lemma {:induction false} RememberLastBig(older: seq<string>, recent: seq<string>, m: string)
    requires |recent| == CLEARED_TOMBSTONE_CAP && NoDup(older + recent)
    ensures Remember(recent, m) == LastN(Without(older + recent, m) + [m], CLEARED_TOMBSTONE_CAP)
  {
    WithoutAppend(older, recent, m);
    if m in recent {
      NoDupSplit(older, recent, m);
      hide NoDup, Remember, LastN;
      WithoutNoDup(recent, m);
      RememberLastKnown(older, recent, m);
    } else {
      hide NoDup, Remember, LastN;
      RememberLastNew(older, recent, m);
    }
  }

  lemma NoDupSplit<T>(a: seq<T>, b: seq<T>, x: T)
    requires NoDup(a + b) && x in b
    ensures x !in a && NoDup(b)
  {
    var j :| 0 <= j < |b| && b[j] == x;
    assert (a + b)[|a| + j] == x;
    forall i | 0 <= i < |a| ensures a[i] != x { assert (a + b)[i] == a[i]; }
    forall i, k | 0 <= i < k < |b| ensures b[i] != b[k] {
      assert (a + b)[|a| + i] == b[i] && (a + b)[|a| + k] == b[k];
    }
  }

  lemma {:induction false} RememberLastSmall(all: seq<string>, m: string)
    requires |all| <= CLEARED_TOMBSTONE_CAP
    ensures Remember(all, m) == LastN(Without(all, m) + [m], CLEARED_TOMBSTONE_CAP)
  {}

  lemma {:induction false} RememberLastKnown(older: seq<string>, recent: seq<string>, m: string)
    requires |recent| == CLEARED_TOMBSTONE_CAP && |Without(recent, m)| == |recent| - 1 && m !in older
    ensures Remember(recent, m) == LastN(Without(older, m) + Without(recent, m) + [m], CLEARED_TOMBSTONE_CAP)
  {
    assert Without(older, m) + Without(recent, m) + [m] == older + (Without(recent, m) + [m]);
  }

  lemma {:induction false} RememberLastNew(older: seq<string>, recent: seq<string>, m: string)
    requires |recent| == CLEARED_TOMBSTONE_CAP && m !in recent
    ensures Remember(recent, m) == LastN(Without(older, m) + Without(recent, m) + [m], CLEARED_TOMBSTONE_CAP)
  {
    assert Without(older, m) + Without(recent, m) + [m] == (Without(older, m) + [recent[0]]) + (recent[1..] + [m]);
  }

  // Remembering a history of messages keeps the most recent distinct ones of it.
  lemma {:induction false} RememberedAreMostRecent(history: seq<string>)
    ensures RememberAll([], history) == LastN(ByRecency(history), CLEARED_TOMBSTONE_CAP)
  {
    if history != [] {
      var before := history[..|history| - 1];
      RememberedAreMostRecent(before);
      ByRecencyNoDup(before);
      RememberLast(ByRecency(before), history[|history| - 1]);
    }
  }

  lemma {:induction false} RememberAllAppend(t: seq<string>, a: seq<string>, b: seq<string>)
    ensures RememberAll(t, a + b) == RememberAll(RememberAll(t, a), b)
  {
    hide Remember;
    if b == [] {
      assert a + b == a;
    } else {
      assert (a + b)[..|a + b| - 1] == a + b[..|b| - 1];
      RememberAllAppend(t, a, b[..|b| - 1]);
    }
  }

  ghost predicate TombstonesTell(w: World) { w.mem.tombstones == RememberAll([], w.cleared) }

  lemma {:induction false} TurnTells(w: World, task: nat, list: seq<Reaction>)
    requires TombstonesTell(w)
    ensures TombstonesTell(Turn(w, task, list))
  {
    if list != [] { RememberAllSnoc([], w.cleared, list[0].0); }
    hide Remember, RememberAll, Evicts;
  }

  lemma {:induction false} FlaggedTells(w: World, chat: string)
    requires TombstonesTell(w)
    ensures TombstonesTell(Flagged(w, chat))
  {
    RememberAllAppend([], w.cleared, AddsOf(w.mem.inFlight, chat));
    hide RememberAll, EvictsAny, Flag, AddsOf;
  }

  lemma {:induction false} NextTells(w: World, step: Step)
    requires TombstonesTell(w)
    ensures TombstonesTell(Next(w, step))
  {
    hide Turn, Flagged, RememberAll, PendingOf;
    match step
    case Reply(task, chat) =>
      FlaggedTells(w, chat);
      TurnTells(Flagged(w, chat), task, PendingOf(w.mem.pending, chat));
    case ClearResumes(task) =>
      if task in w.clears { TurnTells(w, task, w.clears[task].rest); }
    case _ =>
  }

  // In every run the tombstones are the most recently cleared distinct messages,
  // at most the cap of them, the latest last.
  lemma {:induction false} TombstonesAreMostRecent(steps: seq<Step>)
    ensures Run(steps).mem.tombstones == LastN(ByRecency(Run(steps).cleared), 1024)
  {
    RunTells(steps);
    RememberedAreMostRecent(Run(steps).cleared);
    hide Run, RememberAll, ByRecency;
  }

  lemma {:induction false} RunTells(steps: seq<Step>)
    ensures TombstonesTell(Run(steps))
  {
    hide TombstonesTell, Next;
    if steps == [] {
      StartTells();
    } else {
      RunTells(steps[..|steps| - 1]);
      NextTells(Run(steps[..|steps| - 1]), steps[|steps| - 1]);
    }
  }

  lemma StartTells()
    ensures TombstonesTell(START)
  {}
}
