// The session history index: an append-only log of events, folded into one record
// for each session, where an event without an id is attributed to the session of
// its engine, name and directory as soon as that session's id is known.

module HistoryIndex {
  import opened Prelude
  import opened OrderedMaps
  import opened Engines

  datatype CloseStatus = Merged | Done | Shelved | Abandoned | Blocked

  // The fields an event carries, and a record accumulates. `None` is null.
  datatype Record = Record(
    id: Option<string>, engine: Option<Engine>, name: Option<string>, repo: Option<string>, cwd: Option<string>,
    worktreeSlug: Option<string>, branch: Option<string>, baseRef: Option<string>, createdAt: Option<string>,
    intent: Option<string>, closeStatus: Option<CloseStatus>, closeNotePreview: Option<string>)

  type Event = Record

  const BLANK := Record(None, None, None, None, None, None, None, None, None, None, None, None)

  // ----- the fold -----

  function MergeRecord(base: Record, e: Event): Record {
    Record(e.id.OrElse(base.id), e.engine.OrElse(base.engine), e.name.OrElse(base.name), e.repo.OrElse(base.repo),
           e.cwd.OrElse(base.cwd), e.worktreeSlug.OrElse(base.worktreeSlug), e.branch.OrElse(base.branch),
           e.baseRef.OrElse(base.baseRef), base.createdAt.OrElse(e.createdAt), e.intent.OrElse(base.intent),
           e.closeStatus.OrElse(base.closeStatus), e.closeNotePreview.OrElse(base.closeNotePreview))
  }

  function MergeRecordFields(base: Record, extra: Record): Record {
    Record(base.id.OrElse(extra.id), base.engine.OrElse(extra.engine), base.name.OrElse(extra.name),
           base.repo.OrElse(extra.repo), base.cwd.OrElse(extra.cwd), base.worktreeSlug.OrElse(extra.worktreeSlug),
           base.branch.OrElse(extra.branch), base.baseRef.OrElse(extra.baseRef),
           base.createdAt.OrElse(extra.createdAt), base.intent.OrElse(extra.intent),
           extra.closeStatus.OrElse(base.closeStatus), extra.closeNotePreview.OrElse(base.closeNotePreview))
  }

  function AttributionKey(e: Event): Option<string> {
    if e.engine.None? || e.name.None? then None
    else
      var cwd := e.cwd.OrElse(e.repo);
      if cwd.None? then None else Some(EngineText(e.engine.value) + ":" + e.name.value + ":" + cwd.value)
  }

  function IdKey(id: string): string { "id:" + id }

  function OpenKey(e: Event): string {
    var engine := if e.engine.Some? then EngineText(e.engine.value) else "unknown";
    var cwd := e.cwd.OrElse(e.repo).GetOr("unknown");
    "open:" + (engine + ":" + e.name.GetOr("unknown") + ":" + cwd)
  }

  function EventKey(e: Event): string {
    if e.id.Some? then IdKey(e.id.value) else OpenKey(e)
  }

  type Records = OrderedMap<string, Record>

  datatype Index = Index(records: Records, attributed: map<string, string>)

  // The record an event is merged into.
  function Target(attributed: map<string, string>, e: Event): string {
    var attr := AttributionKey(e);
    if e.id.None? && attr.Some? && attr.value in attributed then attributed[attr.value] else EventKey(e)
  }

  // Whether the event brings the id for an open record.
  predicate Absorbs(records: Records, e: Event) {
    e.id.Some? && AttributionKey(e).Some? && OpenKey(e) in records.at
  }

  function Absorb(records: Records, key: string, openKey: string): (r: Records)
    requires openKey in records.at
    ensures r.at ==
      records.at[key := MergeRecordFields(Find(records, key).GetOr(BLANK), records.at[openKey])] - {openKey}
  {
    Delete(Set(records, key, MergeRecordFields(Find(records, key).GetOr(BLANK), records.at[openKey])), openKey)
  }

  function Apply(ix: Index, e: Event): Index {
    var key := Target(ix.attributed, e);
    var attr := AttributionKey(e);
    var records := if Absorbs(ix.records, e) then Absorb(ix.records, key, OpenKey(e)) else ix.records;
    Index(Set(records, key, MergeRecord(Find(records, key).GetOr(BLANK), e)),
          if e.id.Some? && attr.Some? then ix.attributed[attr.value := key] else ix.attributed)
  }

  function Fold(events: seq<Event>): Index {
    if events == [] then Index(Empty(), map[]) else Apply(Fold(events[..|events| - 1]), events[|events| - 1])
  }

  lemma FoldNothing()
    ensures Fold([]) == Index(Empty(), map[])
  {}

  lemma FoldTake(events: seq<Event>, i: nat)
    requires i < |events|
    ensures Fold(events[..i + 1]) == Apply(Fold(events[..i]), events[i])
  {
    assert events[..i + 1][..i] == events[..i];
  }

  lemma OpenKeyWithoutId(e: Event)
    ensures EventKey(e.(id := None)) == OpenKey(e)
  {}

  method ListHistoryIndexRecords(events: seq<Event>) returns (r: seq<Record>)
    ensures r == Values(Fold(events).records)
  {
    hide MergeRecord, MergeRecordFields, IdKey, OpenKey, AttributionKey, Fold;
    FoldNothing();
    assert events[..0] == [];
    var records: Records := Empty();
    var attributed: map<string, string> := map[];
    for i := 0 to |events|
      invariant Fold(events[..i]) == Index(records, attributed)
    {
      var e := events[i];
      FoldTake(events, i);
      OpenKeyWithoutId(e);
      var attr := AttributionKey(e);
      var key := EventKey(e);
      if e.id.Some? {
        if attr.Some? {
          var openKey := EventKey(e.(id := None));
          var openRecord := Find(records, openKey);
          if openRecord.Some? {
            records := Set(records, key, MergeRecordFields(Find(records, key).GetOr(BLANK), openRecord.value));
            records := Delete(records, openKey);
          }
          attributed := attributed[attr.value := key];
        }
      } else if attr.Some? {
        key := if attr.value in attributed then attributed[attr.value] else key;
      }
      records := Set(records, key, MergeRecord(Find(records, key).GetOr(BLANK), e));
    }
    assert events[..|events|] == events;
    return Values(records);
  }

  // ----- every event is in exactly one record -----

  // The events of a record. `older` puts the events of an absorbed open record in
  // front, as the older ones; `arrival` puts them behind those the record had.
  datatype Source = Source(older: seq<nat>, arrival: seq<nat>)

  const NO_SOURCE := Source([], [])

  function SourceOf(sources: map<string, Source>, key: string): Source {
    if key in sources then sources[key] else NO_SOURCE
  }

  function ApplySource(sources: map<string, Source>, ix: Index, e: Event, i: nat): map<string, Source> {
    var key := Target(ix.attributed, e);
    var base := SourceOf(sources, key);
    var open := SourceOf(sources, OpenKey(e));
    var moved := if Absorbs(ix.records, e)
                 then sources[key := Source(open.older + base.older, base.arrival + open.arrival)] - {OpenKey(e)}
                 else sources;
    var s := SourceOf(moved, key);
    moved[key := Source(s.older + [i], s.arrival + [i])]
  }

  function Sources(events: seq<Event>): map<string, Source> {
    if events == [] then map[]
    else
      var before := events[..|events| - 1];
      ApplySource(Sources(before), Fold(before), events[|events| - 1], |before|)
  }

  // Field by field, `a ?? b`.
  function Over(a: Record, b: Record): Record {
    Record(a.id.OrElse(b.id), a.engine.OrElse(b.engine), a.name.OrElse(b.name), a.repo.OrElse(b.repo),
           a.cwd.OrElse(b.cwd), a.worktreeSlug.OrElse(b.worktreeSlug), a.branch.OrElse(b.branch),
           a.baseRef.OrElse(b.baseRef), a.createdAt.OrElse(b.createdAt), a.intent.OrElse(b.intent),
           a.closeStatus.OrElse(b.closeStatus), a.closeNotePreview.OrElse(b.closeNotePreview))
  }

  function At(events: seq<Event>, i: nat): Event { if i < |events| then events[i] else BLANK }

  // The newest value of every field in the listed events, and the oldest one.
  function Newest(events: seq<Event>, ids: seq<nat>): Record {
    if ids == [] then BLANK else Over(At(events, ids[|ids| - 1]), Newest(events, ids[..|ids| - 1]))
  }

  function Oldest(events: seq<Event>, ids: seq<nat>): Record {
    if ids == [] then BLANK else Over(Oldest(events, ids[..|ids| - 1]), At(events, ids[|ids| - 1]))
  }

  // What a record's events add up to.
  function Summary(events: seq<Event>, s: Source): Record {
    Newest(events, s.older).(
      createdAt := Oldest(events, s.arrival).createdAt,
      closeStatus := Newest(events, s.arrival).closeStatus,
      closeNotePreview := Newest(events, s.arrival).closeNotePreview)
  }

  lemma OverOver(a: Record, b: Record, c: Record)
    ensures Over(Over(a, b), c) == Over(a, Over(b, c))
  {}

  lemma OverBlank(a: Record)
    ensures Over(a, BLANK) == a && Over(BLANK, a) == a
  {}

  lemma {:induction false} NewestAppend(events: seq<Event>, a: seq<nat>, b: seq<nat>)
    ensures Newest(events, a + b) == Over(Newest(events, b), Newest(events, a))
    ensures Oldest(events, a + b) == Over(Oldest(events, a), Oldest(events, b))
  {
    if b == [] {
      assert a + b == a;
      OverBlank(Newest(events, a));
      OverBlank(Oldest(events, a));
    } else {
      assert (a + b)[..|a + b| - 1] == a + b[..|b| - 1];
      NewestAppend(events, a, b[..|b| - 1]);
      hide Over;
      OverOver(At(events, b[|b| - 1]), Newest(events, b[..|b| - 1]), Newest(events, a));
      OverOver(Oldest(events, a), Oldest(events, b[..|b| - 1]), At(events, b[|b| - 1]));
    }
  }

  lemma {:induction false} NewestMore(events: seq<Event>, e: Event, ids: seq<nat>)
    requires forall i :: i in ids ==> i < |events|
    ensures Newest(events + [e], ids) == Newest(events, ids)
    ensures Oldest(events + [e], ids) == Oldest(events, ids)
  {
    hide Over;
    if ids != [] {
      var p := ids[..|ids| - 1];
      assert ids[|ids| - 1] in ids;
      assert forall i :: i in p ==> i in ids;
      NewestMore(events, e, p);
    }
  }

  lemma {:induction false} SummaryOfEvent(events: seq<Event>, s: Source, i: nat)
    ensures Summary(events, Source(s.older + [i], s.arrival + [i])) == MergeRecord(Summary(events, s), At(events, i))
  {
    assert (s.older + [i])[..|s.older|] == s.older;
    assert (s.arrival + [i])[..|s.arrival|] == s.arrival;
  }

  lemma {:induction false} SummaryOfMove(events: seq<Event>, base: Source, open: Source)
    ensures Summary(events, Source(open.older + base.older, base.arrival + open.arrival)) ==
            MergeRecordFields(Summary(events, base), Summary(events, open))
  {
    NewestAppend(events, open.older, base.older);
    NewestAppend(events, base.arrival, open.arrival);
    hide Newest, Oldest;
  }

  predicate Listed(sources: map<string, Source>, key: string, i: nat) {
    key in sources && i in sources[key].older
  }

  ghost predicate InSome(sources: map<string, Source>, i: nat) { exists k :: Listed(sources, k, i) }

  // Every event index below `n` belongs to exactly one source, once in each list.
  ghost predicate Partition(sources: map<string, Source>, n: nat) {
    && (forall k :: k in sources ==> NoDup(sources[k].older) && NoDup(sources[k].arrival))
    && (forall k, i: nat :: k in sources ==> (i in sources[k].older <==> i in sources[k].arrival))
    && (forall k, i: nat :: Listed(sources, k, i) ==> i < n)
    && (forall i: nat :: i < n ==> InSome(sources, i))
    && (forall k, l, i: nat :: Listed(sources, k, i) && Listed(sources, l, i) ==> k == l)
  }

  ghost predicate Summed(records: Records, sources: map<string, Source>, events: seq<Event>) {
    && sources.Keys == records.at.Keys
    && forall k :: k in sources ==> records.at[k] == Summary(events, sources[k])
  }

  function Moved(sources: map<string, Source>, key: string, openKey: string): map<string, Source> {
    var base, open := SourceOf(sources, key), SourceOf(sources, openKey);
    sources[key := Source(open.older + base.older, base.arrival + open.arrival)] - {openKey}
  }

  lemma {:induction false} NoDupJoin(a: seq<nat>, b: seq<nat>)
    requires NoDup(a) && NoDup(b) && forall i :: i in a ==> i !in b
    ensures NoDup(a + b)
  {
    forall i, j | 0 <= i < j < |a + b| ensures (a + b)[i] != (a + b)[j] {
      if i < |a| <= j { assert a[i] in a && b[j - |a|] in b; }
    }
  }

  lemma {:induction false} MovedPartition(sources: map<string, Source>, key: string, openKey: string, n: nat)
    requires Partition(sources, n) && openKey in sources && key != openKey
    ensures Partition(Moved(sources, key, openKey), n)
  {
    var base, open := SourceOf(sources, key), SourceOf(sources, openKey);
    var moved := Moved(sources, key, openKey);
    forall i: nat | i in base.older ensures Listed(sources, key, i) {}
    forall i: nat | i in open.older ensures Listed(sources, openKey, i) {}
    NoDupJoin(open.older, base.older);
    NoDupJoin(base.arrival, open.arrival);
    assert moved.Keys == sources.Keys + {key} - {openKey};
    forall k, i: nat ensures Listed(moved, k, i) <==>
      k != openKey && (Listed(sources, k, i) || (k == key && Listed(sources, openKey, i))) {}
    forall i: nat | i < n ensures InSome(moved, i) {
      assert InSome(sources, i);
      var k :| Listed(sources, k, i);
      assert Listed(moved, if k == openKey then key else k, i);
    }
    hide Listed, InSome;
  }

  lemma {:induction false} AddedPartition(sources: map<string, Source>, key: string, n: nat)
    requires Partition(sources, n)
    ensures var s := SourceOf(sources, key);
      Partition(sources[key := Source(s.older + [n], s.arrival + [n])], n + 1)
  {
    var s := SourceOf(sources, key);
    var t := sources[key := Source(s.older + [n], s.arrival + [n])];
    forall i: nat | i in s.older ensures Listed(sources, key, i) {}
    NoDupJoin(s.older, [n]);
    NoDupJoin(s.arrival, [n]);
    forall k, i: nat ensures Listed(t, k, i) <==> Listed(sources, k, i) || (k == key && i == n) {}
    forall i: nat | i < n + 1 ensures InSome(t, i) {
      if i == n {
        assert Listed(t, key, i);
      } else {
        assert InSome(sources, i);
        var k :| Listed(sources, k, i);
        assert Listed(t, k, i);
      }
    }
    hide Listed, InSome;
  }

  lemma KeysApart(id: string, e: Event)
    ensures IdKey(id) != OpenKey(e)
    ensures IdKey(id)[3..] == id
  {
    assert IdKey(id)[0] == 'i' && OpenKey(e)[0] == 'o';
  }

  ghost predicate IsOpen(key: string) { exists e :: key == OpenKey(e) }

  ghost predicate RecordKeyed(id: Option<string>, key: string) {
    if id.Some? then key == IdKey(id.value) else IsOpen(key)
  }

  ghost predicate RecordsKeyed(ix: Index) { forall k :: k in ix.records.at ==> RecordKeyed(ix.records.at[k].id, k) }

  ghost predicate AttributionsLead(ix: Index) {
    forall a :: a in ix.attributed ==>
      ix.attributed[a] in ix.records.at && ix.records.at[ix.attributed[a]].id.Some?
  }

  // Ids stand under their own key, and an attribution leads to a record with an id.
  ghost predicate Keyed(ix: Index) { RecordsKeyed(ix) && AttributionsLead(ix) }

  lemma {:induction false} KeyedTarget(ix: Index, e: Event)
    requires Keyed(ix)
    ensures var key := Target(ix.attributed, e);
      && (e.id.Some? ==> key == IdKey(e.id.value) && key != OpenKey(e))
      && (key in ix.records.at && e.id.Some? ==> ix.records.at[key].id == e.id)
      && (e.id.None? && key in ix.records.at && ix.records.at[key].id.None? ==> key == OpenKey(e))
      && (key !in ix.records.at && e.id.None? ==> key == OpenKey(e))
  {
    var key := Target(ix.attributed, e);
    if e.id.Some? { KeysApart(e.id.value, e); }
    if key in ix.records.at && ix.records.at[key].id.None? {
      assert IsOpen(key);
      var f :| key == OpenKey(f);
      if e.id.Some? { KeysApart(e.id.value, f); }
    }
    if key in ix.records.at && ix.records.at[key].id.Some? && e.id.Some? {
      KeysApart(e.id.value, e);
      KeysApart(ix.records.at[key].id.value, e);
    }
  }

  lemma {:induction false} OpenHasNoId(ix: Index, e: Event)
    requires Keyed(ix) && OpenKey(e) in ix.records.at
    ensures ix.records.at[OpenKey(e)].id.None?
  {
    var r := ix.records.at[OpenKey(e)];
    if r.id.Some? { KeysApart(r.id.value, e); }
  }

  lemma MergedId(e: Event)
    ensures forall base :: MergeRecord(base, e).id == e.id.OrElse(base.id)
  {}

  lemma ApplyDirect(ix: Index, e: Event)
    requires !Absorbs(ix.records, e)
    ensures var key := Target(ix.attributed, e);
      Apply(ix, e).records.at == ix.records.at[key := MergeRecord(Find(ix.records, key).GetOr(BLANK), e)]
  {
    hide Target, MergeRecord, Absorbs, AttributionKey, OpenKey;
  }

  lemma ApplyAfterAbsorb(ix: Index, e: Event)
    requires Absorbs(ix.records, e)
    ensures var key := Target(ix.attributed, e);
      var records := Absorb(ix.records, key, OpenKey(e));
      Apply(ix, e).records.at == records.at[key := MergeRecord(Find(records, key).GetOr(BLANK), e)]
  {
    hide Target, MergeRecord, MergeRecordFields, AttributionKey, OpenKey, Absorb, Find;
  }

  lemma ApplyAbsorbing(ix: Index, e: Event)
    requires Absorbs(ix.records, e)
    ensures var key := Target(ix.attributed, e);
      exists both :: Apply(ix, e).records.at == (ix.records.at - {OpenKey(e)})[key := MergeRecord(both, e)]
  {
    hide Target, MergeRecord, MergeRecordFields, AttributionKey, OpenKey;
    var key := Target(ix.attributed, e);
    hide Apply;
    var base := ix.records.at[key := MergeRecordFields(Find(ix.records, key).GetOr(BLANK), ix.records.at[OpenKey(e)])];
    var both := Find(Absorb(ix.records, key, OpenKey(e)), key).GetOr(BLANK);
    ApplyAfterAbsorb(ix, e);
    assert (base - {OpenKey(e)})[key := MergeRecord(both, e)] == (ix.records.at - {OpenKey(e)})[key := MergeRecord(both, e)];
  }

  lemma ApplyAttributed(ix: Index, e: Event)
    ensures Apply(ix, e).attributed ==
      if e.id.Some? && AttributionKey(e).Some? then ix.attributed[AttributionKey(e).value := Target(ix.attributed, e)]
      else ix.attributed
  {
    hide Target, MergeRecord, Absorbs, AttributionKey, OpenKey;
  }

  // What one event does to the records, seen from outside.
  lemma {:induction false} ApplyEffect(ix: Index, e: Event)
    requires Keyed(ix)
    ensures var t := Apply(ix, e); var key := Target(ix.attributed, e);
      && (forall k :: k in t.records.at <==> k == key || (k in ix.records.at && !(Absorbs(ix.records, e) && k == OpenKey(e))))
      && (forall k :: k in t.records.at && k != key ==> t.records.at[k] == ix.records.at[k])
      && t.records.at[key].id == e.id.OrElse(Find(ix.records, key).GetOr(BLANK).id)
      && t.attributed == if e.id.Some? && AttributionKey(e).Some? then ix.attributed[AttributionKey(e).value := key]
                         else ix.attributed
  {
    hide Apply, Target, AttributionKey, OpenKey, MergeRecord, Keyed, Absorbs;
    KeyedTarget(ix, e);
    MergedId(e);
    ApplyAttributed(ix, e);
    if Absorbs(ix.records, e) {
      AbsorbsWithId(ix, e);
      ApplyAbsorbing(ix, e);
    } else {
      ApplyDirect(ix, e);
    }
  }

  lemma AbsorbsWithId(ix: Index, e: Event)
    requires Absorbs(ix.records, e)
    ensures e.id.Some?
  {}

  lemma TargetKeyed(ix: Index, e: Event)
    requires Keyed(ix)
    ensures var key := Target(ix.attributed, e); RecordKeyed(e.id.OrElse(Find(ix.records, key).GetOr(BLANK).id), key)
  {
    KeyedTarget(ix, e);
    assert IsOpen(OpenKey(e));
    hide Target, IsOpen, OpenKey, IdKey;
  }

  lemma {:induction false} ApplyRecordsKeyed(ix: Index, e: Event)
    requires Keyed(ix)
    ensures RecordsKeyed(Apply(ix, e))
  {
    hide Apply, Target, EventKey, AttributionKey, Absorbs, IsOpen, IdKey, OpenKey, RecordKeyed;
    ApplyEffect(ix, e);
    TargetKeyed(ix, e);
    var t, key := Apply(ix, e), Target(ix.attributed, e);
    forall k | k in t.records.at ensures RecordKeyed(t.records.at[k].id, k) {
      if k != key { assert t.records.at[k] == ix.records.at[k]; }
    }
  }

  lemma {:induction false} ApplyAttributionsLead(ix: Index, e: Event)
    requires Keyed(ix)
    ensures AttributionsLead(Apply(ix, e))
  {
    hide Apply, Target, EventKey, AttributionKey, Absorbs, IsOpen, IdKey, OpenKey, RecordKeyed;
    ApplyEffect(ix, e);
    KeyedTarget(ix, e);
    if OpenKey(e) in ix.records.at { OpenHasNoId(ix, e); }
    var t, key := Apply(ix, e), Target(ix.attributed, e);
    forall a | a in t.attributed ensures t.attributed[a] in t.records.at && t.records.at[t.attributed[a]].id.Some? {
      var k := t.attributed[a];
      if k != key {
        assert k == ix.attributed[a] && k != OpenKey(e);
        assert t.records.at[k] == ix.records.at[k];
      }
    }
  }

  lemma {:induction false} ApplyKeyed(ix: Index, e: Event)
    requires Keyed(ix)
    ensures Keyed(Apply(ix, e))
  {
    hide Apply, RecordKeyed;
    ApplyRecordsKeyed(ix, e);
    ApplyAttributionsLead(ix, e);
  }

  lemma {:induction false} FoldKeyed(events: seq<Event>)
    ensures Keyed(Fold(events))
  {
    if events != [] {
      FoldKeyed(events[..|events| - 1]);
      hide Apply, Keyed;
      ApplyKeyed(Fold(events[..|events| - 1]), events[|events| - 1]);
    }
  }

  lemma {:induction false} SummedStep(events: seq<Event>, e: Event, ix: Index, sources: map<string, Source>)
    requires Keyed(ix) && Partition(sources, |events|) && Summed(ix.records, sources, events)
    ensures var t := ApplySource(sources, ix, e, |events|);
      Partition(t, |events| + 1) && Summed(Apply(ix, e).records, t, events + [e])
  {
    var key, openKey, n := Target(ix.attributed, e), OpenKey(e), |events|;
    KeyedTarget(ix, e);
    SummedLater(ix.records, sources, events, e);
    var all := events + [e];
    var records, moved := ix.records, sources;
    if Absorbs(ix.records, e) {
      records, moved := Absorb(ix.records, key, openKey), Moved(sources, key, openKey);
      MovedPartition(sources, key, openKey, n);
      MovedSummed(ix.records, sources, all, key, openKey);
    }
    hide Summary, MergeRecord, MergeRecordFields, Partition, Keyed, AttributionKey, EventKey, OpenKey, Absorb, Moved, Absorbs;
    AddedPartition(moved, key, n);
    AddedSummed(records, moved, all, key, n);
    ApplySourceIs(sources, ix, e, n, moved);
    assert At(all, n) == e;
  }

  lemma ApplySourceIs(sources: map<string, Source>, ix: Index, e: Event, n: nat, moved: map<string, Source>)
    requires moved == if Absorbs(ix.records, e) then Moved(sources, Target(ix.attributed, e), OpenKey(e)) else sources
    ensures var key := Target(ix.attributed, e); var s := SourceOf(moved, key);
      ApplySource(sources, ix, e, n) == moved[key := Source(s.older + [n], s.arrival + [n])]
  {}

  lemma {:induction false} SummedLater(records: Records, sources: map<string, Source>, events: seq<Event>, e: Event)
    requires Summed(records, sources, events) && Partition(sources, |events|)
    ensures Summed(records, sources, events + [e])
  {
    hide Summary;
    forall k | k in sources ensures Summary(events + [e], sources[k]) == Summary(events, sources[k]) {
      var s := sources[k];
      forall i | i in s.older ensures i < |events| { assert Listed(sources, k, i); }
      forall i | i in s.arrival ensures i < |events| { assert Listed(sources, k, i); }
      SummaryLater(events, e, s);
    }
  }

  lemma SummaryLater(events: seq<Event>, e: Event, s: Source)
    requires (forall i :: i in s.older ==> i < |events|) && (forall i :: i in s.arrival ==> i < |events|)
    ensures Summary(events + [e], s) == Summary(events, s)
  {
    NewestMore(events, e, s.older);
    NewestMore(events, e, s.arrival);
  }

  lemma SummaryOfNothing(events: seq<Event>)
    ensures Summary(events, NO_SOURCE) == BLANK
  {}

  lemma {:induction false} MovedSummed(records: Records, sources: map<string, Source>, events: seq<Event>,
                                       key: string, openKey: string)
    requires Summed(records, sources, events) && openKey in records.at && key != openKey
    ensures Summed(Absorb(records, key, openKey), Moved(sources, key, openKey), events)
  {
    SummaryOfNothing(events);
    SummaryOfMove(events, SourceOf(sources, key), sources[openKey]);
    MovedKeys(records, sources, key, openKey);
    hide Summary, MergeRecordFields, Absorb, Moved;
    var moved, absorbed := Moved(sources, key, openKey), Absorb(records, key, openKey);
    forall k | k in moved ensures absorbed.at[k] == Summary(events, moved[k]) {
      if k != key { MovedElsewhere(records, sources, key, openKey, k); } else { MovedHere(sources, key, openKey); }
    }
  }

  lemma MovedKeys(records: Records, sources: map<string, Source>, key: string, openKey: string)
    requires sources.Keys == records.at.Keys && openKey in records.at && key != openKey
    ensures Moved(sources, key, openKey).Keys == Absorb(records, key, openKey).at.Keys == sources.Keys + {key} - {openKey}
  {
    hide MergeRecordFields, Absorb;
  }

  lemma MovedElsewhere(records: Records, sources: map<string, Source>, key: string, openKey: string, k: string)
    requires sources.Keys == records.at.Keys && openKey in records.at && k != key && k in Moved(sources, key, openKey)
    ensures Moved(sources, key, openKey)[k] == sources[k] && k in sources
    ensures Absorb(records, key, openKey).at[k] == records.at[k]
  {
    hide MergeRecordFields, Absorb;
  }

  lemma MovedHere(sources: map<string, Source>, key: string, openKey: string)
    requires key != openKey
    ensures var base, open := SourceOf(sources, key), SourceOf(sources, openKey);
      && key in Moved(sources, key, openKey)
      && Moved(sources, key, openKey)[key] == Source(open.older + base.older, base.arrival + open.arrival)
  {}

  lemma {:induction false} AddedSummed(records: Records, sources: map<string, Source>, events: seq<Event>,
                                       key: string, n: nat)
    requires Summed(records, sources, events)
    ensures var s := SourceOf(sources, key);
      Summed(Set(records, key, MergeRecord(Find(records, key).GetOr(BLANK), At(events, n))),
             sources[key := Source(s.older + [n], s.arrival + [n])], events)
  {
    SummaryOfNothing(events);
    SummaryOfEvent(events, SourceOf(sources, key), n);
    hide Summary, MergeRecord;
  }

  lemma SourcesSnoc(events: seq<Event>, e: Event)
    ensures Fold(events + [e]) == Apply(Fold(events), e)
    ensures Sources(events + [e]) == ApplySource(Sources(events), Fold(events), e, |events|)
  {
    hide Apply, ApplySource;
    assert (events + [e])[..|events|] == events;
  }

  ghost predicate Accounted(events: seq<Event>) {
    Partition(Sources(events), |events|) && Summed(Fold(events).records, Sources(events), events)
  }

  lemma NothingAccounted()
    ensures Accounted([])
  {}

  lemma {:induction false} AccountedSnoc(events: seq<Event>, e: Event)
    requires Accounted(events)
    ensures Accounted(events + [e])
  {
    FoldKeyed(events);
    SourcesSnoc(events, e);
    hide Fold, Sources, Keyed, Apply, ApplySource;
    SummedStep(events, e, Fold(events), Sources(events));
  }

  lemma {:induction false} AllAccounted(events: seq<Event>)
    ensures Accounted(events)
  {
    hide Accounted;
    if events == [] {
      NothingAccounted();
    } else {
      AllAccounted(events[..|events| - 1]);
      AccountedSnoc(events[..|events| - 1], events[|events| - 1]);
      assert events[..|events| - 1] + [events[|events| - 1]] == events;
    }
  }

  // Each event of the log contributes to exactly one record, and every record is
  // exactly what its events add up to.
  lemma {:induction false} EveryEventInOneRecord(events: seq<Event>)
    ensures Partition(Sources(events), |events|) && Summed(Fold(events).records, Sources(events), events)
  {
    AllAccounted(events);
  }

  // ----- ids -----

  predicate Carried(events: seq<Event>, id: string) {
    exists i :: 0 <= i < |events| && events[i].id == Some(id)
  }

  lemma {:induction false} CarriedSnoc(events: seq<Event>, e: Event, id: string)
    ensures Carried(events + [e], id) <==> Carried(events, id) || e.id == Some(id)
  {
    var t := events + [e];
    assert t[|events|] == e;
    if Carried(events, id) {
      var i :| 0 <= i < |events| && events[i].id == Some(id);
      assert t[i] == events[i];
    }
  }

  lemma {:induction false} IdsSeen(events: seq<Event>, id: string)
    ensures IdKey(id) in Fold(events).records.at <==> Carried(events, id)
  {
    if events != [] {
      var before, e := events[..|events| - 1], events[|events| - 1];
      var ix := Fold(before);
      assert before + [e] == events;
      CarriedSnoc(before, e, id);
      IdsSeen(before, id);
      FoldKeyed(before);
      ApplyEffect(ix, e);
      KeyedTarget(ix, e);
      KeysApart(id, e);
      if e.id.Some? { KeysApart(e.id.value, e); }
      assert Fold(events) == Apply(ix, e);
      hide Apply, Target, OpenKey, Absorbs, AttributionKey, Keyed, Fold, Carried, IdKey;
    }
  }

  // An id is in exactly one record when some event carries it, and in none otherwise.
  lemma {:induction false} OneRecordForEachId(events: seq<Event>, id: string)
    ensures var records := Fold(events).records;
      Carried(events, id) <==> exists k :: k in records.at && records.at[k].id == Some(id)
    ensures var records := Fold(events).records;
      forall k, l | k in records.at && records.at[k].id == Some(id) && l in records.at && records.at[l].id == Some(id) ::
        k == l
  {
    IdsSeen(events, id);
    FoldKeyed(events);
    var records := Fold(events).records;
    hide Fold, OpenKey, Carried;
    if IdKey(id) in records.at {
      var r := records.at[IdKey(id)];
      if r.id.None? {
        assert IsOpen(IdKey(id));
        var e :| IdKey(id) == OpenKey(e);
        KeysApart(id, e);
      } else {
        KeysApart(id, BLANK);
        KeysApart(r.id.value, BLANK);
      }
    }
  }

  predicate Keeps<T>(a: Option<T>, b: Option<T>) { a.Some? ==> b.Some? }

  // No field that is set in `a` is null in `b`.
  predicate KeepsAll(a: Record, b: Record) {
    && Keeps(a.id, b.id) && Keeps(a.engine, b.engine) && Keeps(a.name, b.name) && Keeps(a.repo, b.repo)
    && Keeps(a.cwd, b.cwd) && Keeps(a.worktreeSlug, b.worktreeSlug) && Keeps(a.branch, b.branch)
    && Keeps(a.baseRef, b.baseRef) && Keeps(a.createdAt, b.createdAt) && Keeps(a.intent, b.intent)
    && Keeps(a.closeStatus, b.closeStatus) && Keeps(a.closeNotePreview, b.closeNotePreview)
  }

  lemma MergeKeeps(a: Record, e: Event)
    ensures KeepsAll(a, MergeRecord(a, e))
  {}

  lemma MergeFieldsKeeps(a: Record, b: Record)
    ensures KeepsAll(a, MergeRecordFields(a, b))
  {}

  lemma KeepsTrans(a: Record, b: Record, c: Record)
    ensures KeepsAll(a, a)
    ensures KeepsAll(a, b) && KeepsAll(b, c) ==> KeepsAll(a, c)
  {}

  // A further event never takes the record of an id away, nor sets one of its fields to null.
  lemma {:induction false} AppendNeverForgets(events: seq<Event>, e: Event, id: string)
    requires IdKey(id) in Fold(events).records.at
    ensures IdKey(id) in Fold(events + [e]).records.at
    ensures KeepsAll(Fold(events).records.at[IdKey(id)], Fold(events + [e]).records.at[IdKey(id)])
  {
    assert (events + [e])[..|events|] == events;
    var ix := Fold(events);
    FoldKeyed(events);
    ApplyEffect(ix, e);
    KeysApart(id, e);
    assert Fold(events + [e]) == Apply(ix, e);
    var key := Target(ix.attributed, e);
    var r := ix.records.at[IdKey(id)];
    KeepsTrans(r, r, r);
    if key == IdKey(id) {
      hide MergeRecord, MergeRecordFields, KeepsAll, Target, AttributionKey, IdKey, OpenKey, Keyed, Fold;
      MergeKeeps(r, e);
      if Absorbs(ix.records, e) {
        var open := ix.records.at[OpenKey(e)];
        MergeFieldsKeeps(r, open);
        MergeKeeps(MergeRecordFields(r, open), e);
        KeepsTrans(r, MergeRecordFields(r, open), MergeRecord(MergeRecordFields(r, open), e));
      }
    }
  }

  // ----- open records of an attribution whose id is known -----

  predicate GivesId(e: Event, attr: string) { e.id.Some? && AttributionKey(e) == Some(attr) }

  // An event that cannot be attributed, but whose stand-in key spells the attribution.
  predicate Spells(e: Event, attr: string) {
    e.id.None? && AttributionKey(e).None? && OpenKey(e) == "open:" + attr
  }

  // Such an event comes after the last one that gave the attribution its id.
  ghost predicate SpelledSince(events: seq<Event>, attr: string) {
    exists j :: 0 <= j < |events| && Spells(events[j], attr) && NotGivenAfter(events, attr, j)
  }

  predicate NotGivenAfter(events: seq<Event>, attr: string, j: nat) {
    forall k :: j < k < |events| ==> !GivesId(events[k], attr)
  }

  lemma {:induction false} SpelledSinceSnoc(events: seq<Event>, e: Event, attr: string)
    ensures SpelledSince(events + [e], attr) <==> Spells(e, attr) || (SpelledSince(events, attr) && !GivesId(e, attr))
  {
    hide Spells, GivesId;
    var t := events + [e];
    assert t[|events|] == e;
    assert forall k :: 0 <= k < |events| ==> t[k] == events[k];
    if Spells(e, attr) { assert NotGivenAfter(t, attr, |events|); }
    if SpelledSince(events, attr) && !GivesId(e, attr) {
      var j :| 0 <= j < |events| && Spells(events[j], attr) && NotGivenAfter(events, attr, j);
      assert NotGivenAfter(t, attr, j);
      assert Spells(t[j], attr);
    }
    if SpelledSince(t, attr) {
      var j :| 0 <= j < |t| && Spells(t[j], attr) && NotGivenAfter(t, attr, j);
      if j < |events| {
        assert !GivesId(t[|events|], attr);
        assert NotGivenAfter(events, attr, j);
      }
    }
  }

  lemma AttributedOpenKey(e: Event)
    ensures AttributionKey(e).Some? ==> OpenKey(e) == "open:" + AttributionKey(e).value
  {}

  lemma OpenPrefix(a: string, b: string)
    ensures "open:" + a == "open:" + b ==> a == b
  {
    if "open:" + a == "open:" + b {
      assert ("open:" + a)[5..] == a && ("open:" + b)[5..] == b;
    }
  }

  lemma OpenIsNoIdKey(attr: string, id: string)
    ensures "open:" + attr != IdKey(id)
  {
    assert ("open:" + attr)[0] == 'o' && IdKey(id)[0] == 'i';
  }

  // Once an attribution has an id, an open record for it is left exactly when an
  // event that cannot be attributed has spelled its key since.
  lemma {:induction false} OpenRecordRemains(events: seq<Event>, attr: string)
    requires attr in Fold(events).attributed
    ensures "open:" + attr in Fold(events).records.at <==> SpelledSince(events, attr)
  {
    var before, e := events[..|events| - 1], events[|events| - 1];
    var ix := Fold(before);
    assert events == before + [e];
    SpelledSinceSnoc(before, e, attr);
    FoldKeyed(before);
    ApplyEffect(ix, e);
    KeyedTarget(ix, e);
    AttributedOpenKey(e);
    if attr in ix.attributed { OpenRecordRemains(before, attr); }
    if AttributionKey(e).Some? { OpenPrefix(attr, AttributionKey(e).value); }
    if e.id.Some? { OpenIsNoIdKey(attr, e.id.value); }
    if e.id.None? && AttributionKey(e).Some? && AttributionKey(e).value in ix.attributed {
      var k := ix.attributed[AttributionKey(e).value];
      OpenIsNoIdKey(attr, ix.records.at[k].id.value);
    }
    hide Apply, OpenKey, AttributionKey, IdKey, SpelledSince, Keyed, Fold;
  }

  predicate WordAt(s: string, i: int, word: string) {
    0 <= i <= |s| - |word| && s[i..i + |word|] == word
  }

  ghost predicate Mentions(s: string, word: string) { exists i :: WordAt(s, i, word) }

  // The stand-in for what is missing is the word `unknown`, so an attribution that
  // does not contain it leaves no open record behind.
  lemma {:induction false} NoOpenRecordRemains(events: seq<Event>, attr: string)
    requires attr in Fold(events).attributed && !Mentions(attr, "unknown")
    ensures "open:" + attr !in Fold(events).records.at
  {
    OpenRecordRemains(events, attr);
    hide Fold;
    if SpelledSince(events, attr) {
      var j :| 0 <= j < |events| && Spells(events[j], attr) && NotGivenAfter(events, attr, j);
      SpelledMentions(events[j], attr);
    }
  }

  lemma {:induction false} SpelledMentions(e: Event, attr: string)
    requires Spells(e, attr)
    ensures Mentions(attr, "unknown")
  {
    var engine := if e.engine.Some? then EngineText(e.engine.value) else "unknown";
    var name := e.name.GetOr("unknown");
    var cwd := e.cwd.OrElse(e.repo).GetOr("unknown");
    OpenPrefix(attr, engine + ":" + name + ":" + cwd);
    var i := if e.engine.None? then 0 else if e.name.None? then |engine| + 1 else |engine| + 1 + |name| + 1;
    assert WordAt(attr, i, "unknown");
  }

  // With the word it does happen: a session named `unknown` and an event without a name.
  lemma OpenRecordOfUnknown()
    ensures var named := BLANK.(id := Some("x"), engine := Some(Claude), name := Some("unknown"), cwd := Some("/r"));
      var nameless := BLANK.(engine := Some(Claude), cwd := Some("/r"));
      var ix := Fold([named, nameless]);
      "claude:unknown:/r" in ix.attributed && "open:claude:unknown:/r" in ix.records.at
  {
    hide OpenKey, AttributionKey, Apply, Fold;
    var named := BLANK.(id := Some("x"), engine := Some(Claude), name := Some("unknown"), cwd := Some("/r"));
    var nameless := BLANK.(engine := Some(Claude), cwd := Some("/r"));
    UnknownKeys(named, nameless);
    FoldTwo(named, nameless);
    NamedAttributes(Fold([]), named, "claude:unknown:/r");
    NamelessOpens(Apply(Fold([]), named), nameless);
  }

  lemma FoldTwo(a: Event, b: Event)
    ensures Fold([a, b]) == Apply(Apply(Fold([]), a), b)
  {
    hide Apply;
    FoldTake([a, b], 0);
    FoldTake([a, b], 1);
    assert [a, b][..0] == [] && [a, b][..2] == [a, b];
  }

  lemma NamedAttributes(ix: Index, e: Event, attr: string)
    requires e.id.Some? && AttributionKey(e) == Some(attr)
    ensures attr in Apply(ix, e).attributed
  {
    hide OpenKey, AttributionKey, MergeRecord, MergeRecordFields, Absorb;
  }

  lemma NamelessOpens(ix: Index, e: Event)
    requires e.id.None? && AttributionKey(e).None?
    ensures OpenKey(e) in Apply(ix, e).records.at && Apply(ix, e).attributed == ix.attributed
  {
    hide OpenKey, AttributionKey, MergeRecord, MergeRecordFields, Absorb;
  }

  lemma UnknownKeys(named: Event, nameless: Event)
    requires named == BLANK.(id := Some("x"), engine := Some(Claude), name := Some("unknown"), cwd := Some("/r"))
    requires nameless == BLANK.(engine := Some(Claude), cwd := Some("/r"))
    ensures AttributionKey(named) == Some("claude:unknown:/r") && AttributionKey(nameless).None?
    ensures OpenKey(nameless) == "open:claude:unknown:/r"
  {
    assert "claude" + ":" + "unknown" + ":" + "/r" == "claude:unknown:/r";
    assert "open:" + "claude:unknown:/r" == "open:claude:unknown:/r";
  }
}
