// The rows `tm history` shows: rows of several sources for one session are merged,
// and the list is handed out page by page.

module HistoryRows {
  import opened Prelude
  import opened OrderedMaps
  import opened Engines

  datatype State = Busy | Borrowed | Idle | Killed | Orphaned | UnknownState

  datatype Source = FromIndex | FromIdentity | FromTranscript | FromRollout

  // `details` holds the fields that a merge takes from the first row that has them:
  // branch, intent, close status, topic and the like. An absent key is null.
  datatype Row = Row(id: Option<string>, engine: Engine, name: Option<string>, repo: Option<string>,
                     cwd: Option<string>, state: State, source: Source, details: map<string, string>)

  function RankState(s: State): nat {
    match s
    case Busy => 7
    case Borrowed => 6
    case Idle => 5
    case Killed => 3
    case Orphaned => 2
    case UnknownState => 1
  }

  function ScoreSource(s: Source): nat {
    match s
    case FromIndex => 4
    case FromIdentity => 3
    case _ => 2
  }

  function SourceText(s: Source): string {
    match s
    case FromIndex => "index"
    case FromIdentity => "identity"
    case FromTranscript => "transcript"
    case FromRollout => "rollout"
  }

  function NamePart(r: Row): string { r.name.GetOr("-") }

  function CwdPart(r: Row): string { r.cwd.OrElse(r.repo).GetOr("-") }

  function RowKey(r: Row): string {
    if r.id.Some? then EngineText(r.engine) + ":" + r.id.value
    else EngineText(r.engine) + ":" + (NamePart(r) + ":" + (CwdPart(r) + ":" + SourceText(r.source)))
  }

  function MergeRows(a: Row, b: Row): Row {
    Row(a.id.OrElse(b.id), a.engine, a.name.OrElse(b.name), a.repo.OrElse(b.repo), a.cwd.OrElse(b.cwd),
        if RankState(a.state) >= RankState(b.state) then a.state else b.state,
        if ScoreSource(a.source) >= ScoreSource(b.source) then a.source else b.source,
        b.details + a.details)
  }

  type Groups = OrderedMap<string, Row>

  function Add(groups: Groups, r: Row): Groups {
    var key := RowKey(r);
    Set(groups, key, if key in groups.at then MergeRows(groups.at[key], r) else r)
  }

  function Group(rows: seq<Row>): Groups {
    if rows == [] then Empty() else Add(Group(rows[..|rows| - 1]), rows[|rows| - 1])
  }

  lemma EmptyGroup()
    ensures Group([]) == Empty()
  {}

  lemma GroupTaken(rows: seq<Row>, n: nat)
    requires n < |rows|
    ensures Group(rows[..n + 1]) == Add(Group(rows[..n]), rows[n])
  {
    hide Add;
    assert rows[..n + 1][..n] == rows[..n];
  }

  method NormalizeRows(rows: seq<Row>) returns (r: seq<Row>)
    ensures r == Values(Group(rows))
  {
    hide RowKey, MergeRows, Group;
    var groups: Groups := Empty();
    assert Group(rows[..0]) == Empty() by { EmptyGroup(); }
    for i := 0 to |rows|
      invariant groups == Group(rows[..i])
    {
      GroupTaken(rows, i);
      var key := RowKey(rows[i]);
      var existing := Find(groups, key);
      groups := Set(groups, key, if existing.None? then rows[i] else MergeRows(existing.value, rows[i]));
    }
    assert rows[..|rows|] == rows;
    return Values(groups);
  }

  // ----- one row for each key, with the highest state of its group -----

  predicate InGroup(rows: seq<Row>, k: string, r: Row) { r in rows && RowKey(r) == k }

  lemma {:induction false} InGroupSnoc(rows: seq<Row>, k: string, r: Row)
    requires rows != []
    ensures InGroup(rows, k, r) <==> InGroup(rows[..|rows| - 1], k, r) || (r == rows[|rows| - 1] && RowKey(r) == k)
  {
    hide RowKey;
    assert rows == rows[..|rows| - 1] + [rows[|rows| - 1]];
  }

  // A key has a row exactly when some candidate has the key; that row has the highest
  // state of its group, and no detail that a candidate has is missing in it.
  lemma {:induction false} GroupMeaning(rows: seq<Row>, k: string)
    ensures k in Group(rows).at <==> exists r :: InGroup(rows, k, r)
    ensures forall r :: InGroup(rows, k, r) ==>
      RankState(r.state) <= RankState(Group(rows).at[k].state) && r.details.Keys <= Group(rows).at[k].details.Keys
    ensures k in Group(rows).at ==> exists r :: InGroup(rows, k, r) && r.state == Group(rows).at[k].state
  {
    hide RowKey;
    if rows != [] {
      var before, last := rows[..|rows| - 1], rows[|rows| - 1];
      GroupMeaning(before, k);
      forall r ensures InGroup(rows, k, r) <==> InGroup(before, k, r) || (r == last && RowKey(r) == k) {
        InGroupSnoc(rows, k, r);
      }
      assert RowKey(last) == k ==> InGroup(rows, k, last);
    }
  }

  lemma RankIsState(a: State, b: State)
    ensures RankState(a) == RankState(b) ==> a == b
  {}

  // From what is running to what nothing is known of.
  const STATES := [Busy, Borrowed, Idle, Killed, Orphaned, UnknownState]

  lemma StatesRank(i: nat, j: nat)
    requires i < 6 && j < 6
    ensures i <= j <==> RankState(STATES[i]) >= RankState(STATES[j])
  {}

  lemma AnyState(s: State) returns (i: nat)
    ensures i < 6 && STATES[i] == s
  {
    match s
    case Busy => i := 0;
    case Borrowed => i := 1;
    case Idle => i := 2;
    case Killed => i := 3;
    case Orphaned => i := 4;
    case UnknownState => i := 5;
  }

  // A merged row is in the first of these states that any row of its group is in.
  lemma {:induction false} StateOfTheGroup(rows: seq<Row>, k: string, i: nat)
    requires i < 6 && k in Group(rows).at
    ensures Group(rows).at[k].state == STATES[i] <==>
      && (exists r :: InGroup(rows, k, r) && r.state == STATES[i])
      && forall r, j :: InGroup(rows, k, r) && 0 <= j < i ==> r.state != STATES[j]
  {
    hide RowKey, Group, RankState, InGroup;
    GroupMeaning(rows, k);
    var n := AnyState(Group(rows).at[k].state);
    forall r | InGroup(rows, k, r) ensures exists j: nat :: n <= j < 6 && r.state == STATES[j] {
      var j := AnyState(r.state);
      StatesRank(n, j);
    }
    StatesDiffer();
  }

  lemma StatesDiffer()
    ensures forall i, j :: 0 <= i < j < 6 ==> STATES[i] != STATES[j]
  {}

  // The order in which the candidates come does not matter for the keys and the states.
  lemma {:induction false} OrderDoesNotMatter(rows: seq<Row>, other: seq<Row>, k: string)
    requires multiset(rows) == multiset(other)
    ensures k in Group(rows).at <==> k in Group(other).at
    ensures k in Group(rows).at ==> Group(rows).at[k].state == Group(other).at[k].state
  {
    hide RowKey, Group, RankState;
    GroupMeaning(rows, k);
    GroupMeaning(other, k);
    forall r ensures InGroup(rows, k, r) <==> InGroup(other, k, r) {
      assert r in multiset(rows) <==> r in rows;
      assert r in multiset(other) <==> r in other;
    }
    if k in Group(rows).at && k in Group(other).at {
      RankIsState(Group(rows).at[k].state, Group(other).at[k].state);
    }
  }

  // ----- which row of a group each field comes from -----

  function Members(rows: seq<Row>, k: string): seq<Row> { Filter((r: Row) => RowKey(r) == k, rows) }

  // The field of the first row that has it.
  function First<T>(field: Row -> Option<T>, rows: seq<Row>): Option<T> {
    if rows == [] then None else field(rows[0]).OrElse(First(field, rows[1..]))
  }

  lemma {:induction false} FirstSnoc<T>(field: Row -> Option<T>, rows: seq<Row>, r: Row)
    ensures First(field, rows + [r]) == First(field, rows).OrElse(field(r))
  {
    if rows == [] {
      assert (rows + [r])[1..] == [];
    } else {
      assert (rows + [r])[1..] == rows[1..] + [r];
      FirstSnoc(field, rows[1..], r);
    }
  }

  function Detail(key: string): Row -> Option<string> {
    (r: Row) => if key in r.details then Some(r.details[key]) else None
  }

  function IdOf(r: Row): Option<string> { r.id }
  function NameOf(r: Row): Option<string> { r.name }
  function RepoOf(r: Row): Option<string> { r.repo }
  function CwdOf(r: Row): Option<string> { r.cwd }

  ghost predicate FromFirst(m: Row, g: seq<Row>) {
    && m.id == First(IdOf, g) && m.name == First(NameOf, g) && m.repo == First(RepoOf, g) && m.cwd == First(CwdOf, g)
    && forall key :: Detail(key)(m) == First(Detail(key), g)
  }

  lemma FromFirstOne(r: Row)
    ensures FromFirst(r, [r])
  {
    assert [r][1..] == [];
  }

  lemma FromFirstMore(m: Row, g: seq<Row>, r: Row)
    requires FromFirst(m, g)
    ensures FromFirst(MergeRows(m, r), g + [r])
  {
    FirstSnoc(IdOf, g, r);
    FirstSnoc(NameOf, g, r);
    FirstSnoc(RepoOf, g, r);
    FirstSnoc(CwdOf, g, r);
    forall key ensures Detail(key)(MergeRows(m, r)) == First(Detail(key), g + [r]) {
      FirstSnoc(Detail(key), g, r);
    }
  }

  lemma GroupStep(rows: seq<Row>, k: string)
    requires rows != []
    ensures var before, after, last := Group(rows[..|rows| - 1]).at, Group(rows).at, rows[|rows| - 1];
      && (k in after <==> k in before || RowKey(last) == k)
      && (RowKey(last) != k && k in before ==> after[k] == before[k])
      && (RowKey(last) == k ==> after[k] == if k in before then MergeRows(before[k], last) else last)
  {
    hide RowKey, MergeRows;
  }

  lemma MembersStep(rows: seq<Row>, k: string)
    requires rows != []
    ensures var p, last := rows[..|rows| - 1], rows[|rows| - 1];
      Members(rows, k) == if RowKey(last) == k then Members(p, k) + [last] else Members(p, k)
  {
    hide RowKey;
    SplitLast([], rows);
    FilterSnoc((r: Row) => RowKey(r) == k, rows[..|rows| - 1], rows[|rows| - 1]);
  }

  lemma {:induction false} NoMembers(rows: seq<Row>, k: string)
    ensures k !in Group(rows).at ==> Members(rows, k) == []
  {
    hide RowKey, MergeRows;
    if rows != [] {
      NoMembers(rows[..|rows| - 1], k);
      GroupStep(rows, k);
      MembersStep(rows, k);
    }
  }

  // Each nullable field of a merged row is that of the first row of its group that has it.
  lemma {:induction false} FieldsOfTheFirst(rows: seq<Row>, k: string)
    requires k in Group(rows).at
    ensures FromFirst(Group(rows).at[k], Members(rows, k))
  {
    hide RowKey, MergeRows, FromFirst, Members;
    GroupNothing(k);
    var p, last := rows[..|rows| - 1], rows[|rows| - 1];
    GroupStep(rows, k);
    MembersStep(rows, k);
    NoMembers(p, k);
    hide Group;
    if k in Group(p).at { FieldsOfTheFirst(p, k); }
    if RowKey(last) == k {
      if k in Group(p).at {
        FromFirstMore(Group(p).at[k], Members(p, k), last);
      } else {
        FromFirstOne(last);
        assert [] + [last] == [last];
      }
    }
  }

  lemma GroupNothing(k: string)
    ensures k !in Group([]).at
  {}

  // The index is believed before the identity file, and that before transcripts and rollouts.
  predicate NoMoreThan(a: Source, b: Source) {
    b == FromIndex || (b == FromIdentity && a != FromIndex) || (a != FromIndex && a != FromIdentity)
  }

  lemma ScoreMeaning(a: Source, b: Source)
    ensures ScoreSource(a) <= ScoreSource(b) <==> NoMoreThan(a, b)
  {}

  // A merged row comes from the index if any row of its group does, and otherwise
  // from the identity file if any does.
  lemma {:induction false} SourceOfTheGroup(rows: seq<Row>, k: string)
    requires k in Group(rows).at
    ensures var s := Group(rows).at[k].source;
      && (s == FromIndex <==> exists r :: InGroup(rows, k, r) && r.source == FromIndex)
      && (s == FromIdentity <==>
            (exists r :: InGroup(rows, k, r) && r.source == FromIdentity)
            && forall r :: InGroup(rows, k, r) ==> r.source != FromIndex)
  {
    hide RowKey, Group, ScoreSource, InGroup;
    SourceOfTheBest(rows, k);
    var s := Group(rows).at[k].source;
    forall r: Row ensures ScoreSource(r.source) <= ScoreSource(s) <==> NoMoreThan(r.source, s) {
      ScoreMeaning(r.source, s);
    }
  }

  // Its source is one of its group's, and none of them scores higher.
  lemma {:induction false} SourceOfTheBest(rows: seq<Row>, k: string)
    requires k in Group(rows).at
    ensures exists r :: InGroup(rows, k, r) && r.source == Group(rows).at[k].source
    ensures forall r :: InGroup(rows, k, r) ==> ScoreSource(r.source) <= ScoreSource(Group(rows).at[k].source)
  {
    hide RowKey, MergeRows, ScoreSource;
    GroupNothing(k);
    var p, last := rows[..|rows| - 1], rows[|rows| - 1];
    GroupStep(rows, k);
    forall r ensures InGroup(rows, k, r) <==> InGroup(p, k, r) || (r == last && RowKey(last) == k) {
      InGroupSnoc(rows, k, r);
    }
    GroupMeaning(p, k);
    hide InGroup, Group;
    if k in Group(p).at {
      SourceOfTheBest(p, k);
      if RowKey(last) == k { MergedSource(Group(p).at[k], last); }
    }
  }

  lemma MergedSource(a: Row, b: Row)
    ensures var s := MergeRows(a, b).source;
      && (s == a.source || s == b.source)
      && ScoreSource(a.source) <= ScoreSource(s) && ScoreSource(b.source) <= ScoreSource(s)
  {}

  // ----- a merged row keeps the key of its group -----

  predicate Named(r: Row) { r.name.Some? ==> NoColon(r.name.value) }

  lemma WordsHaveNoColon(e: Engine, s: Source)
    ensures NoColon(EngineText(e)) && NoColon(SourceText(s))
  {}

  lemma SourceOfText(a: Source, b: Source)
    ensures SourceText(a) == SourceText(b) ==> a == b
  {}

  function KeyTail(r: Row): string {
    if r.id.Some? then r.id.value else NamePart(r) + ":" + (CwdPart(r) + ":" + SourceText(r.source))
  }

  lemma {:induction false} SameKey(a: Row, b: Row)
    requires RowKey(a) == RowKey(b)
    ensures EngineText(a.engine) == EngineText(b.engine) && KeyTail(a) == KeyTail(b)
    ensures a.engine == b.engine
  {
    WordsHaveNoColon(a.engine, a.source);
    WordsHaveNoColon(b.engine, b.source);
    hide NamePart, CwdPart, SourceText;
    FirstColon(EngineText(a.engine), KeyTail(a), EngineText(b.engine), KeyTail(b));
  }

  // Rows of one session: the same engine and id; without ids the same engine, name,
  // directory and source, what is missing standing as `-`.
  predicate SameSession(a: Row, b: Row) {
    && a.engine == b.engine && a.id == b.id
    && (a.id.None? ==>
          && a.name.GetOr("-") == b.name.GetOr("-") && a.source == b.source
          && a.cwd.OrElse(a.repo).GetOr("-") == b.cwd.OrElse(b.repo).GetOr("-"))
  }

  // Rows merge exactly when they are of one session, as long as both have an id, or
  // neither has one and no name holds a colon.
  lemma {:induction false} MergesSessions(a: Row, b: Row)
    requires a.id.Some? <==> b.id.Some?
    requires a.id.None? ==> Named(a) && Named(b)
    ensures RowKey(a) == RowKey(b) <==> SameSession(a, b)
  {
    if RowKey(a) == RowKey(b) {
      SameKey(a, b);
      if a.id.None? {
        var tailA, tailB := CwdPart(a) + ":" + SourceText(a.source), CwdPart(b) + ":" + SourceText(b.source);
        assert NoColon(NamePart(a)) && NoColon(NamePart(b));
        FirstColon(NamePart(a), tailA, NamePart(b), tailB);
        WordsHaveNoColon(a.engine, a.source);
        WordsHaveNoColon(b.engine, b.source);
        LastColon(CwdPart(a), SourceText(a.source), CwdPart(b), SourceText(b.source));
        SourceOfText(a.source, b.source);
        hide SourceText, EngineText;
      }
    }
  }

  // A row under an id without a colon, as every session id is, never merges with one without an id.
  lemma {:induction false} IdsStandApart(a: Row, b: Row)
    requires a.id.Some? && b.id.None? && NoColon(a.id.value)
    ensures RowKey(a) != RowKey(b)
  {
    assert KeyTail(b)[|NamePart(b)|] == ':' && KeyTail(a) == a.id.value;
    hide RowKey, KeyTail;
    if RowKey(a) == RowKey(b) { SameKey(a, b); }
  }

  lemma {:induction false} MergeKeepsKey(a: Row, b: Row)
    requires RowKey(a) == RowKey(b) && Named(a) && Named(b)
    ensures RowKey(MergeRows(a, b)) == RowKey(a) && Named(MergeRows(a, b))
  {
    SameKey(a, b);
    if a.id.None? && b.id.None? {
      var tailA, tailB := CwdPart(a) + ":" + SourceText(a.source), CwdPart(b) + ":" + SourceText(b.source);
      assert NoColon(NamePart(a)) && NoColon(NamePart(b));
      FirstColon(NamePart(a), tailA, NamePart(b), tailB);
      WordsHaveNoColon(a.engine, a.source);
      WordsHaveNoColon(b.engine, b.source);
      LastColon(CwdPart(a), SourceText(a.source), CwdPart(b), SourceText(b.source));
      SourceOfText(a.source, b.source);
      hide SourceText, EngineText, ScoreSource, RankState;
    }
  }

  // While no name contains a colon, every merged row still has the key of its group.
  lemma {:induction false} GroupKeepsKey(rows: seq<Row>, k: string)
    requires forall r :: r in rows ==> Named(r)
    ensures k in Group(rows).at ==> RowKey(Group(rows).at[k]) == k && Named(Group(rows).at[k])
  {
    hide RowKey, MergeRows, Named;
    if rows != [] {
      var before, last := rows[..|rows| - 1], rows[|rows| - 1];
      assert last in rows;
      assert forall r :: r in before ==> r in rows;
      GroupKeepsKey(before, k);
      if k in Group(before).at && RowKey(last) == k { MergeKeepsKey(Group(before).at[k], last); }
    }
  }

  // Any name with a colon breaks this: there is a row with the same key whose merge
  // with one of that name has another key.
  lemma {:induction false} ColonBreaksKey(x: string, y: string, cwd: string)
    ensures var a := Row(None, Claude, Some(x), Some(y + ":" + cwd), None, Idle, FromIndex, map[]);
      var b := Row(None, Claude, Some(x + ":" + y), None, Some(cwd), Idle, FromIndex, map[]);
      && RowKey(a) == RowKey(b) && Group([a, b]).keys == [RowKey(a)]
      && RowKey(Group([a, b]).at[RowKey(a)]) != RowKey(a)
      && RowKey(MergeRows(a, b)) != RowKey(a)
  {
    var a := Row(None, Claude, Some(x), Some(y + ":" + cwd), None, Idle, FromIndex, map[]);
    var b := Row(None, Claude, Some(x + ":" + y), None, Some(cwd), Idle, FromIndex, map[]);
    assert RowKey(a) == RowKey(b) by {
      assert x + ":" + (y + ":" + cwd + ":" + "index") == x + ":" + y + ":" + (cwd + ":" + "index");
    }
    assert [a, b][..1] == [a] && [a][..0] == [];
    var m := MergeRows(a, b);
    assert |RowKey(m)| < |RowKey(a)| by {
      assert NamePart(m) == x && CwdPart(m) == cwd;
      assert NamePart(a) == x && CwdPart(a) == y + ":" + cwd;
    }
    hide RowKey, MergeRows;
    assert Group([a]).at[RowKey(a)] == a;
    assert Group([a, b]).at[RowKey(a)] == m;
  }

  // A name may be merged under exactly when it has no colon: only then does every
  // merge of a row of that name into a row with the same key keep the key.
  lemma {:induction false} ColonsAloneBreakKeys(name: string)
    ensures NoColon(name) <==>
      forall a: Row, b: Row :: Named(a) && b.name == Some(name) && RowKey(a) == RowKey(b) ==> RowKey(MergeRows(a, b)) == RowKey(a)
  {
    hide RowKey, MergeRows;
    if NoColon(name) {
      forall a: Row, b: Row | Named(a) && b.name == Some(name) && RowKey(a) == RowKey(b)
        ensures RowKey(MergeRows(a, b)) == RowKey(a)
      {
        MergeKeepsKey(a, b);
      }
    } else {
      var x, y := FirstPart(name);
      ColonBreaksKey(x, y, "/");
      var a := Row(None, Claude, Some(x), Some(y + ":" + "/"), None, Idle, FromIndex, map[]);
      var b := Row(None, Claude, Some(x + ":" + y), None, Some("/"), Idle, FromIndex, map[]);
      assert Named(a) && b.name == Some(name) && RowKey(a) == RowKey(b) && RowKey(MergeRows(a, b)) != RowKey(a);
    }
  }

  // A name that can be given to a teammate.
  predicate IsTeammateName(name: string) {
    && name != "" && IsNameStart(name[0])
    && forall i :: 0 < i < |name| ==> IsNameStart(name[i]) || name[i] == '_' || name[i] == '-'
  }

  predicate IsNameStart(c: char) { 'A' <= c <= 'Z' || 'a' <= c <= 'z' || '0' <= c <= '9' }

  // Rows under names that can be given keep their keys through every merge.
  lemma {:induction false} TeammateRowsKeepKeys(rows: seq<Row>, k: string)
    requires forall r :: r in rows && r.name.Some? ==> IsTeammateName(r.name.value)
    ensures k in Group(rows).at ==> RowKey(Group(rows).at[k]) == k
  {
    forall r | r in rows ensures Named(r) {}
    hide RowKey, Group, IsTeammateName;
    GroupKeepsKey(rows, k);
  }

  lemma {:induction false} FirstPart(name: string) returns (x: string, y: string)
    requires !NoColon(name)
    ensures name == x + ":" + y && NoColon(x)
  {
    if name[0] == ':' {
      x, y := "", name[1..];
    } else {
      assert forall i :: 0 < i < |name| ==> name[i] == name[1..][i - 1];
      x, y := FirstPart(name[1..]);
      x := [name[0]] + x;
    }
  }

  // ----- paging -----

  function Page<T>(rows: seq<T>, cursor: nat, limit: nat): seq<T> {
    rows[Min(cursor, |rows|)..Min(cursor + limit, |rows|)]
  }

  function NextCursor<T>(rows: seq<T>, cursor: nat, limit: nat): Option<nat> {
    var shown := |Page(rows, cursor, limit)|;
    if cursor + shown < |rows| then Some(cursor + shown) else None
  }

  // The pages a caller gets by following the cursor from `cursor` on.
  function Follow<T>(rows: seq<T>, cursor: nat, limit: nat): (pages: seq<seq<T>>)
    requires limit > 0
    ensures |pages| > 0
    decreases |rows| - cursor
  {
    var next := NextCursor(rows, cursor, limit);
    [Page(rows, cursor, limit)] + if next.None? then [] else Follow(rows, next.value, limit)
  }

  function Flatten<T>(pages: seq<seq<T>>): seq<T> {
    if pages == [] then [] else pages[0] + Flatten(pages[1..])
  }

  lemma {:induction false} FollowFrom<T>(rows: seq<T>, cursor: nat, limit: nat)
    requires limit > 0 && cursor <= |rows|
    ensures Flatten(Follow(rows, cursor, limit)) == rows[cursor..]
    decreases |rows| - cursor
  {
    var page := Page(rows, cursor, limit);
    var next := NextCursor(rows, cursor, limit);
    var pages := Follow(rows, cursor, limit);
    if next.None? {
      assert pages[1..] == [];
      assert page + [] == page;
    } else {
      FollowFrom(rows, next.value, limit);
      assert pages[1..] == Follow(rows, next.value, limit);
      assert page + rows[next.value..] == rows[cursor..];
    }
  }

  // Following the cursor from the start with any positive limit ends, and shows each
  // row that passes the filter exactly once and in order, no page over the limit.
  lemma {:induction false} PagesShowEveryRowOnce<T(!new)>(rows: seq<T>, keep: T -> bool, limit: nat)
    requires limit > 0
    ensures var shown := Filter(keep, rows);
      && Flatten(Follow(shown, 0, limit)) == shown
      && forall i :: 0 <= i < |Follow(shown, 0, limit)| ==> |Follow(shown, 0, limit)[i]| <= limit
  {
    var shown := Filter(keep, rows);
    FollowFrom(shown, 0, limit);
    assert shown[0..] == shown;
    PageSizes(shown, 0, limit);
  }

  lemma {:induction false} PageSizes<T>(rows: seq<T>, cursor: nat, limit: nat)
    requires limit > 0
    ensures forall i :: 0 <= i < |Follow(rows, cursor, limit)| ==> |Follow(rows, cursor, limit)[i]| <= limit
    decreases |rows| - cursor
  {
    var next := NextCursor(rows, cursor, limit);
    if next.Some? { PageSizes(rows, next.value, limit); }
  }
}
