// The durable inbound queue: an append-only file of one JSON event a line, the
// rows it stands for, and the repair of a line that a crash cut short.

module QueueEvents {
  import opened Prelude
  import opened OrderedMaps
  import opened Json

  // A string record, in the order in which its members were set.
  type Meta = seq<(string, string)>

  function Lookup(meta: Meta, key: string): Option<string> {
    if meta == [] then None
    else if meta[|meta| - 1].0 == key then Some(meta[|meta| - 1].1)
    else Lookup(meta[..|meta| - 1], key)
  }

  datatype Event =
    | Received(eventId: string, content: string, meta: Meta, receivedAt: NumberText, byGeneration: NumberText)
    | Delivered(eventId: string, deliveredAt: NumberText)

  function MetaFields(meta: Meta): Fields {
    if meta == [] then NoFields else Field(meta[0].0, Str(meta[0].1), MetaFields(meta[1..]))
  }

  function FieldsMeta(f: Fields): Option<Meta> {
    match f
    case NoFields => Some([])
    case Field(k, Str(s), rest) =>
      var more := FieldsMeta(rest);
      if more.Some? then Some([(k, s)] + more.value) else None
    case _ => None
  }

  function ToJson(e: Event): Json {
    match e
    case Received(id, content, meta, at, generation) =>
      Obj(Field("t", Str("received"),
          Field("eventId", Str(id),
          Field("content", Str(content),
          Field("meta", Obj(MetaFields(meta)),
          Field("receivedAt", Num(at),
          Field("byGeneration", Num(generation), NoFields)))))))
    case Delivered(id, at) =>
      Obj(Field("t", Str("delivered"),
          Field("eventId", Str(id),
          Field("deliveredAt", Num(at), NoFields))))
  }

  // The check a parsed line must pass, and the event it then is.
  function FromJson(v: Json): Option<Event> {
    if !v.Obj? then None
    else
      var id := Get(v.fields, "eventId");
      var t := Get(v.fields, "t");
      if id.None? || !id.value.Str? || t.None? then None
      else if t.value == Str("delivered") then
        match Get(v.fields, "deliveredAt")
        case Some(Num(at)) => Some(Delivered(id.value.text, at))
        case _ => None
      else if t.value == Str("received") then
        match (Get(v.fields, "content"), Get(v.fields, "meta"),
               Get(v.fields, "receivedAt"), Get(v.fields, "byGeneration"))
        case (Some(Str(content)), Some(Obj(m)), Some(Num(at)), Some(Num(generation))) =>
          var meta := FieldsMeta(m);
          if meta.Some? then Some(Received(id.value.text, content, meta.value, at, generation)) else None
        case _ => None
      else None
  }

  function Encode(e: Event): string { Stringify(ToJson(e)) }

  function Decode(line: string): Option<Event> {
    var v := Parse(line);
    if v.Some? then FromJson(v.value) else None
  }

  lemma {:induction false} MetaRoundTrip(meta: Meta)
    ensures FieldsMeta(MetaFields(meta)) == Some(meta)
  {
    if meta != [] {
      MetaRoundTrip(meta[1..]);
      assert [meta[0]] + meta[1..] == meta;
    }
  }

  // A member in front of others hides none of them, and is found if it is the only one of its name.
  lemma GetOver(key: string, v: Json, rest: Fields)
    ensures forall k :: k != key ==> Get(Field(key, v, rest), k) == Get(rest, k)
    ensures Get(rest, key).None? ==> Get(Field(key, v, rest), key) == Some(v)
  {}

  lemma GetNothing()
    ensures forall k :: Get(NoFields, k) == None
  {}

  lemma {:induction false} FromToJson(e: Event)
    ensures FromJson(ToJson(e)) == Some(e)
  {
    match e
    case Received(id, content, meta, at, generation) => FromToReceived(id, content, meta, at, generation);
    case Delivered(id, at) =>
      var f3 := Field("deliveredAt", Num(at), NoFields);
      var f2 := Field("eventId", Str(id), f3);
      GetNothing();
      GetOver("deliveredAt", Num(at), NoFields);
      GetOver("eventId", Str(id), f3);
      GetOver("t", Str("delivered"), f2);
      hide Get, IsNumber;
  }

  lemma {:induction false} FromToReceived(id: string, content: string, meta: Meta, at: NumberText, generation: NumberText)
    ensures FromJson(ToJson(Received(id, content, meta, at, generation))) == Some(Received(id, content, meta, at, generation))
  {
    hide Get, FieldsMeta, MetaFields, IsNumber;
    var f6 := Field("byGeneration", Num(generation), NoFields);
    var f5 := Field("receivedAt", Num(at), f6);
    var f4 := Field("meta", Obj(MetaFields(meta)), f5);
    var f3 := Field("content", Str(content), f4);
    var f2 := Field("eventId", Str(id), f3);
    GetNothing();
    GetOver("byGeneration", Num(generation), NoFields);
    GetOver("receivedAt", Num(at), f6);
    GetOver("meta", Obj(MetaFields(meta)), f5);
    GetOver("content", Str(content), f4);
    GetOver("eventId", Str(id), f3);
    GetOver("t", Str("received"), f2);
    MetaRoundTrip(meta);
  }

  // A line that was written completely reads back as its event.
  lemma {:induction false} DecodeEncode(e: Event)
    ensures Decode(Encode(e)) == Some(e)
  {
    RoundTrip(ToJson(e));
    FromToJson(e);
  }

  // A line that was cut short is never taken for an event, not even another one.
  lemma {:induction false} DecodeTorn(e: Event, n: nat)
    requires n < |Encode(e)|
    ensures Decode(Encode(e)[..n]) == None
  {
    NoPrefixParses(ToJson(e), n);
  }

  lemma DecodeNothing()
    ensures Decode("") == None
  {}

  lemma {:induction false} EncodeIsOneLine(e: Event)
    ensures Encode(e) != "" && Encode(e)[0] == '{'
    ensures forall i :: 0 <= i < |Encode(e)| ==> Encode(e)[i] != '\n'
  {
    StringifyPrintable(ToJson(e));
  }

  // ----- the rows an event sequence stands for -----

  datatype Row = Row(eventId: string, content: string, meta: Meta, receivedAt: NumberText,
                     byGeneration: NumberText, deliveredAt: Option<NumberText>)

  type Rows = OrderedMap<string, Row>

  function Apply(rows: Rows, e: Event): Rows {
    match e
    case Received(id, content, meta, at, generation) =>
      if id in rows.at then rows else Set(rows, id, Row(id, content, meta, at, generation, None))
    case Delivered(id, at) =>
      if id in rows.at && rows.at[id].deliveredAt.None?
      then Set(rows, id, rows.at[id].(deliveredAt := Some(at)))
      else rows
  }

  function Fold(events: seq<Event>): Rows {
    if events == [] then Empty() else Apply(Fold(events[..|events| - 1]), events[|events| - 1])
  }

  lemma FoldSnoc(events: seq<Event>, e: Event)
    ensures Fold(events + [e]) == Apply(Fold(events), e)
  {
    assert (events + [e])[..|events|] == events;
  }

  function Pending(rows: Rows): seq<Row> {
    Filter((r: Row) => r.deliveredAt.None?, Values(rows))
  }

  // The row of the first received event of an id, and the first delivery time.
  function FirstReceived(events: seq<Event>, id: string): Option<Row> {
    if events == [] then None
    else
      var before := FirstReceived(events[..|events| - 1], id);
      if before.Some? then before
      else match events[|events| - 1]
        case Received(i, content, meta, at, generation) =>
          if i == id then Some(Row(id, content, meta, at, generation, None)) else None
        case Delivered(_, _) => None
  }

  function FirstDelivered(events: seq<Event>, id: string): Option<NumberText> {
    if events == [] then None
    else
      var before := FirstDelivered(events[..|events| - 1], id);
      if before.Some? then before
      else match events[|events| - 1]
        case Delivered(i, at) => if i == id then Some(at) else None
        case _ => None
  }

  // No event is marked delivered before it was received.
  ghost predicate Causal(events: seq<Event>) {
    events != [] ==>
      var before, e := events[..|events| - 1], events[|events| - 1];
      Causal(before) && (e.Delivered? ==> FirstReceived(before, e.eventId).Some?)
  }

  // One row for each received id, with the first content and the first delivery time.
  lemma {:induction false} FoldMeaning(events: seq<Event>, id: string)
    requires Causal(events)
    ensures id in Fold(events).at <==> FirstReceived(events, id).Some?
    ensures FirstReceived(events, id).Some? ==>
      Fold(events).at[id] == FirstReceived(events, id).value.(deliveredAt := FirstDelivered(events, id))
    ensures FirstReceived(events, id).None? ==> FirstDelivered(events, id).None?
  {
    if events != [] {
      var p, e := events[..|events| - 1], events[|events| - 1];
      FoldMeaning(p, id);
      FoldMeaning(p, e.eventId);
    }
  }

  lemma {:induction false} FoldIds(events: seq<Event>)
    ensures forall id :: id in Fold(events).at ==> Fold(events).at[id].eventId == id
  {
    hide Apply;
    if events != [] {
      FoldIds(events[..|events| - 1]);
      ApplyIds(Fold(events[..|events| - 1]), events[|events| - 1]);
    }
  }

  lemma ApplyIds(rows: Rows, e: Event)
    requires forall id :: id in rows.at ==> rows.at[id].eventId == id
    ensures forall id :: id in Apply(rows, e).at ==> Apply(rows, e).at[id].eventId == id
  {
    hide Apply;
    forall id | id in Apply(rows, e).at ensures Apply(rows, e).at[id].eventId == id {
      ApplyAt(rows, e, id);
    }
  }

  lemma ApplyAt(rows: Rows, e: Event, id: string)
    requires id in Apply(rows, e).at
    ensures id != e.eventId ==> id in rows.at && Apply(rows, e).at[id] == rows.at[id]
    ensures id == e.eventId && id !in rows.at ==> Apply(rows, e).at[id].eventId == id
    ensures id == e.eventId && id in rows.at ==> Apply(rows, e).at[id].eventId == rows.at[id].eventId
  {}

  lemma ValuesIn(rows: Rows, r: Row)
    ensures r in Values(rows) <==> exists id :: id in rows.at && rows.at[id] == r
  {
    hide Values;
    if r in Values(rows) {
      var i :| 0 <= i < |rows.keys| && Values(rows)[i] == r;
      assert rows.keys[i] in rows.at;
    }
    if id :| id in rows.at && rows.at[id] == r {
      var i :| 0 <= i < |rows.keys| && rows.keys[i] == id;
      assert Values(rows)[i] == r;
    }
  }

  lemma {:induction false} PendingIn(rows: Rows, r: Row)
    ensures r in Pending(rows) <==> r.deliveredAt.None? && exists id :: id in rows.at && rows.at[id] == r
  {
    ValuesIn(rows, r);
    hide Values, Filter;
  }

  // Pending is received minus delivered.
  lemma {:induction false} PendingMeaning(events: seq<Event>, r: Row)
    requires Causal(events)
    ensures r in Pending(Fold(events)) <==>
      FirstReceived(events, r.eventId) == Some(r) && FirstDelivered(events, r.eventId).None?
  {
    hide FirstReceived, FirstDelivered, Causal, Fold, Pending;
    FoldMeaning(events, r.eventId);
    FoldIds(events);
    FirstReceivedRow(events, r.eventId);
    PendingIn(Fold(events), r);
  }

  predicate Brings(e: Event, id: string) { e.Received? && e.eventId == id }

  // The event that first brought the id.
  ghost predicate BroughtBy(events: seq<Event>, id: string, k: int) {
    0 <= k < |events| && Brings(events[k], id) && forall j :: 0 <= j < k ==> !Brings(events[j], id)
  }

  lemma BroughtMore(events: seq<Event>, e: Event, id: string, k: int)
    ensures BroughtBy(events, id, k) ==> BroughtBy(events + [e], id, k) && 0 <= k < |events|
  {
    hide Brings;
    assert forall j :: 0 <= j < |events| ==> (events + [e])[j] == events[j];
  }

  ghost predicate Brought(events: seq<Event>, id: string) { exists k :: 0 <= k < |events| && Brings(events[k], id) }

  lemma BroughtSnoc(events: seq<Event>, e: Event, id: string)
    ensures Brought(events + [e], id) <==> Brought(events, id) || Brings(e, id)
  {
    hide Brings;
    var all := events + [e];
    assert all[|events|] == e && forall j :: 0 <= j < |events| ==> all[j] == events[j];
  }

  lemma BroughtLast(events: seq<Event>, e: Event, id: string)
    requires Brings(e, id) && !Brought(events, id)
    ensures BroughtBy(events + [e], id, |events|)
  {
    hide Brings;
    assert forall j :: 0 <= j < |events| ==> (events + [e])[j] == events[j];
  }

  lemma {:induction false} RowsBrought(events: seq<Event>, id: string)
    ensures id in Fold(events).at <==> Brought(events, id)
  {
    if events != [] {
      var p, e := events[..|events| - 1], events[|events| - 1];
      RowsBrought(p, id);
      SplitLast([], events);
      BroughtSnoc(p, e, id);
      hide Brought;
    }
  }

  lemma {:induction false} FirstBringer(events: seq<Event>, id: string) returns (k: int)
    requires Brought(events, id)
    ensures BroughtBy(events, id, k)
  {
    hide Brings;
    var p, e := events[..|events| - 1], events[|events| - 1];
    SplitLast([], events);
    BroughtSnoc(p, e, id);
    if Brought(p, id) {
      k := FirstBringer(p, id);
      BroughtMore(p, e, id, k);
    } else {
      BroughtLast(p, e, id);
      k := |p|;
    }
    hide Brought, BroughtBy;
  }

  // The ids stand in the order in which they were first brought.
  ghost predicate InOrder(events: seq<Event>, keys: seq<string>) {
    forall i, j :: 0 <= i < j < |keys| ==> Earlier(events, keys[i], keys[j])
  }

  ghost predicate Earlier(events: seq<Event>, a: string, b: string) {
    exists k, l :: k < l && BroughtBy(events, a, k) && BroughtBy(events, b, l)
  }

  lemma EarlierMore(events: seq<Event>, e: Event, a: string, b: string)
    requires Earlier(events, a, b)
    ensures Earlier(events + [e], a, b)
  {
    hide BroughtBy;
    var k, l :| k < l && BroughtBy(events, a, k) && BroughtBy(events, b, l);
    BroughtMore(events, e, a, k);
    BroughtMore(events, e, b, l);
  }

  lemma {:induction false} KeysInOrder(events: seq<Event>)
    ensures InOrder(events, Fold(events).keys)
  {
    if events != [] {
      var p, e := events[..|events| - 1], events[|events| - 1];
      KeysInOrder(p);
      SplitLast([], events);
      hide Earlier, Fold;
      var before, after := Fold(p).keys, Fold(events).keys;
      KeysSnoc(p, e);
      forall i, j | 0 <= i < j < |after| ensures Earlier(events, after[i], after[j]) {
        if j < |before| { EarlierMore(p, e, before[i], before[j]); } else { NewestIsLast(p, e, before[i]); }
      }
    }
  }

  lemma KeysSnoc(events: seq<Event>, e: Event)
    ensures Fold(events + [e]).keys ==
      if e.Received? && e.eventId !in Fold(events).at then Fold(events).keys + [e.eventId] else Fold(events).keys
  {
    FoldSnoc(events, e);
    hide Fold;
  }

  lemma NewestIsLast(events: seq<Event>, e: Event, id: string)
    requires id in Fold(events).at && e.Received? && e.eventId !in Fold(events).at
    ensures Earlier(events + [e], id, e.eventId)
  {
    hide Fold, BroughtBy, Brought;
    RowsBrought(events, id);
    RowsBrought(events, e.eventId);
    var k := FirstBringer(events, id);
    BroughtMore(events, e, id, k);
    BroughtLast(events, e, e.eventId);
  }

  // What is pending stands in the order in which it was first received.
  lemma {:induction false} PendingInOrder(events: seq<Event>, i: nat, j: nat)
    requires Causal(events) && i < j < |Pending(Fold(events))|
    ensures Earlier(events, Pending(Fold(events))[i].eventId, Pending(Fold(events))[j].eventId)
  {
    hide Fold, Earlier, Causal, Filter;
    KeysInOrder(events);
    FoldIds(events);
    var rows := Fold(events);
    var k, l := FilterKeepsOrder((r: Row) => r.deliveredAt.None?, Values(rows), i, j);
    assert rows.keys[k] in rows.at && rows.keys[l] in rows.at;
  }

  lemma {:induction false} FirstReceivedRow(events: seq<Event>, id: string)
    ensures FirstReceived(events, id).Some? ==>
      FirstReceived(events, id).value.eventId == id && FirstReceived(events, id).value.deliveredAt.None?
  {
    if events != [] { FirstReceivedRow(events[..|events| - 1], id); }
  }
}

module InboundQueues {
  import opened Prelude
  import opened OrderedMaps
  import opened QueueEvents
  import opened Json

  // ----- lines -----

  function Split(text: string): (lines: seq<string>)
    ensures |lines| > 0
  {
    if text == "" then [""]
    else
      var more := Split(text[1..]);
      if text[0] == '\n' then [""] + more else [[text[0]] + more[0]] + more[1..]
  }

  predicate OneLine(s: string) { forall i :: 0 <= i < |s| ==> s[i] != '\n' }

  predicate EndsWithNewline(text: string) { text != "" && text[|text| - 1] == '\n' }

  // The white space that `trim` strips, as far as it is ASCII.
  predicate Blank(line: string) {
    forall i :: 0 <= i < |line| ==> line[i] == ' ' || 9 <= line[i] as int <= 13
  }

  function LastNewline(text: string): (r: int)
    ensures -1 <= r < |text|
    ensures r >= 0 ==> text[r] == '\n'
    ensures forall k :: r < k < |text| ==> text[k] != '\n'
  {
    if text == "" then -1
    else if text[|text| - 1] == '\n' then |text| - 1
    else LastNewline(text[..|text| - 1])
  }

  // ----- reading -----

  // The lines that are read. A last line without its newline that is not an
  // event is a torn write, and is passed over.
  function ReadableLines(text: string): seq<string> {
    var lines := Split(text);
    var last := lines[|lines| - 1];
    if EndsWithNewline(text) || Blank(last) || Decode(last).Some? then lines else lines[..|lines| - 1]
  }

  predicate GoodLine(line: string) { Blank(line) || Decode(line).Some? }

  function EventsOf(lines: seq<string>): seq<Event> {
    if lines == [] then []
    else
      var before := EventsOf(lines[..|lines| - 1]);
      var last := lines[|lines| - 1];
      if Blank(last) || Decode(last).None? then before else before + [Decode(last).value]
  }

  // The number of the first line that stops the reader.
  datatype BadLine = BadLine(line: nat)

  ghost predicate ReadsAs(text: string, r: Result<Rows, BadLine>) {
    var lines := ReadableLines(text);
    match r
    case Ok(rows) => (forall i :: 0 <= i < |lines| ==> GoodLine(lines[i])) && rows == Fold(EventsOf(lines))
    case Err(BadLine(n)) =>
      0 < n <= |lines| && !GoodLine(lines[n - 1]) && forall i :: 0 <= i < n - 1 ==> GoodLine(lines[i])
  }

  lemma EventsOfTake(lines: seq<string>, k: nat)
    requires k < |lines|
    ensures EventsOf(lines[..k + 1]) ==
            if Blank(lines[k]) || Decode(lines[k]).None? then EventsOf(lines[..k])
            else EventsOf(lines[..k]) + [Decode(lines[k]).value]
  {
    assert lines[..k + 1][..k] == lines[..k];
  }

  lemma ReadsLines(text: string, events: seq<Event>)
    requires EventsOf(ReadableLines(text)) == events
    requires forall i :: 0 <= i < |ReadableLines(text)| ==> GoodLine(ReadableLines(text)[i])
    ensures ReadsAs(text, Ok(Fold(events)))
  {}

  lemma FoldNothing(lines: seq<string>)
    ensures Fold(EventsOf(lines[..0])) == Empty()
  {}

  lemma ReadsBad(text: string, idx: nat)
    requires idx < |Split(text)| && !GoodLine(Split(text)[idx])
    requires idx == |Split(text)| - 1 ==> EndsWithNewline(text)
    requires forall i :: 0 <= i < idx ==> GoodLine(Split(text)[i])
    ensures ReadsAs(text, Err(BadLine(idx + 1)))
  {}

  method ReadText(text: string) returns (r: Result<Rows, BadLine>)
    ensures ReadsAs(text, r)
  {
    hide Decode, Blank, Split, Fold, EventsOf, ReadsAs;
    var rows: Rows := Empty();
    var lines := Split(text);
    var idx := 0;
    FoldNothing(lines);
    while idx < |lines|
      invariant 0 <= idx <= |lines|
      invariant forall i :: 0 <= i < idx ==> GoodLine(lines[i])
      invariant rows == Fold(EventsOf(lines[..idx]))
    {
      var line := lines[idx];
      EventsOfTake(lines, idx);
      if !Blank(line) {
        var parsed := Decode(line);
        if parsed.None? {
          if idx == |lines| - 1 && !EndsWithNewline(text) {
            break;
          }
          ReadsBad(text, idx);
          return Err(BadLine(idx + 1));
        }
        var e := parsed.value;
        FoldSnoc(EventsOf(lines[..idx]), e);
        if e.Received? {
          if e.eventId !in rows.at {
            rows := Set(rows, e.eventId, Row(e.eventId, e.content, e.meta, e.receivedAt, e.byGeneration, None));
          }
        } else {
          var row := Find(rows, e.eventId);
          if row.Some? && row.value.deliveredAt.None? {
            rows := Set(rows, e.eventId, row.value.(deliveredAt := Some(e.deliveredAt)));
          }
        }
      }
      idx := idx + 1;
    }
    assert lines[..|lines|] == lines;
    assert ReadableLines(text) == lines[..idx];
    ReadsLines(text, EventsOf(lines[..idx]));
    return Ok(rows);
  }

  // ----- appending -----

  function LastLine(text: string): string { text[LastNewline(text) + 1..] }

  // What an append puts in front of its event: a missing newline, when the last
  // line is a whole event.
  function RepairPrefix(text: string): string {
    if text == "" || EndsWithNewline(text) || Decode(LastLine(text)).None? then "" else "\n"
  }

  // What an append keeps of the file: everything but a torn last line.
  function RepairedText(text: string): string {
    if text == "" || EndsWithNewline(text) || Decode(LastLine(text)).Some? then text
    else text[..LastNewline(text) + 1]
  }

  function AppendText(text: string, e: Event): string {
    RepairedText(text) + (RepairPrefix(text) + Encode(e) + "\n")
  }

  // The file on disk. `None` is a file that does not exist.
  class LogFile {
    var contents: Option<string>

    constructor (contents: Option<string>)
      ensures this.contents == contents
    {
      this.contents := contents;
    }

    function Text(): string
      reads this
    {
      contents.GetOr("")
    }

    method RepairTailForAppend() returns (prefix: string)
      modifies this
      ensures Text() == RepairedText(old(Text()))
      ensures prefix == RepairPrefix(old(Text()))
      ensures contents.None? <==> old(contents.None?)
    {
      hide Decode, LastNewline;
      if contents.None? { return ""; }
      var text := contents.value;
      if text == "" || EndsWithNewline(text) { return ""; }
      var lastNewline := LastNewline(text);
      var tail := if lastNewline == -1 then text else text[lastNewline + 1..];
      assert tail == LastLine(text);
      var parsed := Decode(tail);
      if parsed.Some? { return "\n"; }
      contents := Some(if lastNewline == -1 then "" else text[..lastNewline + 1]);
      return "";
    }

    method AppendEvent(e: Event)
      modifies this
      ensures contents == Some(AppendText(old(Text()), e))
    {
      var prefix := RepairTailForAppend();
      contents := Some(contents.GetOr("") + (prefix + Encode(e) + "\n"));
    }
  }

  // The queue one daemon opens over a file that other daemons may append to as well.
  class InboundQueue {
    const log: LogFile

    constructor (log: LogFile)
      ensures this.log == log
    {
      this.log := log;
    }

    method ReadRows() returns (r: Result<Rows, BadLine>)
      ensures ReadsAs(log.Text(), r)
    {
      if log.contents.None? {
        assert log.Text() == "";
        assert Split("") == [""];
        r := Ok(Empty());
      } else {
        r := ReadText(log.contents.value);
      }
    }

    // The row is in the file when this returns normally.
    method Enqueue(id: string, content: string, meta: Meta, at: NumberText, generation: NumberText)
        returns (r: Result<bool, BadLine>)
      modifies log
      ensures r.Err? ==> ReadsAs(old(log.Text()), Err(r.error)) && log.contents == old(log.contents)
      ensures r.Ok? ==> exists rows: Rows ::
        && ReadsAs(old(log.Text()), Ok(rows))
        && r.value == (id !in rows.at)
      ensures r.Ok? && r.value ==>
        log.Text() == AppendText(old(log.Text()), Received(id, content, meta, at, generation))
      ensures r.Ok? && !r.value ==> log.contents == old(log.contents)
    {
      var rows := ReadRows();
      if rows.Err? { return Err(rows.error); }
      if id in rows.value.at { return Ok(false); }
      log.AppendEvent(Received(id, content, meta, at, generation));
      return Ok(true);
    }

    method MarkDelivered(id: string, at: NumberText) returns (r: Result<bool, BadLine>)
      modifies log
      ensures r.Err? ==> ReadsAs(old(log.Text()), Err(r.error)) && log.contents == old(log.contents)
      ensures r.Ok? ==> exists rows: Rows ::
        && ReadsAs(old(log.Text()), Ok(rows))
        && r.value == (id in rows.at && rows.at[id].deliveredAt.None?)
      ensures r.Ok? && r.value ==> log.Text() == AppendText(old(log.Text()), Delivered(id, at))
      ensures r.Ok? && !r.value ==> log.contents == old(log.contents)
    {
      var rows := ReadRows();
      if rows.Err? { return Err(rows.error); }
      var row := Find(rows.value, id);
      if row.None? || row.value.deliveredAt.Some? { return Ok(false); }
      log.AppendEvent(Delivered(id, at));
      return Ok(true);
    }

    method PendingRows() returns (r: Result<seq<Row>, BadLine>)
      ensures r.Err? ==> ReadsAs(log.Text(), Err(r.error))
      ensures r.Ok? ==> exists rows: Rows :: ReadsAs(log.Text(), Ok(rows)) && r.value == Pending(rows)
    {
      var rows := ReadRows();
      if rows.Err? { return Err(rows.error); }
      return Ok(Pending(rows.value));
    }
  }

  // ----- every crash leaves a readable log -----

  function LogText(events: seq<Event>): string {
    if events == [] then ""
    else LogText(events[..|events| - 1]) + Encode(events[|events| - 1]) + "\n"
  }

  // `text` is what a single writer can have left behind after `events` reached
  // the file: all lines whole, the last newline missing, or a torn line at the end.
  ghost predicate Holds(text: string, events: seq<Event>) {
    || text == LogText(events)
    || (events != [] && text == LogText(events[..|events| - 1]) + Encode(events[|events| - 1]))
    || exists e, n :: 0 < n < |Encode(e)| && text == LogText(events) + Encode(e)[..n]
  }

  lemma {:induction false} SplitOneLine(s: string)
    requires OneLine(s)
    ensures Split(s) == [s]
  {
    if s != "" {
      SplitOneLine(s[1..]);
      assert [s[0]] + s[1..] == s;
    }
  }

  lemma {:induction false} SplitAfter(line: string, text: string)
    requires OneLine(line)
    ensures Split(line + "\n" + text) == [line] + Split(text)
  {
    if line == "" {
      assert line + "\n" + text == "\n" + text;
      assert ("\n" + text)[1..] == text;
    } else {
      assert (line + "\n" + text)[1..] == line[1..] + "\n" + text;
      SplitAfter(line[1..], text);
      assert [line[0]] + line[1..] == line;
    }
  }

  function EncodeEach(events: seq<Event>): (lines: seq<string>)
    ensures |lines| == |events|
    ensures forall i :: 0 <= i < |lines| ==> lines[i] == Encode(events[i])
  {
    seq(|events|, i requires 0 <= i < |events| => Encode(events[i]))
  }

  lemma {:induction false} SplitLog(events: seq<Event>, tail: string)
    ensures Split(LogText(events) + tail) == EncodeEach(events) + Split(tail)
  {
    hide Encode, Decode, Split;
    if events == [] {
      assert LogText(events) + tail == tail;
      assert EncodeEach(events) + Split(tail) == Split(tail);
    } else {
      var p, last := events[..|events| - 1], events[|events| - 1];
      EncodeIsOneLine(last);
      assert LogText(events) + tail == LogText(p) + (Encode(last) + "\n" + tail);
      SplitLog(p, Encode(last) + "\n" + tail);
      SplitAfter(Encode(last), tail);
      assert EncodeEach(events) == EncodeEach(p) + [Encode(last)];
    }
  }

  lemma {:induction false} ReadEncoded(events: seq<Event>)
    ensures EventsOf(EncodeEach(events)) == events
    ensures forall i :: 0 <= i < |events| ==> GoodLine(EncodeEach(events)[i])
  {
    hide Encode, Decode;
    if events != [] {
      var p, last := events[..|events| - 1], events[|events| - 1];
      ReadEncoded(p);
      DecodeEncode(last);
      EncodeIsOneLine(last);
      assert EncodeEach(events)[..|events| - 1] == EncodeEach(p);
      assert forall i :: 0 <= i < |p| ==> EncodeEach(events)[i] == EncodeEach(p)[i];
    }
  }

  lemma {:induction false} LogTextEnds(events: seq<Event>)
    ensures if events == [] then LogText(events) == "" else EndsWithNewline(LogText(events))
  {}

  lemma {:induction false} ReadTail(events: seq<Event>, tail: string)
    requires OneLine(tail) && Decode(tail).None?
    requires tail == "" || tail[0] == '{'
    ensures ReadsAs(LogText(events) + tail, Ok(Fold(events)))
  {
    hide Encode, Decode, Split, LogText, Fold, ReadsAs;
    var text := LogText(events) + tail;
    SplitLog(events, tail);
    SplitOneLine(tail);
    ReadEncoded(events);
    if tail != "" { assert text[|text| - 1] == tail[|tail| - 1]; }
    ReadsBehind(text, EncodeEach(events), tail);
  }

  lemma {:induction false} ReadsBehind(text: string, body: seq<string>, tail: string)
    requires Split(text) == body + [tail]
    requires forall i :: 0 <= i < |body| ==> GoodLine(body[i])
    requires tail == "" || (!EndsWithNewline(text) && tail[0] == '{' && Decode(tail).None?)
    ensures ReadsAs(text, Ok(Fold(EventsOf(body))))
  {
    hide Decode, Split, Fold, ReadsAs, EventsOf;
    assert (body + [tail])[..|body|] == body;
    if tail == "" {
      EventsOfBlank(body, "");
    }
    ReadsLines(text, EventsOf(body));
  }

  lemma EventsOfBlank(lines: seq<string>, blank: string)
    requires Blank(blank)
    ensures EventsOf(lines + [blank]) == EventsOf(lines)
  {
    assert (lines + [blank])[..|lines|] == lines;
  }

  // A whole line that is no event is an error, reported with its number, whatever
  // stands behind it.
  lemma {:induction false} BadLineIsTold(events: seq<Event>, bad: string, behind: string)
    requires OneLine(bad) && !Blank(bad) && Decode(bad).None?
    ensures ReadsAs(LogText(events) + (bad + "\n" + behind), Err(BadLine(|events| + 1)))
  {
    hide Encode, Decode, Split, LogText, Blank;
    var text := LogText(events) + (bad + "\n" + behind);
    SplitLog(events, bad + "\n" + behind);
    SplitAfter(bad, behind);
    EncodedAreGood(events);
    var lines := Split(text);
    assert lines == EncodeEach(events) + [bad] + Split(behind);
    assert lines[|events|] == bad && forall i :: 0 <= i < |events| ==> lines[i] == EncodeEach(events)[i];
    ReadsBad(text, |events|);
  }

  lemma {:induction false} EncodedAreGood(events: seq<Event>)
    ensures |EncodeEach(events)| == |events|
    ensures forall i :: 0 <= i < |events| ==> GoodLine(EncodeEach(events)[i])
  {
    hide GoodLine;
    ReadEncoded(events);
  }

  // Reading gives exactly the fold of the events that reached the file.
  lemma {:induction false} ReadHolds(text: string, events: seq<Event>)
    requires Holds(text, events)
    ensures ReadsAs(text, Ok(Fold(events)))
  {
    hide Encode, Decode, Split, EventsOf;
    if text == LogText(events) {
      assert text + "" == text;
      DecodeNothing();
      ReadTail(events, "");
    } else if events != [] && text == LogText(events[..|events| - 1]) + Encode(events[|events| - 1]) {
      var p, last := events[..|events| - 1], events[|events| - 1];
      EncodeIsOneLine(last);
      SplitLog(p, Encode(last));
      SplitOneLine(Encode(last));
      ReadEncoded(events);
      assert EncodeEach(events) == EncodeEach(p) + [Encode(last)];
      DecodeEncode(last);
    } else {
      var e, n :| 0 < n < |Encode(e)| && text == LogText(events) + Encode(e)[..n];
      EncodeIsOneLine(e);
      DecodeTorn(e, n);
      ReadTail(events, Encode(e)[..n]);
    }
  }

  lemma {:induction false} LastNewlineBehind(base: string, tail: string)
    requires OneLine(tail)
    ensures LastNewline(base + tail) == LastNewline(base)
  {
    if tail == "" {
      assert base + tail == base;
    } else {
      assert (base + tail)[|base + tail| - 1] == tail[|tail| - 1];
      assert (base + tail)[..|base + tail| - 1] == base + tail[..|tail| - 1];
      LastNewlineBehind(base, tail[..|tail| - 1]);
    }
  }

  lemma {:induction false} LastLineOf(events: seq<Event>, tail: string)
    requires OneLine(tail)
    ensures LastNewline(LogText(events) + tail) + 1 == |LogText(events)|
    ensures LastLine(LogText(events) + tail) == tail
  {
    var base := LogText(events);
    LogTextEnds(events);
    hide LogText;
    LastNewlineBehind(base, tail);
    assert (base + tail)[|base|..] == tail;
  }

  lemma RepairWhole(events: seq<Event>)
    ensures RepairedText(LogText(events)) == LogText(events) && RepairPrefix(LogText(events)) == ""
  {
    hide Encode, Decode, LastLine, LogText;
    LogTextEnds(events);
  }

  lemma RepairUnended(p: seq<Event>, last: Event)
    ensures RepairedText(LogText(p) + Encode(last)) == LogText(p) + Encode(last)
    ensures RepairPrefix(LogText(p) + Encode(last)) == "\n"
  {
    hide Encode, Decode, LastLine, LogText;
    var text := LogText(p) + Encode(last);
    EncodeIsOneLine(last);
    DecodeEncode(last);
    LastLineOf(p, Encode(last));
    assert text[|text| - 1] == Encode(last)[|Encode(last)| - 1];
  }

  lemma RepairTorn(events: seq<Event>, e: Event, n: nat)
    requires 0 < n < |Encode(e)|
    ensures RepairedText(LogText(events) + Encode(e)[..n]) == LogText(events)
    ensures RepairPrefix(LogText(events) + Encode(e)[..n]) == ""
  {
    hide Encode, Decode, LastLine, LogText;
    var text := LogText(events) + Encode(e)[..n];
    EncodeIsOneLine(e);
    DecodeTorn(e, n);
    LastLineOf(events, Encode(e)[..n]);
    assert text[|text| - 1] == Encode(e)[n - 1];
  }

  // The repair finds the whole events again, whichever way the last write ended.
  lemma {:induction false} RepairHolds(text: string, events: seq<Event>)
    requires Holds(text, events)
    ensures RepairedText(text) + RepairPrefix(text) == LogText(events)
    ensures RepairPrefix(text) != "" ==>
      events != [] && RepairedText(text) == LogText(events[..|events| - 1]) + Encode(events[|events| - 1])
  {
    hide Encode, Decode, LastLine, RepairedText, RepairPrefix;
    if text == LogText(events) {
      RepairWhole(events);
    } else if events != [] && text == LogText(events[..|events| - 1]) + Encode(events[|events| - 1]) {
      RepairUnended(events[..|events| - 1], events[|events| - 1]);
    } else {
      var e, n :| 0 < n < |Encode(e)| && text == LogText(events) + Encode(e)[..n];
      RepairTorn(events, e, n);
    }
  }

  // One append by one writer. With `reach` the process dies after that many
  // characters of the write are in the file; without it, before the file is touched.
  datatype Attempt = Attempt(event: Event, reach: Option<nat>)

  function WriteText(text: string, e: Event): string { RepairPrefix(text) + Encode(e) + "\n" }

  function After(text: string, a: Attempt): string {
    if a.reach.None? then text
    else RepairedText(text) + WriteText(text, a.event)[..Min(a.reach.value, |WriteText(text, a.event)|)]
  }

  // The whole encoding got into the file, its newline possibly not.
  predicate Reached(text: string, a: Attempt) {
    a.reach.Some? && a.reach.value >= |RepairPrefix(text) + Encode(a.event)|
  }

  lemma {:induction false} AttemptHolds(text: string, events: seq<Event>, a: Attempt)
    requires Holds(text, events)
    ensures Holds(After(text, a), if Reached(text, a) then events + [a.event] else events)
  {
    hide Encode, Decode, RepairedText, RepairPrefix;
    RepairHolds(text, events);
    if a.reach.Some? {
      var e := a.event;
      var prefix, line := RepairPrefix(text), Encode(e);
      var w := WriteText(text, e);
      var n := Min(a.reach.value, |w|);
      assert (events + [e])[..|events|] == events;
      if n == |w| {
        assert w[..n] == w;
        assert After(text, a) == RepairedText(text) + prefix + line + "\n";
      } else if n == |prefix| + |line| {
        assert w[..n] == prefix + line;
        assert After(text, a) == RepairedText(text) + prefix + line;
      } else if n <= |prefix| {
        assert w[..n] == prefix[..n];
        if n == |prefix| {
          assert prefix[..n] == prefix;
        } else {
          assert w[..n] == "" && RepairedText(text) + "" == RepairedText(text);
        }
      } else {
        assert w[..n] == prefix + line[..n - |prefix|];
        assert After(text, a) == RepairedText(text) + prefix + line[..n - |prefix|];
        assert 0 < n - |prefix| < |Encode(e)|;
      }
    }
  }

  function FileAfter(attempts: seq<Attempt>): string {
    if attempts == [] then "" else After(FileAfter(attempts[..|attempts| - 1]), attempts[|attempts| - 1])
  }

  // The events of `attempts` whose encoding was fully written, in order.
  function Survivors(attempts: seq<Attempt>): seq<Event> {
    if attempts == [] then []
    else
      var before := attempts[..|attempts| - 1];
      var a := attempts[|attempts| - 1];
      Survivors(before) + if Reached(FileAfter(before), a) then [a.event] else []
  }

  lemma {:induction false} RunHolds(attempts: seq<Attempt>)
    ensures Holds(FileAfter(attempts), Survivors(attempts))
  {
    hide Reached, After, Encode;
    if attempts != [] {
      var p := attempts[..|attempts| - 1];
      RunHolds(p);
      AttemptHolds(FileAfter(p), Survivors(p), attempts[|attempts| - 1]);
      assert Survivors(p) + [] == Survivors(p);
    }
  }

  // After any run of appends, each torn anywhere, the reader does not fail and
  // yields the fold of the events that were fully written.
  lemma {:induction false} CrashedLogReads(attempts: seq<Attempt>)
    ensures ReadsAs(FileAfter(attempts), Ok(Fold(Survivors(attempts))))
  {
    RunHolds(attempts);
    ReadHolds(FileAfter(attempts), Survivors(attempts));
  }

  // A whole append turns what is there into whole lines, the new event last.
  lemma LogTextSnoc(events: seq<Event>, e: Event)
    ensures LogText(events + [e]) == LogText(events) + (Encode(e) + "\n")
  {
    hide Encode;
    assert (events + [e])[..|events|] == events;
  }

  lemma {:induction false} AppendHolds(text: string, events: seq<Event>, e: Event)
    requires Holds(text, events)
    ensures AppendText(text, e) == LogText(events + [e])
    ensures Holds(AppendText(text, e), events + [e])
  {
    hide Encode, LogText, RepairedText, RepairPrefix;
    RepairHolds(text, events);
    LogTextSnoc(events, e);
    var line := Encode(e) + "\n";
    assert RepairPrefix(text) + Encode(e) + "\n" == RepairPrefix(text) + line;
    Associates(RepairedText(text), RepairPrefix(text), line);
  }

  // The next whole append leaves a file of whole lines that has lost none of them.
  lemma {:induction false} NextAppendRepairs(attempts: seq<Attempt>, e: Event)
    ensures AppendText(FileAfter(attempts), e) == LogText(Survivors(attempts) + [e])
    ensures ReadsAs(AppendText(FileAfter(attempts), e), Ok(Fold(Survivors(attempts) + [e])))
  {
    RunHolds(attempts);
    AppendHolds(FileAfter(attempts), Survivors(attempts), e);
    ReadHolds(AppendText(FileAfter(attempts), e), Survivors(attempts) + [e]);
  }

  // The reader gives one answer.
  lemma {:induction false} ReadsAsOne(text: string, a: Result<Rows, BadLine>, b: Result<Rows, BadLine>)
    requires ReadsAs(text, a) && ReadsAs(text, b)
    ensures a == b
  {
    hide ReadableLines, GoodLine;
  }
}
