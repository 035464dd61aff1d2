// Inbound delivery: an event is persisted, routed to one proxy, written to
// Claude by that proxy, acknowledged, and marked delivered; what is still
// pending is sent again whenever a proxy registers.

module DeliveryIds {
  import opened Prelude
  import opened QueueEvents

  // A member of the meta record, or "" when it is missing; the source tells
  // only empty from not empty.
  function Member(meta: Meta, key: string): string { Lookup(meta, key).GetOr("") }

  function OrWord(s: string, word: string): string { if s == "" then word else s }

  predicate IsComment(meta: Meta) {
    && Member(meta, "event_id") == "" && Member(meta, "uuid") == "" && Member(meta, "message_id") == ""
    && Lookup(meta, "kind") == Some("doc_comment")
    && Member(meta, "file_token") != "" && Member(meta, "comment_id") != ""
  }

  function DefaultEventId(meta: Meta): string {
    if Member(meta, "event_id") != "" then Member(meta, "event_id")
    else if Member(meta, "uuid") != "" then Member(meta, "uuid")
    else if Member(meta, "message_id") != "" then Member(meta, "message_id")
    else if IsComment(meta) then
      "doc_comment:" + (Member(meta, "file_token") + ":"
        + (Member(meta, "comment_id") + ":" + OrWord(Member(meta, "reply_id"), "root")))
    else "evt_" + Member(meta, "create_time")
  }

  // ----- which id an event has -----

  // The value that `key` was set to last, and that is not empty.
  ghost predicate Carries(meta: Meta, key: string, value: string) {
    value != "" && exists i :: LastSet(meta, key, value, i)
  }

  ghost predicate LastSet(meta: Meta, key: string, value: string, i: int) {
    && 0 <= i < |meta| && meta[i] == (key, value)
    && forall j :: i < j < |meta| ==> meta[j].0 != key
  }

  ghost predicate Lacks(meta: Meta, key: string) { forall value :: !Carries(meta, key, value) }

  lemma {:induction false} LookupIsLast(meta: Meta, key: string)
    ensures Lookup(meta, key).Some? ==> exists i :: LastSet(meta, key, Lookup(meta, key).value, i)
    ensures Lookup(meta, key).None? ==> forall i :: 0 <= i < |meta| ==> meta[i].0 != key
  {
    if meta != [] {
      var p, last := meta[..|meta| - 1], |meta| - 1;
      if meta[last].0 == key {
        assert LastSet(meta, key, meta[last].1, last);
      } else {
        LookupIsLast(p, key);
        if Lookup(p, key).Some? {
          var i :| LastSet(p, key, Lookup(p, key).value, i);
          assert LastSet(meta, key, Lookup(p, key).value, i);
        }
      }
    }
  }

  lemma {:induction false} MemberCarried(meta: Meta, key: string, value: string)
    ensures Carries(meta, key, value) <==> value != "" && Member(meta, key) == value
  {
    LookupIsLast(meta, key);
    hide Lookup;
    if Carries(meta, key, value) {
      var i :| LastSet(meta, key, value, i);
      var k :| LastSet(meta, key, Lookup(meta, key).value, k);
      assert i == k;
    }
  }

  lemma LacksNothing(meta: Meta, key: string)
    ensures Lacks(meta, key) <==> Member(meta, key) == ""
  {
    hide Carries, Member;
    forall value ensures Carries(meta, key, value) <==> value != "" && Member(meta, key) == value {
      MemberCarried(meta, key, value);
    }
    assert Carries(meta, key, Member(meta, key)) <==> Member(meta, key) != "";
  }

  // An event id wins over a uuid and a uuid over a message id, whatever else is set.
  lemma {:induction false} EventIdWins(meta: Meta, id: string)
    ensures Carries(meta, "event_id", id) ==> DefaultEventId(meta) == id
    ensures Lacks(meta, "event_id") && Carries(meta, "uuid", id) ==> DefaultEventId(meta) == id
    ensures Lacks(meta, "event_id") && Lacks(meta, "uuid") && Carries(meta, "message_id", id) ==> DefaultEventId(meta) == id
  {
    hide Carries, Lacks, Member, IsComment;
    LacksNothing(meta, "event_id");
    LacksNothing(meta, "uuid");
    MemberCarried(meta, "event_id", id);
    MemberCarried(meta, "uuid", id);
    MemberCarried(meta, "message_id", id);
  }

  // A chat message as Feishu delivers it: known by its message id alone.
  ghost predicate IsMessage(meta: Meta, id: string) {
    Lacks(meta, "event_id") && Lacks(meta, "uuid") && Carries(meta, "message_id", id)
  }

  // Two messages share an id if and only if they are the same message.
  lemma {:induction false} MessageIds(a: Meta, b: Meta, x: string, y: string)
    requires IsMessage(a, x) && IsMessage(b, y)
    ensures DefaultEventId(a) == DefaultEventId(b) <==> x == y
  {
    hide DefaultEventId, Carries, Lacks;
    EventIdWins(a, x);
    EventIdWins(b, y);
  }

  // What carries none of the ids, and is no comment, is known by the time it was created.
  lemma {:induction false} OtherIds(meta: Meta, at: string)
    requires Lacks(meta, "event_id") && Lacks(meta, "uuid") && Lacks(meta, "message_id")
    requires Lacks(meta, "file_token") || Lacks(meta, "comment_id") || !Carries(meta, "kind", "doc_comment")
    ensures Carries(meta, "create_time", at) ==> DefaultEventId(meta) == "evt_" + at
    ensures Lacks(meta, "create_time") ==> DefaultEventId(meta) == "evt_"
  {
    hide Carries, Lacks, Lookup;
    LacksNothing(meta, "event_id");
    LacksNothing(meta, "uuid");
    LacksNothing(meta, "message_id");
    LacksNothing(meta, "file_token");
    LacksNothing(meta, "comment_id");
    LacksNothing(meta, "create_time");
    MemberCarried(meta, "kind", "doc_comment");
    MemberCarried(meta, "create_time", at);
    assert "evt_" + "" == "evt_";
  }

  function FileOf(meta: Meta): string { Member(meta, "file_token") }
  function CommentOf(meta: Meta): string { Member(meta, "comment_id") }
  function ReplyOf(meta: Meta): string { OrWord(Member(meta, "reply_id"), "root") }

  function CommentKey(file: string, comment: string, reply: string): string {
    file + ":" + (comment + ":" + reply)
  }

  predicate SameComment(a: Meta, b: Meta) {
    FileOf(a) == FileOf(b) && CommentOf(a) == CommentOf(b) && ReplyOf(a) == ReplyOf(b)
  }

  lemma CommentEventId(meta: Meta)
    requires IsComment(meta)
    ensures DefaultEventId(meta) == "doc_comment:" + CommentKey(FileOf(meta), CommentOf(meta), ReplyOf(meta))
    ensures FileOf(meta) != "" && CommentOf(meta) != "" && ReplyOf(meta) != ""
  {}

  lemma {:induction false} SameIdSameKey(a: Meta, b: Meta)
    requires IsComment(a) && IsComment(b)
    ensures DefaultEventId(a) == DefaultEventId(b) <==>
      CommentKey(FileOf(a), CommentOf(a), ReplyOf(a)) == CommentKey(FileOf(b), CommentOf(b), ReplyOf(b))
  {
    hide DefaultEventId, IsComment, Member, OrWord, CommentKey;
    CommentEventId(a);
    CommentEventId(b);
    var ka, kb := CommentKey(FileOf(a), CommentOf(a), ReplyOf(a)), CommentKey(FileOf(b), CommentOf(b), ReplyOf(b));
    assert ("doc_comment:" + ka)[|"doc_comment:"|..] == ka;
    assert ("doc_comment:" + kb)[|"doc_comment:"|..] == kb;
  }

  // Redeliveries of one comment share an id, and two comments whose file and
  // comment tokens hold no colon do not.
  lemma {:induction false} CommentIds(a: Meta, b: Meta)
    requires IsComment(a) && IsComment(b)
    ensures SameComment(a, b) ==> DefaultEventId(a) == DefaultEventId(b)
    ensures NoColon(FileOf(a)) && NoColon(CommentOf(a)) && NoColon(FileOf(b)) && NoColon(CommentOf(b)) ==>
      (DefaultEventId(a) == DefaultEventId(b) <==> SameComment(a, b))
  {
    hide DefaultEventId, IsComment, FileOf, CommentOf, ReplyOf, NoColon;
    SameIdSameKey(a, b);
    if NoColon(FileOf(a)) && NoColon(CommentOf(a)) && NoColon(FileOf(b)) && NoColon(CommentOf(b)) {
      if DefaultEventId(a) == DefaultEventId(b) {
        FirstColon(FileOf(a), CommentOf(a) + ":" + ReplyOf(a), FileOf(b), CommentOf(b) + ":" + ReplyOf(b));
        FirstColon(CommentOf(a), ReplyOf(a), CommentOf(b), ReplyOf(b));
      }
    }
  }

  // ----- which comments share their id with another -----

  ghost predicate Ambiguous(a: Meta) {
    exists b: Meta :: IsComment(b) && DefaultEventId(b) == DefaultEventId(a) && !SameComment(a, b)
  }

  // Two colons that cut a key into three tokens, none of them empty.
  predicate Cuts(key: string, i: int, j: int) {
    0 < i && i + 1 < j && j + 1 < |key| && key[i] == ':' && key[j] == ':'
  }

  // The comment with these tokens.
  function CommentMeta(file: string, comment: string, reply: string): Meta {
    [("kind", "doc_comment"), ("file_token", file), ("comment_id", comment), ("reply_id", reply)]
  }

  lemma CommentMembers(file: string, comment: string, reply: string)
    requires file != "" && comment != "" && reply != ""
    ensures var m := CommentMeta(file, comment, reply);
      IsComment(m) && FileOf(m) == file && CommentOf(m) == comment && ReplyOf(m) == reply
  {
    var m := CommentMeta(file, comment, reply);
    assert m[..3] == [("kind", "doc_comment"), ("file_token", file), ("comment_id", comment)];
    assert m[..3][..2] == [("kind", "doc_comment"), ("file_token", file)];
    assert m[..3][..2][..1] == [("kind", "doc_comment")];
    assert m[..3][..2][..1][..0] == [];
    forall key ensures Lookup(m, key) ==
      if key == "reply_id" then Some(reply) else if key == "comment_id" then Some(comment)
      else if key == "file_token" then Some(file) else if key == "kind" then Some("doc_comment") else None
    {
      assert Lookup(m[..3][..2][..1], key) == if key == "kind" then Some("doc_comment") else None;
      assert Lookup(m[..3][..2], key) == if key == "file_token" then Some(file) else Lookup(m[..3][..2][..1], key);
      assert Lookup(m[..3], key) == if key == "comment_id" then Some(comment) else Lookup(m[..3][..2], key);
    }
  }

  lemma KeyCut(file: string, comment: string, reply: string)
    requires file != "" && comment != "" && reply != ""
    ensures var key, i, j := CommentKey(file, comment, reply), |file|, |file| + 1 + |comment|;
      && Cuts(key, i, j) && key[..i] == file && key[i + 1..j] == comment && key[j + 1..] == reply
  {
    var key, i, j := CommentKey(file, comment, reply), |file|, |file| + 1 + |comment|;
    assert key == file + ":" + comment + ":" + reply;
    assert key[j] == ':';
  }

  lemma CutKey(key: string, i: int, j: int)
    requires Cuts(key, i, j)
    ensures CommentKey(key[..i], key[i + 1..j], key[j + 1..]) == key
  {}

  // A comment shares its id with another one exactly if its key can be cut otherwise.
  lemma {:induction false} AmbiguousIfCutOtherwise(a: Meta)
    requires IsComment(a)
    ensures Ambiguous(a) <==> exists i, j ::
      Cuts(CommentKey(FileOf(a), CommentOf(a), ReplyOf(a)), i, j) && (i != |FileOf(a)| || j != |FileOf(a)| + 1 + |CommentOf(a)|)
  {
    hide DefaultEventId, IsComment, FileOf, CommentOf, ReplyOf, CommentKey, Cuts;
    var key := CommentKey(FileOf(a), CommentOf(a), ReplyOf(a));
    CommentEventId(a);
    KeyCut(FileOf(a), CommentOf(a), ReplyOf(a));
    if Ambiguous(a) {
      var b: Meta :| IsComment(b) && DefaultEventId(b) == DefaultEventId(a) && !SameComment(a, b);
      SameIdSameKey(a, b);
      CommentEventId(b);
      KeyCut(FileOf(b), CommentOf(b), ReplyOf(b));
      assert Cuts(key, |FileOf(b)|, |FileOf(b)| + 1 + |CommentOf(b)|);
    }
    if i, j :| Cuts(key, i, j) && (i != |FileOf(a)| || j != |FileOf(a)| + 1 + |CommentOf(a)|) {
      OtherComment(a, i, j);
    }
  }

  lemma {:induction false} OtherComment(a: Meta, i: int, j: int)
    requires IsComment(a)
    requires Cuts(CommentKey(FileOf(a), CommentOf(a), ReplyOf(a)), i, j)
    requires i != |FileOf(a)| || j != |FileOf(a)| + 1 + |CommentOf(a)|
    ensures Ambiguous(a)
  {
    var key := CommentKey(FileOf(a), CommentOf(a), ReplyOf(a));
    CutKey(key, i, j);
    var f, c, r := key[..i], key[i + 1..j], key[j + 1..];
    var b := CommentMeta(f, c, r);
    CommentMembers(f, c, r);
    SameIdSameKey(a, b);
    hide DefaultEventId, IsComment, FileOf, CommentOf, ReplyOf, CommentKey, CommentMeta;
    assert |f| == i && |c| == j - i - 1;
    assert !SameComment(a, b);
  }

  predicate ColonIn(s: string, from: int, to: int) { exists p :: from <= p < to && 0 <= p < |s| && s[p] == ':' }

  lemma KeyColons(f: string, c: string, r: string, k: int)
    requires 0 <= k < |CommentKey(f, c, r)|
    ensures CommentKey(f, c, r)[k] ==
      if k < |f| then f[k] else if k == |f| then ':' else if k < |f| + 1 + |c| then c[k - |f| - 1]
      else if k == |f| + 1 + |c| then ':' else r[k - |f| - |c| - 2]
  {}

  lemma KeyLength(f: string, c: string, r: string)
    ensures |CommentKey(f, c, r)| == |f| + |c| + |r| + 2
  {}

  // With the other tokens free of colons, a file token is ambiguous if and only if
  // it has a colon behind its first character,
  lemma {:induction false} FileTokenAmbiguous(a: Meta)
    requires IsComment(a) && NoColon(CommentOf(a)) && NoColon(ReplyOf(a))
    ensures Ambiguous(a) <==> ColonIn(FileOf(a), 1, |FileOf(a)|)
  {
    hide DefaultEventId, IsComment, FileOf, CommentOf, ReplyOf, Ambiguous, CommentKey;
    CommentEventId(a);
    AmbiguousIfCutOtherwise(a);
    var f, c, r := FileOf(a), CommentOf(a), ReplyOf(a);
    var key := CommentKey(f, c, r);
    KeyLength(f, c, r);
    forall k | 0 <= k < |key| ensures key[k] == ':' <==> (k < |f| && f[k] == ':') || k == |f| || k == |f| + 1 + |c| {
      KeyColons(f, c, r, k);
    }
    if p :| 1 <= p < |f| && f[p] == ':' {
      assert Cuts(key, p, |f| + 1 + |c|);
    }
  }

  // a comment token if and only if it has a colon and is more than a colon,
  lemma {:induction false} CommentTokenAmbiguous(a: Meta)
    requires IsComment(a) && NoColon(FileOf(a)) && NoColon(ReplyOf(a))
    ensures Ambiguous(a) <==> !NoColon(CommentOf(a)) && CommentOf(a) != ":"
  {
    hide DefaultEventId, IsComment, FileOf, CommentOf, ReplyOf, Ambiguous, CommentKey;
    CommentEventId(a);
    AmbiguousIfCutOtherwise(a);
    var f, c, r := FileOf(a), CommentOf(a), ReplyOf(a);
    var key := CommentKey(f, c, r);
    KeyLength(f, c, r);
    var last := |f| + 1 + |c|;
    forall k | 0 <= k < |key| ensures key[k] == ':' <==> k == |f| || (|f| < k < last && c[k - |f| - 1] == ':') || k == last {
      KeyColons(f, c, r, k);
    }
    if q :| 0 <= q < |c| && c[q] == ':' {
      assert key[|f| + 1 + q] == ':';
      if q > 0 { assert Cuts(key, |f|, |f| + 1 + q); } else if |c| > 1 { assert Cuts(key, |f| + 1, last); }
    }
  }

  // and a reply if and only if it has a colon before its last character.
  lemma {:induction false} ReplyTokenAmbiguous(a: Meta)
    requires IsComment(a) && NoColon(FileOf(a)) && NoColon(CommentOf(a))
    ensures Ambiguous(a) <==> ColonIn(ReplyOf(a), 0, |ReplyOf(a)| - 1)
  {
    hide DefaultEventId, IsComment, FileOf, CommentOf, ReplyOf, Ambiguous, CommentKey;
    CommentEventId(a);
    AmbiguousIfCutOtherwise(a);
    var f, c, r := FileOf(a), CommentOf(a), ReplyOf(a);
    var key := CommentKey(f, c, r);
    KeyLength(f, c, r);
    var last := |f| + 1 + |c|;
    forall k | 0 <= k < |key| ensures key[k] == ':' <==> k == |f| || k == last || (k > last && r[k - last - 1] == ':') {
      KeyColons(f, c, r, k);
    }
    if q :| 0 <= q < |r| - 1 && r[q] == ':' {
      assert key[last + 1 + q] == ':';
      assert Cuts(key, |f|, last + 1 + q);
    }
  }

  // For example, with a colon in the file token of one and in the comment token of the other.
  lemma ColonsCollide(x: string, y: string, z: string, reply: string)
    requires x != "" && z != "" && reply != ""
    ensures var a, b := CommentMeta(x + ":" + y, z, reply), CommentMeta(x, y + ":" + z, reply);
      IsComment(a) && IsComment(b) && DefaultEventId(a) == DefaultEventId(b) && !SameComment(a, b)
  {
    hide DefaultEventId, IsComment, FileOf, CommentOf, ReplyOf;
    CommentMembers(x + ":" + y, z, reply);
    CommentMembers(x, y + ":" + z, reply);
    var a, b := CommentMeta(x + ":" + y, z, reply), CommentMeta(x, y + ":" + z, reply);
    SameIdSameKey(a, b);
    assert CommentKey(x + ":" + y, z, reply) == CommentKey(x, y + ":" + z, reply);
  }
}

module Delivery {
  import opened Prelude
  import opened OrderedMaps
  import opened Json
  import opened QueueEvents
  import opened InboundQueues
  import opened DeliveryIds

  type ConnId = nat

  // A `deliver` message to a proxy.
  datatype Delivery = Delivery(eventId: string, content: string, meta: Meta)

  function DeliveryOf(content: string, meta: Meta): Delivery { Delivery(DefaultEventId(meta), content, meta) }

  // ----- what the daemon does to the log and to its connections -----

  function Receive(log: seq<Event>, content: string, meta: Meta, at: NumberText, generation: NumberText): seq<Event> {
    var id := DefaultEventId(meta);
    if id in Fold(log).at then log else log + [Received(id, content, meta, at, generation)]
  }

  function MarkDelivered(log: seq<Event>, id: string, at: NumberText): seq<Event> {
    if id in Fold(log).at && Fold(log).at[id].deliveredAt.None? then log + [Delivered(id, at)] else log
  }

  function Replay(pending: seq<Row>): (ds: seq<Delivery>)
    ensures |ds| == |pending|
    ensures forall i :: 0 <= i < |ds| ==> ds[i] == DeliveryOf(pending[i].content, pending[i].meta)
  {
    seq(|pending|, i requires 0 <= i < |pending| => DeliveryOf(pending[i].content, pending[i].meta))
  }

  type Sent = map<ConnId, seq<Delivery>>

  function Send(sent: Sent, target: Option<ConnId>, ds: seq<Delivery>): Sent {
    if target.Some? && target.value in sent then sent[target.value := sent[target.value] + ds] else sent
  }

  lemma SendMore(sent: Sent, target: Option<ConnId>, a: seq<Delivery>, b: seq<Delivery>)
    ensures Send(Send(sent, target, a), target, b) == Send(sent, target, a + b)
  {
    if target.Some? && target.value in sent {
      assert sent[target.value] + a + b == sent[target.value] + (a + b);
    }
  }

  // One daemon over the queue file: `sent` holds what each live connection was sent.
  class Daemon {
    const queue: InboundQueue
    ghost var events: seq<Event>
    var sent: Sent

    constructor (queue: InboundQueue, ghost events: seq<Event>)
      requires Holds(queue.log.Text(), events)
      ensures Valid() && this.queue == queue && this.events == events && sent == map[]
    {
      this.queue := queue;
      this.events := events;
      sent := map[];
    }

    // The file is what some single writer left behind after `events`.
    ghost predicate Valid()
      reads this, queue.log
    {
      Holds(queue.log.Text(), events)
    }

    method Route(target: Option<ConnId>, content: string, meta: Meta) returns (routed: bool)
      requires target.Some? ==> target.value in sent
      modifies this`sent
      ensures routed == target.Some?
      ensures sent == Send(old(sent), target, [DeliveryOf(content, meta)])
    {
      if target.None? { return false; }
      sent := sent[target.value := sent[target.value] + [DeliveryOf(content, meta)]];
      return true;
    }

    // The durable notifier. `target` is the connection the owner selects.
    method Notify(content: string, meta: Meta, at: NumberText, generation: NumberText, target: Option<ConnId>)
      requires Valid()
      requires target.Some? ==> target.value in sent
      modifies this, queue.log
      ensures Valid()
      ensures events == Receive(old(events), content, meta, at, generation)
      ensures sent == Send(old(sent), target, [DeliveryOf(content, meta)])
    {
      hide Holds, ReadsAs, Receive, AppendText, DefaultEventId, Fold;
      var id := DefaultEventId(meta);
      ghost var text, before := queue.log.Text(), events;
      ReadHolds(text, before);
      var r := queue.Enqueue(id, content, meta, at, generation);
      if r.Err? {
        ReadsAsOne(text, Ok(Fold(before)), Err(r.error));
      } else {
        ghost var rows: Rows :| ReadsAs(text, Ok(rows)) && r.value == (id !in rows.at);
        ReadsAsOne(text, Ok(Fold(before)), Ok(rows));
        ReceiveCases(before, content, meta, at, generation);
        if r.value {
          AppendHolds(text, before, Received(id, content, meta, at, generation));
        }
      }
      events := Receive(before, content, meta, at, generation);
      var _ := Route(target, content, meta);
    }

    method OnAck(id: string, at: NumberText)
      requires Valid()
      modifies this, queue.log
      ensures Valid()
      ensures events == MarkDelivered(old(events), id, at)
      ensures sent == old(sent)
    {
      hide Holds, ReadsAs, MarkDelivered, AppendText, Fold, DefaultEventId, Send, LogText, RepairedText;
      ghost var text, before := queue.log.Text(), events;
      ReadHolds(text, before);
      var r := queue.MarkDelivered(id, at);
      if r.Err? {
        ReadsAsOne(text, Ok(Fold(before)), Err(r.error));
      } else {
        ghost var rows: Rows :| ReadsAs(text, Ok(rows)) && r.value == (id in rows.at && rows.at[id].deliveredAt.None?);
        ReadsAsOne(text, Ok(Fold(before)), Ok(rows));
        MarkCases(before, id, at);
        if r.value {
          AppendHolds(text, before, Delivered(id, at));
        }
      }
      events := MarkDelivered(before, id, at);
    }

    // Every pending row goes to the target, in the order of the rows.
    method ReplayPending(target: Option<ConnId>)
      requires Valid()
      requires target.Some? ==> target.value in sent
      modifies this`sent
      ensures Valid()
      ensures sent == Send(old(sent), target, Replay(Pending(Fold(events))))
    {
      hide Holds, ReadsAs, Fold, Pending, DefaultEventId;
      ReadHolds(queue.log.Text(), events);
      var r := queue.PendingRows();
      if r.Err? {
        ReadsAsOne(queue.log.Text(), Ok(Fold(events)), Err(r.error));
        return;
      }
      ghost var rows: Rows :| ReadsAs(queue.log.Text(), Ok(rows)) && r.value == Pending(rows);
      ReadsAsOne(queue.log.Text(), Ok(Fold(events)), Ok(rows));
      var pending := r.value;
      var i := 0;
      ghost var before := sent;
      SendNothing(before, target);
      while i < |pending|
        invariant 0 <= i <= |pending|
        invariant sent == Send(before, target, Replay(pending)[..i])
        invariant target.Some? ==> target.value in sent
      {
        SendMore(before, target, Replay(pending)[..i], [Replay(pending)[i]]);
        assert Replay(pending)[..i] + [Replay(pending)[i]] == Replay(pending)[..i + 1];
        var routed := Route(target, pending[i].content, pending[i].meta);
        if !routed { return; }
        i := i + 1;
      }
      assert Replay(pending)[..i] == Replay(pending);
    }
  }

  lemma SendNothing(sent: Sent, target: Option<ConnId>)
    ensures Send(sent, target, []) == sent
  {
    if target.Some? && target.value in sent { assert sent[target.value] + [] == sent[target.value]; }
  }

  lemma ReceiveCases(log: seq<Event>, content: string, meta: Meta, at: NumberText, generation: NumberText)
    ensures var id := DefaultEventId(meta);
      Receive(log, content, meta, at, generation) ==
      if id in Fold(log).at then log else log + [Received(id, content, meta, at, generation)]
  {}

  lemma MarkCases(log: seq<Event>, id: string, at: NumberText)
    ensures MarkDelivered(log, id, at) ==
      if id in Fold(log).at && Fold(log).at[id].deliveredAt.None? then log + [Delivered(id, at)] else log
  {}
}
