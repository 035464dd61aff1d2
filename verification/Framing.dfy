// The wire format between daemon and proxy: a four-byte big-endian length and
// that many bytes of JSON. A buffer is a string with one character for each byte.

module Framing {
  import opened Prelude
  import opened Json

  const HEADER_BYTES := 4
  const MAX_FRAME_BYTES := 8 * 1024 * 1024

  datatype FrameError = TooLong(length: nat) | NotJson

  function Header(n: nat): string
    requires n < 0x1_0000_0000
  {
    [(n / 0x100_0000) as char, (n / 0x1_0000 % 0x100) as char, (n / 0x100 % 0x100) as char, (n % 0x100) as char]
  }

  function ReadHeader(b: string): nat
    requires |b| >= HEADER_BYTES
  {
    b[0] as int * 0x100_0000 + b[1] as int * 0x1_0000 + b[2] as int * 0x100 + b[3] as int
  }

  lemma HeaderRoundTrip(n: nat, rest: string)
    requires n < 0x1_0000_0000
    ensures ReadHeader(Header(n) + rest) == n
  {
    assert n / 0x100_0000 * 0x100 + n / 0x1_0000 % 0x100 == n / 0x1_0000;
    assert n / 0x1_0000 * 0x100 + n / 0x100 % 0x100 == n / 0x100;
  }

  predicate Fits(m: Json) { |Stringify(m)| <= MAX_FRAME_BYTES }

  function Frame(m: Json): string
    requires Fits(m)
  {
    Header(|Stringify(m)|) + Stringify(m)
  }

  function EncodeFrame(m: Json): (r: Result<string, FrameError>)
    ensures r.Ok? <==> |Stringify(m)| <= 8_388_608
    ensures r.Ok? ==> |r.value| == 4 + |Stringify(m)| && r.value[4..] == Stringify(m)
    ensures r.Ok? ==>
      && (forall i :: 0 <= i < 4 ==> r.value[i] as int < 256)
      && ((r.value[0] as int * 256 + r.value[1] as int) * 256 + r.value[2] as int) * 256 + r.value[3] as int == |Stringify(m)|
    ensures r.Err? ==> r.error == TooLong(|Stringify(m)|)
  {
    if Fits(m) then
      HeaderRoundTrip(|Stringify(m)|, Stringify(m));
      assert Frame(m)[4..] == Stringify(m);
      Ok(Frame(m))
    else Err(TooLong(|Stringify(m)|))
  }

  // What is decoded from a buffer: the messages, the bytes that are left, and the
  // exception the decoder stops with, if any.
  datatype Drained = Drained(messages: seq<Json>, rest: string, error: Option<FrameError>)

  function Behind(ms: seq<Json>, d: Drained): Drained { d.(messages := ms + d.messages) }

  function Drain(b: string): (d: Drained)
    ensures |d.rest| <= |b|
    ensures d.error.None? ==> |d.rest| < HEADER_BYTES + MAX_FRAME_BYTES
    decreases |b|
  {
    if |b| < HEADER_BYTES then Drained([], b, None)
    else
      var len := ReadHeader(b);
      if len > MAX_FRAME_BYTES then Drained([], b, Some(TooLong(len)))
      else if |b| < HEADER_BYTES + len then Drained([], b, None)
      else
        var m := Parse(b[HEADER_BYTES..HEADER_BYTES + len]);
        if m.None? then Drained([], b, Some(NotJson))
        else Behind([m.value], Drain(b[HEADER_BYTES + len..]))
  }

  lemma DrainOne(b: string)
    ensures |b| < HEADER_BYTES ==> Drain(b) == Drained([], b, None)
    ensures |b| >= HEADER_BYTES ==>
      var len := ReadHeader(b);
      if len > MAX_FRAME_BYTES then Drain(b) == Drained([], b, Some(TooLong(len)))
      else if |b| < HEADER_BYTES + len then Drain(b) == Drained([], b, None)
      else
        var m := Parse(b[HEADER_BYTES..HEADER_BYTES + len]);
        if m.None? then Drain(b) == Drained([], b, Some(NotJson))
        else Drain(b) == Behind([m.value], Drain(b[HEADER_BYTES + len..]))
  {
    hide Parse;
  }

  class FrameDecoder {
    var buffer: string

    constructor ()
      ensures buffer == ""
    {
      buffer := "";
    }

    // An exception loses the messages this call has decoded; the bytes from the
    // offending frame on stay.
    method Push(chunk: string) returns (r: Result<seq<Json>, FrameError>)
      modifies this
      ensures buffer == Drain(old(buffer) + chunk).rest
      ensures r == var d := Drain(old(buffer) + chunk);
                   if d.error.None? then Ok(d.messages) else Err(d.error.value)
      ensures r.Ok? ==> |buffer| < HEADER_BYTES + MAX_FRAME_BYTES
    {
      hide Drain, Behind, Parse, ReadHeader;
      ghost var all := buffer + chunk;
      buffer := if |buffer| == 0 then chunk else buffer + chunk;
      assert buffer == all;
      var out: seq<Json> := [];
      BehindBehind([], [], Drain(all));
      while |buffer| >= HEADER_BYTES
        invariant Behind(out, Drain(buffer)) == Drain(all)
        decreases |buffer|
      {
        DrainOne(buffer);
        var len := ReadHeader(buffer);
        if len > MAX_FRAME_BYTES {
          BehindNothing(out, buffer, Some(TooLong(len)));
          return Err(TooLong(len));
        }
        var total := HEADER_BYTES + len;
        if |buffer| < total {
          break;
        }
        var payload := Parse(buffer[HEADER_BYTES..total]);
        if payload.None? {
          BehindNothing(out, buffer, Some(NotJson));
          return Err(NotJson);
        }
        BehindBehind(out, [payload.value], Drain(buffer[total..]));
        out := out + [payload.value];
        buffer := buffer[total..];
      }
      DrainOne(buffer);
      BehindNothing(out, buffer, None);
      return Ok(out);
    }

    // The data events of one socket, which is destroyed at the first exception.
    method Receive(chunks: seq<string>) returns (messages: seq<Json>, error: Option<FrameError>)
      modifies this
      ensures PushAll(old(buffer), chunks) == Drained(messages, buffer, error)
    {
      hide Drain, Behind;
      messages, error := [], None;
      var i := 0;
      BehindBehind([], [], PushAll(buffer, chunks));
      assert chunks[0..] == chunks;
      while i < |chunks|
        invariant 0 <= i <= |chunks|
        invariant Behind(messages, PushAll(buffer, chunks[i..])) == PushAll(old(buffer), chunks)
      {
        var r := Push(chunks[i]);
        assert chunks[i..][0] == chunks[i] && chunks[i..][1..] == chunks[i + 1..];
        if r.Err? {
          error := Some(r.error);
          BehindNothing(messages, buffer, error);
          return;
        }
        BehindBehind(messages, r.value, PushAll(buffer, chunks[i + 1..]));
        messages := messages + r.value;
        i := i + 1;
      }
      BehindNothing(messages, buffer, None);
    }
  }

  lemma BehindNothing(ms: seq<Json>, rest: string, error: Option<FrameError>)
    ensures Behind(ms, Drained([], rest, error)) == Drained(ms, rest, error)
  {}

  function PushAll(buffer: string, chunks: seq<string>): Drained
    decreases |chunks|
  {
    if chunks == [] then Drained([], buffer, None)
    else
      var d := Drain(buffer + chunks[0]);
      if d.error.Some? then Drained([], d.rest, d.error)
      else Behind(d.messages, PushAll(d.rest, chunks[1..]))
  }

  function Concat(chunks: seq<string>): string {
    if chunks == [] then "" else chunks[0] + Concat(chunks[1..])
  }

  // ----- any cutting of the stream gives the same messages -----

  lemma HeaderMore(b: string, c: string)
    requires |b| >= HEADER_BYTES
    ensures ReadHeader(b + c) == ReadHeader(b)
  {}

  lemma BehindBehind(a: seq<Json>, b: seq<Json>, d: Drained)
    ensures Behind(a, Behind(b, d)) == Behind(a + b, d)
    ensures Behind([], d) == d
  {}

  lemma {:induction false} DrainMore(b: string, c: string)
    ensures Drain(b).error.None? ==> Drain(b + c) == Behind(Drain(b).messages, Drain(Drain(b).rest + c))
    ensures Drain(b).error.Some? ==> Drain(b + c).error.Some?
    decreases |b|
  {
    hide Parse, ReadHeader, Behind;
    if |b| < HEADER_BYTES {
      BehindBehind([], [], Drain(b + c));
    } else {
      HeaderMore(b, c);
      var total := HEADER_BYTES + ReadHeader(b);
      if |b| < total {
        BehindBehind([], [], Drain(b + c));
      } else {
        DrainMoreFrame(b, c, total);
      }
    }
  }

  lemma {:induction false} DrainMoreFrame(b: string, c: string, total: nat)
    requires |b| >= HEADER_BYTES && total == HEADER_BYTES + ReadHeader(b) && |b| >= total
    ensures Drain(b).error.None? ==> Drain(b + c) == Behind(Drain(b).messages, Drain(Drain(b).rest + c))
    ensures Drain(b).error.Some? ==> Drain(b + c).error.Some?
    decreases |b|, 0
  {
    hide Parse, ReadHeader;
    HeaderMore(b, c);
    if ReadHeader(b) <= MAX_FRAME_BYTES {
      assert (b + c)[HEADER_BYTES..total] == b[HEADER_BYTES..total];
      assert (b + c)[total..] == b[total..] + c;
      DrainMore(b[total..], c);
      var m := Parse(b[HEADER_BYTES..total]);
      if m.Some? {
        var d := Drain(b[total..]);
        assert Drain(b) == Behind([m.value], d);
        assert Drain(b + c) == Behind([m.value], Drain(b[total..] + c));
        BehindBehind([m.value], d.messages, Drain(d.rest + c));
      }
    }
  }

  lemma {:induction false} AnyCutting(buffer: string, chunks: seq<string>)
    requires Drain(buffer) == Drained([], buffer, None)
    requires Drain(buffer + Concat(chunks)).error.None?
    ensures PushAll(buffer, chunks) == Drain(buffer + Concat(chunks))
    decreases |chunks|
  {
    hide Drain;
    if chunks == [] {
      assert buffer + "" == buffer;
    } else {
      var first, more := buffer + chunks[0], Concat(chunks[1..]);
      assert buffer + Concat(chunks) == first + more;
      DrainMore(first, more);
      DrainRest(first);
      AnyCutting(Drain(first).rest, chunks[1..]);
    }
  }

  // The bytes that are left hold no message.
  lemma {:induction false} DrainRest(b: string)
    requires Drain(b).error.None?
    ensures Drain(Drain(b).rest) == Drained([], Drain(b).rest, None)
    decreases |b|
  {
    hide Parse, ReadHeader;
    if |b| >= HEADER_BYTES && |b| >= HEADER_BYTES + ReadHeader(b) {
      DrainRest(b[HEADER_BYTES + ReadHeader(b)..]);
    }
  }

  function Frames(ms: seq<Json>): string
    requires forall i :: 0 <= i < |ms| ==> Fits(ms[i])
  {
    if ms == [] then "" else Frame(ms[0]) + Frames(ms[1..])
  }

  lemma {:induction false} DrainFrame(m: Json, rest: string)
    requires Fits(m)
    ensures Drain(Frame(m) + rest) == Behind([m], Drain(rest))
  {
    var p := Stringify(m);
    RoundTrip(m);
    hide Stringify, Parse;
    assert Frame(m) + rest == Header(|p|) + (p + rest);
    HeaderRoundTrip(|p|, p + rest);
    var b := Header(|p|) + (p + rest);
    assert b[HEADER_BYTES..HEADER_BYTES + |p|] == p;
    assert b[HEADER_BYTES + |p|..] == rest;
  }

  lemma {:induction false} DrainPartial(m: Json, n: nat)
    requires Fits(m) && n < |Frame(m)|
    ensures Drain(Frame(m)[..n]) == Drained([], Frame(m)[..n], None)
  {
    hide Stringify, Parse;
    if n >= HEADER_BYTES {
      HeaderRoundTrip(|Stringify(m)|, Stringify(m)[..n - HEADER_BYTES]);
      assert Frame(m)[..n] == Header(|Stringify(m)|) + Stringify(m)[..n - HEADER_BYTES];
    }
  }

  lemma {:induction false} DrainFrames(ms: seq<Json>, partial: string)
    requires forall i :: 0 <= i < |ms| ==> Fits(ms[i])
    requires Drain(partial) == Drained([], partial, None)
    ensures Drain(Frames(ms) + partial) == Drained(ms, partial, None)
  {
    hide Stringify, Frame, Drain;
    if ms == [] {
      assert Frames(ms) + partial == partial;
    } else {
      DrainFrames(ms[1..], partial);
      DrainFrame(ms[0], Frames(ms[1..]) + partial);
      assert Frames(ms) + partial == Frame(ms[0]) + (Frames(ms[1..]) + partial);
      assert [ms[0]] + ms[1..] == ms;
    }
  }

  // Every list of messages, followed by a part of one more frame and cut into
  // chunks in any way, is received as exactly that list, and the part is kept.
  lemma {:induction false} StreamRoundTrip(ms: seq<Json>, last: Json, n: nat, chunks: seq<string>)
    requires (forall i :: 0 <= i < |ms| ==> Fits(ms[i])) && Fits(last) && n < |Frame(last)|
    requires Concat(chunks) == Frames(ms) + Frame(last)[..n]
    ensures PushAll("", chunks) == Drained(ms, Frame(last)[..n], None)
  {
    hide Stringify, Frame, Drain, Concat, PushAll;
    DrainPartial(last, n);
    DrainFrames(ms, Frame(last)[..n]);
    assert "" + Concat(chunks) == Concat(chunks);
    DrainNothing();
    AnyCutting("", chunks);
  }

  lemma HeaderSize(n: nat)
    requires n < 0x1_0000_0000
    ensures |Header(n)| == HEADER_BYTES
  {}

  lemma PayloadStarts(header: string, payload: string, n: nat)
    requires |header| == HEADER_BYTES
    ensures n <= |payload| ==> (header + payload)[HEADER_BYTES..HEADER_BYTES + n] == payload[..n]
  {}

  lemma DrainBad(n: nat, payload: string)
    requires n < 0x1_0000_0000
    requires n > MAX_FRAME_BYTES || (n <= |payload| && Parse(payload[..n]).None?)
    ensures Drain(Header(n) + payload) ==
      Drained([], Header(n) + payload, Some(if n > MAX_FRAME_BYTES then TooLong(n) else NotJson))
  {
    hide Parse, Header, ReadHeader, Drain;
    HeaderRoundTrip(n, payload);
    HeaderSize(n);
    PayloadStarts(Header(n), payload, n);
    DrainOne(Header(n) + payload);
  }

  // A frame whose length is over the limit, or whose payload is no JSON, stops the
  // decoder right there, whatever follows; the messages before it are those sent.
  lemma {:induction false} BadFrameStops(ms: seq<Json>, n: nat, payload: string)
    requires (forall i :: 0 <= i < |ms| ==> Fits(ms[i])) && n < 0x1_0000_0000
    requires n > 8_388_608 || (n <= |payload| && Parse(payload[..n]).None?)
    ensures Drain(Frames(ms) + (Header(n) + payload)) ==
      Drained(ms, Header(n) + payload, Some(if n > 8_388_608 then TooLong(n) else NotJson))
  {
    hide Stringify, Frame, Drain, Header, Parse;
    var bad := Header(n) + payload;
    DrainBad(n, payload);
    if ms == [] {
      assert Frames(ms) + bad == bad;
    } else {
      BadFrameStops(ms[1..], n, payload);
      DrainFrame(ms[0], Frames(ms[1..]) + bad);
      assert Frames(ms) + bad == Frame(ms[0]) + (Frames(ms[1..]) + bad);
      assert [ms[0]] + ms[1..] == ms;
    }
  }

  lemma DrainNothing()
    ensures Drain("") == Drained([], "", None)
  {}
}
