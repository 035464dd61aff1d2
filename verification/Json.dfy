// JSON text as `JSON.stringify` writes it and `JSON.parse` reads it (RFC 8259).
//
// A text is a string in which every character stands for one byte of UTF-8.
// A number is kept as the text it is written with, so no arithmetic is involved.

module Json {
  import opened Prelude

  datatype Json =
    | Null
    | Bool(flag: bool)
    | Num(digits: NumberText)
    | Str(text: string)
    | Arr(items: Items)
    | Obj(fields: Fields)

  datatype Items = NoItems | Item(head: Json, tail: Items)

  // The members of an object in order. A member that is written twice is kept twice.
  datatype Fields = NoFields | Field(key: string, value: Json, rest: Fields)

  // The last member named `key` is the one an object has.
  function Get(f: Fields, key: string): Option<Json> {
    match f
    case NoFields => None
    case Field(k, v, rest) =>
      var later := Get(rest, key);
      if later.Some? then later else if k == key then Some(v) else None
  }

  function Append(f: Fields, g: Fields): Fields {
    match f
    case NoFields => g
    case Field(k, v, rest) => Field(k, v, Append(rest, g))
  }

  // Of members with one name the last one counts.
  lemma {:induction false} LaterWins(f: Fields, g: Fields, key: string)
    ensures Get(Append(f, g), key) == if Get(g, key).Some? then Get(g, key) else Get(f, key)
  {
    if f.Field? { LaterWins(f.rest, g, key); }
  }

  // ----- numbers: section 6 of RFC 8259 -----

  predicate IsDigit(c: char) { '0' <= c <= '9' }

  predicate IsNumberChar(c: char) { IsDigit(c) || c in "+-.eE" }

  function SkipDigits(s: string): string {
    if s != "" && IsDigit(s[0]) then SkipDigits(s[1..]) else s
  }

  function SkipInteger(s: string): Option<string> {
    if s == "" || !IsDigit(s[0]) then None
    else if s[0] == '0' then Some(s[1..])
    else Some(SkipDigits(s))
  }

  function SkipFraction(s: string): Option<string> {
    if s == "" || s[0] != '.' then Some(s)
    else if |s| > 1 && IsDigit(s[1]) then Some(SkipDigits(s[1..]))
    else None
  }

  function SkipExponent(s: string): Option<string> {
    if s == "" || s[0] !in "eE" then Some(s)
    else
      var t := if |s| > 1 && s[1] in "+-" then s[2..] else s[1..];
      if t != "" && IsDigit(t[0]) then Some(SkipDigits(t)) else None
  }

  predicate IsNumber(s: string) {
    && s != ""
    && (forall i :: 0 <= i < |s| ==> IsNumberChar(s[i]))
    && var unsigned := if s[0] == '-' then s[1..] else s;
       var afterInteger := SkipInteger(unsigned);
       afterInteger.Some? &&
       var afterFraction := SkipFraction(afterInteger.value);
       afterFraction.Some? && SkipExponent(afterFraction.value) == Some("")
  }

  type NumberText = s: string | IsNumber(s) witness "0"

  // ----- strings: section 7 of RFC 8259 -----

  const HEX := "0123456789abcdef"

  // A control character, the quotation mark and the backslash are escaped.
  function Escape(c: char): string {
    if c == '"' then "\\\""
    else if c == '\\' then "\\\\"
    else if c == '\n' then "\\n"
    else if c == '\r' then "\\r"
    else if c == '\t' then "\\t"
    else if c as int == 8 then "\\b"
    else if c as int == 12 then "\\f"
    else if c < ' ' then ['\\', 'u', '0', '0', HEX[c as int / 16], HEX[c as int % 16]]
    else [c]
  }

  function EscapeAll(s: string): string {
    if s == "" then "" else Escape(s[0]) + EscapeAll(s[1..])
  }

  function Quote(s: string): string { "\"" + EscapeAll(s) + "\"" }

  function HexValue(c: char): Option<nat> {
    if IsDigit(c) then Some(c as int - '0' as int)
    else if 'a' <= c <= 'f' then Some(c as int - 'a' as int + 10)
    else if 'A' <= c <= 'F' then Some(c as int - 'A' as int + 10)
    else None
  }

  // The UTF-8 bytes of a code point below 0x10000, one character each.
  function Utf8(n: nat): string
    requires n < 0x10000
  {
    if n < 0x80 then [n as char]
    else if n < 0x800 then [(0xC0 + n / 64) as char, (0x80 + n % 64) as char]
    else [(0xE0 + n / 4096) as char, (0x80 + n / 64 % 64) as char, (0x80 + n % 64) as char]
  }

  datatype Parsed<+T> = NoParse | Got(value: T, rest: string)

  // What follows a backslash.
  function ParseEscape(s: string): (r: Parsed<string>)
    ensures r.Got? ==> |r.rest| < |s|
  {
    if s == "" then NoParse
    else if s[0] in "\"\\/" then Got([s[0]], s[1..])
    else if s[0] == 'n' then Got("\n", s[1..])
    else if s[0] == 'r' then Got("\r", s[1..])
    else if s[0] == 't' then Got("\t", s[1..])
    else if s[0] == 'b' then Got([8 as char], s[1..])
    else if s[0] == 'f' then Got([12 as char], s[1..])
    else if s[0] == 'u' && |s| >= 5 then
      var a, b, c, d := HexValue(s[1]), HexValue(s[2]), HexValue(s[3]), HexValue(s[4]);
      if a.Some? && b.Some? && c.Some? && d.Some? then
        Got(Utf8(((a.value * 16 + b.value) * 16 + c.value) * 16 + d.value), s[5..])
      else NoParse
    else NoParse
  }

  // The characters up to the closing quotation mark.
  function ParseChars(s: string): (r: Parsed<string>)
    ensures r.Got? ==> |r.rest| < |s|
    decreases |s|
  {
    if s == "" || s[0] < ' ' then NoParse
    else if s[0] == '"' then Got("", s[1..])
    else
      var first := if s[0] == '\\' then ParseEscape(s[1..]) else Got([s[0]], s[1..]);
      if first.NoParse? then NoParse
      else
        var more := ParseChars(first.rest);
        if more.NoParse? then NoParse else Got(first.value + more.value, more.rest)
  }

  // ----- values: sections 2 to 5 of RFC 8259 -----

  function Stringify(v: Json): string {
    match v
    case Null => "null"
    case Bool(b) => if b then "true" else "false"
    case Num(n) => n
    case Str(s) => Quote(s)
    case Arr(NoItems) => "[]"
    case Arr(items) => "[" + ItemsText(items) + "]"
    case Obj(NoFields) => "{}"
    case Obj(fields) => "{" + FieldsText(fields) + "}"
  }

  function ItemsText(items: Items): string {
    match items
    case NoItems => ""
    case Item(v, NoItems) => Stringify(v)
    case Item(v, tail) => Stringify(v) + "," + ItemsText(tail)
  }

  function FieldsText(fields: Fields): string {
    match fields
    case NoFields => ""
    case Field(k, v, NoFields) => Quote(k) + ":" + Stringify(v)
    case Field(k, v, rest) => Quote(k) + ":" + Stringify(v) + "," + FieldsText(rest)
  }

  predicate IsSpace(c: char) { c in " \t\n\r" }

  function SkipSpace(s: string): (r: string)
    ensures |r| <= |s|
    ensures r != "" ==> !IsSpace(r[0])
  {
    if s != "" && IsSpace(s[0]) then SkipSpace(s[1..]) else s
  }

  // `s` from its first character on that `c` must be.
  function Expect(s: string, c: char): (r: Option<string>)
    ensures r.Some? ==> |r.value| < |s|
  {
    var t := SkipSpace(s);
    if t != "" && t[0] == c then Some(t[1..]) else None
  }

  function NumberRun(s: string): (n: nat)
    ensures n <= |s|
    ensures forall i :: 0 <= i < n ==> IsNumberChar(s[i])
    ensures n < |s| ==> !IsNumberChar(s[n])
  {
    if s != "" && IsNumberChar(s[0]) then 1 + NumberRun(s[1..]) else 0
  }

  function ParseValue(s: string): (r: Parsed<Json>)
    ensures r.Got? ==> |r.rest| < |s|
    decreases |s|, 1
  {
    var t := SkipSpace(s);
    if t == "" then NoParse
    else if t[0] == '{' then
      var empty := Expect(t[1..], '}');
      if empty.Some? then Got(Obj(NoFields), empty.value)
      else
        var f := ParseFields(t[1..]);
        if f.Got? then Got(Obj(f.value), f.rest) else NoParse
    else if t[0] == '[' then
      var empty := Expect(t[1..], ']');
      if empty.Some? then Got(Arr(NoItems), empty.value)
      else
        var f := ParseItems(t[1..]);
        if f.Got? then Got(Arr(f.value), f.rest) else NoParse
    else if t[0] == '"' then
      var c := ParseChars(t[1..]);
      if c.Got? then Got(Str(c.value), c.rest) else NoParse
    else if "null" <= t then Got(Null, t[4..])
    else if "true" <= t then Got(Bool(true), t[4..])
    else if "false" <= t then Got(Bool(false), t[5..])
    else
      var n := NumberRun(t);
      if IsNumber(t[..n]) then Got(Num(t[..n]), t[n..]) else NoParse
  }

  // One or more members and the closing brace.
  function ParseFields(s: string): (r: Parsed<Fields>)
    ensures r.Got? ==> |r.rest| < |s| && r.value.Field?
    decreases |s|, 0
  {
    var open := Expect(s, '"');
    if open.None? then NoParse
    else
      var key := ParseChars(open.value);
      if key.NoParse? then NoParse
      else
        var colon := Expect(key.rest, ':');
        if colon.None? then NoParse
        else
          var v := ParseValue(colon.value);
          if v.NoParse? then NoParse
          else
            var close := Expect(v.rest, '}');
            if close.Some? then Got(Field(key.value, v.value, NoFields), close.value)
            else
              var comma := Expect(v.rest, ',');
              if comma.None? then NoParse
              else
                var more := ParseFields(comma.value);
                if more.NoParse? then NoParse
                else Got(Field(key.value, v.value, more.value), more.rest)
  }

  // One or more elements and the closing bracket.
  function ParseItems(s: string): (r: Parsed<Items>)
    ensures r.Got? ==> |r.rest| < |s| && r.value.Item?
    decreases |s|, 2
  {
    var v := ParseValue(s);
    if v.NoParse? then NoParse
    else
      var close := Expect(v.rest, ']');
      if close.Some? then Got(Item(v.value, NoItems), close.value)
      else
        var comma := Expect(v.rest, ',');
        if comma.None? then NoParse
        else
          var more := ParseItems(comma.value);
          if more.NoParse? then NoParse else Got(Item(v.value, more.value), more.rest)
  }

  // `JSON.parse`, with `None` for its exception.
  function Parse(s: string): Option<Json> {
    var v := ParseValue(s);
    if v.Got? && SkipSpace(v.rest) == "" then Some(v.value) else None
  }

  // ----- parsing undoes printing -----

  lemma {:induction false} SkipSpaceAt(s: string)
    requires s != "" && !IsSpace(s[0])
    ensures SkipSpace(s) == s
  {}

  lemma HexDigit(n: nat)
    requires n < 16
    ensures HexValue(HEX[n]) == Some(n)
  {}

  // The escapes of two characters.
  predicate IsShort(c: char) { c in "\"\\\n\r\t" || c as int == 8 || c as int == 12 }

  lemma ParseShort(c: char, x: string)
    requires IsShort(c)
    ensures |Escape(c)| == 2 && Escape(c)[0] == '\\'
    ensures ParseEscape([Escape(c)[1]] + x) == Got([c], x)
  {
    hide HexValue, Utf8;
    assert ([Escape(c)[1]] + x)[1..] == x;
  }

  lemma ParseHex(c: char, x: string)
    requires c < ' '
    ensures ParseEscape(['u', '0', '0', HEX[c as int / 16], HEX[c as int % 16]] + x) == Got([c], x)
  {
    hide HexValue;
    var hi, lo := c as int / 16, c as int % 16;
    var t := ['u', '0', '0', HEX[hi], HEX[lo]] + x;
    assert t[5..] == x;
    HexDigit(0);
    HexDigit(hi);
    HexDigit(lo);
  }

  lemma EscapeCases(c: char)
    ensures !IsShort(c) && c < ' ' ==> Escape(c) == ['\\', 'u', '0', '0', HEX[c as int / 16], HEX[c as int % 16]]
    ensures !IsShort(c) && c >= ' ' ==> Escape(c) == [c]
  {}

  lemma AfterBackslash(e: string, x: string)
    requires e != ""
    ensures (e + x)[1..] == e[1..] + x
  {}

  lemma ParseEscaped(c: char, x: string)
    ensures Escape(c) != "" && Escape(c)[0] >= ' ' && Escape(c)[0] != '"'
    ensures Escape(c)[0] != '\\' ==> Escape(c) == [c]
    ensures Escape(c)[0] == '\\' ==> ParseEscape((Escape(c) + x)[1..]) == Got([c], x)
  {
    EscapeCases(c);
    if IsShort(c) {
      ParseShort(c, x);
      hide Escape, ParseEscape, IsShort;
      AfterBackslash(Escape(c), x);
      assert Escape(c)[1..] == [Escape(c)[1]];
    } else if c < ' ' {
      hide Escape, ParseEscape, IsShort;
      ParseHex(c, x);
      AfterBackslash(Escape(c), x);
      assert Escape(c)[1..] == ['u', '0', '0', HEX[c as int / 16], HEX[c as int % 16]];
    } else {
      hide ParseEscape;
    }
  }

  lemma {:induction false} ParseEscapedFirst(c: char, more: string)
    requires ParseChars(more).Got?
    ensures ParseChars(Escape(c) + more) == Got([c] + ParseChars(more).value, ParseChars(more).rest)
  {
    var t := Escape(c) + more;
    ParseEscaped(c, more);
    assert t[0] == Escape(c)[0];
    if t[0] != '\\' {
      assert t[1..] == more;
    }
  }

  lemma ParseClosing(x: string)
    ensures ParseChars("\"" + x) == Got("", x)
  {
    assert ("\"" + x)[1..] == x;
  }

  lemma {:induction false} ParseEscapedAll(s: string, x: string)
    ensures ParseChars(EscapeAll(s) + ("\"" + x)) == Got(s, x)
  {
    hide Escape, ParseEscape, ParseChars;
    if s == "" {
      assert EscapeAll(s) + ("\"" + x) == "\"" + x;
      ParseClosing(x);
    } else {
      ParseEscapedAll(s[1..], x);
      ParseEscapedFirst(s[0], EscapeAll(s[1..]) + ("\"" + x));
      Associates(Escape(s[0]), EscapeAll(s[1..]), "\"" + x);
      assert [s[0]] + s[1..] == s;
    }
  }

  lemma {:induction false} ParseQuoted(s: string, x: string)
    ensures Quote(s) + x == "\"" + (EscapeAll(s) + ("\"" + x))
    ensures Expect(Quote(s) + x, '"') == Some(EscapeAll(s) + ("\"" + x))
    ensures ParseChars(EscapeAll(s) + ("\"" + x)) == Got(s, x)
  {
    var t := EscapeAll(s) + ("\"" + x);
    assert Quote(s) + x == "\"" + t;
    SkipSpaceAt("\"" + t);
    assert ("\"" + t)[1..] == t;
    ParseEscapedAll(s, x);
  }

  lemma {:induction false} ExpectHere(c: char, x: string)
    requires !IsSpace(c)
    ensures Expect([c] + x, c) == Some(x)
    ensures forall d: char :: d != c ==> Expect([c] + x, d) == None
  {
    SkipSpaceAt([c] + x);
    assert ([c] + x)[1..] == x;
  }

  // No value starts with a space, a closing bracket or a separator.
  lemma StringifyHead(v: Json)
    ensures Stringify(v) != ""
    ensures !IsSpace(Stringify(v)[0]) && Stringify(v)[0] !in "]},:"
    ensures v.Obj? ==> Stringify(v)[0] == '{'
  {}

  lemma {:induction false} NumberRunOf(n: string, x: string)
    requires forall i :: 0 <= i < |n| ==> IsNumberChar(n[i])
    requires x == "" || !IsNumberChar(x[0])
    ensures NumberRun(n + x) == |n|
  {
    if n != "" {
      assert (n + x)[1..] == n[1..] + x;
      NumberRunOf(n[1..], x);
    } else {
      assert n + x == x;
    }
  }

  lemma ParseNull(x: string)
    ensures ParseValue("null" + x) == Got(Null, x)
  {
    hide Expect, ParseFields, ParseItems, ParseChars, IsNumber, NumberRun;
    SkipSpaceAt("null" + x);
    assert ("null" + x)[..4] == "null" && ("null" + x)[4..] == x;
  }

  lemma ParseBool(b: bool, x: string)
    ensures ParseValue((if b then "true" else "false") + x) == Got(Bool(b), x)
  {
    hide Expect, ParseFields, ParseItems, ParseChars, IsNumber, NumberRun;
    var word := if b then "true" else "false";
    SkipSpaceAt(word + x);
    assert (word + x)[..|word|] == word && (word + x)[|word|..] == x;
  }

  lemma ParseNumber(n: NumberText, x: string)
    requires x == "" || !IsNumberChar(x[0])
    ensures ParseValue(n + x) == Got(Num(n), x)
  {
    hide Expect, ParseFields, ParseItems, ParseChars, SkipInteger, SkipFraction, SkipExponent;
    var t := n + x;
    assert IsNumberChar(n[0]) && t[0] == n[0];
    SkipSpaceAt(t);
    NumberRunOf(n, x);
    assert t[..|n|] == n && t[|n|..] == x;
  }

  lemma ParseString(s: string, x: string)
    ensures ParseValue(Quote(s) + x) == Got(Str(s), x)
  {
    hide Expect, ParseFields, ParseItems, ParseChars, EscapeAll, IsNumber, NumberRun;
    ParseQuoted(s, x);
    var t := "\"" + (EscapeAll(s) + ("\"" + x));
    SkipSpaceAt(t);
    assert t[1..] == EscapeAll(s) + ("\"" + x);
  }

  lemma {:induction false} ParseStringified(v: Json, x: string)
    requires v.Num? ==> x == "" || !IsNumberChar(x[0])
    ensures ParseValue(Stringify(v) + x) == Got(v, x)
    decreases v, 1
  {
    hide ParseValue, IsNumber;
    match v
    case Null => ParseNull(x);
    case Bool(b) => ParseBool(b, x);
    case Num(n) => ParseNumber(n, x);
    case Str(s) => ParseString(s, x);
    case Arr(items) => ParseStringifiedArr(items, x);
    case Obj(fields) => ParseStringifiedObj(fields, x);
  }

  lemma {:induction false} ParseStringifiedArr(items: Items, x: string)
    ensures ParseValue(Stringify(Arr(items)) + x) == Got(Arr(items), x)
    decreases items, 1
  {
    hide Expect, ParseFields, ParseItems, ParseChars, IsNumber, ItemsText;
    var t := Stringify(Arr(items)) + x;
    SkipSpaceAt(t);
    if items.NoItems? {
      assert t[1..] == "]" + x;
      ExpectHere(']', x);
    } else {
      assert t[1..] == ItemsText(items) + "]" + x == ItemsText(items) + ("]" + x);
      ParseItemsText(items, x);
      ItemsHead(items, "]" + x);
    }
  }

  lemma {:induction false} ParseStringifiedObj(fields: Fields, x: string)
    ensures ParseValue(Stringify(Obj(fields)) + x) == Got(Obj(fields), x)
    decreases fields, 1
  {
    hide Expect, ParseFields, ParseItems, ParseChars, IsNumber, FieldsText;
    var t := Stringify(Obj(fields)) + x;
    SkipSpaceAt(t);
    if fields.NoFields? {
      assert t[1..] == "}" + x;
      ExpectHere('}', x);
    } else {
      assert t[1..] == FieldsText(fields) + "}" + x == FieldsText(fields) + ("}" + x);
      ParseFieldsText(fields, x);
      FieldsHead(fields, "}" + x);
    }
  }

  lemma {:induction false} ItemsHead(items: Items, y: string)
    requires items.Item?
    ensures Expect(ItemsText(items) + y, ']') == None
  {
    StringifyHead(items.head);
    SkipSpaceAt(ItemsText(items) + y);
  }

  lemma {:induction false} FieldsHead(fields: Fields, y: string)
    requires fields.Field?
    ensures Expect(FieldsText(fields) + y, '}') == None
  {
    SkipSpaceAt(FieldsText(fields) + y);
  }

  lemma {:induction false} ParseItemsText(items: Items, x: string)
    requires items.Item?
    ensures ParseItems(ItemsText(items) + "]" + x) == Got(items, x)
    decreases items, 0
  {
    var Item(v, tail) := items;
    if tail.NoItems? {
      assert ItemsText(items) + "]" + x == Stringify(v) + ("]" + x);
      ParseStringified(v, "]" + x);
      ExpectHere(']', x);
    } else {
      var more := ItemsText(tail) + "]" + x;
      assert ItemsText(items) + "]" + x == Stringify(v) + ("," + more);
      ParseStringified(v, "," + more);
      ExpectHere(',', more);
      ParseItemsText(tail, x);
    }
  }

  lemma {:induction false} ParseFieldsText(fields: Fields, x: string)
    requires fields.Field?
    ensures ParseFields(FieldsText(fields) + "}" + x) == Got(fields, x)
    decreases fields, 0
  {
    var Field(k, v, rest) := fields;
    var more := FieldsText(rest) + "}" + x;
    var afterValue := if rest.NoFields? then "}" + x else "," + more;
    ParseStringified(v, afterValue);
    if rest.NoFields? {
      ExpectHere('}', x);
    } else {
      ExpectHere(',', more);
      ParseFieldsText(rest, x);
    }
    ParseMember(k, v, afterValue);
    Regroup(Quote(k), Stringify(v), FieldsText(rest), x);
  }

  lemma Regroup(key: string, value: string, rest: string, x: string)
    ensures key + ":" + value + "}" + x == key + (":" + (value + ("}" + x)))
    ensures key + ":" + value + "," + rest + "}" + x == key + (":" + (value + ("," + (rest + "}" + x))))
  {}

  // One member, in front of `x`.
  lemma {:induction false} ParseMember(k: string, v: Json, x: string)
    requires ParseValue(Stringify(v) + x) == Got(v, x)
    requires Expect(x, '}').Some? || (Expect(x, ',').Some? && ParseFields(Expect(x, ',').value).Got?)
    ensures ParseFields(Quote(k) + (":" + (Stringify(v) + x))) ==
            if Expect(x, '}').Some? then Got(Field(k, v, NoFields), Expect(x, '}').value)
            else
              var more := ParseFields(Expect(x, ',').value);
              Got(Field(k, v, more.value), more.rest)
  {
    ParseQuoted(k, ":" + (Stringify(v) + x));
    ExpectHere(':', Stringify(v) + x);
  }

  // `JSON.parse(JSON.stringify(v))` is `v`.
  lemma {:induction false} RoundTrip(v: Json)
    ensures Parse(Stringify(v)) == Some(v)
  {
    assert Stringify(v) + "" == Stringify(v);
    ParseStringified(v, "");
  }

  // ----- more text behind a parsed value does not change it -----

  lemma {:induction false} SkipSpaceMore(s: string, x: string)
    ensures SkipSpace(s) != "" ==> SkipSpace(s + x) == SkipSpace(s) + x
  {
    if s != "" {
      assert (s + x)[0] == s[0];
      assert (s + x)[1..] == s[1..] + x;
      if IsSpace(s[0]) { SkipSpaceMore(s[1..], x); }
    }
  }

  lemma {:induction false} ExpectMore(s: string, c: char, x: string)
    ensures Expect(s, c).Some? ==> Expect(s + x, c) == Some(Expect(s, c).value + x)
    ensures SkipSpace(s) != "" && Expect(s, c).None? ==> Expect(s + x, c).None?
  {
    SkipSpaceMore(s, x);
    var t := SkipSpace(s);
    if t != "" {
      assert (t + x)[0] == t[0] && (t + x)[1..] == t[1..] + x;
    }
  }

  lemma {:induction false} ParseEscapeMore(s: string, x: string)
    requires ParseEscape(s).Got?
    ensures ParseEscape(s + x) == Got(ParseEscape(s).value, ParseEscape(s).rest + x)
  {
    hide Utf8, HexValue;
    assert (s + x)[0] == s[0] && (s + x)[1..] == s[1..] + x;
    if |s| >= 5 {
      assert (s + x)[1..5] == s[1..5];
      assert (s + x)[5..] == s[5..] + x;
    }
  }

  lemma {:induction false} ParseCharsMore(s: string, x: string)
    requires ParseChars(s).Got?
    ensures ParseChars(s + x) == Got(ParseChars(s).value, ParseChars(s).rest + x)
    decreases |s|
  {
    hide ParseEscape;
    assert (s + x)[0] == s[0];
    assert (s + x)[1..] == s[1..] + x;
    if s[0] == '\\' {
      ParseEscapeMore(s[1..], x);
      ParseCharsMore(ParseEscape(s[1..]).rest, x);
    } else if s[0] != '"' {
      ParseCharsMore(s[1..], x);
    }
  }

  lemma {:induction false} ParseValueMore(s: string, x: string)
    requires ParseValue(s).Got?
    requires ParseValue(s).value.Num? ==> ParseValue(s).rest != ""
    ensures ParseValue(s + x) == Got(ParseValue(s).value, ParseValue(s).rest + x)
    decreases |s|, 1
  {
    hide Expect, SkipSpace, ParseFields, ParseItems, ParseChars, IsNumber, IsNumberChar;
    var t := SkipSpace(s);
    SkipSpaceMore(s, x);
    assert (t + x)[0] == t[0];
    assert (t + x)[1..] == t[1..] + x;
    if t[0] == '{' {
      ExpectMore(t[1..], '}', x);
      if Expect(t[1..], '}').None? {
        ParseFieldsMore(t[1..], x);
        ParseFieldsNotBlank(t[1..]);
      }
    } else if t[0] == '[' {
      ExpectMore(t[1..], ']', x);
      if Expect(t[1..], ']').None? {
        ParseItemsMore(t[1..], x);
        ParseItemsNotBlank(t[1..]);
      }
    } else if t[0] == '"' {
      ParseCharsMore(t[1..], x);
    } else {
      LiteralMore(t, x);
    }
  }

  lemma {:induction false} ParseFieldsNotBlank(s: string)
    requires ParseFields(s).Got?
    ensures SkipSpace(s) != ""
  {}

  lemma {:induction false} ParseItemsNotBlank(s: string)
    requires ParseItems(s).Got?
    ensures SkipSpace(s) != ""
  {
    hide IsNumber;
  }

  lemma {:induction false} LiteralMore(t: string, x: string)
    requires t != ""
    ensures "null" <= t ==> "null" <= t + x && (t + x)[4..] == t[4..] + x
    ensures "true" <= t ==> "true" <= t + x && (t + x)[4..] == t[4..] + x
    ensures "false" <= t ==> "false" <= t + x && (t + x)[5..] == t[5..] + x
    ensures var n := NumberRun(t);
            IsNumber(t[..n]) && n < |t| ==>
              && NumberRun(t + x) == n && (t + x)[..n] == t[..n] && (t + x)[n..] == t[n..] + x
              && !("null" <= t + x) && !("true" <= t + x) && !("false" <= t + x)
  {
    hide IsNumberChar;
    LiteralPrefix(t, x, "null");
    LiteralPrefix(t, x, "true");
    LiteralPrefix(t, x, "false");
    var n := NumberRun(t);
    if IsNumber(t[..n]) && n < |t| {
      NumberMore(t, x);
      NotALiteral(t[..n], t + x);
    }
  }

  lemma LiteralPrefix(t: string, x: string, w: string)
    ensures w <= t ==> w <= t + x && (t + x)[|w|..] == t[|w|..] + x
  {}

  lemma {:induction false} NumberMore(t: string, x: string)
    requires NumberRun(t) < |t|
    ensures var n := NumberRun(t);
            NumberRun(t + x) == n && (t + x)[..n] == t[..n] && (t + x)[n..] == t[n..] + x
  {
    hide IsNumberChar;
    var n := NumberRun(t);
    NumberRunOf(t[..n], t[n..] + x);
    assert t[..n] + (t[n..] + x) == t + x;
  }

  // A number is not the beginning of a literal.
  lemma {:induction false} NotALiteral(n: string, t: string)
    requires IsNumber(n) && n <= t
    ensures t[0] !in "ntf{[\""
  {
    assert t[0] == n[0];
  }

  lemma {:induction false} ParseFieldsMore(s: string, x: string)
    requires ParseFields(s).Got?
    ensures ParseFields(s + x) == Got(ParseFields(s).value, ParseFields(s).rest + x)
    decreases |s|, 0
  {
    ExpectMore(s, '"', x);
    var open := Expect(s, '"').value;
    ParseCharsMore(open, x);
    var key := ParseChars(open);
    ExpectMore(key.rest, ':', x);
    var v := ParseValue(Expect(key.rest, ':').value);
    ParseValueMore(Expect(key.rest, ':').value, x);
    ExpectMore(v.rest, '}', x);
    if Expect(v.rest, '}').None? {
      ExpectMore(v.rest, ',', x);
      ParseFieldsMore(Expect(v.rest, ',').value, x);
    }
  }

  lemma {:induction false} ParseItemsMore(s: string, x: string)
    requires ParseItems(s).Got?
    ensures ParseItems(s + x) == Got(ParseItems(s).value, ParseItems(s).rest + x)
    decreases |s|, 2
  {
    var v := ParseValue(s);
    ParseValueMore(s, x);
    ExpectMore(v.rest, ']', x);
    if Expect(v.rest, ']').None? {
      ExpectMore(v.rest, ',', x);
      ParseItemsMore(Expect(v.rest, ',').value, x);
    }
  }

  // A printed object that was cut short is not JSON.
  lemma {:induction false} NoPrefixParses(v: Json, n: nat)
    requires v.Obj? && n < |Stringify(v)|
    ensures Parse(Stringify(v)[..n]) == None
  {
    var text := Stringify(v);
    var p, x := text[..n], text[n..];
    assert text == p + x;
    if Parse(p).Some? {
      StringifyHead(v);
      assert p[0] == '{';
      SkipSpaceAt(p);
      ParseValueMore(p, x);
      assert text + "" == text;
      ParseStringified(v, "");
    }
  }

  // Printed JSON has no control character, so in particular no line feed.
  predicate Printable(s: string) { forall i :: 0 <= i < |s| ==> s[i] >= ' ' }

  lemma EscapePrintable(c: char)
    ensures Printable(Escape(c))
  {}

  lemma {:induction false} EscapeAllPrintable(s: string)
    ensures Printable(EscapeAll(s))
  {
    hide Escape;
    if s != "" { EscapePrintable(s[0]); }
    if s != "" { EscapeAllPrintable(s[1..]); }
  }

  lemma NumberPrintable(n: NumberText)
    ensures Printable(n)
  {}

  lemma {:induction false} StringifyPrintable(v: Json)
    ensures Printable(Stringify(v))
    decreases v, 1
  {
    hide EscapeAll, ItemsText, FieldsText, IsNumber;
    match v
    case Null =>
    case Bool(_) =>
    case Num(n) => NumberPrintable(n);
    case Str(s) => EscapeAllPrintable(s);
    case Arr(items) => ItemsPrintable(items);
    case Obj(fields) => FieldsPrintable(fields);
  }

  lemma {:induction false} ItemsPrintable(items: Items)
    ensures Printable(ItemsText(items))
    decreases items, 0
  {
    hide Stringify;
    if items.Item? {
      StringifyPrintable(items.head);
      ItemsPrintable(items.tail);
    }
  }

  lemma {:induction false} FieldsPrintable(fields: Fields)
    ensures Printable(FieldsText(fields))
    decreases fields, 0
  {
    hide EscapeAll, Stringify;
    if fields.Field? {
      EscapeAllPrintable(fields.key);
      StringifyPrintable(fields.value);
      FieldsPrintable(fields.rest);
    }
  }
}
