// The walk over an interactive card: a recursive collection of text and inline
// images under a depth, a node and a download budget.

module SafeText {
  import opened Prelude

  predicate IsSpaceChar(c: char) { c == ' ' || 9 <= c as int <= 13 }

  // What `safeInlineText` turns into a space: control characters, white space
  // (as far as it is ASCII) and the delimiters of bold, code and link spans.
  predicate Unsafe(c: char) { c < ' ' || c as int == 127 || IsSpaceChar(c) || c in "`*[]" }

  // One space for every run of unsafe characters, none at the start.
  function Collapse(s: string): string {
    if s == "" then ""
    else
      var before, c := Collapse(s[..|s| - 1]), s[|s| - 1];
      if !Unsafe(c) then before + [c]
      else if before == "" || before[|before| - 1] == ' ' then before
      else before + " "
  }

  function SafeInline(s: string): string {
    var t := Collapse(s);
    if t != "" && t[|t| - 1] == ' ' then t[..|t| - 1] else t
  }

  predicate Tidy(t: string) {
    && (forall i :: 0 <= i < |t| ==> t[i] == ' ' || !Unsafe(t[i]))
    && (t != "" ==> t[0] != ' ')
    && forall i :: 0 <= i < |t| - 1 ==> !(t[i] == ' ' && t[i + 1] == ' ')
  }

  lemma {:induction false} CollapseIsTidy(s: string)
    ensures Tidy(Collapse(s))
  {
    if s != "" { CollapseIsTidy(s[..|s| - 1]); }
  }

  // Nothing that could close a bold or code span, open a link or break the line
  // is left, and the spaces that are left stand alone between other characters.
  lemma SafeInlineIsSafe(s: string)
    ensures var t := SafeInline(s);
      && Tidy(t) && (t != "" ==> t[|t| - 1] != ' ')
      && forall i :: 0 <= i < |t| ==> t[i] !in "`*[]" && t[i] >= ' '
  {
    CollapseIsTidy(s);
  }

  lemma {:induction false} CollapseTidy(t: string)
    requires Tidy(t)
    ensures Collapse(t) == t
  {
    if t != "" {
      var p := t[..|t| - 1];
      CollapseTidy(p);
      assert t == p + [t[|t| - 1]];
      assert p != "" ==> !(t[|p| - 1] == ' ' && t[|p| - 1 + 1] == ' ');
    }
  }

  // A text that is safe already is left as it is.
  lemma SafeInlineOnce(s: string)
    ensures SafeInline(SafeInline(s)) == SafeInline(s)
  {
    SafeInlineIsSafe(s);
    CollapseTidy(SafeInline(s));
  }

  // Two texts with a space between them, unless one is empty.
  function Glued(a: string, b: string): string {
    if a == "" then b else if b == "" then a else a + " " + b
  }

  predicate Ended(t: string) { t == "" || t[|t| - 1] == ' ' }

  // `Collapse` of one more character.
  function Added(t: string, c: char): string {
    if !Unsafe(c) then t + [c] else if Ended(t) then t else t + " "
  }

  lemma CollapseSnoc(s: string, c: char)
    ensures Collapse(s + [c]) == Added(Collapse(s), c)
  {
    assert (s + [c])[..|s|] == s;
  }

  lemma AddedOn(x: string, t: string, c: char)
    requires Ended(x)
    ensures Added(x + t, c) == x + Added(t, c)
  {
    hide Unsafe;
    Associates(x, t, [c]);
    Associates(x, t, " ");
    if t == "" {
      assert x + t == x;
    } else {
      assert (x + t)[|x + t| - 1] == t[|t| - 1];
    }
  }

  // Behind a stretch that has come to an end, the rest collapses as on its own.
  lemma {:induction false} CollapseOn(a: string, b: string)
    requires Ended(Collapse(a))
    ensures Collapse(a + b) == Collapse(a) + Collapse(b)
  {
    hide Added, Ended;
    if b == "" {
      assert a + b == a;
      assert Collapse(a) + Collapse(b) == Collapse(a);
    } else {
      hide Collapse;
      var p, c := b[..|b| - 1], b[|b| - 1];
      SplitLast(a, b);
      CollapseOn(a, p);
      CollapseSnoc(a + p, c);
      CollapseSnoc(p, c);
      AddedOn(Collapse(a), Collapse(p), c);
    }
  }

  // Whatever stands between two texts that has to go leaves one space between what
  // is left of them, and a text of other characters is left as it is: that is all
  // that the sanitizing does.
  lemma {:induction false} SafeInlineSplits(a: string, c: char, b: string)
    requires c < ' ' || c as int == 127 || c == ' ' || c in "`*[]"
    ensures SafeInline(a + ([c] + b)) == Glued(SafeInline(a), SafeInline(b))
  {
    AddedUnsafe(Collapse(a), c);
    hide Added, Collapse, Unsafe, Glued, Trimmed;
    CollapseSnoc(a, c);
    Associates(a, [c], b);
    CollapseOn(a + [c], b);
    SafeInlineTrims(a);
    SafeInlineTrims(b);
    SafeInlineTrims(a + ([c] + b));
    CollapseIsTidy(a);
    CollapseIsTidy(b);
    GluedCollapsed(Collapse(a), Collapse(b));
  }

  lemma AddedUnsafe(t: string, c: char)
    requires Unsafe(c)
    ensures Added(t, c) == (if Ended(t) then t else t + " ") && Ended(Added(t, c))
  {}

  lemma SafeInlineTrims(s: string)
    ensures SafeInline(s) == Trimmed(Collapse(s))
  {}

  function Trimmed(t: string): string { if t != "" && t[|t| - 1] == ' ' then t[..|t| - 1] else t }

  lemma GluedCollapsed(x: string, y: string)
    requires (x != "" ==> x[0] != ' ') && (y != "" ==> y[0] != ' ')
    requires forall i :: 0 <= i < |x| - 1 ==> !(x[i] == ' ' && x[i + 1] == ' ')
    ensures Trimmed((if Ended(x) then x else x + " ") + y) == Glued(Trimmed(x), Trimmed(y))
  {
    var p := if Ended(x) then x else x + " ";
    if x == "" {
      assert p + y == y;
    } else {
      assert p == Trimmed(x) + " " && Trimmed(x) != "";
      if y == "" {
        assert p + y == p;
      } else {
        assert (p + y)[|p + y| - 1] == y[|y| - 1];
        assert (p + y)[..|p + y| - 1] == p + y[..|y| - 1];
      }
    }
  }

  lemma {:induction false} SafeInlineLeaves(s: string)
    requires forall i :: 0 <= i < |s| ==> s[i] > ' ' && s[i] as int != 127 && s[i] !in "`*[]"
    ensures SafeInline(s) == s
  {
    CollapseTidy(s);
  }

  predicate IsKeyChar(c: char) { 'A' <= c <= 'Z' || 'a' <= c <= 'z' || '0' <= c <= '9' || c == '_' || c == '-' }

  function SafeIdentifier(s: string): string {
    seq(|s|, i requires 0 <= i < |s| => if IsKeyChar(s[i]) then s[i] else '_')
  }

  // Letters, digits, `_` and `-` are kept where they are, and nothing else is left.
  lemma SafeIdentifierIsSafe(s: string)
    ensures var t := SafeIdentifier(s);
      && |t| == |s|
      && forall i :: 0 <= i < |s| ==>
           var plain := 'A' <= s[i] <= 'Z' || 'a' <= s[i] <= 'z' || '0' <= s[i] <= '9' || s[i] in "_-";
           t[i] == if plain then s[i] else '_'
  {}
}

module CardWalk {
  import opened Prelude
  import opened Json
  import opened SafeText

  const MAX_CARD_DEPTH := 32
  const MAX_CARD_NODES := 4000
  const MAX_INLINE_IMAGE_DOWNLOADS := 16

  // ----- what one unit of the node budget is spent on -----

  datatype Unit = Skip | Text(text: string) | Picture(key: string)

  predicate Blank(s: string) { forall i :: 0 <= i < |s| ==> IsSpaceChar(s[i]) }

  function FieldsOf(v: Option<Json>): Option<Fields> {
    match v
    case Some(Obj(f)) => Some(f)
    case _ => None
  }

  function ItemsOf(v: Option<Json>): Items {
    match v
    case Some(Arr(items)) => items
    case _ => NoItems
  }

  function TextOf(v: Option<Json>): string {
    match v
    case Some(Str(s)) => s
    case _ => ""
  }

  // `content` is a member, or a member of the nested `text`.
  function TextUnit(f: Fields): Unit {
    var nested := FieldsOf(Get(f, "text"));
    var text := TextOf(Get(if nested.Some? then nested.value else f, "content"));
    if Blank(text) then Skip else Text(text)
  }

  predicate HasText(f: Fields) {
    Get(f, "tag") in {Some(Str("markdown")), Some(Str("plain_text")), Some(Str("div"))}
  }

  function OwnUnit(el: Json): Unit {
    if !el.Obj? then Skip
    else if HasText(el.fields) then TextUnit(el.fields)
    else if Get(el.fields, "tag") == Some(Str("img")) then Picture(TextOf(Get(el.fields, "img_key")))
    else Skip
  }

  function FieldUnits(items: Items): seq<Unit> {
    match items
    case NoItems => []
    case Item(f, rest) => [if f.Obj? then TextUnit(f.fields) else Skip] + FieldUnits(rest)
  }

  function Cells(f: Fields): Items { if HasText(f) then ItemsOf(Get(f, "fields")) else NoItems }

  function Elements(f: Fields): Items { ItemsOf(Get(f, "elements")) }

  function Columns(f: Fields): Items { ItemsOf(Get(f, "columns")) }

  lemma {:induction false} GetIsSmaller(f: Fields, key: string)
    ensures Get(f, key).Some? ==> Get(f, key).value < f
  {
    match f
    case NoFields =>
    case Field(_, _, rest) => GetIsSmaller(rest, key);
  }

  lemma KidsAreSmaller(f: Fields)
    ensures Elements(f) == NoItems || Elements(f) < f
    ensures Columns(f) == NoItems || Columns(f) < f
  {
    GetIsSmaller(f, "elements");
    GetIsSmaller(f, "columns");
  }

  // The units of an element and all below it, in the order of the walk. With a
  // `cap` the walk does not enter an element deeper than that.
  function Units(el: Json, depth: nat, cap: Option<nat>): seq<Unit>
    decreases el
  {
    if cap.Some? && depth > cap.value then []
    else if !el.Obj? then [OwnUnit(el)]
    else
      KidsAreSmaller(el.fields);
      [OwnUnit(el)] + FieldUnits(Cells(el.fields))
        + ((if Columns(el.fields) == NoItems then [] else ColumnUnits(Columns(el.fields), depth + 1, cap))
        + (if Elements(el.fields) == NoItems then [] else EachUnits(Elements(el.fields), depth + 1, cap)))
  }

  function EachUnits(items: Items, depth: nat, cap: Option<nat>): seq<Unit>
    decreases items
  {
    match items
    case NoItems => []
    case Item(el, rest) => Units(el, depth, cap) + EachUnits(rest, depth, cap)
  }

  function ColumnUnits(columns: Items, depth: nat, cap: Option<nat>): seq<Unit>
    decreases columns
  {
    match columns
    case NoItems => []
    case Item(col, rest) =>
      if !col.Obj? then ColumnUnits(rest, depth, cap)
      else
        KidsAreSmaller(col.fields);
        (if Elements(col.fields) == NoItems then [] else EachUnits(Elements(col.fields), depth, cap))
          + ColumnUnits(rest, depth, cap)
  }

  // ----- what the units render to -----

  // The keys that are downloaded: those of the first images that have one.
  function Downloads(units: seq<Unit>): seq<string> {
    if units == [] then []
    else
      var before, u := Downloads(units[..|units| - 1]), units[|units| - 1];
      if u.Picture? && u.key != "" && |before| < MAX_INLINE_IMAGE_DOWNLOADS then before + [u.key] else before
  }

  const NOT_DOWNLOADED := "[image " + ['\U{E2}', '\U{80}', '\U{94}'] + " not downloaded; fetch via lark-cli, message_id="

  function TokenRef(messageId: string, key: string): string {
    NOT_DOWNLOADED + SafeIdentifier(messageId) + ", file_key=" + SafeIdentifier(key) + ", type=image]"
  }

  // One message: its id, and the path the n-th download of a key ends with, or "".
  datatype Message = Message(id: string, download: (nat, string) -> string)

  function ImageText(m: Message, key: string, attempt: nat): string {
    var path := m.download(attempt, key);
    if path != "" then "[image: " + path + "]" else TokenRef(m.id, key)
  }

  function PictureText(m: Message, key: string, used: nat): string {
    if key == "" then "[image]"
    else if used >= MAX_INLINE_IMAGE_DOWNLOADS then TokenRef(m.id, key)
    else ImageText(m, key, used)
  }

  function UnitText(m: Message, u: Unit, used: nat): seq<string> {
    match u
    case Skip => []
    case Text(t) => [t]
    case Picture(key) => [PictureText(m, key, used)]
  }

  function Parts(m: Message, units: seq<Unit>): seq<string> {
    if units == [] then []
    else
      var p, u := units[..|units| - 1], units[|units| - 1];
      Parts(m, p) + UnitText(m, u, |Downloads(p)|)
  }

  function Take<T>(s: seq<T>, n: nat): seq<T> { s[..Min(n, |s|)] }

  // After `units`, as far as `budget` reached: what was seen and what is left.
  ghost predicate Walked(before: seq<Unit>, budget: nat, units: seq<Unit>, seen: seq<Unit>, left: nat) {
    seen == before + Take(units, budget) && left == budget - Min(budget, |units|)
  }

  lemma WalkNothing(seen: seq<Unit>, budget: nat)
    ensures Walked(seen, budget, [], seen, budget)
  {
    assert seen + [] == seen;
  }

  lemma WalkOne(seen: seq<Unit>, budget: nat, u: Unit)
    requires budget > 0
    ensures Walked(seen, budget, [u], seen + [u], budget - 1)
  {
    assert [u][..1] == [u];
  }

  // Walking one stretch and then the next is walking both.
  lemma WalkMore(before: seq<Unit>, budget: nat, a: seq<Unit>, mid: seq<Unit>, left: nat,
                 b: seq<Unit>, seen: seq<Unit>, rest: nat)
    requires Walked(before, budget, a, mid, left) && Walked(mid, left, b, seen, rest)
    ensures Walked(before, budget, a + b, seen, rest)
  {
    var n := budget;
    if |a| <= n {
      assert (a + b)[..Min(n, |a + b|)] == a + b[..Min(n - |a|, |b|)];
      Associates(before, a, b[..Min(n - |a|, |b|)]);
    } else {
      assert (a + b)[..n] == a[..n];
      assert mid + [] == mid;
    }
  }

  // With nothing left, the walk has gone as far over more units.
  lemma WalkSpent(before: seq<Unit>, budget: nat, a: seq<Unit>, seen: seq<Unit>, b: seq<Unit>)
    requires Walked(before, budget, a, seen, 0)
    ensures Walked(before, budget, a + b, seen, 0)
  {
    assert (a + b)[..budget] == a[..budget];
  }

  lemma PartsSnoc(m: Message, seen: seq<Unit>, u: Unit)
    ensures Parts(m, seen + [u]) == Parts(m, seen) + UnitText(m, u, |Downloads(seen)|)
    ensures Downloads(seen + [u]) ==
      if u.Picture? && u.key != "" && |Downloads(seen)| < MAX_INLINE_IMAGE_DOWNLOADS then Downloads(seen) + [u.key]
      else Downloads(seen)
  {
    assert (seen + [u])[..|seen|] == seen;
  }

  // ----- the walk -----

  class Walk {
    const message: Message
    var parts: seq<string>
    var nodes: nat
    var remaining: nat
    // The keys whose download was attempted.
    var attempts: seq<string>
    ghost const title: seq<string>
    ghost var seen: seq<Unit>

    constructor (message: Message, title: seq<string>)
      ensures Valid() && seen == [] && nodes == MAX_CARD_NODES && this.message == message && this.title == title
    {
      this.message := message;
      this.title := title;
      parts, nodes, remaining, attempts, seen := title, MAX_CARD_NODES, MAX_INLINE_IMAGE_DOWNLOADS, [], [];
    }

    ghost predicate Valid()
      reads this
    {
      && parts == title + Parts(message, seen)
      && attempts == Downloads(seen)
      && remaining + |attempts| == MAX_INLINE_IMAGE_DOWNLOADS
      && nodes + |seen| == MAX_CARD_NODES
    }

    method RenderInlineImage(key: string) returns (text: string)
      requires remaining + |attempts| == MAX_INLINE_IMAGE_DOWNLOADS
      modifies this`remaining, this`attempts
      ensures remaining + |attempts| == MAX_INLINE_IMAGE_DOWNLOADS
      ensures text == PictureText(message, key, old(|attempts|))
      ensures attempts == if key != "" && old(remaining) > 0 then old(attempts) + [key] else old(attempts)
    {
      if key == "" { return "[image]"; }
      if remaining == 0 { return TokenRef(message.id, key); }
      remaining := remaining - 1;
      attempts := attempts + [key];
      var path := message.download(|attempts| - 1, key);
      text := if path != "" then "[image: " + path + "]" else TokenRef(message.id, key);
    }

    // Spends one unit of the node budget and renders what it was spent on.
    method Spend(u: Unit)
      requires Valid() && nodes > 0
      modifies this
      ensures Valid() && Walked(old(seen), old(nodes), [u], seen, nodes)
    {
      hide Parts, Downloads, PictureText, Walked;
      PartsSnoc(message, seen, u);
      WalkOne(seen, nodes, u);
      nodes := nodes - 1;
      seen := seen + [u];
      match u
      case Skip =>
        assert Parts(message, old(seen)) + [] == Parts(message, old(seen));
      case Text(t) =>
        Associates(title, Parts(message, old(seen)), [t]);
        parts := parts + [t];
      case Picture(key) =>
        var text := RenderInlineImage(key);
        Associates(title, Parts(message, old(seen)), [text]);
        parts := parts + [text];
    }

    method CollectFields(fields: Items)
      requires Valid()
      modifies this
      ensures Valid() && Walked(old(seen), old(nodes), FieldUnits(fields), seen, nodes)
    {
      hide Valid, Walked, TextUnit;
      var rest := fields;
      ghost var front: seq<Unit> := [];
      WalkNothing(seen, nodes);
      while rest.Item?
        invariant Valid()
        invariant front + FieldUnits(rest) == FieldUnits(fields)
        invariant Walked(old(seen), old(nodes), front, seen, nodes)
        decreases rest
      {
        if nodes == 0 { break; }
        var u := if rest.head.Obj? then TextUnit(rest.head.fields) else Skip;
        ghost var mid, left := seen, nodes;
        Spend(u);
        WalkMore(old(seen), old(nodes), front, mid, left, [u], seen, nodes);
        Associates(front, [u], FieldUnits(rest.tail));
        front := front + [u];
        rest := rest.tail;
      }
      if rest.Item? {
        WalkSpent(old(seen), old(nodes), front, seen, FieldUnits(rest));
      } else {
        assert front + [] == front;
      }
    }

    method CollectCardText(el: Json, depth: nat)
      requires Valid()
      modifies this
      ensures Valid() && Walked(old(seen), old(nodes), Units(el, depth, Some(MAX_CARD_DEPTH)), seen, nodes)
      decreases el
    {
      hide Valid, Walked, FieldUnits, OwnUnit, HasText, Elements, Columns, Cells;
      WalkNothing(seen, nodes);
      if depth > MAX_CARD_DEPTH { return; }
      if nodes == 0 {
        WalkSpent(seen, nodes, [], seen, Units(el, depth, Some(MAX_CARD_DEPTH)));
        assert [] + Units(el, depth, Some(MAX_CARD_DEPTH)) == Units(el, depth, Some(MAX_CARD_DEPTH));
        return;
      }
      Spend(OwnUnit(el));
      if !el.Obj? { return; }
      KidsAreSmaller(el.fields);
      ghost var units, mid, left := [OwnUnit(el)], seen, nodes;
      CollectFields(Cells(el.fields));
      WalkMore(old(seen), old(nodes), units, mid, left, FieldUnits(Cells(el.fields)), seen, nodes);
      units := units + FieldUnits(Cells(el.fields));
      ghost var columns, elements: seq<Unit> := [], [];
      if Columns(el.fields) != NoItems {
        columns := ColumnUnits(Columns(el.fields), depth + 1, Some(MAX_CARD_DEPTH));
        mid, left := seen, nodes;
        CollectColumns(Columns(el.fields), depth + 1);
        WalkMore(old(seen), old(nodes), units, mid, left, columns, seen, nodes);
      } else {
        assert units + columns == units;
      }
      if Elements(el.fields) != NoItems {
        elements := EachUnits(Elements(el.fields), depth + 1, Some(MAX_CARD_DEPTH));
        mid, left := seen, nodes;
        CollectEach(Elements(el.fields), depth + 1);
        WalkMore(old(seen), old(nodes), units + columns, mid, left, elements, seen, nodes);
      } else {
        assert units + columns + elements == units + columns;
      }
      Associates(units, columns, elements);
    }

    method CollectEach(items: Items, depth: nat)
      requires Valid()
      modifies this
      ensures Valid() && Walked(old(seen), old(nodes), EachUnits(items, depth, Some(MAX_CARD_DEPTH)), seen, nodes)
      decreases items
    {
      hide Valid, Walked, Units;
      var rest := items;
      ghost var front: seq<Unit> := [];
      WalkNothing(seen, nodes);
      while rest.Item?
        invariant Valid() && (rest == items || rest < items)
        invariant front + EachUnits(rest, depth, Some(MAX_CARD_DEPTH)) == EachUnits(items, depth, Some(MAX_CARD_DEPTH))
        invariant Walked(old(seen), old(nodes), front, seen, nodes)
        decreases rest
      {
        ghost var u := Units(rest.head, depth, Some(MAX_CARD_DEPTH));
        ghost var mid, left := seen, nodes;
        CollectCardText(rest.head, depth);
        WalkMore(old(seen), old(nodes), front, mid, left, u, seen, nodes);
        Associates(front, u, EachUnits(rest.tail, depth, Some(MAX_CARD_DEPTH)));
        front := front + u;
        rest := rest.tail;
      }
      assert front + [] == front;
    }

    method CollectColumns(columns: Items, depth: nat)
      requires Valid()
      modifies this
      ensures Valid() && Walked(old(seen), old(nodes), ColumnUnits(columns, depth, Some(MAX_CARD_DEPTH)), seen, nodes)
      decreases columns
    {
      hide Valid, Walked, Units, EachUnits, Elements;
      var rest := columns;
      ghost var front: seq<Unit> := [];
      WalkNothing(seen, nodes);
      while rest.Item?
        invariant Valid() && (rest == columns || rest < columns)
        invariant front + ColumnUnits(rest, depth, Some(MAX_CARD_DEPTH)) == ColumnUnits(columns, depth, Some(MAX_CARD_DEPTH))
        invariant Walked(old(seen), old(nodes), front, seen, nodes)
        decreases rest
      {
        var col := rest.head;
        ghost var u: seq<Unit> := [];
        if col.Obj? {
          KidsAreSmaller(col.fields);
          if Elements(col.fields) != NoItems {
            u := EachUnits(Elements(col.fields), depth, Some(MAX_CARD_DEPTH));
            ghost var mid, left := seen, nodes;
            CollectEach(Elements(col.fields), depth);
            WalkMore(old(seen), old(nodes), front, mid, left, u, seen, nodes);
          }
        }
        assert front + [] == front;
        Associates(front, u, ColumnUnits(rest.tail, depth, Some(MAX_CARD_DEPTH)));
        assert [] + ColumnUnits(rest.tail, depth, Some(MAX_CARD_DEPTH)) == ColumnUnits(rest.tail, depth, Some(MAX_CARD_DEPTH));
        front := front + u;
        rest := rest.tail;
      }
      assert front + [] == front;
    }
  }

  // ----- the card -----

  // Feishu may wrap a card in a JSON string.
  function Unwrapped(content: Fields): Fields {
    match Get(content, "user_dsl")
    case Some(Str(text)) =>
      var inner := Parse(text);
      if inner.Some? && inner.value.Obj? then inner.value.fields else content
    case _ => content
  }

  function TitleParts(card: Fields): seq<string> {
    var header := FieldsOf(Get(card, "header"));
    var title := if header.Some? then FieldsOf(Get(header.value, "title")) else None;
    var text := if title.Some? then TextOf(Get(title.value, "content")) else "";
    if Blank(text) || SafeInline(text) == "" then [] else ["**" + SafeInline(text) + "**"]
  }

  function Body(card: Fields): Items {
    var body := FieldsOf(Get(card, "body"));
    Elements(if body.Some? then body.value else card)
  }

  function Join(parts: seq<string>): string {
    if parts == [] then "" else if |parts| == 1 then parts[0] else parts[0] + "\n\n" + Join(parts[1..])
  }

  function TextOfParts(parts: seq<string>): string { if parts == [] then "[card]" else Join(parts) }

  // The units a card's walk gets to, and those it has.
  function Reached(content: Fields): seq<Unit> {
    Take(EachUnits(Body(Unwrapped(content)), 0, Some(MAX_CARD_DEPTH)), MAX_CARD_NODES)
  }

  function Whole(content: Fields): seq<Unit> { EachUnits(Body(Unwrapped(content)), 0, None) }

  method RenderCard(content: Fields, message: Message) returns (text: string, attempts: seq<string>)
    ensures text == TextOfParts(TitleParts(Unwrapped(content)) + Parts(message, Reached(content)))
    ensures attempts == Downloads(Reached(content))
  {
    hide Parts, Downloads, EachUnits;
    var card := Unwrapped(content);
    var walk := new Walk(message, TitleParts(card));
    walk.CollectEach(Body(card), 0);
    assert [] + Reached(content) == Reached(content);
    text := TextOfParts(walk.parts);
    attempts := walk.attempts;
  }

  // ----- what a card shows -----

  // The text of an object: that of its `text` member, if that is an object, or its own.
  predicate SaysText(f: Fields, text: string) {
    && (exists i :: 0 <= i < |text| && !IsSpaceChar(text[i]))
    && match Get(f, "text")
       case Some(Obj(nested)) => Get(nested, "content") == Some(Str(text))
       case _ => Get(f, "content") == Some(Str(text))
  }

  // One of the items is an object that says the text.
  predicate SomeSays(items: Items, text: string) {
    match items
    case NoItems => false
    case Item(Obj(f), rest) => SaysText(f, text) || SomeSays(rest, text)
    case Item(_, rest) => SomeSays(rest, text)
  }

  // A text element shows its text and those of its fields; an image shows its key.
  predicate Shows(el: Json, u: Unit) {
    && el.Obj?
    && var tag := Get(el.fields, "tag");
       var isText := tag == Some(Str("markdown")) || tag == Some(Str("plain_text")) || tag == Some(Str("div"));
       match u
       case Skip => false
       case Text(text) =>
         isText && (SaysText(el.fields, text) || SomeSays(ItemsOf(Get(el.fields, "fields")), text))
       case Picture(key) => tag == Some(Str("img")) && key == TextOf(Get(el.fields, "img_key"))
  }

  // The element is one of the items or stands below one of them: in its elements, or
  // in the elements of its columns.
  predicate Below(el: Json, items: Items)
    decreases items
  {
    match items
    case NoItems => false
    case Item(top, rest) =>
      || el == top || Below(el, rest)
      || (top.Obj? && (KidsAreSmaller(top.fields);
            || (Elements(top.fields) != NoItems && Below(el, Elements(top.fields)))
            || (Columns(top.fields) != NoItems && BelowColumns(el, Columns(top.fields)))))
  }

  predicate BelowColumns(el: Json, columns: Items)
    decreases columns
  {
    match columns
    case NoItems => false
    case Item(col, rest) =>
      || BelowColumns(el, rest)
      || (col.Obj? && (KidsAreSmaller(col.fields); Elements(col.fields) != NoItems && Below(el, Elements(col.fields))))
  }

  lemma TextUnitSays(f: Fields, text: string)
    ensures TextUnit(f) == Text(text) <==> SaysText(f, text)
    ensures !TextUnit(f).Picture?
  {}

  lemma {:induction false} FieldUnitsSay(items: Items, u: Unit)
    requires u != Skip
    ensures u in FieldUnits(items) <==> u.Text? && SomeSays(items, u.text)
  {
    if items.Item? {
      FieldUnitsSay(items.tail, u);
      if items.head.Obj? { TextUnitSays(items.head.fields, if u.Text? then u.text else ""); }
      hide TextUnit, SaysText;
    }
  }

  lemma {:induction false} OwnUnitShows(el: Json, u: Unit)
    requires u != Skip && el.Obj?
    ensures Shows(el, u) <==> u == OwnUnit(el) || u in FieldUnits(Cells(el.fields))
  {
    TextUnitSays(el.fields, if u.Text? then u.text else "");
    FieldUnitsSay(Cells(el.fields), u);
    hide TextUnit, SaysText, FieldUnits, SomeSays, Get;
    assert Cells(el.fields) != ItemsOf(Get(el.fields, "fields")) ==> Cells(el.fields) == NoItems;
    NothingSays();
  }

  lemma NothingSays()
    ensures forall text :: !SomeSays(NoItems, text)
  {}

  ghost predicate ShownBelow(items: Items, u: Unit) { exists el :: Below(el, items) && Shows(el, u) }

  ghost predicate ShownInColumns(columns: Items, u: Unit) { exists el :: BelowColumns(el, columns) && Shows(el, u) }

  lemma {:induction false} EachShows(items: Items, depth: nat, u: Unit)
    requires u != Skip
    ensures u in EachUnits(items, depth, None) <==> ShownBelow(items, u)
    decreases items, 0
  {
    if items.Item? {
      EachShows(items.tail, depth, u);
      TopShows(items.head, depth, u);
      ShownBelowItem(items.head, items.tail, u);
      hide Units, Below, Shows, ShownBelow;
    }
  }

  // What an element shows, with all below it.
  ghost predicate ShownBy(top: Json, u: Unit) {
    || Shows(top, u)
    || (top.Obj? && (ShownBelow(Elements(top.fields), u) || ShownInColumns(Columns(top.fields), u)))
  }

  lemma ShownBelowItem(top: Json, rest: Items, u: Unit)
    ensures ShownBelow(Item(top, rest), u) <==> ShownBy(top, u) || ShownBelow(rest, u)
  {
    hide Shows, Elements, Columns;
    var items := Item(top, rest);
    if el :| Below(el, items) && Shows(el, u) {}
    if Shows(top, u) { assert Below(top, items); }
    if el :| Below(el, rest) && Shows(el, u) { assert Below(el, items); }
    if top.Obj? {
      if el :| Below(el, Elements(top.fields)) && Shows(el, u) { assert Below(el, items); }
      if el :| BelowColumns(el, Columns(top.fields)) && Shows(el, u) { assert Below(el, items); }
    }
  }

  lemma {:induction false} TopShows(top: Json, depth: nat, u: Unit)
    requires u != Skip
    ensures u in Units(top, depth, None) <==> ShownBy(top, u)
    decreases top, 1
  {
    if top.Obj? {
      KidsAreSmaller(top.fields);
      OwnUnitShows(top, u);
      hide OwnUnit, FieldUnits, Shows, Elements, Columns, Cells, ShownBelow, ShownInColumns;
      NothingBelow(u);
      if Elements(top.fields) != NoItems { EachShows(Elements(top.fields), depth + 1, u); }
      if Columns(top.fields) != NoItems { ColumnsShow(Columns(top.fields), depth + 1, u); }
    }
  }

  lemma NothingBelow(u: Unit)
    ensures !ShownBelow(NoItems, u) && !ShownInColumns(NoItems, u)
  {}

  lemma {:induction false} ColumnsShow(columns: Items, depth: nat, u: Unit)
    requires u != Skip
    ensures u in ColumnUnits(columns, depth, None) <==> ShownInColumns(columns, u)
    decreases columns, 0
  {
    if columns.Item? {
      ColumnsShow(columns.tail, depth, u);
      ShownInColumn(columns.head, columns.tail, u);
      if columns.head.Obj? {
        KidsAreSmaller(columns.head.fields);
        NothingBelow(u);
        if Elements(columns.head.fields) != NoItems { EachShows(Elements(columns.head.fields), depth, u); }
      }
      hide EachUnits, Below, Shows, ShownBelow, ShownInColumns, Elements;
    }
  }

  lemma ShownInColumn(col: Json, rest: Items, u: Unit)
    ensures ShownInColumns(Item(col, rest), u) <==>
      (col.Obj? && ShownBelow(Elements(col.fields), u)) || ShownInColumns(rest, u)
  {
    hide Shows, Elements;
    var columns := Item(col, rest);
    if el :| BelowColumns(el, columns) && Shows(el, u) {}
    if el :| BelowColumns(el, rest) && Shows(el, u) { assert BelowColumns(el, columns); }
    if col.Obj? {
      if el :| Below(el, Elements(col.fields)) && Shows(el, u) { assert BelowColumns(el, columns); }
    }
  }

  // Without limits the walk gets exactly the texts and images that the elements of
  // the card show, however deep they stand: none is missed and none is made up.
  lemma {:induction false} WalkShowsAll(content: Fields, u: Unit)
    requires u != Skip
    ensures u in Whole(content) <==> exists el :: Below(el, Body(Unwrapped(content))) && Shows(el, u)
  {
    hide EachUnits, Below, Shows, Body, Unwrapped;
    EachShows(Body(Unwrapped(content)), 0, u);
  }

  // The parts of a card stand in their order with an empty line between them.
  lemma {:induction false} PartsApart(a: seq<string>, b: seq<string>)
    ensures a != [] && b != [] ==> TextOfParts(a + b) == TextOfParts(a) + "\n\n" + TextOfParts(b)
    ensures |a| == 1 ==> TextOfParts(a) == a[0]
    ensures TextOfParts([]) == "[card]"
  {
    if |a| > 1 && b != [] {
      assert (a + b)[1..] == a[1..] + b;
      PartsApart(a[1..], b);
    } else if |a| == 1 && b != [] {
      assert (a + b)[1..] == b;
    }
  }

  // A card is the same card in Feishu's envelope.
  lemma {:induction false} EnvelopeIsTransparent(inner: Fields)
    requires Get(inner, "user_dsl").None?
    ensures Unwrapped(Field("user_dsl", Str(Stringify(Obj(inner))), NoFields)) == inner == Unwrapped(inner)
  {
    hide Parse, Stringify;
    RoundTrip(Obj(inner));
    assert Get(NoFields, "user_dsl") == None;
  }

  // Its elements are those of its body, if it has one, and its own otherwise.
  lemma {:induction false} BodyMeaning(card: Fields)
    ensures forall body, items :: Get(card, "body") == Some(Obj(body)) && Get(body, "elements") == Some(Arr(items)) ==>
      Body(card) == items
    ensures forall items :: Get(card, "body").None? && Get(card, "elements") == Some(Arr(items)) ==> Body(card) == items
  {
    hide Get;
  }

  // A title that is not blank comes first, in bold, with nothing in it that could end the bold.
  lemma {:induction false} TitleMeaning(card: Fields, header: Fields, title: Fields, text: string)
    requires Get(card, "header") == Some(Obj(header)) && Get(header, "title") == Some(Obj(title))
    requires Get(title, "content") == Some(Str(text))
    ensures TitleParts(card) == if SafeInline(text) == "" then [] else ["**" + SafeInline(text) + "**"]
  {
    hide Get, SafeInline;
    if Blank(text) { BlankIsNothing(text); }
  }

  lemma {:induction false} BlankIsNothing(text: string)
    requires Blank(text)
    ensures SafeInline(text) == "" && Collapse(text) == ""
  {
    if text != "" { BlankIsNothing(text[..|text| - 1]); }
  }

  // ----- what the budgets cost -----

  // How many levels of elements there are.
  function Levels(el: Json): nat
    decreases el
  {
    if !el.Obj? then 1
    else
      KidsAreSmaller(el.fields);
      1 + Max(if Columns(el.fields) == NoItems then 0 else ColumnLevels(Columns(el.fields)),
              if Elements(el.fields) == NoItems then 0 else EachLevels(Elements(el.fields)))
  }

  function Max(a: nat, b: nat): nat { if a < b then b else a }

  function EachLevels(items: Items): nat
    decreases items
  {
    match items
    case NoItems => 0
    case Item(el, rest) => Max(Levels(el), EachLevels(rest))
  }

  function ColumnLevels(columns: Items): nat
    decreases columns
  {
    match columns
    case NoItems => 0
    case Item(col, rest) =>
      if !col.Obj? then ColumnLevels(rest)
      else
        KidsAreSmaller(col.fields);
        Max(if Elements(col.fields) == NoItems then 0 else EachLevels(Elements(col.fields)), ColumnLevels(rest))
  }

  // `capped` is `full` when the levels fit, and lacks units when they do not.
  ghost predicate CapCosts(capped: seq<Unit>, full: seq<Unit>, fits: bool) {
    if fits then capped == full else |capped| < |full|
  }

  lemma {:induction false} UnitsCapped(el: Json, depth: nat, cap: nat)
    requires depth <= cap + 1
    ensures CapCosts(Units(el, depth, Some(cap)), Units(el, depth, None), depth + Levels(el) <= cap + 1)
    decreases el
  {
    if depth <= cap && el.Obj? {
      hide FieldUnits, OwnUnit, HasText, Elements, Columns, Cells;
      KidsAreSmaller(el.fields);
      if Columns(el.fields) != NoItems { ColumnUnitsCapped(Columns(el.fields), depth + 1, cap); }
      if Elements(el.fields) != NoItems { EachUnitsCapped(Elements(el.fields), depth + 1, cap); }
    }
  }

  lemma {:induction false} EachUnitsCapped(items: Items, depth: nat, cap: nat)
    requires depth <= cap + 1
    ensures CapCosts(EachUnits(items, depth, Some(cap)), EachUnits(items, depth, None), depth + EachLevels(items) <= cap + 1)
    decreases items
  {
    if items.Item? {
      hide Units, Levels;
      UnitsCapped(items.head, depth, cap);
      EachUnitsCapped(items.tail, depth, cap);
    }
  }

  lemma {:induction false} ColumnUnitsCapped(columns: Items, depth: nat, cap: nat)
    requires depth <= cap + 1
    ensures CapCosts(ColumnUnits(columns, depth, Some(cap)), ColumnUnits(columns, depth, None),
                     depth + ColumnLevels(columns) <= cap + 1)
    decreases columns
  {
    if columns.Item? {
      hide EachUnits, EachLevels, Elements;
      ColumnUnitsCapped(columns.tail, depth, cap);
      if columns.head.Obj? {
        KidsAreSmaller(columns.head.fields);
        if Elements(columns.head.fields) != NoItems { EachUnitsCapped(Elements(columns.head.fields), depth, cap); }
      }
    }
  }

  // The walk gets to all of a card exactly when the card is at most 33 levels
  // deep and spends at most 4000 units; it then renders as without any limits.
  lemma {:induction false} CardIsWhole(content: Fields)
    ensures Reached(content) == Whole(content) <==>
      EachLevels(Body(Unwrapped(content))) <= 33 && |Whole(content)| <= 4000
  {
    hide EachUnits, EachLevels;
    EachUnitsCapped(Body(Unwrapped(content)), 0, MAX_CARD_DEPTH);
  }

  lemma {:induction false} PartsOfTake(m: Message, units: seq<Unit>, n: nat)
    requires n <= |units|
    ensures Parts(m, units[..n]) <= Parts(m, units)
  {
    if n < |units| {
      PartsOfTake(m, units[..|units| - 1], n);
      assert units[..|units| - 1][..n] == units[..n];
    } else {
      assert units[..n] == units;
    }
  }

  // Whatever the node budget cuts off, the parts that come out are the first
  // ones of the walk without it, unchanged.
  lemma BudgetCutsTheEnd(m: Message, content: Fields)
    ensures Parts(m, Reached(content)) <= Parts(m, EachUnits(Body(Unwrapped(content)), 0, Some(MAX_CARD_DEPTH)))
  {
    var units := EachUnits(Body(Unwrapped(content)), 0, Some(MAX_CARD_DEPTH));
    hide EachUnits, Parts, Unwrapped, Body;
    PartsOfTake(m, units, Min(MAX_CARD_NODES, |units|));
  }

  // At most one part for each unit, so no card renders to more than 4000 and a title.
  lemma {:induction false} OnePartPerUnit(m: Message, units: seq<Unit>)
    ensures |Parts(m, units)| <= |units|
  {
    if units != [] { OnePartPerUnit(m, units[..|units| - 1]); }
  }

  function Keys(units: seq<Unit>): seq<string> {
    if units == [] then []
    else
      var u := units[|units| - 1];
      Keys(units[..|units| - 1]) + if u.Picture? && u.key != "" then [u.key] else []
  }

  // The downloads of a card are those of its first 16 images, no matter how
  // they turn out, and none after.
  lemma {:induction false} FirstImagesDownloaded(units: seq<Unit>)
    ensures Downloads(units) == Take(Keys(units), 16)
    ensures |Downloads(units)| <= 16
  {
    if units != [] {
      var p := units[..|units| - 1];
      FirstImagesDownloaded(p);
      if |Keys(p)| < MAX_INLINE_IMAGE_DOWNLOADS {
        assert Take(Keys(p), MAX_INLINE_IMAGE_DOWNLOADS) == Keys(p);
      }
    }
  }
}
