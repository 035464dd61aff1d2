// Plugin versions: how they are read, the order they are compared in, and the
// eviction of an older daemon by a newer one.

module Versions {
  import opened Prelude

  datatype Version = Version(major: nat, minor: nat, patch: nat, prerelease: Option<string>)

  // ----- reading -----

  predicate IsDigit(c: char) { '0' <= c <= '9' }

  predicate IsWordChar(c: char) { IsDigit(c) || 'A' <= c <= 'Z' || 'a' <= c <= 'z' || c == '.' || c == '-' }

  predicate Digits(s: string) { s != "" && forall i :: 0 <= i < |s| ==> IsDigit(s[i]) }

  predicate Word(s: string) { s != "" && forall i :: 0 <= i < |s| ==> IsWordChar(s[i]) }

  function Number(s: string): nat
    requires forall i :: 0 <= i < |s| ==> IsDigit(s[i])
  {
    if s == "" then 0
    else
      assert IsDigit(s[|s| - 1]);
      10 * Number(s[..|s| - 1]) + (s[|s| - 1] as int - '0' as int)
  }

  // How many digits `s` starts with, and where its first `c` is.
  function DigitCount(s: string): (n: nat)
    ensures n <= |s| && forall i :: 0 <= i < n ==> IsDigit(s[i])
    ensures n < |s| ==> !IsDigit(s[n])
  {
    if s == "" || !IsDigit(s[0]) then 0
    else
      assert forall i :: 1 <= i < 1 + DigitCount(s[1..]) ==> s[i] == s[1..][i - 1];
      1 + DigitCount(s[1..])
  }

  function IndexOf(s: string, c: char): (n: nat)
    ensures n <= |s| && forall i :: 0 <= i < n ==> s[i] != c
    ensures n < |s| ==> s[n] == c
  {
    if s == "" || s[0] == c then 0
    else
      assert forall i :: 1 <= i < 1 + IndexOf(s[1..], c) ==> s[i] == s[1..][i - 1];
      1 + IndexOf(s[1..], c)
  }

  // What follows the three numbers: a prerelease, a build, both or neither.
  function ParseTail(s: string): Option<Option<string>> {
    var plus := IndexOf(s, '+');
    if plus < |s| && !Word(s[plus + 1..]) then None
    else if plus == 0 then Some(None)
    else if s[0] == '-' && Word(s[1..plus]) then Some(Some(s[1..plus]))
    else None
  }

  function ParseVersion(s: string): Option<Version> {
    var i := DigitCount(s);
    if i == 0 || i == |s| || s[i] != '.' then None
    else
      var t := s[i + 1..];
      var j := DigitCount(t);
      if j == 0 || j == |t| || t[j] != '.' then None
      else
        var u := t[j + 1..];
        var k := DigitCount(u);
        if k == 0 then None
        else
          var tail := ParseTail(u[k..]);
          if tail.None? then None
          else Some(Version(Number(s[..i]), Number(t[..j]), Number(u[..k]), tail.value))
  }

  function TailText(prerelease: Option<string>, build: Option<string>): string {
    (if prerelease.Some? then "-" + prerelease.value else "") + (if build.Some? then "+" + build.value else "")
  }

  // The texts the version pattern stands for.
  predicate Spelled(s: string, a: string, b: string, c: string, prerelease: Option<string>, build: Option<string>) {
    && Digits(a) && Digits(b) && Digits(c)
    && (prerelease.Some? ==> Word(prerelease.value)) && (build.Some? ==> Word(build.value))
    && s == a + "." + (b + "." + (c + TailText(prerelease, build)))
  }

  lemma {:induction false} DigitCountOf(a: string, rest: string)
    requires forall i :: 0 <= i < |a| ==> IsDigit(a[i])
    requires rest == "" || !IsDigit(rest[0])
    ensures DigitCount(a + rest) == |a|
  {
    assert forall i :: 0 <= i < |a| ==> (a + rest)[i] == a[i];
    assert rest != "" ==> (a + rest)[|a|] == rest[0];
  }

  lemma {:induction false} TailRoundTrip(prerelease: Option<string>, build: Option<string>)
    requires (prerelease.Some? ==> Word(prerelease.value)) && (build.Some? ==> Word(build.value))
    ensures ParseTail(TailText(prerelease, build)) == Some(prerelease)
  {
    var s := TailText(prerelease, build);
    var p := if prerelease.Some? then 1 + |prerelease.value| else 0;
    var plus := IndexOf(s, '+');
    assert forall i :: 1 <= i < p ==> s[i] == prerelease.value[i - 1] && IsWordChar(prerelease.value[i - 1]);
    assert forall i :: 0 <= i < p ==> s[i] != '+';
    if build.Some? {
      assert s[p] == '+';
      assert plus == p;
      assert s[plus + 1..] == build.value;
    } else {
      assert plus == |s| == p;
    }
    if prerelease.Some? { assert s[1..plus] == prerelease.value; }
  }

  lemma TailStarts(prerelease: Option<string>, build: Option<string>)
    ensures TailText(prerelease, build) != "" ==> !IsDigit(TailText(prerelease, build)[0])
  {}

  lemma Dotted(a: string, t: string)
    ensures var s := a + "." + t; s == a + ("." + t) && s[|a|] == '.' && s[..|a|] == a && s[|a| + 1..] == t
  {}

  lemma Undotted(s: string, i: nat)
    requires i < |s| && s[i] == '.'
    ensures s == s[..i] + "." + s[i + 1..]
  {}

  // Exactly the texts of the pattern are read, each as what its parts say.
  lemma {:induction false} ParseSpelled(s: string, a: string, b: string, c: string,
                                        prerelease: Option<string>, build: Option<string>)
    requires Spelled(s, a, b, c, prerelease, build)
    ensures ParseVersion(s) == Some(Version(Number(a), Number(b), Number(c), prerelease))
  {
    hide Number, ParseTail, DigitCount, IndexOf;
    var tail := TailText(prerelease, build);
    TailRoundTrip(prerelease, build);
    TailStarts(prerelease, build);
    hide TailText, Word, IsWordChar;
    var u := c + tail;
    var t := b + "." + u;
    DigitCountOf(a, "." + t);
    Dotted(a, t);
    DigitCountOf(b, "." + u);
    Dotted(b, u);
    DigitCountOf(c, tail);
    assert u[..|c|] == c && u[|c|..] == tail;
  }

  lemma {:induction false} TailSpelled(s: string) returns (build: Option<string>)
    requires ParseTail(s).Some?
    ensures s == TailText(ParseTail(s).value, build) && (build.Some? ==> Word(build.value))
    ensures ParseTail(s).value.Some? ==> Word(ParseTail(s).value.value)
  {
    var plus := IndexOf(s, '+');
    build := if plus < |s| then Some(s[plus + 1..]) else None;
    assert s == s[..plus] + (if plus < |s| then "+" + s[plus + 1..] else "");
    if plus > 0 { assert s[..plus] == "-" + s[1..plus]; }
  }

  lemma {:induction false} ParsedIsSpelled(s: string) returns (a: string, b: string, c: string, build: Option<string>)
    requires ParseVersion(s).Some?
    ensures Spelled(s, a, b, c, ParseVersion(s).value.prerelease, build)
  {
    hide Number, ParseTail, TailText, Word, DigitCount, Digits, IsDigit;
    var i := DigitCount(s);
    var t := s[i + 1..];
    var j := DigitCount(t);
    var u := t[j + 1..];
    var k := DigitCount(u);
    a, b, c := s[..i], t[..j], u[..k];
    StartDigits(s);
    StartDigits(t);
    StartDigits(u);
    build := TailSpelled(u[k..]);
    Undotted(s, i);
    Undotted(t, j);
    SpellOut(s, a, t, b, u, c, u[k..]);
  }

  lemma StartDigits(s: string)
    ensures DigitCount(s) > 0 ==> Digits(s[..DigitCount(s)])
  {}

  lemma SpellOut(s: string, a: string, t: string, b: string, u: string, c: string, tail: string)
    requires s == a + "." + t && t == b + "." + u && |c| + |tail| == |u| && c == u[..|c|] && tail == u[|c|..]
    ensures s == a + "." + (b + "." + (c + tail))
  {
    assert u == c + tail;
  }

  // A number as it is written.
  function Decimal(n: nat): (s: string)
    ensures Digits(s)
  {
    var last := ["0123456789"[n % 10]];
    if n < 10 then last else Decimal(n / 10) + last
  }

  lemma DigitRead(before: string, d: nat)
    requires (forall i :: 0 <= i < |before| ==> IsDigit(before[i])) && d < 10
    ensures var s := before + ["0123456789"[d]];
      (forall i :: 0 <= i < |s| ==> IsDigit(s[i])) && Number(s) == 10 * Number(before) + d
  {
    var s := before + ["0123456789"[d]];
    assert s[..|before|] == before;
  }

  lemma {:induction false} NumberOfDecimal(n: nat)
    ensures Number(Decimal(n)) == n
  {
    hide Number;
    if n < 10 {
      DigitRead("", n);
      assert "" + ["0123456789"[n]] == ["0123456789"[n]];
      NumberOfNothing();
    } else {
      NumberOfDecimal(n / 10);
      DigitRead(Decimal(n / 10), n % 10);
    }
  }

  lemma NumberOfNothing()
    ensures Number("") == 0
  {}

  // What a version is written as.
  function Written(v: Version, build: Option<string>): string {
    Decimal(v.major) + "." + (Decimal(v.minor) + "." + (Decimal(v.patch) + TailText(v.prerelease, build)))
  }

  // Every version that is written out is read back.
  lemma {:induction false} VersionRoundTrip(v: Version, build: Option<string>)
    requires (v.prerelease.Some? ==> Word(v.prerelease.value)) && (build.Some? ==> Word(build.value))
    ensures ParseVersion(Written(v, build)) == Some(v)
  {
    hide Decimal, Number, ParseVersion, TailText, Word;
    ParseSpelled(Written(v, build), Decimal(v.major), Decimal(v.minor), Decimal(v.patch), v.prerelease, build);
    NumberOfDecimal(v.major);
    NumberOfDecimal(v.minor);
    NumberOfDecimal(v.patch);
  }

  // ----- comparing -----

  // `localeCompare`: the sign says which of two identifiers comes first.
  type Collation = (string, string) -> int

  ghost predicate Ordering(collate: Collation) {
    && (forall a, b :: collate(a, b) < 0 <==> collate(b, a) > 0)
    && (forall a, b, c :: collate(a, b) <= 0 && collate(b, c) <= 0 ==> collate(a, c) <= 0)
  }

  function CompareIdentifiers(collate: Collation, a: string, b: string): int {
    if Digits(a) && Digits(b) then Number(a) - Number(b)
    else if Digits(a) then -1
    else if Digits(b) then 1
    else collate(a, b)
  }

  function Identifiers(s: string): (ids: seq<string>)
    ensures ids != []
  {
    if s == "" then [""]
    else
      var more := Identifiers(s[1..]);
      if s[0] == '.' then [""] + more else [[s[0]] + more[0]] + more[1..]
  }

  function JoinDotted(ids: seq<string>): string
    requires ids != []
  {
    if |ids| == 1 then ids[0] else ids[0] + "." + JoinDotted(ids[1..])
  }

  predicate NoDot(s: string) { forall i :: 0 <= i < |s| ==> s[i] != '.' }

  lemma {:induction false} IdentifiersOf(id: string, rest: string)
    requires NoDot(id)
    ensures Identifiers(id) == [id]
    ensures Identifiers(id + "." + rest) == [id] + Identifiers(rest)
  {
    var s := id + "." + rest;
    if id == "" {
      assert s[1..] == rest;
    } else {
      IdentifiersOf(id[1..], rest);
      assert s[1..] == id[1..] + "." + rest;
      assert [id[0]] + id[1..] == id;
      assert ([id[1..]] + Identifiers(rest))[1..] == Identifiers(rest);
    }
  }

  // The identifiers of a prerelease are its stretches between the dots: however
  // dotless words are joined by dots, they come apart as they were.
  lemma {:induction false} IdentifiersJoined(ids: seq<string>)
    requires ids != [] && forall i :: 0 <= i < |ids| ==> NoDot(ids[i])
    ensures Identifiers(JoinDotted(ids)) == ids
  {
    hide Identifiers, NoDot;
    if |ids| == 1 {
      IdentifiersOf(ids[0], "");
      assert [ids[0]] == ids;
    } else {
      IdentifiersJoined(ids[1..]);
      IdentifiersOf(ids[0], JoinDotted(ids[1..]));
      assert [ids[0]] + ids[1..] == ids;
    }
  }

  function CompareLists(collate: Collation, l: seq<string>, r: seq<string>): int {
    if l == [] && r == [] then 0
    else if l == [] then -1
    else if r == [] then 1
    else if CompareIdentifiers(collate, l[0], r[0]) != 0 then CompareIdentifiers(collate, l[0], r[0])
    else CompareLists(collate, l[1..], r[1..])
  }

  function ComparePrereleases(collate: Collation, a: Option<string>, b: Option<string>): int {
    if a.None? && b.None? then 0
    else if a.None? then 1
    else if b.None? then -1
    else CompareLists(collate, Identifiers(a.value), Identifiers(b.value))
  }

  method ComparePrerelease(collate: Collation, a: Option<string>, b: Option<string>) returns (r: int)
    ensures r == ComparePrereleases(collate, a, b)
  {
    hide CompareIdentifiers, Identifiers;
    if a.None? && b.None? { return 0; }
    if a.None? { return 1; }
    if b.None? { return -1; }
    var left, right := Identifiers(a.value), Identifiers(b.value);
    var length := if |left| < |right| then |right| else |left|;
    var i := 0;
    while i < length
      invariant 0 <= i <= length && i <= |left| && i <= |right|
      invariant CompareLists(collate, left, right) == CompareLists(collate, left[i..], right[i..])
    {
      if i == |left| { return -1; }
      if i == |right| { return 1; }
      var diff := CompareIdentifiers(collate, left[i], right[i]);
      if diff != 0 { return diff; }
      assert left[i..][1..] == left[i + 1..] && right[i..][1..] == right[i + 1..];
      i := i + 1;
    }
    return 0;
  }

  function Compare(collate: Collation, a: Version, b: Version): int {
    if a.major != b.major then a.major - b.major
    else if a.minor != b.minor then a.minor - b.minor
    else if a.patch != b.patch then a.patch - b.patch
    else ComparePrereleases(collate, a.prerelease, b.prerelease)
  }

  // ----- the comparison is a total preorder -----

  lemma IdentifiersOrdered(collate: Collation, a: string, b: string, c: string)
    requires Ordering(collate)
    ensures CompareIdentifiers(collate, a, b) < 0 <==> CompareIdentifiers(collate, b, a) > 0
    ensures CompareIdentifiers(collate, a, b) > 0 <==> CompareIdentifiers(collate, b, a) < 0
    ensures CompareIdentifiers(collate, a, b) <= 0 && CompareIdentifiers(collate, b, c) <= 0 ==>
      CompareIdentifiers(collate, a, c) <= 0
  {
    hide Digits, Number;
  }

  lemma {:induction false} ListsOrdered(collate: Collation, a: seq<string>, b: seq<string>, c: seq<string>)
    requires Ordering(collate)
    ensures CompareLists(collate, a, b) < 0 <==> CompareLists(collate, b, a) > 0
    ensures CompareLists(collate, a, b) > 0 <==> CompareLists(collate, b, a) < 0
    ensures CompareLists(collate, a, b) <= 0 && CompareLists(collate, b, c) <= 0 ==> CompareLists(collate, a, c) <= 0
  {
    hide CompareIdentifiers, Ordering;
    if a != [] && b != [] {
      IdentifiersOrdered(collate, a[0], b[0], a[0]);
      if c != [] {
        IdentifiersOrdered(collate, a[0], b[0], c[0]);
        IdentifiersOrdered(collate, b[0], c[0], a[0]);
        IdentifiersOrdered(collate, c[0], a[0], b[0]);
        ListsOrdered(collate, a[1..], b[1..], c[1..]);
      } else {
        ListsOrdered(collate, a[1..], b[1..], []);
      }
    }
  }

  lemma {:induction false} PrereleasesOrdered(collate: Collation, a: Option<string>, b: Option<string>, c: Option<string>)
    requires Ordering(collate)
    ensures ComparePrereleases(collate, a, b) < 0 <==> ComparePrereleases(collate, b, a) > 0
    ensures ComparePrereleases(collate, a, b) > 0 <==> ComparePrereleases(collate, b, a) < 0
    ensures ComparePrereleases(collate, a, b) <= 0 && ComparePrereleases(collate, b, c) <= 0 ==>
      ComparePrereleases(collate, a, c) <= 0
  {
    hide CompareLists, Identifiers, Ordering;
    ListsOrdered(collate, Identifiers(a.GetOr("")), Identifiers(b.GetOr("")), Identifiers(c.GetOr("")));
  }

  // Swapping the sides swaps the sign, and the order is transitive and total,
  // for numeric, alphanumeric, missing and unequally long prereleases alike.
  lemma {:induction false} VersionsOrdered(collate: Collation, a: Version, b: Version, c: Version)
    requires Ordering(collate)
    ensures Compare(collate, a, b) < 0 <==> Compare(collate, b, a) > 0
    ensures Compare(collate, a, b) > 0 <==> Compare(collate, b, a) < 0
    ensures Compare(collate, a, b) == 0 <==> Compare(collate, b, a) == 0
    ensures Compare(collate, a, b) <= 0 && Compare(collate, b, c) <= 0 ==> Compare(collate, a, c) <= 0
    ensures Compare(collate, a, b) < 0 && Compare(collate, b, c) <= 0 ==> Compare(collate, a, c) < 0
  {
    hide ComparePrereleases, Ordering;
    PrereleasesOrdered(collate, a.prerelease, b.prerelease, c.prerelease);
    PrereleasesOrdered(collate, b.prerelease, c.prerelease, a.prerelease);
    PrereleasesOrdered(collate, c.prerelease, a.prerelease, b.prerelease);
  }

  // ----- it is the precedence of Semantic Versioning 2.0.0, section 11 -----

  // Items 11.4.1 to 11.4.3; the order of alphanumeric identifiers is the collation's.
  predicate IdLower(collate: Collation, a: string, b: string) {
    || (Digits(a) && Digits(b) && Number(a) < Number(b))
    || (Digits(a) && !Digits(b))
    || (!Digits(a) && !Digits(b) && collate(a, b) < 0)
  }

  // The first position `i` where two lists of identifiers differ, or where the
  // shorter one ends (item 11.4.4), decides.
  ghost predicate Decides(collate: Collation, l: seq<string>, r: seq<string>, i: nat) {
    && i <= |l| && i < |r|
    && (forall j :: 0 <= j < i ==> !IdLower(collate, l[j], r[j]) && !IdLower(collate, r[j], l[j]))
    && (i < |l| ==> IdLower(collate, l[i], r[i]))
  }

  ghost predicate PrereleaseLower(collate: Collation, a: string, b: string) {
    exists i: nat :: Decides(collate, Identifiers(a), Identifiers(b), i)
  }

  // Items 11.2 and 11.3, and 11.4 when the rest is equal.
  ghost predicate Precedes(collate: Collation, a: Version, b: Version) {
    || a.major < b.major
    || (a.major == b.major && a.minor < b.minor)
    || (a.major == b.major && a.minor == b.minor && a.patch < b.patch)
    || (a.major == b.major && a.minor == b.minor && a.patch == b.patch && a.prerelease.Some?
         && (b.prerelease.None? || PrereleaseLower(collate, a.prerelease.value, b.prerelease.value)))
  }

  lemma IdentifiersPrecede(collate: Collation, a: string, b: string)
    requires Ordering(collate)
    ensures CompareIdentifiers(collate, a, b) < 0 <==> IdLower(collate, a, b)
    ensures CompareIdentifiers(collate, a, b) > 0 <==> IdLower(collate, b, a)
  {
    hide Number;
    assert collate(a, b) > 0 <==> collate(b, a) < 0;
  }

  lemma {:induction false} ListsDecide(collate: Collation, l: seq<string>, r: seq<string>)
    requires Ordering(collate)
    ensures CompareLists(collate, l, r) < 0 <==> exists i: nat :: Decides(collate, l, r, i)
  {
    hide CompareIdentifiers, Ordering, IdLower;
    if l == [] {
      if r != [] { assert Decides(collate, l, r, 0); }
    } else if r != [] {
      IdentifiersPrecede(collate, l[0], r[0]);
      ListsDecide(collate, l[1..], r[1..]);
      DecidesHead(collate, l, r);
    }
  }

  lemma {:induction false} DecidesHead(collate: Collation, l: seq<string>, r: seq<string>)
    requires l != [] && r != []
    ensures (exists i: nat :: Decides(collate, l, r, i)) <==>
      || IdLower(collate, l[0], r[0])
      || (!IdLower(collate, l[0], r[0]) && !IdLower(collate, r[0], l[0]) && exists i: nat :: Decides(collate, l[1..], r[1..], i))
  {
    hide IdLower;
    if i: nat :| Decides(collate, l, r, i) {
      if i > 0 { assert Decides(collate, l[1..], r[1..], i - 1); }
    }
    if IdLower(collate, l[0], r[0]) {
      assert Decides(collate, l, r, 0);
    } else if i: nat :| !IdLower(collate, r[0], l[0]) && Decides(collate, l[1..], r[1..], i) {
      assert forall j :: 0 < j <= i ==> l[j] == l[1..][j - 1] && r[j] == r[1..][j - 1];
      assert Decides(collate, l, r, i + 1);
    }
  }

  lemma {:induction false} CompareIsPrecedence(collate: Collation, a: Version, b: Version)
    requires Ordering(collate)
    ensures Compare(collate, a, b) < 0 <==> Precedes(collate, a, b)
    ensures Compare(collate, a, b) > 0 <==> Precedes(collate, b, a)
  {
    hide CompareLists, Identifiers, Decides, Ordering;
    PrereleasesOrdered(collate, a.prerelease, b.prerelease, a.prerelease);
    PrereleasesOrdered(collate, b.prerelease, a.prerelease, a.prerelease);
    ListsDecide(collate, Identifiers(a.prerelease.GetOr("")), Identifiers(b.prerelease.GetOr("")));
    ListsDecide(collate, Identifiers(b.prerelease.GetOr("")), Identifiers(a.prerelease.GetOr("")));
  }

  // ----- eviction -----

  // A starting daemon evicts the running one when the running one is older. An
  // unreadable version on either side evicts nothing.
  function Evicts(collate: Collation, running: string, starting: string): bool {
    var a, b := ParseVersion(running), ParseVersion(starting);
    a.Some? && b.Some? && Compare(collate, a.value, b.value) < 0
  }

  // It is the older one that goes, in the order of section 11.
  lemma {:induction false} EvictsTheOlder(collate: Collation, running: string, starting: string)
    requires Ordering(collate)
    ensures Evicts(collate, running, starting) <==>
      exists a, b :: ParseVersion(running) == Some(a) && ParseVersion(starting) == Some(b) && Precedes(collate, a, b)
  {
    hide ParseVersion, Compare, Precedes, Ordering;
    var a, b := ParseVersion(running), ParseVersion(starting);
    if a.Some? && b.Some? { CompareIsPrecedence(collate, a.value, b.value); }
  }

  // Each daemon of the chain evicted the one before it.
  ghost predicate EvictionChain(collate: Collation, versions: seq<string>) {
    forall i :: 0 < i < |versions| ==> Evicts(collate, versions[i - 1], versions[i])
  }

  // However long the chain of evictions, versions only rise along it, so no
  // version ever comes back.
  lemma {:induction false} EvictionsRise(collate: Collation, versions: seq<string>, i: nat, j: nat)
    requires Ordering(collate) && EvictionChain(collate, versions) && i < j < |versions|
    ensures Evicts(collate, versions[i], versions[j])
    ensures versions[i] != versions[j]
    decreases j
  {
    hide ParseVersion, Compare, Ordering;
    assert Evicts(collate, versions[j - 1], versions[j]);
    var v := (k: nat) requires k < |versions| => ParseVersion(versions[k]);
    if i < j - 1 {
      EvictionsRise(collate, versions, i, j - 1);
      VersionsOrdered(collate, v(i).value, v(j - 1).value, v(j).value);
    }
    if versions[i] == versions[j] { VersionsOrdered(collate, v(i).value, v(j).value, v(i).value); }
  }
}
