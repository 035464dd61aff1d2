// The `tm resume` command that the history prints for a session, the shell that
// splits it into words, and the argument parser that reads those words.

module ResumeCommand {
  import opened Prelude
  import opened Engines

  datatype Row = Row(engine: Engine, id: Option<string>, name: Option<string>, repo: Option<string>,
                     cwd: Option<string>, intent: Option<string>)

  // ----- printing -----

  // Every quotation mark closes the quotes, stands escaped, and opens them again.
  function EscapeQuotes(v: string): string {
    if v == "" then ""
    else (if v[0] == '\'' then "'\\''" else [v[0]]) + EscapeQuotes(v[1..])
  }

  function ShellSingleQuote(v: string): string { "'" + EscapeQuotes(v) + "'" }

  datatype Part = Fixed(text: string) | Quoted(value: string)

  function Printed(p: Part): string { if p.Fixed? then p.text else ShellSingleQuote(p.value) }

  function Meant(p: Part): string { if p.Fixed? then p.text else p.value }

  function Parts(row: Row): seq<Part>
    requires row.id.Some? && (row.repo.Some? || row.cwd.Some?)
  {
    [Fixed("tm"), Fixed("resume"), Fixed("--engine"), Fixed(EngineText(row.engine)),
     Fixed("--repo"), Quoted(row.repo.OrElse(row.cwd).value), Fixed("--id"), Quoted(row.id.value)]
    + (if row.name.Some? then [Fixed("--name"), Quoted(row.name.value)] else [])
    + (if row.intent.Some? then [Fixed("--intent"), Quoted(row.intent.value)] else [])
  }

  function Join(parts: seq<Part>): string {
    if parts == [] then ""
    else if |parts| == 1 then Printed(parts[0])
    else Printed(parts[0]) + " " + Join(parts[1..])
  }

  function ResumeCommand(row: Row): Option<string> {
    if row.id.None? || (row.repo.None? && row.cwd.None?) then None else Some(Join(Parts(row)))
  }

  // ----- the shell: sections 2.2.1, 2.2.2 and 2.3 of the POSIX.1-2017 Shell Command Language -----

  // Characters that mean something unquoted, other than those handled below. A
  // command that uses one of them is not split here.
  predicate Special(c: char) { c in "|&;<>()$`\"*?[]#~=%!{}\n" }

  // Outside quotes, with the word read so far if there is one, or inside single quotes.
  datatype Mode = Plain(word: Option<string>) | InQuotes(quoted: string)

  function Finish(word: Option<string>, more: Option<seq<string>>): Option<seq<string>> {
    if word.None? || more.None? then more else Some([word.value] + more.value)
  }

  function Split(s: string, mode: Mode): Option<seq<string>>
    decreases |s|
  {
    match mode
    case InQuotes(w) =>
      if s == "" then None
      else if s[0] == '\'' then Split(s[1..], Plain(Some(w)))
      else Split(s[1..], InQuotes(w + [s[0]]))
    case Plain(word) =>
      if s == "" then Finish(word, Some([]))
      else if s[0] == ' ' || s[0] == '\t' then Finish(word, Split(s[1..], Plain(None)))
      else if s[0] == '\'' then Split(s[1..], InQuotes(word.GetOr("")))
      else if s[0] == '\\' then
        if |s| == 1 then None
        else if s[1] == '\n' then Split(s[2..], mode)
        else Split(s[2..], Plain(Some(word.GetOr("") + [s[1]])))
      else if Special(s[0]) then None
      else Split(s[1..], Plain(Some(word.GetOr("") + [s[0]])))
  }

  // ----- reading -----

  datatype ResumeArgs = ResumeArgs(name: string, sid: string, repo: string, prompt: string, hasPrompt: bool,
                                   engine: Option<Engine>, intent: string, id: string)

  datatype ArgError = MissingValue(flag: string) | BadEngine(value: string) | UnknownFlag(arg: string) | TooMany(arg: string)

  const NO_ARGS := ResumeArgs("", "", "", "", false, None, "", "")

  function EngineOf(value: string): Option<Engine> {
    if value == "claude" then Some(Claude) else if value == "codex" then Some(Codex) else None
  }

  predicate TakesValue(arg: string) {
    || arg == "--prompt" || arg == "--engine" || arg == "--repo" || arg == "--id" || arg == "--name"
    || arg == "--intent" || arg == "--about"
  }

  // The flag of an argument `--flag=value`, if it is one that takes a value.
  function Assigned(arg: string): Option<(string, string)> {
    if "--prompt=" <= arg then Some(("--prompt", arg[9..]))
    else if "--engine=" <= arg then Some(("--engine", arg[9..]))
    else if "--repo=" <= arg then Some(("--repo", arg[7..]))
    else if "--id=" <= arg then Some(("--id", arg[5..]))
    else if "--name=" <= arg then Some(("--name", arg[7..]))
    else if "--intent=" <= arg then Some(("--intent", arg[9..]))
    else if "--about=" <= arg then Some(("--about", arg[8..]))
    else None
  }

  function Store(a: ResumeArgs, flag: string, value: string): Result<ResumeArgs, ArgError> {
    if flag == "--prompt" then Ok(a.(prompt := value, hasPrompt := true))
    else if flag == "--engine" then
      if EngineOf(value).None? then Err(BadEngine(value)) else Ok(a.(engine := EngineOf(value)))
    else if flag == "--repo" then Ok(a.(repo := value))
    else if flag == "--id" then Ok(a.(id := value))
    else if flag == "--name" then Ok(a.(name := value))
    else Ok(a.(intent := value))
  }

  // What the remaining arguments make of what has been read.
  function Read(args: seq<string>, a: ResumeArgs): Result<ResumeArgs, ArgError>
    decreases |args|
  {
    if args == [] || args[0] == "--" then Ok(if a.sid == "" && a.id != "" then a.(sid := a.id) else a)
    else
      var arg := args[0];
      if TakesValue(arg) then
        if |args| == 1 then Err(MissingValue(arg))
        else
          var b := Store(a, arg, args[1]);
          if b.Err? then b else Read(args[2..], b.value)
      else if Assigned(arg).Some? then
        var b := Store(a, Assigned(arg).value.0, Assigned(arg).value.1);
        if b.Err? then b else Read(args[1..], b.value)
      else if "-" <= arg then Err(UnknownFlag(arg))
      else if a.name == "" then Read(args[1..], a.(name := arg))
      else if a.sid == "" then Read(args[1..], a.(sid := arg))
      else Err(TooMany(arg))
  }

  // An argument of the form `--flag=value` is no flag by itself.
  lemma AssignedIsNoFlag(arg: string)
    ensures Assigned(arg).Some? ==> !TakesValue(arg) && arg != "--"
  {
    if TakesValue(arg) || arg == "--" {
      assert forall i :: 0 <= i < |arg| ==> arg[i] != '=';
      forall w: string | w != "" && w <= arg ensures w[|w| - 1] != '=' {
        assert arg[|w| - 1] == w[|w| - 1];
      }
    }
  }

  // Reading from the `i`-th argument on.
  function ReadFrom(args: seq<string>, i: nat, a: ResumeArgs): Result<ResumeArgs, ArgError>
    requires i <= |args|
  {
    Read(args[i..], a)
  }

  // What one argument makes of what has been read.
  predicate ReadsOn(args: seq<string>, i: nat, a: ResumeArgs)
    requires i < |args|
  {
    var arg := args[i];
    ReadFrom(args, i, a) ==
      if arg == "--" then ReadFrom(args, |args|, a)
      else if TakesValue(arg) then
        if i + 1 == |args| then Err(MissingValue(arg))
        else
          var b := Store(a, arg, args[i + 1]);
          if b.Err? then b else ReadFrom(args, i + 2, b.value)
      else if Assigned(arg).Some? then
        var b := Store(a, Assigned(arg).value.0, Assigned(arg).value.1);
        if b.Err? then b else ReadFrom(args, i + 1, b.value)
      else if "-" <= arg then Err(UnknownFlag(arg))
      else if a.name == "" then ReadFrom(args, i + 1, a.(name := arg))
      else if a.sid == "" then ReadFrom(args, i + 1, a.(sid := arg))
      else Err(TooMany(arg))
  }

  lemma ReadingGoesOn(args: seq<string>, i: nat, a: ResumeArgs)
    requires i < |args|
    ensures ReadsOn(args, i, a)
  {
    hide Assigned, Store, TakesValue;
    assert args[i..][1..] == args[i + 1..];
    if i + 1 < |args| { assert args[i..][2..] == args[i + 2..]; }
  }

  lemma ReadingEnds(args: seq<string>, a: ResumeArgs)
    ensures ReadFrom(args, |args|, a) == Ok(if a.sid == "" && a.id != "" then a.(sid := a.id) else a)
    ensures ReadFrom(args, 0, a) == Read(args, a)
  {
    assert args[0..] == args;
  }

  method ParseResumeArgs(args: seq<string>) returns (r: Result<ResumeArgs, ArgError>)
    ensures r == Read(args, NO_ARGS)
  {
    hide Read, ReadFrom;
    ReadingEnds(args, NO_ARGS);
    var name, sid, repo, prompt, hasPrompt := "", "", "", "", false;
    var engine: Option<Engine> := None;
    var intent, id := "", "";
    var i := 0;
    while i < |args|
      invariant 0 <= i <= |args|
      invariant ReadFrom(args, i, ResumeArgs(name, sid, repo, prompt, hasPrompt, engine, intent, id)) == Read(args, NO_ARGS)
    {
      var arg := args[i];
      AssignedIsNoFlag(arg);
      ReadingGoesOn(args, i, ResumeArgs(name, sid, repo, prompt, hasPrompt, engine, intent, id));
      if arg == "--prompt" {
        if i + 1 >= |args| { return Err(MissingValue(arg)); }
        prompt := args[i + 1];
        hasPrompt := true;
        i := i + 2;
      } else if "--prompt=" <= arg {
        prompt := arg[9..];
        hasPrompt := true;
        i := i + 1;
      } else if arg == "--engine" {
        if i + 1 >= |args| { return Err(MissingValue(arg)); }
        var value := args[i + 1];
        if value != "claude" && value != "codex" { return Err(BadEngine(value)); }
        engine := EngineOf(value);
        i := i + 2;
      } else if "--engine=" <= arg {
        var value := arg[9..];
        if value != "claude" && value != "codex" { return Err(BadEngine(value)); }
        engine := EngineOf(value);
        i := i + 1;
      } else if arg == "--repo" {
        if i + 1 >= |args| { return Err(MissingValue(arg)); }
        repo := args[i + 1];
        i := i + 2;
      } else if "--repo=" <= arg {
        repo := arg[7..];
        i := i + 1;
      } else if arg == "--id" {
        if i + 1 >= |args| { return Err(MissingValue(arg)); }
        id := args[i + 1];
        i := i + 2;
      } else if "--id=" <= arg {
        id := arg[5..];
        i := i + 1;
      } else if arg == "--name" {
        if i + 1 >= |args| { return Err(MissingValue(arg)); }
        name := args[i + 1];
        i := i + 2;
      } else if "--name=" <= arg {
        name := arg[7..];
        i := i + 1;
      } else if arg == "--intent" || arg == "--about" {
        if i + 1 >= |args| { return Err(MissingValue(arg)); }
        intent := args[i + 1];
        i := i + 2;
      } else if "--intent=" <= arg {
        intent := arg[9..];
        i := i + 1;
      } else if "--about=" <= arg {
        intent := arg[8..];
        i := i + 1;
      } else if arg == "--" {
        break;
      } else if "-" <= arg {
        return Err(UnknownFlag(arg));
      } else if name == "" {
        name := arg;
        i := i + 1;
      } else if sid == "" {
        sid := arg;
        i := i + 1;
      } else {
        return Err(TooMany(arg));
      }
    }
    ReadingEnds(args, ResumeArgs(name, sid, repo, prompt, hasPrompt, engine, intent, id));
    if sid == "" && id != "" { sid := id; }
    return Ok(ResumeArgs(name, sid, repo, prompt, hasPrompt, engine, intent, id));
  }

  // ----- the shell gives back what was quoted -----

  function EscapedChar(c: char): string { if c == '\'' then "'\\''" else [c] }

  lemma EscapeFirst(v: string)
    requires v != ""
    ensures EscapeQuotes(v) == EscapedChar(v[0]) + EscapeQuotes(v[1..])
  {}

  lemma SplitNothingEscaped(w: string, rest: string)
    ensures Split(EscapeQuotes("") + ("'" + rest), InQuotes(w)) == Split(rest, Plain(Some(w + "")))
  {
    assert EscapeQuotes("") + ("'" + rest) == "'" + rest;
    assert w + "" == w;
    SplitClosed(w, rest);
    hide Split;
  }

  lemma {:induction false} SplitEscaped(v: string, w: string, rest: string)
    ensures Split(EscapeQuotes(v) + ("'" + rest), InQuotes(w)) == Split(rest, Plain(Some(w + v)))
  {
    hide Split, EscapeQuotes, EscapedChar;
    if v == "" {
      SplitNothingEscaped(w, rest);
    } else {
      var more := EscapeQuotes(v[1..]) + ("'" + rest);
      SplitEscaped(v[1..], w + [v[0]], rest);
      assert w + [v[0]] + v[1..] == w + v;
      SplitOneEscaped(v[0], w, more);
      EscapeFirst(v);
      Associates(EscapedChar(v[0]), EscapeQuotes(v[1..]), "'" + rest);
    }
  }

  lemma SplitClosed(w: string, rest: string)
    ensures Split("'" + rest, InQuotes(w)) == Split(rest, Plain(Some(w)))
  {
    assert ("'" + rest)[1..] == rest;
  }

  lemma SplitOneEscaped(c: char, w: string, more: string)
    ensures Split(EscapedChar(c) + more, InQuotes(w)) == Split(more, InQuotes(w + [c]))
  {
    if c == '\'' {
      SplitReopened(w, more);
      assert w + "'" == w + [c];
    } else {
      assert ([c] + more)[1..] == more;
    }
  }

  lemma SplitReopened(w: string, more: string)
    ensures Split("'\\''" + more, InQuotes(w)) == Split(more, InQuotes(w + "'"))
  {
    var s := "'\\''" + more;
    assert s[1..] == "\\''" + more;
    assert ("\\''" + more)[2..] == "'" + more;
    assert ("'" + more)[1..] == more;
    assert Split("\\''" + more, Plain(Some(w))) == Split("'" + more, Plain(Some(w + "'")));
  }

  predicate PlainChar(c: char) { 'a' <= c <= 'z' || c == '-' }

  predicate PlainWord(w: string) { forall i :: 0 <= i < |w| ==> PlainChar(w[i]) }

  lemma PlainIsNotSpecial(c: char)
    requires PlainChar(c)
    ensures !Special(c) && c !in " \t'\\"
  {}

  lemma {:induction false} SplitPlain(w: string, word: string, rest: string)
    requires PlainWord(w)
    ensures Split(w + rest, Plain(Some(word))) == Split(rest, Plain(Some(word + w)))
  {
    if w == "" {
      assert w + rest == rest && word + w == word;
    } else {
      assert (w + rest)[1..] == w[1..] + rest;
      assert (w + rest)[0] == w[0];
      PlainIsNotSpecial(w[0]);
      hide Special;
      SplitPlain(w[1..], word + [w[0]], rest);
      assert word + [w[0]] + w[1..] == word + w;
    }
  }

  predicate WellFormed(p: Part) { p.Fixed? ==> p.text != "" && PlainWord(p.text) }

  lemma SplitFixed(w: string, rest: string)
    requires w != "" && PlainWord(w)
    ensures Split(w + rest, Plain(None)) == Split(rest, Plain(Some(w)))
  {
    hide Split, PlainChar;
    SplitStart(w[0], w[1..] + rest);
    assert w + rest == [w[0]] + (w[1..] + rest);
    SplitPlain(w[1..], [w[0]], rest);
    assert [w[0]] + w[1..] == w;
  }

  lemma SplitStart(c: char, rest: string)
    requires PlainChar(c)
    ensures Split([c] + rest, Plain(None)) == Split(rest, Plain(Some([c])))
  {
    PlainIsNotSpecial(c);
    hide Special;
    assert ([c] + rest)[1..] == rest && "" + [c] == [c];
  }

  lemma SplitOpened(rest: string)
    ensures Split("'" + rest, Plain(None)) == Split(rest, InQuotes(""))
  {
    assert ("'" + rest)[1..] == rest;
  }

  lemma SplitQuoted(v: string, rest: string)
    ensures Split(ShellSingleQuote(v) + rest, Plain(None)) == Split(rest, Plain(Some(v)))
  {
    hide Split, EscapeQuotes;
    assert ShellSingleQuote(v) + rest == "'" + (EscapeQuotes(v) + ("'" + rest));
    SplitOpened(EscapeQuotes(v) + ("'" + rest));
    SplitEscaped(v, "", rest);
    assert "" + v == v;
  }

  lemma {:induction false} SplitPart(p: Part, rest: string)
    requires WellFormed(p)
    ensures Split(Printed(p) + rest, Plain(None)) == Split(rest, Plain(Some(Meant(p))))
  {
    hide Split, ShellSingleQuote;
    match p
    case Fixed(w) => SplitFixed(w, rest);
    case Quoted(v) => SplitQuoted(v, rest);
  }

  function MeantAll(parts: seq<Part>): seq<string> {
    if parts == [] then [] else [Meant(parts[0])] + MeantAll(parts[1..])
  }

  // Joined with blanks, the parts are split into their meanings again.
  lemma {:induction false} SplitJoin(parts: seq<Part>)
    requires forall p :: p in parts ==> WellFormed(p)
    ensures Split(Join(parts), Plain(None)) == Some(MeantAll(parts))
  {
    if parts != [] {
      hide Printed, Meant, WellFormed;
      var more := Join(parts[1..]);
      if |parts| == 1 {
        SplitPart(parts[0], "");
        assert Printed(parts[0]) + "" == Printed(parts[0]);
        assert parts[1..] == [];
      } else {
        SplitPart(parts[0], " " + more);
        SplitJoin(parts[1..]);
        assert Printed(parts[0]) + " " + more == Printed(parts[0]) + (" " + more);
        assert (" " + more)[1..] == more;
      }
    }
  }

  lemma PartsWellFormed(row: Row)
    requires row.id.Some? && (row.repo.Some? || row.cwd.Some?)
    ensures forall p :: p in Parts(row) ==> WellFormed(p)
  {
    var parts := Parts(row);
    forall i | 0 <= i < |parts| ensures WellFormed(parts[i]) {}
  }

  // What the command means to the parser.
  function Expected(row: Row): ResumeArgs
    requires row.id.Some? && (row.repo.Some? || row.cwd.Some?)
  {
    ResumeArgs(row.name.GetOr(""), row.id.value, row.repo.OrElse(row.cwd).value, "", false,
               Some(row.engine), row.intent.GetOr(""), row.id.value)
  }

  lemma ReadFlag(flag: string, value: string, more: seq<string>, a: ResumeArgs)
    requires TakesValue(flag) && Store(a, flag, value).Ok?
    ensures Read([flag, value] + more, a) == Read(more, Store(a, flag, value).value)
  {
    var args := [flag, value] + more;
    assert args[0] == flag && args[1] == value && args[2..] == more;
    assert flag != "--";
  }

  lemma ReadFlags(row: Row, tail: seq<string>)
    requires row.id.Some? && (row.repo.Some? || row.cwd.Some?)
    ensures Read(["--engine", EngineText(row.engine)] + (["--repo", row.repo.OrElse(row.cwd).value]
                 + (["--id", row.id.value] + tail)), NO_ARGS)
         == Read(tail, NO_ARGS.(engine := Some(row.engine), repo := row.repo.OrElse(row.cwd).value, id := row.id.value))
  {
    hide Read;
    var repo, id := row.repo.OrElse(row.cwd).value, row.id.value;
    assert EngineOf(EngineText(row.engine)) == Some(row.engine);
    ReadFlag("--engine", EngineText(row.engine), ["--repo", repo] + (["--id", id] + tail), NO_ARGS);
    var a := NO_ARGS.(engine := Some(row.engine));
    ReadFlag("--repo", repo, ["--id", id] + tail, a);
    ReadFlag("--id", id, tail, a.(repo := repo));
  }

  function Optional(flag: string, value: Option<string>): seq<string> {
    if value.Some? then [flag, value.value] else []
  }

  lemma ReadTail(row: Row, a: ResumeArgs)
    requires a.name == "" && a.intent == "" && a.sid == ""
    ensures Read(Optional("--name", row.name) + Optional("--intent", row.intent), a)
         == Ok(a.(name := row.name.GetOr(""), intent := row.intent.GetOr(""), sid := a.id))
  {
    var b := a.(name := row.name.GetOr(""));
    var c := b.(intent := row.intent.GetOr(""));
    assert Read([], c) == Ok(c.(sid := c.id));
    hide Read;
    assert Optional("--intent", row.intent) + [] == Optional("--intent", row.intent);
    if row.intent.Some? { ReadFlag("--intent", row.intent.value, [], b); }
    if row.name.Some? {
      ReadFlag("--name", row.name.value, Optional("--intent", row.intent), a);
    } else {
      assert [] + Optional("--intent", row.intent) == Optional("--intent", row.intent);
    }
  }

  lemma MeantParts(row: Row)
    requires row.id.Some? && (row.repo.Some? || row.cwd.Some?)
    ensures MeantAll(Parts(row)) == ["tm", "resume"] +
      (["--engine", EngineText(row.engine)] + (["--repo", row.repo.OrElse(row.cwd).value]
       + (["--id", row.id.value] + (Optional("--name", row.name) + Optional("--intent", row.intent)))))
  {
    var dir := Quoted(row.repo.OrElse(row.cwd).value);
    var a, b := [Fixed("tm"), Fixed("resume")], [Fixed("--engine"), Fixed(EngineText(row.engine))];
    var c, d := [Fixed("--repo"), dir], [Fixed("--id"), Quoted(row.id.value)];
    var name := if row.name.Some? then [Fixed("--name"), Quoted(row.name.value)] else [];
    var intent := if row.intent.Some? then [Fixed("--intent"), Quoted(row.intent.value)] else [];
    assert Parts(row) == a + (b + (c + (d + (name + intent))));
    MeantAppend(a, b + (c + (d + (name + intent))));
    MeantAppend(b, c + (d + (name + intent)));
    MeantAppend(c, d + (name + intent));
    MeantAppend(d, name + intent);
    MeantAppend(name, intent);
    hide MeantAll, EngineText;
    MeantTwo("tm", Fixed("resume"));
    MeantTwo("--engine", Fixed(EngineText(row.engine)));
    MeantTwo("--repo", dir);
    MeantTwo("--id", Quoted(row.id.value));
    if row.name.Some? { MeantTwo("--name", Quoted(row.name.value)); } else { MeantNone(); }
    if row.intent.Some? { MeantTwo("--intent", Quoted(row.intent.value)); } else { MeantNone(); }
  }

  lemma MeantNone()
    ensures MeantAll([]) == []
  {}

  lemma MeantTwo(word: string, p: Part)
    ensures MeantAll([Fixed(word), p]) == [word, Meant(p)]
  {
    assert [Fixed(word), p][1..] == [p] && [p][1..] == [];
    assert MeantAll([p]) == [Meant(p)];
  }

  lemma {:induction false} MeantAppend(a: seq<Part>, b: seq<Part>)
    ensures MeantAll(a + b) == MeantAll(a) + MeantAll(b)
  {
    if a == [] {
      assert a + b == b;
    } else {
      assert (a + b)[1..] == a[1..] + b;
      MeantAppend(a[1..], b);
      Associates([Meant(a[0])], MeantAll(a[1..]), MeantAll(b));
    }
  }

  // ----- the flags -----

  lemma AssignedFlag(flag: string, value: string)
    requires TakesValue(flag)
    ensures Assigned(flag + "=" + value) == Some((flag, value))
  {
    var arg := flag + "=" + value;
    assert arg[|flag| + 1..] == value;
    assert arg[..|flag| + 1] == flag + "=";
    assert arg[2] == flag[2] && arg[3] == flag[3];
    forall w: string | w <= arg && |w| > 3 ensures w[2] == arg[2] && w[3] == arg[3] {}
  }

  // A flag and its value may come in one word or in two.
  lemma {:induction false} FlagForms(flag: string, value: string, more: seq<string>, a: ResumeArgs)
    requires TakesValue(flag)
    ensures Read([flag + "=" + value] + more, a) == Read([flag, value] + more, a)
    ensures Read(["--about", value] + more, a) == Read(["--intent", value] + more, a)
  {
    ReadsTwo(flag, value, more, a);
    ReadsTwo("--about", value, more, a);
    ReadsTwo("--intent", value, more, a);
    AboutIsIntent(a, value);
    ReadsOne(flag, value, more, a);
    hide Read, Store;
  }

  lemma AboutIsIntent(a: ResumeArgs, value: string)
    ensures Store(a, "--about", value) == Store(a, "--intent", value)
  {}

  lemma ReadsTwo(flag: string, value: string, more: seq<string>, a: ResumeArgs)
    requires TakesValue(flag)
    ensures Read([flag, value] + more, a) ==
      if Store(a, flag, value).Err? then Store(a, flag, value) else Read(more, Store(a, flag, value).value)
  {
    hide Store, Assigned;
    var args := [flag, value] + more;
    assert args[0] == flag && args[1] == value && args[2..] == more;
    assert flag != "--";
  }

  lemma ReadsOne(flag: string, value: string, more: seq<string>, a: ResumeArgs)
    requires TakesValue(flag)
    ensures Read([flag + "=" + value] + more, a) ==
      if Store(a, flag, value).Err? then Store(a, flag, value) else Read(more, Store(a, flag, value).value)
  {
    AssignedFlag(flag, value);
    AssignedIsNoFlag(flag + "=" + value);
    hide Store, Assigned, TakesValue;
    var args := [flag + "=" + value] + more;
    assert args[0] == flag + "=" + value && args[1..] == more;
  }

  // Every argument spelled out by its flag.
  function Spelled(r: ResumeArgs): seq<string> {
    ["--name", r.name] + (["--repo", r.repo] + (["--intent", r.intent] + (["--id", r.id]
      + (Optional("--engine", if r.engine.Some? then Some(EngineText(r.engine.value)) else None)
      + Optional("--prompt", if r.hasPrompt then Some(r.prompt) else None)))))
  }

  // All that the flags say is read, each to its own field; the id is the session.
  lemma {:induction false} FlagsRoundTrip(r: ResumeArgs)
    requires r.hasPrompt || r.prompt == ""
    ensures Read(Spelled(r), NO_ARGS) == Ok(r.(sid := r.id))
  {
    hide Read, Optional, Spelled;
    var engine := Optional("--engine", if r.engine.Some? then Some(EngineText(r.engine.value)) else None);
    var prompt := Optional("--prompt", if r.hasPrompt then Some(r.prompt) else None);
    SpelledIs(r);
    ReadsTwo("--name", r.name, ["--repo", r.repo] + (["--intent", r.intent] + (["--id", r.id] + (engine + prompt))), NO_ARGS);
    var a := NO_ARGS.(name := r.name);
    ReadsTwo("--repo", r.repo, ["--intent", r.intent] + (["--id", r.id] + (engine + prompt)), a);
    ReadsTwo("--intent", r.intent, ["--id", r.id] + (engine + prompt), a.(repo := r.repo));
    ReadsTwo("--id", r.id, engine + prompt, a.(repo := r.repo, intent := r.intent));
    var b := a.(repo := r.repo, intent := r.intent, id := r.id);
    ReadEngine(r.engine, prompt, b);
    ReadPrompt(r, b.(engine := r.engine));
  }

  lemma SpelledIs(r: ResumeArgs)
    ensures Spelled(r) == ["--name", r.name] + (["--repo", r.repo] + (["--intent", r.intent] + (["--id", r.id]
      + (Optional("--engine", if r.engine.Some? then Some(EngineText(r.engine.value)) else None)
      + Optional("--prompt", if r.hasPrompt then Some(r.prompt) else None)))))
  {}

  lemma ReadEngine(engine: Option<Engine>, more: seq<string>, a: ResumeArgs)
    requires a.engine.None?
    ensures Read(Optional("--engine", if engine.Some? then Some(EngineText(engine.value)) else None) + more, a)
         == Read(more, a.(engine := engine))
  {
    hide Read;
    if engine.Some? {
      assert EngineOf(EngineText(engine.value)) == engine;
      ReadsTwo("--engine", EngineText(engine.value), more, a);
    } else {
      assert [] + more == more;
    }
  }

  lemma ReadPrompt(r: ResumeArgs, a: ResumeArgs)
    requires a.prompt == "" && !a.hasPrompt && a.sid == "" && (r.hasPrompt || r.prompt == "")
    ensures Read(Optional("--prompt", if r.hasPrompt then Some(r.prompt) else None), a)
         == Ok(a.(prompt := r.prompt, hasPrompt := r.hasPrompt, sid := a.id))
  {
    ReadNothing(a);
    ReadNothing(a.(prompt := r.prompt, hasPrompt := true));
    hide Read;
    if r.hasPrompt {
      ReadsTwo("--prompt", r.prompt, [], a);
      assert ["--prompt", r.prompt] + [] == ["--prompt", r.prompt];
    }
  }

  lemma ReadNothing(a: ResumeArgs)
    requires a.sid == ""
    ensures Read([], a) == Ok(a.(sid := a.id))
  {}

  // The first two words that are no flags are the name and the session, and the
  // third is one too many; a value that is missing, an unknown flag and an unknown
  // engine are each refused for what they are.
  lemma {:induction false} OtherWords(w: string, more: seq<string>, a: ResumeArgs)
    requires w != ""
    ensures w[0] != '-' && a.name == "" ==> Read([w] + more, a) == Read(more, a.(name := w))
    ensures w[0] != '-' && a.name != "" && a.sid == "" ==> Read([w] + more, a) == Read(more, a.(sid := w))
    ensures w[0] != '-' && a.name != "" && a.sid != "" ==> Read([w] + more, a) == Err(TooMany(w))
    ensures TakesValue(w) ==> Read([w], a) == Err(MissingValue(w))
    ensures w[0] == '-' && !TakesValue(w) && w != "--" && (forall i :: 0 <= i < |w| ==> w[i] != '=') ==>
      Read([w] + more, a) == Err(UnknownFlag(w))
    ensures w != "claude" && w != "codex" ==> Read(["--engine", w] + more, a) == Err(BadEngine(w))
    ensures Read(["--"] + more, a) == Ok(if a.sid == "" then a.(sid := a.id) else a)
  {
    ReadsTwo("--engine", w, more, a);
    hide Store;
    assert ([w] + more)[1..] == more;
    NoFlag(w);
    hide Assigned, TakesValue;
    if w[0] == '-' { assert "-" <= w; }
  }

  lemma NoFlag(w: string)
    requires w != ""
    ensures w[0] != '-' || (forall i :: 0 <= i < |w| ==> w[i] != '=') ==> Assigned(w).None?
    ensures w[0] != '-' ==> !TakesValue(w) && w != "--" && !("-" <= w)
  {
    forall p: string | p <= w && p != "" ensures p[0] == w[0] && p[|p| - 1] == w[|p| - 1] {}
  }

  // The printed command, split by the shell and read by the parser, gives back the
  // engine, the directory, the id, the name and the intent, whatever characters they hold.
  lemma {:induction false} ResumeCommandRoundTrip(row: Row)
    ensures ResumeCommand(row).None? <==> row.id.None? || (row.repo.None? && row.cwd.None?)
    ensures ResumeCommand(row).Some? ==>
      var words := Split(ResumeCommand(row).value, Plain(None));
      && words.Some? && |words.value| >= 2 && words.value[..2] == ["tm", "resume"]
      && Read(words.value[2..], NO_ARGS) == Ok(Expected(row))
  {
    if ResumeCommand(row).Some? {
      PartsWellFormed(row);
      SplitJoin(Parts(row));
      MeantParts(row);
      var tail := Optional("--name", row.name) + Optional("--intent", row.intent);
      ReadFlags(row, tail);
      ReadTail(row, NO_ARGS.(engine := Some(row.engine), repo := row.repo.OrElse(row.cwd).value, id := row.id.value));
      hide Split, Join, Parts, MeantAll, Read, EngineText, Optional;
    }
  }
}
