/** In-chat commands: `/open <community>`, `/close [<community>]` and `/list`. */
module Commands {
  import opened Wrappers
  import opened Text
  import opened Addressing

  const COMMAND_USAGE := "BuzzRouter commands: /open <community>, /close [<community>], /list."

  /** `Usage` is a known verb with a bad argument, and the help it is answered with. */
  datatype Command = Open(slug: string) | Close(peer: Option<string>) | List | Usage(message: string)

  function FirstToken(text: string): (token: string)
    ensures token <= text
  {
    text[..RunLength(Solid, text)]
  }

  function AfterFirstToken(text: string): string {
    TrimStart(text[|FirstToken(text)|..])
  }

  function SecondToken(text: string): Option<string> {
    var rest := AfterFirstToken(text);
    if rest == [] then None else Some(FirstToken(rest))
  }

  function NormalizeSlug(arg: Option<string>): (slug: Option<string>)
    ensures slug.Some? ==> ValidSlug(slug.value)
  {
    if arg.None? then None
    else
      var slug := ToLower(Trim(arg.value));
      if ValidSlug(slug) then Some(slug) else None
  }

  function ReadCommand(verb: string, arg: Option<string>): Option<Command> {
    if verb == "open" then
      var slug := NormalizeSlug(arg);
      if slug.None? then Some(Usage("Usage: /open <community>. " + COMMAND_USAGE)) else Some(Open(slug.value))
    else if verb == "close" then
      var slug := NormalizeSlug(arg);
      if arg.None? then Some(Close(None))
      else if slug.None? then Some(Usage("Usage: /close [<community>]. " + COMMAND_USAGE))
      else Some(Close(slug))
    else if verb == "list" then Some(List)
    else None
  }

  function ParseCommand(content: string): Option<Command> {
    var text := Trim(content);
    var head := FirstToken(text);
    if head == [] || head[0] != '/' then None else ReadCommand(ToLower(head[1..]), SecondToken(text))
  }

  lemma SplitTwoTokens(head: string, arg: string)
    requires head != [] && All(Solid, head) && arg != [] && All(Solid, arg)
    ensures Trim(head + " " + arg) == head + " " + arg
    ensures FirstToken(head + " " + arg) == head
    ensures SecondToken(head + " " + arg) == Some(arg)
  {
    var text := head + " " + arg;
    assert In(head[0], Solid) && In(arg[0], Solid) && In(arg[|arg| - 1], Solid);
    TrimIsIdentity(text);
    assert text == head + (" " + arg);
    RunStopsAt(Solid, head, " " + arg);
    assert text[|head|..] == " " + arg;
    RunStopsAt(White, " ", arg);
    assert (" " + arg)[1..] == arg;
    RunStopsAt(Solid, arg, []);
    assert arg + [] == arg;
  }

  lemma NormalizeSpelledSlug(typed: string)
    requires SpellsSlug(typed)
    ensures NormalizeSlug(Some(typed)) == Some(ToLower(typed))
    ensures All(Solid, typed)
  {
    SpelledSlugChars(typed);
    forall i | 0 <= i < |typed|
      ensures In(typed[i], Solid)
    {
      assert In(typed[i], Ink);
    }
    TrimIsIdentity(typed);
  }

  lemma TwoTokenCommand(head: string, arg: string)
    requires head != [] && head[0] == '/' && All(Solid, head) && arg != [] && All(Solid, arg)
    ensures ParseCommand(head + " " + arg) == ReadCommand(ToLower(head[1..]), Some(arg))
  {
    SplitTwoTokens(head, arg);
  }

  lemma ReadSpelledSlug(typed: string)
    requires SpellsSlug(typed)
    ensures ReadCommand("open", Some(typed)) == Some(Open(ToLower(typed)))
    ensures ReadCommand("close", Some(typed)) == Some(Close(Some(ToLower(typed))))
  {
    NormalizeSpelledSlug(typed);
  }

  lemma VerbsAreLower()
    ensures ToLower("/open"[1..]) == "open" && ToLower("/close"[1..]) == "close"
  {
    assert "/open"[1..] == "open" && "/close"[1..] == "close";
    LowerIsIdentity("open");
    LowerIsIdentity("close");
  }

  lemma VerbsAreSolid()
    ensures All(Solid, "/open") && All(Solid, "/close")
  {
  }

  /** A handle typed after a verb reaches the command unchanged, in lower case. */
  lemma CommandRoundTrip(typed: string)
    requires SpellsSlug(typed)
    ensures ParseCommand("/open" + " " + typed) == Some(Open(ToLower(typed)))
    ensures ParseCommand("/close" + " " + typed) == Some(Close(Some(ToLower(typed))))
  {
    VerbsAreLower();
    VerbsAreSolid();
    NormalizeSpelledSlug(typed);
    TwoTokenCommand("/open", typed);
    TwoTokenCommand("/close", typed);
    ReadSpelledSlug(typed);
  }

  /** Only text whose first ink is a slash can be a command. */
  lemma CommandsOpenWithSlash(content: string)
    requires StartsWithInk(content) && content[0] != '/'
    ensures ParseCommand(content) == None
  {
    InkIsNotTrimmed(content);
    TrimEndKeepsInk(content);
  }

  /** Neither a command nor an address. */
  predicate OpensPlainly(text: string) {
    StartsWithInk(text) && text[0] != '/' && text[0] != '@'
  }

  lemma HelpIsFixed(verb: string, arg: Option<string>)
    requires ReadCommand(verb, arg).Some? && ReadCommand(verb, arg).value.Usage?
    ensures ReadCommand(verb, arg).value.message
            in {"Usage: /open <community>. " + COMMAND_USAGE, "Usage: /close [<community>]. " + COMMAND_USAGE}
  {
  }

  /** The help that a bad argument is answered with cannot be taken for a command itself. */
  lemma HelpOpensPlainly(content: string)
    requires ParseCommand(content).Some? && ParseCommand(content).value.Usage?
    ensures OpensPlainly(ParseCommand(content).value.message)
  {
    var text := Trim(content);
    HelpIsFixed(ToLower(FirstToken(text)[1..]), SecondToken(text));
  }

  // ---------------------------------------------------------------- the grammar, spelled out

  /** A message that opens with a slash: a verb, perhaps an argument, and whatever follows. */
  datatype Line = Line(lead: string, verb: string, gap: string, arg: string, more: string)

  predicate IsLine(line: Line) {
    && Blank(line.lead) && All(Solid, line.verb) && Blank(line.gap) && All(Solid, line.arg)
    && (if line.arg == [] then line.more == []
        else line.gap != [] && (line.more == [] || IsSpace(line.more[0])))
  }

  function Spelled(line: Line): string {
    line.lead + ("/" + line.verb) + line.gap + line.arg + line.more
  }

  lemma TrimEndKeeps(s: string, n: nat)
    requires 0 < n <= |s| && !IsSpace(s[n - 1])
    ensures n <= |TrimEnd(s)| && TrimEnd(s)[..n] == s[..n]
    ensures Blank(s[n..]) ==> TrimEnd(s) == s[..n]
  {
    if Blank(s[n..]) {
      forall i | n <= i < |s| ensures IsSpace(s[i]) {
        assert s[n..][i - n] == s[i];
      }
    }
  }

  /** Leading white space is cut, and what follows the last solid part may be. */
  lemma TrimmedLine(lead: string, solid: string, more: string) returns (kept: string)
    requires Blank(lead) && solid != [] && !IsSpace(solid[0]) && !IsSpace(solid[|solid| - 1])
    ensures Trim(lead + (solid + more)) == solid + kept && kept <= more
    ensures Blank(more) ==> kept == []
  {
    var s := solid + more;
    RunStopsAt(White, lead, s);
    assert (lead + s)[|lead|..] == s;
    assert s[|solid|..] == more && s[..|solid|] == solid;
    TrimEndKeeps(s, |solid|);
    var t := TrimEnd(s);
    kept := t[|solid|..];
    assert t == t[..|solid|] + kept && t <= s;
    assert kept == s[|solid|..|t|] == more[..|kept|];
  }

  lemma TokensOf(head: string, gap: string, arg: string, kept: string)
    requires head != [] && All(Solid, head) && Blank(gap) && gap != [] && arg != [] && All(Solid, arg)
    requires kept == [] || IsSpace(kept[0])
    ensures FirstToken(head + (gap + (arg + kept))) == head
    ensures SecondToken(head + (gap + (arg + kept))) == Some(arg)
  {
    var text := head + (gap + (arg + kept));
    RunStopsAt(Solid, head, gap + (arg + kept));
    assert text[..|head|] == head && text[|head|..] == gap + (arg + kept);
    assert In(arg[0], Solid);
    RunStopsAt(White, gap, arg + kept);
    assert (gap + (arg + kept))[|gap|..] == arg + kept;
    RunStopsAt(Solid, arg, kept);
    assert (arg + kept)[..|arg|] == arg;
  }

  lemma OneToken(head: string)
    requires head != [] && All(Solid, head)
    ensures FirstToken(head) == head && SecondToken(head) == None
  {
    RunStopsAt(Solid, head, []);
    assert head + [] == head;
    assert head[|head|..] == [];
  }

  lemma HeadOf(line: Line) returns (head: string)
    requires IsLine(line)
    ensures head == "/" + line.verb && All(Solid, head) && head[0] == '/' && head[1..] == line.verb
  {
    head := "/" + line.verb;
  }

  lemma VerbTokens(lead: string, head: string, gap: string)
    requires Blank(lead) && Blank(gap) && head != [] && All(Solid, head)
    ensures FirstToken(Trim(lead + (head + gap))) == head && SecondToken(Trim(lead + (head + gap))) == None
  {
    assert In(head[0], Solid) && In(head[|head| - 1], Solid);
    var kept := TrimmedLine(lead, head, gap);
    assert head + [] == head;
    OneToken(head);
  }

  lemma ArgumentTokens(lead: string, head: string, gap: string, arg: string, more: string)
    requires Blank(lead) && head != [] && All(Solid, head) && Blank(gap) && gap != []
    requires arg != [] && All(Solid, arg) && (more == [] || IsSpace(more[0]))
    ensures FirstToken(Trim(lead + ((head + (gap + arg)) + more))) == head
    ensures SecondToken(Trim(lead + ((head + (gap + arg)) + more))) == Some(arg)
  {
    var solid := head + (gap + arg);
    assert In(head[0], Solid) && In(arg[|arg| - 1], Solid) && solid[|solid| - 1] == arg[|arg| - 1];
    var kept := TrimmedLine(lead, solid, more);
    Regroup(head, gap, arg, kept);
    TokensOf(head, gap, arg, kept);
  }

  lemma Regroup(head: string, gap: string, arg: string, kept: string)
    ensures (head + (gap + arg)) + kept == head + (gap + (arg + kept))
  {
  }

  lemma SpelledIs(line: Line)
    ensures Spelled(line) == line.lead + ((("/" + line.verb) + (line.gap + line.arg)) + line.more)
    ensures line.arg == [] && line.more == [] ==> Spelled(line) == line.lead + (("/" + line.verb) + line.gap)
  {
  }

  lemma LineTokens(line: Line)
    requires IsLine(line)
    ensures FirstToken(Trim(Spelled(line))) == "/" + line.verb
    ensures SecondToken(Trim(Spelled(line))) == if line.arg == [] then None else Some(line.arg)
  {
    var head := HeadOf(line);
    SpelledIs(line);
    if line.arg == [] {
      VerbTokens(line.lead, head, line.gap);
    } else {
      ArgumentTokens(line.lead, head, line.gap, line.arg, line.more);
    }
  }

  /** The command is read: what each verb does with each argument, in any letter case. */
  lemma LineIsRead(line: Line)
    requires IsLine(line)
    ensures var verb, command := ToLower(line.verb), ParseCommand(Spelled(line));
            && (verb == "list" ==> command == Some(List))
            && (verb == "open" ==>
                  if IsTypedSlug(line.arg) then command == Some(Open(ToLower(line.arg)))
                  else command.Some? && command.value.Usage?)
            && (verb == "close" ==>
                  if line.arg == [] then command == Some(Close(None))
                  else if IsTypedSlug(line.arg) then command == Some(Close(Some(ToLower(line.arg))))
                  else command.Some? && command.value.Usage?)
            && (verb !in {"list", "open", "close"} ==> command == None)
  {
    LineParses(line);
    VerbIsRead(ToLower(line.verb), line.arg);
  }

  lemma LineParses(line: Line)
    requires IsLine(line)
    ensures ParseCommand(Spelled(line))
         == ReadCommand(ToLower(line.verb), if line.arg == [] then None else Some(line.arg))
  {
    LineTokens(line);
    var head := HeadOf(line);
  }

  lemma ArgumentIsRead(arg: string)
    requires All(Solid, arg)
    ensures NormalizeSlug(Some(arg)) == if IsTypedSlug(arg) then Some(ToLower(arg)) else None
  {
    TypedSlugIff(arg);
    SolidIsTrimmed(arg);
  }

  lemma VerbIsRead(verb: string, arg: string)
    requires All(Solid, arg)
    ensures var command := ReadCommand(verb, if arg == [] then None else Some(arg));
            && (verb == "list" ==> command == Some(List))
            && (verb == "open" ==>
                  if IsTypedSlug(arg) then command == Some(Open(ToLower(arg)))
                  else command.Some? && command.value.Usage?)
            && (verb == "close" ==>
                  if arg == [] then command == Some(Close(None))
                  else if IsTypedSlug(arg) then command == Some(Close(Some(ToLower(arg))))
                  else command.Some? && command.value.Usage?)
            && (verb !in {"list", "open", "close"} ==> command == None)
  {
    ArgumentIsRead(arg);
  }

  lemma SolidIsTrimmed(s: string)
    requires All(Solid, s)
    ensures Trim(s) == s
  {
    assert s != [] ==> In(s[0], Solid) && In(s[|s| - 1], Solid);
    TrimIsIdentity(s);
  }

  /** What follows a solid run: white space, a solid run again, and the rest. */
  lemma AfterVerb(tail: string) returns (gap: string, arg: string, more: string)
    requires tail == [] || !In(tail[0], Solid)
    ensures tail == gap + (arg + more) && Blank(gap) && All(Solid, arg)
    ensures if arg == [] then more == [] else gap != [] && (more == [] || IsSpace(more[0]))
  {
    var cut, end := RunCuts(White, tail);
    gap := cut;
    arg, more := RunCuts(Solid, end);
    NothingAfter(end, arg);
  }

  /** Whatever opens with a slash is such a line. */
  lemma SlashIsLine(lead: string, rest: string) returns (line: Line)
    requires Blank(lead) && rest != [] && rest[0] == '/'
    ensures IsLine(line) && lead + rest == Spelled(line)
  {
    var verb, tail := RunCuts(Solid, rest);
    var gap, arg, more := AfterVerb(tail);
    SlashFirst(verb);
    line := Line(lead, verb[1..], gap, arg, more);
    SpelledIs(line);
    Reassemble(lead, verb, gap, arg, more);
  }

  lemma SlashFirst(verb: string)
    requires verb != [] && verb[0] == '/' && All(Solid, verb)
    ensures verb == "/" + verb[1..] && All(Solid, verb[1..])
  {
  }

  lemma NothingAfter(end: string, arg: string)
    requires end == [] || !In(end[0], White)
    requires arg == end[..RunLength(Solid, end)]
    ensures arg == [] <==> end == []
  {
    assert end != [] ==> In(end[0], Solid);
  }

  lemma Reassemble(lead: string, verb: string, gap: string, arg: string, more: string)
    ensures lead + (verb + (gap + (arg + more))) == lead + ((verb + (gap + arg)) + more)
  {
  }

  /** And every command is such a line. */
  lemma CommandIsLine(content: string) returns (line: Line)
    requires ParseCommand(content).Some?
    ensures IsLine(line) && content == Spelled(line)
  {
    var lead, rest := RunCuts(White, content);
    FirstOfTrimmed(content, rest);
    line := SlashIsLine(lead, rest);
  }

  lemma FirstOfTrimmed(content: string, rest: string)
    requires ParseCommand(content).Some? && rest == TrimStart(content)
    ensures rest != [] && rest[0] == '/'
  {
    assert rest == [] ==> Trim(content) == [];
    TrimEndKeepsInk(rest);
  }
}
