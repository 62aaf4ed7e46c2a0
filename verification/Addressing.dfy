/** Message addressing: `@[community/user] text` and its bare form `@community/user text`. */
module Addressing {
  import opened Wrappers
  import opened Text

  const MAX_TARGET := 120

  datatype MessageAddress = MessageAddress(slug: string, user: Option<string>, body: string)

  /** What a successful address match captured, and how much text it consumed. */
  datatype Match = Match(target: string, length: nat)

  predicate ValidSlug(s: string) {
    2 <= |s| <= 40 && IsLowerOrDigit(s[0]) && All(OfSlug, s)
  }

  predicate ValidUser(s: string) {
    1 <= |s| <= 64 && All(OfUser, s)
  }

  predicate ValidUserOption(user: Option<string>) {
    user.Some? ==> ValidUser(user.value)
  }

  /** `@\[([^\]\s]{1,120})\]\s*` at the start of `s`. */
  function MatchBracketed(s: string): (m: Option<Match>)
    ensures m.Some? ==> m.value.length <= |s|
  {
    if |s| < 2 || s[0] != '@' || s[1] != '[' then None
    else
      var n := RunLength(Ink, s[2..]);
      if 1 <= n <= MAX_TARGET && 2 + n < |s| && s[2 + n] == ']' then
        Some(Match(s[2..2 + n], 3 + n + RunLength(White, s[3 + n..])))
      else None
  }

  /** `@([^\s\]]{1,120})\s+` at the start of `s`. */
  function MatchBare(s: string): (m: Option<Match>)
    ensures m.Some? ==> m.value.length <= |s|
  {
    if |s| < 1 || s[0] != '@' then None
    else
      var n := RunLength(Ink, s[1..]);
      var gap := RunLength(White, s[1 + n..]);
      if 1 <= n <= MAX_TARGET && gap >= 1 then Some(Match(s[1..1 + n], 1 + n + gap)) else None
  }

  /** Both spellings are accepted; brackets are tried first. */
  function MatchAddress(s: string): (m: Option<Match>)
    ensures m.Some? ==> m.value.length <= |s|
  {
    if MatchBracketed(s).Some? then MatchBracketed(s) else MatchBare(s)
  }

  function SlugOf(target: string): string {
    ToLower(Trim(target[..RunLength(BeforeSlash, target)]))
  }

  function UserOf(target: string): Option<string> {
    var separator := RunLength(BeforeSlash, target);
    if separator == |target| then None else Some(Trim(target[separator + 1..]))
  }

  function ReadTarget(target: string, remainder: string): Option<MessageAddress> {
    if !ValidSlug(SlugOf(target)) || !ValidUserOption(UserOf(target)) || Trim(remainder) == [] then None
    else Some(MessageAddress(SlugOf(target), UserOf(target), remainder))
  }

  function ParseMessageAddress(body: string): Option<MessageAddress> {
    var rest := TrimStart(body);
    var found := MatchAddress(rest);
    if found.None? then None else ReadTarget(found.value.target, rest[found.value.length..])
  }

  /** The text between the brackets of an address. */
  function Target(slug: string, user: Option<string>): string {
    slug + if user.Some? then "/" + user.value else []
  }

  predicate StartsWithInk(s: string) {
    s != [] && !IsSpace(s[0])
  }

  /** A slug as an author may type it: any letter case. */
  predicate SpellsSlug(typed: string) {
    ValidSlug(ToLower(typed))
  }

  lemma SpelledSlugChars(typed: string)
    requires SpellsSlug(typed)
    ensures All(Ink, typed) && All(BeforeSlash, typed) && 2 <= |typed| <= 40 && typed[0] != '['
  {
    forall i | 0 <= i < |typed|
      ensures In(typed[i], Ink) && In(typed[i], BeforeSlash)
    {
      assert In(ToLower(typed)[i], OfSlug);
    }
    assert In(ToLower(typed)[0], OfSlug);
  }

  lemma TargetChars(typed: string, user: Option<string>)
    requires SpellsSlug(typed) && ValidUserOption(user)
    ensures All(Ink, Target(typed, user)) && 2 <= |Target(typed, user)| <= MAX_TARGET
    ensures Target(typed, user)[0] != '['
  {
    SpelledSlugChars(typed);
    if user.Some? {
      forall i | 0 <= i < |user.value|
        ensures In(user.value[i], Ink)
      {
        assert In(user.value[i], OfUser);
      }
      assert All(Ink, "/" + user.value);
    }
  }

  lemma SlugOfTarget(typed: string, user: Option<string>)
    requires SpellsSlug(typed) && ValidUserOption(user)
    ensures RunLength(BeforeSlash, Target(typed, user)) == |typed|
    ensures SlugOf(Target(typed, user)) == ToLower(typed)
  {
    SpelledSlugChars(typed);
    RunStopsAt(BeforeSlash, typed, if user.Some? then "/" + user.value else []);
    assert Target(typed, user)[..|typed|] == typed;
    assert In(typed[0], Ink) && In(typed[|typed| - 1], Ink);
    TrimIsIdentity(typed);
  }

  lemma UserOfTarget(typed: string, user: Option<string>)
    requires SpellsSlug(typed) && ValidUserOption(user)
    ensures UserOf(Target(typed, user)) == user
  {
    SpelledSlugChars(typed);
    if user.Some? {
      UserAfterSlash(typed, user.value);
      UserIsTrimmed(user.value);
    } else {
      RunStopsAt(BeforeSlash, typed, []);
      assert typed + [] == typed;
    }
  }

  lemma UserAfterSlash(typed: string, user: string)
    requires All(BeforeSlash, typed)
    ensures UserOf(typed + ("/" + user)) == Some(Trim(user))
  {
    RunStopsAt(BeforeSlash, typed, "/" + user);
    assert (typed + ("/" + user))[|typed| + 1..] == user;
  }

  lemma UserIsTrimmed(user: string)
    requires ValidUser(user)
    ensures Trim(user) == user
  {
    assert In(user[0], OfUser) && In(user[|user| - 1], OfUser);
    TrimIsIdentity(user);
  }

  /** A well-formed target is read back as exactly the slug and user it was built from. */
  lemma ReadTargetRoundTrip(typed: string, user: Option<string>, remainder: string)
    requires SpellsSlug(typed) && ValidUserOption(user) && !Blank(remainder)
    ensures ReadTarget(Target(typed, user), remainder) == Some(MessageAddress(ToLower(typed), user, remainder))
  {
    SlugOfTarget(typed, user);
    UserOfTarget(typed, user);
    TrimIsEmptyIffBlank(remainder);
  }

  lemma InkIsNotTrimmed(s: string)
    requires StartsWithInk(s)
    ensures TrimStart(s) == s
  {
  }

  /** White space before an address changes nothing. */
  lemma LeadIsIgnored(lead: string, rest: string)
    requires Blank(lead) && StartsWithInk(rest)
    ensures ParseMessageAddress(lead + rest) == ParseMessageAddress(rest)
  {
    RunStopsAt(White, lead, rest);
    assert (lead + rest)[|lead|..] == rest;
  }

  lemma MatchBracketedExactly(target: string, gap: string, body: string)
    requires All(Ink, target) && 1 <= |target| <= MAX_TARGET
    requires Blank(gap) && StartsWithInk(body)
    ensures MatchBracketed("@[" + target + "]" + gap + body) == Some(Match(target, 3 + |target| + |gap|))
  {
    var n, s := |target|, "@[" + target + "]" + gap + body;
    assert s[2..] == target + ("]" + gap + body);
    RunStopsAt(Ink, target, "]" + gap + body);
    assert s[2..2 + n] == target && s[2 + n] == ']';
    assert s[3 + n..] == gap + body;
    RunStopsAt(White, gap, body);
  }

  lemma MatchBareExactly(target: string, gap: string, body: string)
    requires All(Ink, target) && 1 <= |target| <= MAX_TARGET && target[0] != '['
    requires Blank(gap) && gap != [] && StartsWithInk(body)
    ensures MatchBracketed("@" + target + gap + body).None?
    ensures MatchBare("@" + target + gap + body) == Some(Match(target, 1 + |target| + |gap|))
  {
    var n, s := |target|, "@" + target + gap + body;
    assert s[1] == target[0];
    assert s[1..] == target + (gap + body);
    assert IsSpace(gap[0]) && (gap + body)[0] == gap[0];
    RunStopsAt(Ink, target, gap + body);
    assert s[1..1 + n] == target;
    assert s[1 + n..] == gap + body;
    RunStopsAt(White, gap, body);
  }

  function Bracketed(typed: string, user: Option<string>, gap: string, body: string): string {
    "@[" + Target(typed, user) + "]" + gap + body
  }

  function Bare(typed: string, user: Option<string>, gap: string, body: string): string {
    "@" + Target(typed, user) + gap + body
  }

  /**
   The bracketed form parses to exactly the slug (lower-cased), user and body it
   spells, whatever white space stands between them.
   */
  lemma BracketedRoundTrip(typed: string, user: Option<string>, gap: string, body: string)
    requires SpellsSlug(typed) && ValidUserOption(user) && Blank(gap) && StartsWithInk(body)
    ensures ParseMessageAddress(Bracketed(typed, user, gap, body)) == Some(MessageAddress(ToLower(typed), user, body))
  {
    TargetChars(typed, user);
    var target, text := Target(typed, user), Bracketed(typed, user, gap, body);
    InkIsNotTrimmed(text);
    MatchBracketedExactly(target, gap, body);
    assert text[3 + |target| + |gap|..] == body;
    ReadTargetRoundTrip(typed, user, body);
  }

  /** The bare form does too, provided some white space ends the target. */
  lemma BareRoundTrip(typed: string, user: Option<string>, gap: string, body: string)
    requires SpellsSlug(typed) && ValidUserOption(user) && Blank(gap) && gap != [] && StartsWithInk(body)
    ensures ParseMessageAddress(Bare(typed, user, gap, body)) == Some(MessageAddress(ToLower(typed), user, body))
  {
    TargetChars(typed, user);
    var target, text := Target(typed, user), Bare(typed, user, gap, body);
    InkIsNotTrimmed(text);
    MatchBareExactly(target, gap, body);
    assert text[1 + |target| + |gap|..] == body;
    ReadTargetRoundTrip(typed, user, body);
  }

  lemma ValidSlugIsLower(slug: string)
    requires ValidSlug(slug)
    ensures ToLower(slug) == slug
  {
    forall i | 0 <= i < |slug|
      ensures !('A' <= slug[i] <= 'Z') && slug[i] != '\U{212A}'
    {
      assert In(slug[i], OfSlug);
    }
    LowerIsIdentity(slug);
  }

  /** Everything that matches consumes at least the `@`, and leaves no leading white space. */
  lemma MatchLeavesInk(s: string, m: Match)
    requires MatchAddress(s) == Some(m)
    ensures 1 <= m.length <= |s|
    ensures m.length == |s| || !IsSpace(s[m.length])
  {
  }

  lemma DropTwice(s: string, n: nat, m: nat)
    requires n + m <= |s|
    ensures s[n..][m..] == s[n + m..]
  {
  }

  lemma ReadTargetIsInGrammar(target: string, remainder: string, a: MessageAddress)
    requires ReadTarget(target, remainder) == Some(a)
    requires remainder == [] || !IsSpace(remainder[0])
    ensures ValidSlug(a.slug) && ValidUserOption(a.user) && StartsWithInk(a.body) && a.body == remainder
  {
    TrimIsEmptyIffBlank(remainder);
  }

  /** `end` is what remains of `text` after at least one character. */
  predicate EndsWith(text: string, end: string) {
    exists n | 1 <= n <= |text| :: end == text[n..]
  }

  lemma EndsAt(text: string, end: string, n: nat)
    requires 1 <= n <= |text| && end == text[n..]
    ensures EndsWith(text, end)
  {
  }

  lemma ParseSplits(text: string) returns (m: Match, remainder: string)
    requires ParseMessageAddress(text).Some?
    ensures ParseMessageAddress(text) == ReadTarget(m.target, remainder)
    ensures EndsWith(text, remainder) && (remainder == [] || !IsSpace(remainder[0]))
  {
    var rest := TrimStart(text);
    m := MatchAddress(rest).value;
    remainder := rest[m.length..];
    MatchLeavesInk(rest, m);
    RemainderEnds(text, m.length);
  }

  lemma RemainderEnds(text: string, n: nat)
    requires 1 <= n <= |TrimStart(text)|
    ensures EndsWith(text, TrimStart(text)[n..])
  {
    var lead := RunLength(White, text);
    DropTwice(text, lead, n);
    EndsAt(text, text[lead..][n..], lead + n);
  }

  /**
   Whatever parses is in the grammar: valid slug, valid user, and a body that
   opens with ink and is the end of the text.
   */
  lemma ParseIsInGrammar(text: string)
    requires ParseMessageAddress(text).Some?
    ensures var a := ParseMessageAddress(text).value;
            ValidSlug(a.slug) && ValidUserOption(a.user) && StartsWithInk(a.body) && EndsWith(text, a.body)
  {
    var m, remainder := ParseSplits(text);
    ReadTargetIsInGrammar(m.target, remainder, ParseMessageAddress(text).value);
  }

  // ---------------------------------------------------------------- the grammar, spelled out

  /** What an author may type for a handle, in any letter case (the Kelvin sign is a K in lower case too). */
  predicate IsTypedSlug(typed: string) {
    && 2 <= |typed| <= 40 && typed[0] != '-'
    && forall i | 0 <= i < |typed| ::
         'a' <= typed[i] <= 'z' || 'A' <= typed[i] <= 'Z' || '0' <= typed[i] <= '9' || typed[i] == '-'
         || typed[i] == '\U{212A}'
  }

  predicate IsTypedUser(user: string) {
    && 1 <= |user| <= 64
    && forall i | 0 <= i < |user| ::
         'a' <= user[i] <= 'z' || 'A' <= user[i] <= 'Z' || '0' <= user[i] <= '9'
         || user[i] == '_' || user[i] == '.' || user[i] == '-'
  }

  lemma TypedSlugIff(typed: string)
    ensures IsTypedSlug(typed) <==> SpellsSlug(typed)
  {
    if SpellsSlug(typed) {
      forall i | 0 <= i < |typed| ensures In(ToLower(typed)[i], OfSlug) {
      }
    }
  }

  lemma TypedUserIff(user: string)
    ensures IsTypedUser(user) <==> ValidUser(user)
  {
    if ValidUser(user) {
      forall i | 0 <= i < |user| ensures In(user[i], OfUser) {
      }
    }
  }

  /** The parts of an addressed text; `bracketed` says which of the two spellings is used. */
  datatype Spelling = Spelling(lead: string, bracketed: bool, typed: string, user: Option<string>, gap: string,
                               body: string)

  predicate IsSpelling(sp: Spelling) {
    && Blank(sp.lead) && IsTypedSlug(sp.typed) && (sp.user.Some? ==> IsTypedUser(sp.user.value))
    && Blank(sp.gap) && (sp.bracketed || sp.gap != []) && StartsWithInk(sp.body)
  }

  function Written(sp: Spelling): string {
    var target := sp.typed + if sp.user.Some? then "/" + sp.user.value else [];
    sp.lead + "@" + (if sp.bracketed then "[" + target + "]" else target) + sp.gap + sp.body
  }

  lemma WrittenIsForm(sp: Spelling)
    ensures Written(sp) == sp.lead + if sp.bracketed then Bracketed(sp.typed, sp.user, sp.gap, sp.body)
                                     else Bare(sp.typed, sp.user, sp.gap, sp.body)
  {
    var target := Target(sp.typed, sp.user);
    assert "@" + ("[" + target + "]") == "@[" + target + "]";
  }

  lemma SpellingParses(sp: Spelling)
    requires IsSpelling(sp)
    ensures ParseMessageAddress(Written(sp)) == Some(MessageAddress(ToLower(sp.typed), sp.user, sp.body))
  {
    WrittenIsForm(sp);
    TypedSlugIff(sp.typed);
    if sp.user.Some? {
      TypedUserIff(sp.user.value);
    }
    if sp.bracketed {
      BracketedRoundTrip(sp.typed, sp.user, sp.gap, sp.body);
      LeadIsIgnored(sp.lead, Bracketed(sp.typed, sp.user, sp.gap, sp.body));
    } else {
      BareRoundTrip(sp.typed, sp.user, sp.gap, sp.body);
      LeadIsIgnored(sp.lead, Bare(sp.typed, sp.user, sp.gap, sp.body));
    }
  }

  /** What a run of the class cuts off, and what it leaves. */
  lemma RunCuts(k: CharClass, s: string) returns (run: string, rest: string)
    ensures run == s[..RunLength(k, s)] && rest == s[RunLength(k, s)..] && s == run + rest
    ensures All(k, run) && (rest == [] || !In(rest[0], k))
  {
    run, rest := s[..RunLength(k, s)], s[RunLength(k, s)..];
  }

  /** The run of the class that starts at `from`, as a slice of the whole. */
  lemma RunAt(k: CharClass, s: string, from: nat) returns (end: nat)
    requires from <= |s|
    ensures end == from + RunLength(k, s[from..]) <= |s|
    ensures All(k, s[from..end])
  {
    end := from + RunLength(k, s[from..]);
    assert s[from..][..end - from] == s[from..end];
  }

  lemma FiveParts(s: string, a: nat, b: nat, c: nat, d: nat)
    requires a <= b <= c <= d <= |s|
    ensures s == s[..a] + s[a..b] + s[b..c] + s[c..d] + s[d..]
  {
  }

  /** The match is the address, and the white space after it. */
  lemma BracketedMatch(s: string) returns (target: string, gap: string, remainder: string)
    requires MatchBracketed(s).Some?
    ensures s == "@[" + target + "]" + gap + remainder
    ensures MatchBracketed(s).value.target == target && All(Ink, target) && Blank(gap)
    ensures s[MatchBracketed(s).value.length..] == remainder
  {
    var n := RunAt(Ink, s, 2);
    var g := RunAt(White, s, n + 1);
    target, gap, remainder := s[2..n], s[n + 1..g], s[g..];
    BracketParts(s, n, g);
  }

  lemma BracketParts(s: string, n: nat, g: nat)
    requires 2 <= n < g <= |s| && s[0] == '@' && s[1] == '[' && s[n] == ']'
    ensures s == "@[" + s[2..n] + "]" + s[n + 1..g] + s[g..]
  {
    FiveParts(s, 2, n, n + 1, g);
    assert s[..2] == "@[" && s[n..n + 1] == "]";
  }

  lemma BareMatch(s: string) returns (target: string, gap: string, remainder: string)
    requires MatchBare(s).Some?
    ensures s == "@" + target + gap + remainder
    ensures MatchBare(s).value.target == target && All(Ink, target) && Blank(gap) && gap != []
    ensures s[MatchBare(s).value.length..] == remainder
  {
    var n := RunAt(Ink, s, 1);
    var g := RunAt(White, s, n);
    target, gap, remainder := s[1..n], s[n..g], s[g..];
    FiveParts(s, 1, n, n, g);
    assert s[..1] == "@" && s[n..n] == [];
    assert s[..1] + target + [] == s[..1] + target;
  }

  lemma InkIsTrimmed(s: string)
    requires All(Ink, s)
    ensures Trim(s) == s
  {
    assert s != [] ==> In(s[0], Ink) && In(s[|s| - 1], Ink);
    TrimIsIdentity(s);
  }

  lemma HandlePart(target: string) returns (typed: string)
    requires All(Ink, target)
    ensures typed == target[..RunLength(BeforeSlash, target)] && SlugOf(target) == ToLower(typed)
  {
    typed := target[..RunLength(BeforeSlash, target)];
    InkIsTrimmed(typed);
  }

  lemma UserPart(target: string)
    requires All(Ink, target)
    ensures var n := RunLength(BeforeSlash, target);
            target == target[..n] + if UserOf(target).Some? then "/" + UserOf(target).value else []
  {
    var n := RunLength(BeforeSlash, target);
    if n < |target| {
      SlashThen(target, n);
      InkIsTrimmed(target[n + 1..]);
    }
  }

  /** A target that reads is a handle and perhaps a user. */
  lemma TargetSplits(target: string, remainder: string, a: MessageAddress) returns (typed: string)
    requires All(Ink, target) && ReadTarget(target, remainder) == Some(a)
    ensures target == typed + if a.user.Some? then "/" + a.user.value else []
    ensures SpellsSlug(typed) && ToLower(typed) == a.slug && ValidUserOption(a.user)
  {
    typed := HandlePart(target);
    UserPart(target);
  }

  lemma SlashThen(target: string, n: nat)
    requires n < |target| && target[n] == '/'
    ensures target == target[..n] + ("/" + target[n + 1..])
  {
  }

  lemma ParsedIsSpelled(text: string, a: MessageAddress) returns (sp: Spelling)
    requires ParseMessageAddress(text) == Some(a)
    ensures IsSpelling(sp) && text == Written(sp)
    ensures ToLower(sp.typed) == a.slug && sp.user == a.user && sp.body == a.body
  {
    var lead, rest := RunCuts(White, text);
    var bracketed := MatchBracketed(rest).Some?;
    var target, gap, remainder;
    if bracketed {
      target, gap, remainder := BracketedMatch(rest);
    } else {
      target, gap, remainder := BareMatch(rest);
    }
    MatchLeavesInk(rest, MatchAddress(rest).value);
    var typed := TargetSplits(target, remainder, a);
    ReadTargetIsInGrammar(target, remainder, a);
    sp := Spelling(lead, bracketed, typed, a.user, gap, a.body);
    TypedSlugIff(typed);
    if a.user.Some? {
      TypedUserIff(a.user.value);
    }
    WrittenIsForm(sp);
  }

  /** The text is an address, spelled in one of the two ways, for this handle and user, with this body. */
  ghost predicate IsAddressedAs(text: string, a: MessageAddress) {
    exists sp: Spelling ::
      && IsSpelling(sp) && text == Written(sp)
      && ToLower(sp.typed) == a.slug && sp.user == a.user && sp.body == a.body
  }

  /** Parsing is exact: a text parses to an address if and only if it spells that address. */
  lemma ParseIsExact(text: string, a: MessageAddress)
    ensures ParseMessageAddress(text) == Some(a) <==> IsAddressedAs(text, a)
  {
    if ParseMessageAddress(text) == Some(a) {
      var sp := ParsedIsSpelled(text, a);
    }
    if IsAddressedAs(text, a) {
      var sp: Spelling :| IsSpelling(sp) && text == Written(sp)
                && ToLower(sp.typed) == a.slug && sp.user == a.user && sp.body == a.body;
      SpellingParses(sp);
    }
  }

  // ---------------------------------------------------------------- letter case

  /** A handle in capitals. */
  function Capitals(slug: string): (typed: string)
    ensures |typed| == |slug|
    ensures forall i | 0 <= i < |slug| ::
              typed[i] == if 'a' <= slug[i] <= 'z' then (slug[i] as int - 32) as char else slug[i]
  {
    if slug == [] then []
    else Capitals(slug[..|slug| - 1])
         + [if 'a' <= slug[|slug| - 1] <= 'z' then (slug[|slug| - 1] as int - 32) as char else slug[|slug| - 1]]
  }

  /** A handle typed in capitals is the same handle. */
  lemma CapitalsAreRead(slug: string)
    requires ValidSlug(slug)
    ensures IsTypedSlug(Capitals(slug)) && ToLower(Capitals(slug)) == slug
  {
    forall i | 0 <= i < |slug| ensures In(slug[i], OfSlug) {
    }
  }
}
