/**
 The string operations the parsers are written with: maximal runs of a character
 class (what a greedy regular-expression class matches), trimming, lower-casing
 and splitting on line feeds.
 */
module Text {

  /** The character classes of the bridge's regular expressions. */
  datatype CharClass =
    | White       // \s
    | Solid       // \S
    | Ink         // solid, and not a closing bracket
    | BeforeSlash // not /
    | BeforeDot   // not .
    | BeforeBreak // not a line feed
    | OfSlug      // a-z 0-9 -
    | OfUser      // a-z A-Z 0-9 _ . -
    | Hyphen      // -

  /** The white space of ECMAScript, shared by `\s` and `trim`. */
  predicate IsSpace(c: char) {
    || '\t' <= c <= '\r' || c == ' ' || c == '\U{00A0}' || c == '\U{1680}'
    || '\U{2000}' <= c <= '\U{200A}' || c == '\U{2028}' || c == '\U{2029}'
    || c == '\U{202F}' || c == '\U{205F}' || c == '\U{3000}' || c == '\U{FEFF}'
  }

  predicate IsLowerOrDigit(c: char) {
    'a' <= c <= 'z' || '0' <= c <= '9'
  }

  predicate In(c: char, k: CharClass) {
    match k
    case White => IsSpace(c)
    case Solid => !IsSpace(c)
    case Ink => c != ']' && !IsSpace(c)
    case BeforeSlash => c != '/'
    case BeforeDot => c != '.'
    case BeforeBreak => c != '\n'
    case OfSlug => IsLowerOrDigit(c) || c == '-'
    case OfUser => IsLowerOrDigit(c) || 'A' <= c <= 'Z' || c == '_' || c == '.' || c == '-'
    case Hyphen => c == '-'
  }

  predicate All(k: CharClass, s: string) {
    forall i | 0 <= i < |s| :: In(s[i], k)
  }

  /** Length of the longest prefix of `s` inside the class: what a greedy `[...]*` matches. */
  function RunLength(k: CharClass, s: string): (n: nat)
    ensures n <= |s|
    ensures forall i | 0 <= i < n :: In(s[i], k)
    ensures n < |s| ==> !In(s[n], k)
  {
    RunEnd(k, s, 0)
  }

  /** Where the run that goes through `from` stops. */
  function RunEnd(k: CharClass, s: string, from: nat): (end: nat)
    requires from <= |s|
    ensures from <= end <= |s|
    ensures forall i | from <= i < end :: In(s[i], k)
    ensures end < |s| ==> !In(s[end], k)
    decreases |s| - from
  {
    if from == |s| || !In(s[from], k) then from else RunEnd(k, s, from + 1)
  }

  /** A run stops exactly at the first character outside the class. */
  lemma RunStopsAt(k: CharClass, run: string, rest: string)
    requires All(k, run)
    requires rest == [] || !In(rest[0], k)
    ensures RunLength(k, run + rest) == |run|
  {
    var s, n := run + rest, RunLength(k, run + rest);
    assert forall i | 0 <= i < |run| :: s[i] == run[i];
    assert rest != [] ==> s[|run|] == rest[0];
  }

  function TrimStart(s: string): (t: string)
    ensures t == [] || !IsSpace(t[0])
  {
    s[RunLength(White, s)..]
  }

  function TrimEnd(s: string): (t: string)
    ensures t <= s
    ensures t == [] || !IsSpace(t[|t| - 1])
  {
    s[..InkEnd(s, |s|)]
  }

  /** Where the white space before `n` begins. */
  function InkEnd(s: string, n: nat): (end: nat)
    requires n <= |s|
    ensures end <= n && (end > 0 ==> !IsSpace(s[end - 1]))
    ensures forall i | end <= i < n :: IsSpace(s[i])
  {
    if n == 0 || !IsSpace(s[n - 1]) then n else InkEnd(s, n - 1)
  }

  function Trim(s: string): string {
    TrimEnd(TrimStart(s))
  }

  predicate Blank(s: string) {
    All(White, s)
  }

  /** Trimming leaves nothing exactly when the text is blank. */
  lemma TrimIsEmptyIffBlank(s: string)
    ensures Trim(s) == [] <==> Blank(s)
  {
    var n := RunLength(White, s);
    var t := TrimStart(s);
    if n < |s| {
      TrimEndKeepsInk(t);
      assert !IsSpace(s[n]);
    }
  }

  lemma TrimEndKeepsInk(s: string)
    requires s != [] && !IsSpace(s[0])
    ensures TrimEnd(s) != [] && TrimEnd(s)[0] == s[0]
  {
  }

  /** Text without outer white space is its own trim. */
  lemma TrimIsIdentity(s: string)
    requires s == [] || (!IsSpace(s[0]) && !IsSpace(s[|s| - 1]))
    ensures Trim(s) == s
  {
    assert RunLength(White, s) == 0;
    assert s[0..] == s;
  }

  /** ASCII letters, and the one other character whose lower case is ASCII (the Kelvin sign). */
  function LowerChar(c: char): char {
    if 'A' <= c <= 'Z' then ((c as int) + 32) as char
    else if c == '\U{212A}' then 'k'
    else c
  }

  function ToLower(s: string): (t: string)
    ensures |t| == |s|
    ensures forall i | 0 <= i < |s| :: t[i] == LowerChar(s[i])
  {
    seq(|s|, i requires 0 <= i < |s| => LowerChar(s[i]))
  }

  lemma LowerIsIdentity(s: string)
    requires forall i | 0 <= i < |s| :: !('A' <= s[i] <= 'Z') && s[i] != '\U{212A}'
    ensures ToLower(s) == s
  {
  }

  /** `text.split("\n")` */
  function SplitLines(s: string): (lines: seq<string>)
    ensures |lines| >= 1
    ensures forall i | 0 <= i < |lines| :: All(BeforeBreak, lines[i])
    decreases |s|
  {
    var n := RunLength(BeforeBreak, s);
    if n == |s| then [s] else [s[..n]] + SplitLines(s[n + 1..])
  }

  /** `lines.join("\n")` */
  function JoinLines(lines: seq<string>): string {
    if lines == [] then []
    else if |lines| == 1 then lines[0]
    else lines[0] + "\n" + JoinLines(lines[1..])
  }

  lemma CutAtBreak(s: string, n: nat)
    requires n < |s| && s[n] == '\n'
    ensures s[..n] + "\n" + s[n + 1..] == s
  {
  }

  lemma JoinFirst(line: string, rest: seq<string>)
    requires rest != []
    ensures JoinLines([line] + rest) == line + "\n" + JoinLines(rest)
  {
    assert ([line] + rest)[1..] == rest;
  }

  lemma {:induction false} JoinOfSplit(s: string)
    ensures JoinLines(SplitLines(s)) == s
    decreases |s|
  {
    var n := RunLength(BeforeBreak, s);
    if n < |s| {
      JoinOfSplit(s[n + 1..]);
      JoinFirst(s[..n], SplitLines(s[n + 1..]));
      CutAtBreak(s, n);
    }
  }

  lemma AroundBreak(line: string, rest: string)
    ensures var s := line + "\n" + rest;
            s[..|line|] == line && s[|line|] == '\n' && s[|line| + 1..] == rest && s == line + ("\n" + rest)
  {
    var s := line + "\n" + rest;
    assert s[..|line|] == line;
    assert s[|line| + 1..] == rest;
  }

  lemma SplitAtBreak(line: string, rest: string)
    requires All(BeforeBreak, line)
    ensures SplitLines(line + "\n" + rest) == [line] + SplitLines(rest)
  {
    RunStopsAt(BeforeBreak, line, "\n" + rest);
    AroundBreak(line, rest);
  }

  lemma {:induction false} SplitOfJoin(lines: seq<string>)
    requires |lines| >= 1
    requires forall i | 0 <= i < |lines| :: All(BeforeBreak, lines[i])
    ensures SplitLines(JoinLines(lines)) == lines
  {
    if |lines| == 1 {
      RunStopsAt(BeforeBreak, lines[0], []);
      assert lines[0] + [] == lines[0];
    } else {
      SplitAtBreak(lines[0], JoinLines(lines[1..]));
      SplitOfJoin(lines[1..]);
      assert lines == [lines[0]] + lines[1..];
    }
  }
}
