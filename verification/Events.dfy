/**
 What source events and projections say, tag by tag and character by character: the
 reference that the bridge's readers and writers are compared with.
 */
module Events {
  import opened Wrappers
  import opened Text
  import opened Nostr
  import opened Addressing
  import opened Commands
  import opened Bridge

  // ---------------------------------------------------------------- the event that an event answers

  /** Tag `i` names an event. */
  predicate RefersAt(tags: seq<Tag>, i: nat) {
    i < |tags| && |tags[i]| >= 2 && tags[i][0] == Field.Text("e") && tags[i][1].HexId?
  }

  /** And marks it as the one replied to. */
  predicate RepliesAt(tags: seq<Tag>, i: nat) {
    RefersAt(tags, i) && |tags[i]| >= 4 && tags[i][3] == Field.Text("reply")
  }

  predicate IsFirstReply(tags: seq<Tag>, i: nat) {
    RepliesAt(tags, i) && forall j | 0 <= j < i :: !RepliesAt(tags, j)
  }

  predicate IsLastRef(tags: seq<Tag>, i: nat) {
    RefersAt(tags, i) && forall j | i < j < |tags| :: !RefersAt(tags, j)
  }

  predicate RepliesNowhere(tags: seq<Tag>) {
    forall j | 0 <= j < |tags| :: !RepliesAt(tags, j)
  }

  predicate RefersNowhere(tags: seq<Tag>) {
    forall j | 0 <= j < |tags| :: !RefersAt(tags, j)
  }

  /** The first tag marked as a reply, else the last that names an event, and nothing exactly if there is none. */
  ghost predicate Answers(event: Event, parent: Option<EventId>) {
    match parent
    case None => RefersNowhere(event.tags)
    case Some(id) =>
      || (exists i: nat :: IsFirstReply(event.tags, i) && event.tags[i][1].id == id)
      || (RepliesNowhere(event.tags) && exists i: nat :: IsLastRef(event.tags, i) && event.tags[i][1].id == id)
  }

  lemma FirstReplyAt(tags: seq<Tag>, from: nat)
    requires from <= |tags| && forall j | 0 <= j < from :: !RepliesAt(tags, j)
    ensures match FirstReply(tags, from)
            case Some(id) => exists i: nat :: IsFirstReply(tags, i) && tags[i][1].id == id
            case None => RepliesNowhere(tags)
    decreases |tags| - from
  {
    if from < |tags| {
      if RepliesAt(tags, from) {
        assert IsFirstReply(tags, from);
      } else {
        FirstReplyAt(tags, from + 1);
      }
    }
  }

  lemma LastRefAt(tags: seq<Tag>, end: nat)
    requires end <= |tags| && forall j | end <= j < |tags| :: !RefersAt(tags, j)
    ensures match LastRef(tags, end)
            case Some(id) => exists i: nat :: IsLastRef(tags, i) && tags[i][1].id == id
            case None => RefersNowhere(tags)
  {
    if end > 0 {
      if RefersAt(tags, end - 1) {
        assert IsLastRef(tags, end - 1);
      } else {
        LastRefAt(tags, end - 1);
      }
    }
  }

  lemma ReplyIsAnswer(event: Event)
    ensures Answers(event, ReplyEventId(event))
  {
    FirstReplyAt(event.tags, 0);
    LastRefAt(event.tags, |event.tags|);
  }

  /** An event answers at most one. */
  lemma AnswersOne(event: Event, p: Option<EventId>, q: Option<EventId>)
    requires Answers(event, p) && Answers(event, q)
    ensures p == q
  {
  }

  /** What the bridge takes for the parent is exactly what the tags name. */
  lemma ReplyIsExact(event: Event, parent: Option<EventId>)
    ensures ReplyEventId(event) == parent <==> Answers(event, parent)
  {
    ReplyIsAnswer(event);
    if Answers(event, parent) {
      AnswersOne(event, parent, ReplyEventId(event));
    }
  }

  // ---------------------------------------------------------------- the channel that an event names

  /** Tag `i` has this name and a value. */
  predicate ValuedAt(tags: seq<Tag>, name: string, i: nat) {
    i < |tags| && |tags[i]| >= 2 && tags[i][0] == Field.Text(name)
  }

  /** Exactly one tag has this name and a value, and this is the value. */
  ghost predicate OnlyValue(tags: seq<Tag>, name: string, value: Field) {
    exists i: nat :: ValuedAt(tags, name, i) && tags[i][1] == value && forall j | ValuedAt(tags, name, j) :: j == i
  }

  lemma ValuesFrom(tags: seq<Tag>, name: string, from: nat)
    requires from <= |tags|
    ensures Values(tags, name, from) == [] <==> forall j | from <= j < |tags| :: !ValuedAt(tags, name, j)
    ensures |Values(tags, name, from)| == 1 ==>
              exists i: nat :: from <= i && ValuedAt(tags, name, i) && Values(tags, name, from) == [tags[i][1]]
                               && forall j | from <= j && ValuedAt(tags, name, j) :: j == i
    decreases |tags| - from
  {
    if from < |tags| {
      ValuesFrom(tags, name, from + 1);
      if ValuedAt(tags, name, from) && Values(tags, name, from + 1) == [] {
        assert Values(tags, name, from) == [tags[from][1]];
      }
    }
  }

  lemma OneValue(tags: seq<Tag>, name: string, i: nat, from: nat)
    requires from <= i < |tags| && ValuedAt(tags, name, i) && forall j | ValuedAt(tags, name, j) :: j == i
    ensures Values(tags, name, from) == [tags[i][1]]
    decreases i - from
  {
    if from == i {
      ValuesFrom(tags, name, i + 1);
    } else {
      assert !ValuedAt(tags, name, from);
      OneValue(tags, name, i, from + 1);
    }
  }

  lemma SingleTagIff(event: Event, name: string, value: Field)
    ensures SingleTag(event, name) == Some(value) <==> OnlyValue(event.tags, name, value)
  {
    if SingleTag(event, name) == Some(value) {
      ValuesFrom(event.tags, name, 0);
    }
    if OnlyValue(event.tags, name, value) {
      var i: nat :| ValuedAt(event.tags, name, i) && event.tags[i][1] == value
                    && forall j | ValuedAt(event.tags, name, j) :: j == i;
      OneValue(event.tags, name, i, 0);
    }
  }

  // ---------------------------------------------------------------- which events are read, and as what

  /** Some tag claims the event for the bridge. */
  predicate IsMarked(event: Event) {
    exists i | 0 <= i < |event.tags| ::
      && |event.tags[i]| >= 3 && event.tags[i][0] == Field.Text("br") && event.tags[i][1] == Field.Text("message")
  }

  /** A verified message of 1 to 16384 bytes, at most five minutes ahead, in this channel, and not the bridge's. */
  ghost predicate IsReadable(event: Event, route: Route, verified: bool, now: int) {
    && event.pubkey != BridgeKey(route.community) && !IsMarked(event)
    && event.kind == 9 && verified && event.createdAt <= now + 300
    && OnlyValue(event.tags, "h", Field.Text(route.localChannel))
    && 1 <= Utf8Length(event.content, |event.content|) <= 16384
  }

  /** In a bound channel the whole text, in an inbox what follows the address, with the addressed user in front. */
  ghost predicate IsBody(event: Event, bound: bool, body: string) {
    if bound then body == event.content
    else exists a: MessageAddress ::
      && IsAddressedAs(event.content, a)
      && body == (if a.user.Some? then "@" + a.user.value + " " else "") + a.body
  }

  /** Where a message goes: to the peer that the channel is bound to, or to the handle and user it addresses. */
  ghost predicate GoesTo(event: Event, route: Route, destination: Destination) {
    match destination
    case Bound(peer) => route.dedicatedTo == Some(peer)
    case Addressed(slug, user) =>
      && route.dedicatedTo.None?
      && exists a: MessageAddress :: IsAddressedAs(event.content, a) && a.slug == slug && a.user == user
  }

  /** Where among the first `n` characters one of this code point or above stands. */
  function From(s: string, n: nat, c: char): set<nat>
    requires n <= |s|
  {
    set i: nat | i < n && s[i] >= c
  }

  lemma OneMoreFrom(s: string, n: nat, c: char)
    requires n < |s|
    ensures From(s, n + 1, c) == if s[n] >= c then From(s, n, c) + {n} else From(s, n, c)
    ensures |From(s, n + 1, c)| == |From(s, n, c)| + if s[n] >= c then 1 else 0
  {
    assert From(s, n + 1, c) == if s[n] >= c then From(s, n, c) + {n} else From(s, n, c);
  }

  /** A text takes a byte for each character, and one more for each from U+0080, from U+0800 and from U+10000 on. */
  lemma {:induction false} BytesAreCounted(s: string, n: nat)
    requires n <= |s|
    ensures Utf8Length(s, n)
         == n + |From(s, n, '\U{0080}')| + |From(s, n, '\U{0800}')| + |From(s, n, '\U{10000}')|
  {
    if n > 0 {
      BytesAreCounted(s, n - 1);
      OneMoreFrom(s, n - 1, '\U{0080}');
      OneMoreFrom(s, n - 1, '\U{0800}');
      OneMoreFrom(s, n - 1, '\U{10000}');
    }
  }

  lemma MarkedIff(event: Event)
    ensures IsMarked(event) <==> HasProjectionMarker(event)
  {
    if HasProjectionMarker(event) {
      var i :| 0 <= i < |event.tags| && IsMarker(event.tags[i]);
      assert event.tags[i][0] == Field.Text("br");
    }
    if IsMarked(event) {
      var i :| 0 <= i < |event.tags| && |event.tags[i]| >= 3 && event.tags[i][0] == Field.Text("br")
               && event.tags[i][1] == Field.Text("message");
      assert IsMarker(event.tags[i]);
    }
  }

  lemma ReadableIff(event: Event, route: Route, verified: bool, now: int)
    ensures IsReadable(event, route, verified, now)
       <==> && !WrittenByBridge(event, route) && event.kind == MESSAGE_KIND && verified
            && event.createdAt <= now + MAX_FUTURE_SECONDS
            && SingleTag(event, "h") == Some(Field.Text(route.localChannel)) && BodyFits(event.content)
  {
    MarkedIff(event);
    SingleTagIff(event, "h", Field.Text(route.localChannel));
  }

  lemma BoundIsRead(event: Event, route: Route, verified: bool, now: int)
    requires route.dedicatedTo.Some?
    ensures Canonicalize(event, route, verified, now).Routed? <==> IsReadable(event, route, verified, now)
    ensures var read := Canonicalize(event, route, verified, now);
            read.Routed? ==> read == Routed(event.content, Bound(route.dedicatedTo.value), ReplyEventId(event))
  {
    ReadableIff(event, route, verified, now);
  }

  lemma InboxIsRead(event: Event, route: Route, verified: bool, now: int)
    requires route.dedicatedTo.None?
    ensures Canonicalize(event, route, verified, now).Routed?
       <==> IsReadable(event, route, verified, now) && ParseMessageAddress(event.content).Some?
    ensures var read, a := Canonicalize(event, route, verified, now), ParseMessageAddress(event.content);
            read.Routed? ==> read == Routed(RoutedBody(a.value), Addressed(a.value.slug, a.value.user),
                                            ReplyEventId(event))
  {
    ReadableIff(event, route, verified, now);
  }

  lemma BodyIsRouted(event: Event, a: MessageAddress)
    requires ParseMessageAddress(event.content) == Some(a)
    ensures IsBody(event, false, RoutedBody(a))
  {
    ParseIsExact(event.content, a);
    assert RoutedBody(a) == (if a.user.Some? then "@" + a.user.value + " " else "") + a.body;
  }

  /**
   Which events are routed, and as what: exactly the readable ones that a bound channel
   carries or that spell an address, with the body, the destination and the parent that the
   text and the tags name.
   */
  lemma RoutedIff(event: Event, route: Route, verified: bool, now: int)
    ensures var read := Canonicalize(event, route, verified, now);
            && (read.Routed? <==> && IsReadable(event, route, verified, now)
                                  && (route.dedicatedTo.Some? || exists a :: IsAddressedAs(event.content, a)))
            && (read.Routed? ==> && IsBody(event, route.dedicatedTo.Some?, read.body)
                                 && GoesTo(event, route, read.destination) && Answers(event, read.parent))
  {
    var read := Canonicalize(event, route, verified, now);
    ReplyIsAnswer(event);
    if route.dedicatedTo.Some? {
      BoundIsRead(event, route, verified, now);
    } else {
      InboxIsRead(event, route, verified, now);
      AddressedIff(event.content);
      if read.Routed? {
        var a := ParseMessageAddress(event.content).value;
        BodyIsRouted(event, a);
        ParseIsExact(event.content, a);
      }
    }
  }

  /** The bridge wrote it, or claims to have. */
  predicate IsOwn(event: Event, route: Route) {
    event.pubkey == BridgeKey(route.community) || IsMarked(event)
  }

  predicate IsMessage(event: Event, verified: bool, now: int) {
    event.kind == 9 && verified && event.createdAt <= now + 300
  }

  /** What is not routed is refused for the first thing that is wrong with it, and ignored otherwise. */
  lemma RefusalIsExact(event: Event, route: Route, verified: bool, now: int)
    ensures var read, inChannel := Canonicalize(event, route, verified, now),
                                   OnlyValue(event.tags, "h", Field.Text(route.localChannel));
            && (read == Refused("source_event_invalid") <==> !IsOwn(event, route) && !IsMessage(event, verified, now))
            && (read == Refused("source_channel_mismatch")
                <==> !IsOwn(event, route) && IsMessage(event, verified, now) && !inChannel)
            && (read == Refused("source_body_invalid")
                <==> && !IsOwn(event, route) && IsMessage(event, verified, now) && inChannel
                     && !(1 <= Utf8Length(event.content, |event.content|) <= 16384))
            && (read == Ignored
                <==> || IsOwn(event, route)
                     || (IsReadable(event, route, verified, now) && route.dedicatedTo.None?
                         && !exists a :: IsAddressedAs(event.content, a)))
  {
    MarkedIff(event);
    SingleTagIff(event, "h", Field.Text(route.localChannel));
    AddressedIff(event.content);
    if IsReadable(event, route, verified, now) && route.dedicatedTo.None? {
      InboxIsRead(event, route, verified, now);
    }
  }

  lemma AddressedIff(text: string)
    ensures ParseMessageAddress(text).Some? <==> exists a :: IsAddressedAs(text, a)
  {
    if ParseMessageAddress(text).Some? {
      ParseIsExact(text, ParseMessageAddress(text).value);
    }
    if exists a :: IsAddressedAs(text, a) {
      var a :| IsAddressedAs(text, a);
      ParseIsExact(text, a);
    }
  }

  // ---------------------------------------------------------------- the author's name

  predicate IsLineBreak(c: char) {
    c == '\r' || c == '\n' || c == '\t'
  }

  /** The first `n` characters, with a space for every run of line breaks and tabs. */
  function Spaced(s: string, n: nat): string
    requires n <= |s|
  {
    if n == 0 then []
    else if !IsLineBreak(s[n - 1]) then Spaced(s, n - 1) + [s[n - 1]]
    else if n > 1 && IsLineBreak(s[n - 2]) then Spaced(s, n - 1)
    else Spaced(s, n - 1) + " "
  }

  lemma {:induction false} CollapseOneMore(s: string, c: char)
    ensures CollapseBreaks(s + [c])
         == CollapseBreaks(s) + if !IsLineBreak(c) then [c]
                                else if s != [] && IsLineBreak(s[|s| - 1]) then [] else " "
  {
    if s == [] {
      assert [] + [c] == [c];
    } else {
      assert (s + [c])[1..] == s[1..] + [c];
      CollapseOneMore(s[1..], c);
    }
  }

  lemma {:induction false} CollapseIsSpaced(s: string, n: nat)
    requires n <= |s|
    ensures CollapseBreaks(s[..n]) == Spaced(s, n)
  {
    if n > 0 {
      assert s[..n] == s[..n - 1] + [s[n - 1]];
      CollapseOneMore(s[..n - 1], s[n - 1]);
      CollapseIsSpaced(s, n - 1);
    }
  }

  /** Without the white space around it. */
  ghost predicate IsTrimOf(t: string, s: string) {
    && (t == [] || (!IsSpace(t[0]) && !IsSpace(t[|t| - 1])))
    && exists lead: string, end: string :: Blank(lead) && Blank(end) && s == lead + (t + end)
  }

  lemma TrimIsTrimOf(s: string)
    ensures IsTrimOf(Trim(s), s)
  {
    var lead, rest := RunCuts(White, s);
    var n := InkEnd(rest, |rest|);
    var t, end := rest[..n], rest[n..];
    assert Trim(s) == t && rest == t + end;
    assert Blank(lead) && Blank(end);
    TrimEndKeepsFirst(rest);
    assert s == lead + (t + end);
  }

  lemma TrimEndKeepsFirst(s: string)
    requires s == [] || !IsSpace(s[0])
    ensures TrimEnd(s) == [] || TrimEnd(s)[0] == s[0]
  {
  }

  lemma TrimOfIsTrim(t: string, s: string)
    requires IsTrimOf(t, s)
    ensures t == Trim(s)
  {
    var lead: string, end: string :| Blank(lead) && Blank(end) && s == lead + (t + end);
    if t == [] {
      assert Blank(s);
      TrimIsEmptyIffBlank(s);
    } else {
      var kept := TrimmedLine(lead, t, end);
      assert t + [] == t;
    }
  }

  function FirstOf(s: string, n: nat): string {
    if |s| <= n then s else s[..n]
  }

  function OneLine(name: Option<string>): string {
    if name.Some? then Spaced(name.value, |name.value|) else []
  }

  /** The profile name on one line, trimmed and cut, or the first digits of the key if nothing is left of it. */
  ghost predicate IsLabel(actorLabel: string, name: Option<string>, digits: string) {
    exists t: string ::
      && IsTrimOf(t, OneLine(name))
      && actorLabel == if t == [] then FirstOf(digits, 12) else FirstOf(t, 80)
  }

  lemma LabelIsExact(actorLabel: string, name: Option<string>, digits: string)
    ensures actorLabel == ActorLabel(name, digits) <==> IsLabel(actorLabel, name, digits)
  {
    var one := OneLine(name);
    if name.Some? {
      CollapseIsSpaced(name.value, |name.value|);
      assert name.value[..|name.value|] == name.value;
    }
    TrimIsTrimOf(one);
    forall t | IsTrimOf(t, one) ensures t == Trim(one) {
      TrimOfIsTrim(t, one);
    }
    CutLabel(Trim(one), name, digits);
    assert IsTrimOf(Trim(one), one);
    assert IsLabel(ActorLabel(name, digits), name, digits);
  }

  lemma CutLabel(t: string, name: Option<string>, digits: string)
    requires t == Trim(if name.Some? then CollapseBreaks(name.value) else [])
    ensures ActorLabel(name, digits) == if t == [] then FirstOf(digits, 12) else FirstOf(t, 80)
  {
    if name.None? {
      TrimIsEmptyIffBlank([]);
    }
  }

  // ---------------------------------------------------------------- the text of a projection

  predicate IsHandleChar(c: char) {
    'a' <= c <= 'z' || '0' <= c <= '9' || c == '-'
  }

  /** A line that reads like a header: `@`, 2 to 40 characters of a handle, `/`, and 1 to 80 more on the same line. */
  ghost predicate LooksLikeHeader(line: string) {
    exists slug: string, rest: string ::
      && line == "@" + slug + "/" + rest
      && 2 <= |slug| <= 40 && (forall i | 0 <= i < |slug| :: IsHandleChar(slug[i]))
      && 1 <= |rest| <= 80
      && forall i | 0 <= i < |rest| ::
           rest[i] != '\n' && rest[i] != '\r' && rest[i] != '\U{2028}' && rest[i] != '\U{2029}'
  }

  lemma ShapeLooks(line: string)
    requires AttributionShape(line)
    ensures LooksLikeHeader(line)
  {
    var n := RunLength(OfSlug, line[1..]);
    var slug, rest := line[1..1 + n], line[2 + n..];
    assert line == "@" + slug + "/" + rest;
    forall i | 0 <= i < |slug| ensures IsHandleChar(slug[i]) {
      assert In(line[1..][i], OfSlug);
    }
    assert forall i | 0 <= i < |rest| :: rest[i] == line[2 + n + i];
  }

  lemma LooksShaped(line: string)
    requires LooksLikeHeader(line)
    ensures AttributionShape(line)
  {
    var slug: string, rest: string :|
      && line == "@" + slug + "/" + rest
      && 2 <= |slug| <= 40 && (forall i | 0 <= i < |slug| :: IsHandleChar(slug[i]))
      && 1 <= |rest| <= 80
      && forall i | 0 <= i < |rest| ::
           rest[i] != '\n' && rest[i] != '\r' && rest[i] != '\U{2028}' && rest[i] != '\U{2029}';
    assert line == Header(slug, rest);
    assert '/' !in slug;
    HeaderShape(slug, rest);
  }

  lemma ShapeIff(line: string)
    ensures AttributionShape(line) <==> LooksLikeHeader(line)
  {
    if AttributionShape(line) {
      ShapeLooks(line);
    }
    if LooksLikeHeader(line) {
      LooksShaped(line);
    }
  }

  /** Line by line the same, with a backslash before each line that reads like a header. */
  ghost predicate IsEscapeOf(escaped: string, body: string) {
    var from, to := SplitLines(body), SplitLines(escaped);
    |to| == |from|
    && forall i | 0 <= i < |from| :: to[i] == if LooksLikeHeader(from[i]) then "\\" + from[i] else from[i]
  }

  lemma EscapedBody(body: string)
    ensures IsEscapeOf(EscapeBody(body), body)
  {
    EscapeKeepsLines(body);
    var from := SplitLines(body);
    forall i | 0 <= i < |from|
      ensures EscapeLines(from)[i] == if LooksLikeHeader(from[i]) then "\\" + from[i] else from[i]
    {
      ShapeIff(from[i]);
    }
  }

  /** A header line with the community's handle and the author's name, and below it the escaped message. */
  ghost predicate IsMirrorText(content: string, slug: string, name: Option<string>, digits: string, body: string) {
    exists actorLabel: string, escaped: string ::
      && content == "@" + slug + "/" + actorLabel + "\n" + escaped
      && IsLabel(actorLabel, name, digits) && IsEscapeOf(escaped, body)
  }

  lemma ContentIsMirrorText(slug: string, name: Option<string>, digits: string, body: string)
    ensures IsMirrorText(Content(slug, ActorLabel(name, digits), body), slug, name, digits, body)
  {
    LabelIsExact(ActorLabel(name, digits), name, digits);
    EscapedBody(body);
    assert Content(slug, ActorLabel(name, digits), body)
        == "@" + slug + "/" + ActorLabel(name, digits) + "\n" + EscapeBody(body);
  }

  // ---------------------------------------------------------------- the tags of a projection

  /** Some tag is exactly this one. */
  predicate HasTag(tags: seq<Tag>, tag: Tag) {
    exists i | 0 <= i < |tags| :: tags[i] == tag
  }

  /** A projection names the message it mirrors, and where, as what and by whom that was written. */
  predicate NamesOrigin(tags: seq<Tag>, message: Uuid, community: CommunityId, event: EventId, actor: Pubkey) {
    && HasTag(tags, [Field.Text("br"), Field.Text("message"), UuidText(message)])
    && HasTag(tags, [Field.Text("br"), Field.Text("source-community"), UuidText(community)])
    && HasTag(tags, [Field.Text("br"), Field.Text("source-event"), HexId(event)])
    && HasTag(tags, [Field.Text("br"), Field.Text("source-actor"), HexKey(actor)])
  }

  lemma ProjectionTags(input: ProjectionInput, key: Pubkey, createdAt: int)
    ensures var e := CreateProjection(input, key, createdAt);
            && OnlyValue(e.tags, "h", Field.Text(input.destinationChannel))
            && NamesOrigin(e.tags, input.messageId, input.sourceCommunity, input.sourceEvent, input.actor)
  {
    var tags := CreateProjection(input, key, createdAt).tags;
    assert tags[..5] == HeaderTags(input);
    assert tags[0] == HeaderTags(input)[0] && tags[1] == HeaderTags(input)[1] && tags[2] == HeaderTags(input)[2];
    assert tags[3] == HeaderTags(input)[3] && tags[4] == HeaderTags(input)[4];
    assert ValuedAt(tags, "h", 0);
    forall j | 5 <= j < |tags| ensures tags[j][0] == Field.Text("e") {
      assert tags[j] == ReplyTags(input.localParent)[j - 5];
    }
  }

  /** What a projection says, to the last tag and line. */
  ghost predicate SaysFor(e: Event, input: ProjectionInput) {
    && e.kind == 9
    && OnlyValue(e.tags, "h", Field.Text(input.destinationChannel)) && Answers(e, input.localParent)
    && NamesOrigin(e.tags, input.messageId, input.sourceCommunity, input.sourceEvent, input.actor)
    && IsMirrorText(e.content, input.sourceSlug, input.actorName, input.actorDigits, input.body)
  }

  lemma ProjectionSays(input: ProjectionInput, key: Pubkey, createdAt: int)
    ensures SaysFor(CreateProjection(input, key, createdAt), input)
    ensures CreateProjection(input, key, createdAt).pubkey == key
  {
    ProjectionTags(input, key, createdAt);
    ProjectionReadsBack(input, key, createdAt);
    ReplyIsExact(CreateProjection(input, key, createdAt), input.localParent);
    ContentIsMirrorText(input.sourceSlug, input.actorName, input.actorDigits, input.body);
  }
}
