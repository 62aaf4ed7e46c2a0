/**
 Reading a source event into a routable message, and writing the projection that
 mirrors it at the destination.
 */
module Bridge {
  import opened Wrappers
  import opened Text
  import opened Nostr
  import opened Addressing
  import opened Commands

  const MESSAGE_KIND := 9
  const MAX_BODY_BYTES := 16 * 1024
  const MAX_FUTURE_SECONDS := 5 * 60

  // ---------------------------------------------------------------- tags

  predicate Named(tag: Tag, name: string) {
    |tag| >= 1 && tag[0] == Field.Text(name)
  }

  predicate IsMarker(tag: Tag) {
    |tag| >= 3 && Named(tag, "br") && tag[1] == Field.Text("message")
  }

  predicate HasProjectionMarker(event: Event) {
    exists i | 0 <= i < |event.tags| :: IsMarker(event.tags[i])
  }

  predicate IsEventRef(tag: Tag) {
    |tag| >= 2 && Named(tag, "e") && tag[1].HexId?
  }

  predicate IsReplyRef(tag: Tag) {
    IsEventRef(tag) && |tag| >= 4 && tag[3] == Field.Text("reply")
  }

  /** The first marked reply among the tags from `from` on. */
  function FirstReply(tags: seq<Tag>, from: nat): Option<EventId>
    requires from <= |tags|
    decreases |tags| - from
  {
    if from == |tags| then None
    else if IsReplyRef(tags[from]) then Some(tags[from][1].id)
    else FirstReply(tags, from + 1)
  }

  /** The last event named by the tags before `end`. */
  function LastRef(tags: seq<Tag>, end: nat): Option<EventId>
    requires end <= |tags|
  {
    if end == 0 then None
    else if IsEventRef(tags[end - 1]) then Some(tags[end - 1][1].id)
    else LastRef(tags, end - 1)
  }

  /** The event a message answers: the marked reply, else the last event it names. */
  function ReplyEventId(event: Event): Option<EventId> {
    if FirstReply(event.tags, 0).Some? then FirstReply(event.tags, 0) else LastRef(event.tags, |event.tags|)
  }

  function FirstValueFrom(tags: seq<Tag>, name: string, from: nat): Option<Field>
    requires from <= |tags|
    decreases |tags| - from
  {
    if from == |tags| then None
    else if Named(tags[from], name) then (if |tags[from]| >= 2 then Some(tags[from][1]) else None)
    else FirstValueFrom(tags, name, from + 1)
  }

  /** The value of the first tag with this name; absent when that tag has no value. */
  function FirstValue(tags: seq<Tag>, name: string): Option<Field> {
    FirstValueFrom(tags, name, 0)
  }

  /** The values of all tags with this name, from `from` on. */
  function Values(tags: seq<Tag>, name: string, from: nat): seq<Field>
    requires from <= |tags|
    decreases |tags| - from
  {
    if from == |tags| then []
    else
      (if Named(tags[from], name) && |tags[from]| >= 2 then [tags[from][1]] else []) + Values(tags, name, from + 1)
  }

  function SingleTag(event: Event, name: string): Option<Field> {
    var values := Values(event.tags, name, 0);
    if |values| == 1 then Some(values[0]) else None
  }

  // ---------------------------------------------------------------- source events

  function Utf8Size(c: char): nat {
    if c < '\U{0080}' then 1 else if c < '\U{0800}' then 2 else if c < '\U{10000}' then 3 else 4
  }

  /** The bytes of the first `n` characters. */
  function Utf8Length(s: string, n: nat): nat
    requires n <= |s|
  {
    if n == 0 then 0 else Utf8Length(s, n - 1) + Utf8Size(s[n - 1])
  }

  /** A subscribed channel; `dedicatedTo` is set when it is bound to one peer. */
  datatype Route = Route(
    endpoint: EndpointId,
    community: CommunityId,
    hub: HubId,
    localChannel: string,
    dedicatedTo: Option<CommunityId>)

  datatype Destination = Bound(peer: CommunityId) | Addressed(slug: string, user: Option<string>)

  datatype Canonical =
    | Ignored
    | Refused(code: string)
    | Routed(body: string, destination: Destination, parent: Option<EventId>)

  /** Everything the bridge itself wrote is invisible to it. */
  predicate WrittenByBridge(event: Event, route: Route) {
    event.pubkey == BridgeKey(route.community) || HasProjectionMarker(event)
  }

  predicate BodyFits(body: string) {
    1 <= Utf8Length(body, |body|) <= MAX_BODY_BYTES
  }

  function RoutedBody(address: MessageAddress): string {
    if address.user.Some? then "@" + address.user.value + " " + address.body else address.body
  }

  function Canonicalize(event: Event, route: Route, verified: bool, now: int): Canonical {
    if WrittenByBridge(event, route) then Ignored
    else if event.kind != MESSAGE_KIND || !verified || event.createdAt > now + MAX_FUTURE_SECONDS then
      Refused("source_event_invalid")
    else if SingleTag(event, "h") != Some(Field.Text(route.localChannel)) then
      Refused("source_channel_mismatch")
    else if !BodyFits(event.content) then
      Refused("source_body_invalid")
    else if route.dedicatedTo.Some? then
      Routed(event.content, Bound(route.dedicatedTo.value), ReplyEventId(event))
    else
      var address := ParseMessageAddress(event.content);
      if address.None? then Ignored
      else
        Routed(RoutedBody(address.value), Addressed(address.value.slug, address.value.user), ReplyEventId(event))
  }

  // ---------------------------------------------------------------- notices

  datatype Notice = Notice(channel: string, reason: string, text: string)

  function NoticeEvent(community: CommunityId, notice: Notice, createdAt: int): Event {
    Event(BridgeKey(community), createdAt, MESSAGE_KIND,
          [
            [Field.Text("h"), Field.Text(notice.channel)],
            [Field.Text("br"), Field.Text("notice"), Field.Text(notice.reason)]
          ],
          notice.text)
  }

  /** What a notice looks like to whoever reads it. */
  predicate IsNotice(event: Event) {
    && event.kind == MESSAGE_KIND && OpensPlainly(event.content)
    && |event.tags| == 2
    && |event.tags[0]| == 2 && Named(event.tags[0], "h") && event.tags[0][1].Text?
    && |event.tags[1]| == 3 && Named(event.tags[1], "br") && event.tags[1][1] == Field.Text("notice")
  }

  /** The channel that a notice names. */
  function NoticeChannel(event: Event): string
    requires IsNotice(event)
  {
    event.tags[0][1].text
  }

  lemma PlainIsUnaddressed(text: string)
    requires OpensPlainly(text)
    ensures ParseMessageAddress(text) == None && ParseCommand(text) == None
  {
    InkIsNotTrimmed(text);
    CommandsOpenWithSlash(text);
  }

  /** The one check that keeps a route from reading a notice which is not its own bridge's: being an inbox. */
  predicate CarriesNotice(event: Event, route: Route, verified: bool, now: int)
    requires IsNotice(event)
  {
    && event.pubkey != BridgeKey(route.community)
    && route.dedicatedTo.Some? && route.localChannel == NoticeChannel(event)
    && verified && event.createdAt <= now + MAX_FUTURE_SECONDS && BodyFits(event.content)
  }

  /** The tags of a notice: no marker, and one channel. */
  lemma NoticeTags(event: Event)
    requires IsNotice(event)
    ensures !HasProjectionMarker(event)
    ensures FirstValue(event.tags, "h") == Some(Field.Text(NoticeChannel(event)))
    ensures SingleTag(event, "h") == Some(Field.Text(NoticeChannel(event)))
  {
    assert Values(event.tags, "h", 2) == [];
    assert !Named(event.tags[1], "h");
    assert Values(event.tags, "h", 1) == [];
    assert Values(event.tags, "h", 0) == [event.tags[0][1]];
  }

  /** A notice is no projection and no command; it is routed exactly by another community's bound channel. */
  lemma NoticeIsRoutedIff(event: Event, route: Route, verified: bool, now: int)
    requires IsNotice(event)
    ensures !HasProjectionMarker(event) && ParseCommand(event.content) == None
    ensures FirstValue(event.tags, "h") == Some(Field.Text(NoticeChannel(event)))
    ensures Canonicalize(event, route, verified, now).Routed? <==> CarriesNotice(event, route, verified, now)
    ensures Canonicalize(event, route, verified, now).Routed? ==>
              Canonicalize(event, route, verified, now).destination == Bound(route.dedicatedTo.value)
  {
    PlainIsUnaddressed(event.content);
    NoticeTags(event);
  }

  // ---------------------------------------------------------------- projections

  datatype ProjectionInput = ProjectionInput(
    body: string,
    destinationChannel: string,
    localParent: Option<EventId>,
    messageId: Uuid,
    actor: Pubkey,
    actorDigits: string,
    actorName: Option<string>,
    sourceCommunity: CommunityId,
    sourceSlug: string,
    sourceEvent: EventId)

  predicate IsBreak(c: char) {
    c == '\r' || c == '\n' || c == '\t'
  }

  /** Replaces every run of line breaks and tabs by one space. */
  function CollapseBreaks(s: string): string {
    if s == [] then []
    else if !IsBreak(s[0]) then [s[0]] + CollapseBreaks(s[1..])
    else if |s| > 1 && IsBreak(s[1]) then CollapseBreaks(s[1..])
    else " " + CollapseBreaks(s[1..])
  }

  function Take(s: string, n: nat): string {
    if |s| <= n then s else s[..n]
  }

  function ActorLabel(name: Option<string>, digits: string): string {
    var cleaned := if name.Some? then Take(Trim(CollapseBreaks(name.value)), 80) else [];
    if cleaned != [] then cleaned else Take(digits, 12)
  }

  predicate EndsLine(c: char) {
    c == '\n' || c == '\r' || c == '\U{2028}' || c == '\U{2029}'
  }

  /** A line that reads like the header of a mirrored message. */
  predicate AttributionShape(line: string) {
    && line != [] && line[0] == '@'
    && var n := RunLength(OfSlug, line[1..]);
       && 2 <= n <= 40 && 1 + n < |line| && line[1 + n] == '/'
       && 1 <= |line| - (2 + n) <= 80
       && forall i | 2 + n <= i < |line| :: !EndsLine(line[i])
  }

  function EscapeLine(line: string): string {
    if AttributionShape(line) then "\\" + line else line
  }

  function EscapeLines(lines: seq<string>): (escaped: seq<string>)
    ensures |escaped| == |lines|
    ensures forall i | 0 <= i < |lines| :: escaped[i] == EscapeLine(lines[i])
  {
    seq(|lines|, i requires 0 <= i < |lines| => EscapeLine(lines[i]))
  }

  function EscapeBody(body: string): string {
    JoinLines(EscapeLines(SplitLines(body)))
  }

  /** The line that the bridge writes above a mirrored message. */
  function Header(slug: string, actorLabel: string): string {
    "@" + slug + "/" + actorLabel
  }

  function Content(slug: string, actorLabel: string, body: string): string {
    Header(slug, actorLabel) + "\n" + EscapeBody(body)
  }

  function HeaderTags(input: ProjectionInput): seq<Tag> {
    [
      [Field.Text("h"), Field.Text(input.destinationChannel)],
      [Field.Text("br"), Field.Text("message"), UuidText(input.messageId)],
      [Field.Text("br"), Field.Text("source-community"), UuidText(input.sourceCommunity)],
      [Field.Text("br"), Field.Text("source-event"), HexId(input.sourceEvent)],
      [Field.Text("br"), Field.Text("source-actor"), HexKey(input.actor)]
    ]
  }

  function ReplyTags(parent: Option<EventId>): seq<Tag> {
    if parent.None? then []
    else [[Field.Text("e"), HexId(parent.value), Field.Text(""), Field.Text("reply")]]
  }

  function CreateProjection(input: ProjectionInput, key: Pubkey, createdAt: int): Event {
    Event(
      key, createdAt, MESSAGE_KIND,
      HeaderTags(input) + ReplyTags(input.localParent),
      Content(input.sourceSlug, ActorLabel(input.actorName, input.actorDigits), input.body))
  }

  /** The bridge message a projection mirrors, read from its second tag. */
  function MirroredMessage(event: Event): Option<Uuid> {
    if |event.tags| >= 2 && IsMarker(event.tags[1]) && event.tags[1][2].UuidText? then Some(event.tags[1][2].uuid)
    else None
  }

  lemma NoRefs(tags: seq<Tag>, n: nat)
    requires n <= |tags| && forall i | 0 <= i < |tags| :: !IsEventRef(tags[i])
    ensures LastRef(tags, n) == None
  {
  }

  lemma NoReplies(tags: seq<Tag>, from: nat)
    requires from <= |tags| && forall i | 0 <= i < |tags| :: !IsEventRef(tags[i])
    ensures FirstReply(tags, from) == None
    decreases |tags| - from
  {
  }

  lemma FirstReplyAfter(tags: seq<Tag>, from: nat, reply: Tag)
    requires from <= |tags| && forall i | 0 <= i < |tags| :: !IsEventRef(tags[i])
    requires IsReplyRef(reply)
    ensures FirstReply(tags + [reply], from) == Some(reply[1].id)
    decreases |tags| - from
  {
    if from < |tags| {
      assert (tags + [reply])[from] == tags[from];
    }
  }

  /**
   What the bridge writes, it reads back: the reply tag is the local parent it was
   given, the marker names the mirrored message, and the author is the key it
   signed with. The content is never a command.
   */
  lemma ProjectionReadsBack(input: ProjectionInput, key: Pubkey, createdAt: int)
    ensures var e := CreateProjection(input, key, createdAt);
            && ReplyEventId(e) == input.localParent
            && MirroredMessage(e) == Some(input.messageId)
            && HasProjectionMarker(e)
            && e.pubkey == key
  {
    var e := CreateProjection(input, key, createdAt);
    var header := HeaderTags(input);
    assert IsMarker(e.tags[1]);
    if input.localParent.None? {
      assert e.tags == header;
      NoRefs(header, |header|);
      NoReplies(header, 0);
    } else {
      var reply := ReplyTags(input.localParent)[0];
      assert e.tags == header + [reply];
      FirstReplyAfter(header, 0, reply);
    }
  }

  /** A projection is ignored by every route of every community, and is no command. */
  lemma ProjectionIsNeverRead(input: ProjectionInput, key: Pubkey, createdAt: int, route: Route, verified: bool,
                              now: int)
    ensures var e := CreateProjection(input, key, createdAt);
            && Canonicalize(e, route, verified, now) == Ignored
            && ParseCommand(e.content) == None
  {
    ProjectionReadsBack(input, key, createdAt);
    CommandsOpenWithSlash(CreateProjection(input, key, createdAt).content);
  }

  /** Escaping works line by line: each line is kept, or prefixed by a backslash if it has the header shape. */
  lemma EscapeKeepsLines(body: string)
    ensures SplitLines(EscapeBody(body)) == EscapeLines(SplitLines(body))
  {
    var lines := SplitLines(body);
    forall i | 0 <= i < |lines|
      ensures All(BeforeBreak, EscapeLine(lines[i]))
    {
    }
    SplitOfJoin(EscapeLines(lines));
  }

  /** After escaping, no line of a message can pass for an attribution. */
  lemma NoForgedAttribution(body: string)
    ensures forall i | 0 <= i < |SplitLines(EscapeBody(body))| ::
              !AttributionShape(SplitLines(EscapeBody(body))[i])
  {
    EscapeKeepsLines(body);
  }

  /** The headers that the escaping pattern knows: a handle of the grammar, and a label that is one line to it. */
  predicate IsKnownHeader(slug: string, actorLabel: string) {
    && 2 <= |slug| <= 40 && All(OfSlug, slug) && actorLabel != []
    && forall i | 0 <= i < |actorLabel| :: !EndsLine(actorLabel[i])
  }

  lemma HeaderShape(slug: string, actorLabel: string)
    requires '/' !in slug && |actorLabel| <= 80
    ensures AttributionShape(Header(slug, actorLabel)) <==> IsKnownHeader(slug, actorLabel)
  {
    var line := Header(slug, actorLabel);
    var n := RunLength(OfSlug, line[1..]);
    assert line[1..] == slug + ("/" + actorLabel);
    if All(OfSlug, slug) {
      RunStopsAt(OfSlug, slug, "/" + actorLabel);
      assert line[2 + n..] == actorLabel;
      assert forall i | 0 <= i < |actorLabel| :: actorLabel[i] == line[2 + n + i];
      assert forall i | 2 + n <= i < |line| :: line[i] == actorLabel[i - (2 + n)];
    } else {
      var i :| 0 <= i < |slug| && !In(slug[i], OfSlug);
      assert line[1..][i] == slug[i];
      assert n <= i && line[1 + n] == slug[n];
    }
  }

  /**
   A delivered body can hold a line equal to a header that the bridge writes exactly when
   the pattern does not know that header: the community goes by its host for want of a
   handle, or the profile name holds a line or paragraph separator.
   */
  lemma HeaderIsForgedIff(body: string, slug: string, name: Option<string>, digits: string)
    requires '/' !in slug
    ensures var header := Header(slug, ActorLabel(name, digits));
            header in SplitLines(EscapeBody(body))
            <==> header in SplitLines(body) && !IsKnownHeader(slug, ActorLabel(name, digits))
  {
    EscapeKeepsLines(body);
    HeaderAmongLines(SplitLines(body), slug, ActorLabel(name, digits));
  }

  lemma HeaderAmongLines(lines: seq<string>, slug: string, actorLabel: string)
    requires '/' !in slug && |actorLabel| <= 80
    ensures Header(slug, actorLabel) in EscapeLines(lines)
       <==> Header(slug, actorLabel) in lines && !IsKnownHeader(slug, actorLabel)
  {
    HeaderShape(slug, actorLabel);
    EscapedLine(lines, Header(slug, actorLabel));
  }

  /** A line that opens with `@` survives escaping, or comes out of it, only unchanged. */
  lemma EscapedLine(lines: seq<string>, line: string)
    requires line != [] && line[0] == '@'
    ensures line in EscapeLines(lines) <==> line in lines && !AttributionShape(line)
  {
    var escaped := EscapeLines(lines);
    forall i | 0 <= i < |lines| ensures escaped[i] == line <==> lines[i] == line && !AttributionShape(line) {
      assert AttributionShape(lines[i]) ==> escaped[i][0] == '\\';
    }
    if line in lines && !AttributionShape(line) {
      var i :| 0 <= i < |lines| && lines[i] == line;
      assert escaped[i] in escaped;
    }
  }

  lemma EscapedLineKeepsInk(line: string)
    ensures Blank(EscapeLine(line)) <==> Blank(line)
  {
    if AttributionShape(line) {
      assert !IsSpace(line[0]) && !IsSpace(EscapeLine(line)[0]);
    }
  }

  lemma BlankConcat(a: string, b: string)
    ensures Blank(a + b) <==> Blank(a) && Blank(b)
  {
    assert forall i | 0 <= i < |a| :: (a + b)[i] == a[i];
    assert forall i | 0 <= i < |b| :: (a + b)[|a| + i] == b[i];
  }

  lemma {:induction false} JoinedBlank(lines: seq<string>)
    ensures Blank(JoinLines(lines)) <==> forall i | 0 <= i < |lines| :: Blank(lines[i])
  {
    if |lines| > 1 {
      JoinedBlank(lines[1..]);
      BlankConcat(lines[0] + "\n", JoinLines(lines[1..]));
      BlankConcat(lines[0], "\n");
      assert forall i | 1 <= i < |lines| :: lines[i] == lines[1..][i - 1];
    }
  }

  lemma EscapeKeepsInk(body: string)
    ensures Blank(EscapeBody(body)) <==> Blank(body)
  {
    var lines := SplitLines(body);
    JoinOfSplit(body);
    JoinedBlank(lines);
    JoinedBlank(EscapeLines(lines));
    forall i | 0 <= i < |lines|
      ensures Blank(EscapeLine(lines[i])) <==> Blank(lines[i])
    {
      EscapedLineKeepsInk(lines[i]);
    }
  }

  lemma TrimStartSplits(s: string)
    requires !Blank(s)
    ensures StartsWithInk(TrimStart(s))
    ensures Blank(s[..RunLength(White, s)])
    ensures s == s[..RunLength(White, s)] + TrimStart(s)
  {
    var n := RunLength(White, s);
    assert n == |s| ==> Blank(s);
  }

  /**
   Sending and receiving share one grammar: the header of a mirrored message,
   read as an address, points back at the community and person that wrote it.
   */
  lemma ProjectionAnswersItsSender(slug: string, actorLabel: string, body: string)
    requires ValidSlug(slug) && ValidUser(actorLabel) && !Blank(body)
    ensures ParseMessageAddress(Content(slug, actorLabel, body))
         == Some(MessageAddress(slug, Some(actorLabel), TrimStart(EscapeBody(body))))
  {
    var escaped := EscapeBody(body);
    EscapeKeepsInk(body);
    TrimStartSplits(escaped);
    var n := RunLength(White, escaped);
    var gap := "\n" + escaped[..n];
    ValidSlugIsLower(slug);
    BareRoundTrip(slug, Some(actorLabel), gap, TrimStart(escaped));
    SameText(slug, actorLabel, escaped[..n], TrimStart(escaped));
  }

  lemma SameText(slug: string, actorLabel: string, blank: string, rest: string)
    ensures "@" + slug + "/" + actorLabel + "\n" + (blank + rest) == Bare(slug, Some(actorLabel), "\n" + blank, rest)
  {
  }
}
