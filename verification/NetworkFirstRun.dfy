/**
 A first run from empty tables: two communities join and connect, and a person writes from
 one to the other. It leaves a delivery that waits, which is where the races start, and a
 cursor that a later settings call pulls back.
 */
module NetworkFirstRun {
  import opened Wrappers
  import opened Text
  import opened Nostr
  import opened Addressing
  import opened Commands
  import opened Bridge
  import opened Hub
  import opened Routing
  import opened Tables
  import opened Network
  import opened NetworkInvariant
  import opened NetworkSteps
  import opened NetworkProof
  import opened NetworkTheorems
  import opened NetworkRaces

  const IDS := NewIds(0, 0, 1)

  /** The clock of the person is as far ahead of the bridge's as is allowed. */
  const AHEAD := MAX_FUTURE_SECONDS

  function Written(): Event {
    Event(HumanKey(0), AHEAD, MESSAGE_KIND, [[Field.Text("h"), Field.Text("a")]], Bracketed("bb", None, " ", "hi"))
  }

  function InboxOf(a: CommunityId): Route {
    Route(0, a, 0, "a", None)
  }

  // ---------------------------------------------------------------- the event is routable

  lemma WrittenHasOneTag()
    ensures SingleTag(Written(), "h") == Some(Field.Text("a"))
    ensures FirstValue(Written().tags, "h") == Some(Field.Text("a"))
    ensures !HasProjectionMarker(Written())
  {
    assert Values(Written().tags, "h", 1) == [];
    assert Values(Written().tags, "h", 0) == [Field.Text("a")];
  }

  lemma Utf8Bounds(s: string, n: nat)
    requires n <= |s|
    ensures n <= Utf8Length(s, n) <= 4 * n
  {
  }

  lemma WrittenIsAddressed()
    ensures ParseMessageAddress(Written().content) == Some(MessageAddress("bb", None, "hi"))
    ensures ParseCommand(Written().content) == None && BodyFits(Written().content) && BodyFits("hi")
  {
    LowerIsIdentity("bb");
    BracketedRoundTrip("bb", None, " ", "hi");
    CommandsOpenWithSlash(Written().content);
    Utf8Bounds(Written().content, |Written().content|);
    Utf8Bounds("hi", 2);
  }

  /** A person's message in an inbox, addressed to somebody, is routed there. */
  lemma AddressedIsRouted(event: Event, route: Route, now: int, parsed: Option<MessageAddress>)
    requires event.pubkey.HumanKey? && event.kind == MESSAGE_KIND && event.createdAt <= now + MAX_FUTURE_SECONDS
    requires !HasProjectionMarker(event) && SingleTag(event, "h") == Some(Field.Text(route.localChannel))
    requires BodyFits(event.content)
    requires route.dedicatedTo.None? && ParseMessageAddress(event.content) == parsed && parsed.Some?
    ensures Canonicalize(event, route, true, now)
         == Routed(RoutedBody(parsed.value), Addressed(parsed.value.slug, parsed.value.user), ReplyEventId(event))
  {
  }

  lemma WrittenIsRoutable(a: CommunityId)
    ensures !IsCommandFor(Written(), InboxOf(a))
    ensures Canonicalize(Written(), InboxOf(a), true, 0)
         == Routed("hi", Addressed("bb", None), ReplyEventId(Written()))
  {
    WrittenHasOneTag();
    WrittenIsAddressed();
    AddressedIsRouted(Written(), InboxOf(a), 0, Some(MessageAddress("bb", None, "hi")));
  }

  // ---------------------------------------------------------------- the worlds of the run

  /** What the rows and texts of the run depend on. */
  datatype Setting = Setting(handles: map<CommunityId, string>, hosts: map<CommunityId, string>, a: CommunityId,
                             b: CommunityId)

  function Founded(s: Setting): World {
    var w := Initial(s.handles, s.hosts);
    w.(db := w.db.(registry := Pair(s.a, s.b, IDS), cursors := map[0 := 0, 1 := 0]))
  }

  function Connected(s: Setting): World {
    Founded(s).(sessions := map[s.a := Session(0, [InboxOf(s.a)]), s.b := Session(1, [])], nextSession := 2)
  }

  function Received(s: Setting): World {
    Connected(s).(relay := {(s.a, Written())}, received := {(InboxOf(s.a), Written())})
  }

  function ReadStep(s: Setting): Step {
    ReadMessage(InboxOf(s.a), Written(), true, 0, s.b, 0, 1, None, "")
  }

  function JoinStep(s: Setting): Step {
    Change(JoinOp(s.b, "b", Some(s.a), "a", IDS), 0)
  }

  function FirstSteps(s: Setting): seq<Step> {
    [JoinStep(s), Connect(s.a, [InboxOf(s.a)]), Connect(s.b, []), HumanPost(s.a, Written()), Receive(s.a, Written())]
  }

  lemma JoinFounds(s: Setting)
    requires s.a != s.b
    ensures var w := Initial(s.handles, s.hosts); Enabled(w, JoinStep(s)) && Next(w, JoinStep(s)) == Founded(s)
  {
    PairJoins(s.a, s.b, IDS);
    TwoRestarts(map[], 0, 1, OrdinaryEndpoint(0, s.a, "a"), OrdinaryEndpoint(0, s.b, "b"), map[], 0);
  }

  lemma PairConnects(s: Setting)
    requires s.a != s.b
    ensures Taken(Founded(s), [Connect(s.a, [InboxOf(s.a)]), Connect(s.b, [])]) == Some(Connected(s))
  {
    var first, second := Connect(s.a, [InboxOf(s.a)]), Connect(s.b, []);
    var w := Founded(s).(sessions := map[s.a := Session(0, [InboxOf(s.a)])], nextSession := 1);
    assert Next(Founded(s), first) == w;
    assert Next(w, second) == Connected(s);
    TwoSteps(Founded(s), first, w, second);
  }

  lemma TwoSteps(w: World, first: Step, mid: World, second: Step)
    requires Enabled(w, first) && mid == Next(w, first) && Enabled(mid, second)
    ensures Taken(w, [first, second]) == Some(Next(mid, second))
  {
    TakenThen(w, [], first);
    assert [] + [first] == [first];
    TakenThen(w, [first], second);
    assert [first] + [second] == [first, second];
  }

  lemma WrittenIsReceived(s: Setting)
    requires s.a != s.b
    ensures Taken(Connected(s), [HumanPost(s.a, Written()), Receive(s.a, Written())]) == Some(Received(s))
  {
    WrittenHasOneTag();
    var first, second := HumanPost(s.a, Written()), Receive(s.a, Written());
    var w := Connected(s).(relay := {(s.a, Written())});
    assert Next(Connected(s), first) == w;
    assert RouteOf(w, s.a, Written()) == Some(InboxOf(s.a));
    assert Next(w, second) == Received(s);
    TwoSteps(Connected(s), first, w, second);
  }

  lemma {:induction false} TakenAppends(w: World, first: seq<Step>, mid: World, second: seq<Step>)
    requires Taken(w, first) == Some(mid) && Taken(mid, second).Some?
    ensures Taken(w, first + second) == Taken(mid, second)
  {
    if second == [] {
      assert first + second == first;
    } else {
      var init, last := second[..|second| - 1], second[|second| - 1];
      TakenAppends(w, first, mid, init);
      TakenThen(w, first + init, last);
      assert (first + init) + [last] == first + second;
    }
  }

  lemma OneStep(w: World, step: Step, mid: World)
    requires Enabled(w, step) && Next(w, step) == mid
    ensures Taken(w, [step]) == Some(mid)
  {
    TakenThen(w, [], step);
    assert [] + [step] == [step];
  }

  lemma PairReceives(s: Setting)
    requires s.a != s.b
    ensures Taken(Initial(s.handles, s.hosts), FirstSteps(s)) == Some(Received(s))
  {
    var w := Initial(s.handles, s.hosts);
    var connects := [Connect(s.a, [InboxOf(s.a)]), Connect(s.b, [])];
    var reading := [HumanPost(s.a, Written()), Receive(s.a, Written())];
    JoinFounds(s);
    OneStep(w, JoinStep(s), Founded(s));
    PairConnects(s);
    WrittenIsReceived(s);
    TakenThrice(w, [JoinStep(s)], Founded(s), connects, Connected(s), reading);
    assert [JoinStep(s)] + connects + reading == FirstSteps(s);
  }

  lemma TakenThrice(w: World, first: seq<Step>, one: World, second: seq<Step>, two: World, third: seq<Step>)
    requires Taken(w, first) == Some(one) && Taken(one, second) == Some(two) && Taken(two, third).Some?
    ensures Taken(w, first + second + third) == Taken(two, third)
  {
    TakenAppends(w, first, one, second);
    TakenAppends(w, first + second, two, third);
  }

  lemma ReceivedIsSound(s: Setting)
    requires s.a != s.b
    ensures Sound(Received(s))
  {
    PairReceives(s);
    InitialIsSound(s.handles, s.hosts);
    TakenKeepsSound(Initial(s.handles, s.hosts), FirstSteps(s));
  }

  // ---------------------------------------------------------------- the message is ingested

  lemma CreatedRows(db: Db, input: IngestInput, first: Uuid)
    requires FreshIds(db, input.messageId, first) && Ingest(db, input, first).result.Created?
    ensures var out := Ingest(db, input, first);
            && input.messageId in out.db.messages
            && out.db.messages[input.messageId].parentEvent == input.parentEvent
            && out.db.cursors == Advance(db.cursors, input.source, input.event.createdAt)
            && forall d | d in out.result.deliveryIds :: d in out.db.deliveries && out.db.deliveries[d].signed.None?
  {
  }

  /** The first delivery of a message that answers nothing waits, if its destination is connected. */
  lemma CreatedWaits(w: World, input: IngestInput, first: Uuid)
    requires Sound(w) && IsSourceInput(w.db, w.relay, input) && FreshIds(w.db, input.messageId, first)
    requires FindsRoute(w.db, input) && !WasRead(w.db, input)
    requires input.parentEvent.None? && input.destination.value in w.sessions
    ensures var w' := Ingested(w, input, first);
            && IsWaiting(w', first) && w'.db.deliveries[first].signed.None?
            && w'.db.cursors == Advance(w.db.cursors, input.source, input.event.createdAt)
  {
    CreatesIffRouted(w.db, w.relay, input, first);
    IngestAnswersOnce(w.db, w.relay, input, first);
    CreatedRows(w.db, input, first);
  }

  lemma WrittenInput(s: Setting)
    ensures IsRoutable(Written(), InboxOf(s.a), true, 0)
    ensures InputOf(ReadStep(s)) == IngestInput(0, 0, Some(s.b), 0, Written(), None, None, "hi", None, "")
  {
    WrittenIsRoutable(s.a);
    WrittenAnswersNothing();
    InboxInput(ReadStep(s), "hi", Addressed("bb", None), None);
  }

  lemma WrittenAnswersNothing()
    ensures ReplyEventId(Written()) == None
  {
    NoReplies(Written().tags, 0);
    NoRefs(Written().tags, 1);
  }

  lemma InboxInput(read: Step, body: string, destination: Destination, parent: Option<EventId>)
    requires read.ReadMessage? && !IsCommandFor(read.event, read.route) && destination.Addressed?
    requires Canonicalize(read.event, read.route, read.verified, read.now) == Routed(body, destination, parent)
    ensures IsRoutable(read.event, read.route, read.verified, read.now)
    ensures InputOf(read) == IngestInput(read.route.hub, read.route.endpoint, Some(read.resolved), read.messageId,
                                         read.event, parent, None, body, read.name, read.digits)
  {
  }

  lemma PairFindsRoute(s: Setting, input: IngestInput)
    requires s.a != s.b && input.hub == 0 && input.source == 0 && input.destination == Some(s.b) && input.body == "hi"
    ensures FindsRoute(Received(s).db, input) && !WasRead(Received(s).db, input)
  {
    Utf8Bounds("hi", 2);
    assert 1 in Destinations(Pair(s.a, s.b, IDS).endpoints, 0, Some(s.b));
  }

  lemma WrittenIsEnabled(s: Setting)
    ensures Enabled(Received(s), ReadStep(s))
    ensures Next(Received(s), ReadStep(s)) == Ingested(Received(s), InputOf(ReadStep(s)), 1)
  {
    WrittenInput(s);
    RoutableIsEnabled(Received(s), ReadStep(s));
  }

  lemma ReceivedTables(s: Setting)
    requires s.a != s.b
    ensures var w := Received(s);
            && w.workers == map[] && w.db.registry == Pair(s.a, s.b, IDS) && w.db.cursors == map[0 := 0, 1 := 0]
            && s.b in w.sessions && FreshIds(w.db, 0, 1)
  {
  }

  lemma CursorAdvances()
    ensures Advance(map[0 := 0, 1 := 0], 0, AHEAD) == map[0 := AHEAD, 1 := 0]
  {
  }

  /**
   A delivery of the very first message waits, in a sound world reached from empty tables:
   whatever starts from such a world can happen.
   */
  lemma DeliveryWaits(s: Setting) returns (w: World)
    requires s.a != s.b
    ensures Taken(Initial(s.handles, s.hosts), FirstSteps(s) + [ReadStep(s)]) == Some(w)
    ensures Sound(w) && IsWaiting(w, 1) && w.workers == map[] && w.db.deliveries[1].signed.None?
    ensures w.db.registry == Pair(s.a, s.b, IDS) && w.db.cursors == map[0 := AHEAD, 1 := 0]
  {
    var received := Received(s);
    ReceivedIsSound(s);
    WrittenIsEnabled(s);
    w := Next(received, ReadStep(s));
    NextKeepsSound(received, ReadStep(s));
    ReadInputIsOk(received, ReadStep(s));
    WrittenInput(s);
    PairFindsRoute(s, InputOf(ReadStep(s)));
    ReceivedTables(s);
    CursorAdvances();
    CreatedWaits(received, InputOf(ReadStep(s)), 1);
    PairReceives(s);
    TakenThen(Initial(s.handles, s.hosts), FirstSteps(s), ReadStep(s));
  }

  // ---------------------------------------------------------------- the cursor falls

  lemma MoveIsAccepted(s: Setting)
    requires s.a != s.b
    ensures MovesChannel(Pair(s.a, s.b, IDS), SettingsOp(s.a, ON_X), 0)
  {
    var eps := Pair(s.a, s.b, IDS).endpoints;
    assert IsOrdinary(eps, 0, s.a);
    assert ListedRows(eps, s.a, []) == {};
  }

  /**
   A cursor can fall: the message was written by a clock that is as far ahead as is allowed,
   and the inbox is moved to another channel at the time at which it was read.
   */
  lemma CursorMayFall(s: Setting) returns (w: World, moved: World)
    requires s.a != s.b
    ensures var steps := FirstSteps(s) + [ReadStep(s)];
            && Taken(Initial(s.handles, s.hosts), steps) == Some(w)
            && Taken(Initial(s.handles, s.hosts), steps + [Change(SettingsOp(s.a, ON_X), 0)]) == Some(moved)
    ensures w.db.cursors == map[0 := AHEAD, 1 := 0] && 0 in moved.db.cursors && moved.db.cursors[0] < AHEAD
  {
    var step := Change(SettingsOp(s.a, ON_X), 0);
    w := DeliveryWaits(s);
    MoveIsAccepted(s);
    CursorFallsIff(w, step, 0);
    moved := Next(w, step);
    TakenThen(Initial(s.handles, s.hosts), FirstSteps(s) + [ReadStep(s)], step);
  }
}
