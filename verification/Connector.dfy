/**
 The connector: live sessions over the store and the relays. Its methods are
 sequences of awaited calls, and each call is one step of the network; the ghost
 field `world` is the state of the network that the real fields show.
 */
module Connector {
  import opened Wrappers
  import opened Nostr
  import opened Addressing
  import opened Commands
  import opened Bridge
  import opened Hub
  import opened Slugs
  import opened Tables
  import opened Database
  import opened Network
  import opened NetworkInvariant
  import opened NetworkSteps
  import opened NetworkProof
  import opened NetworkSerial

  // ---------------------------------------------------------------- one run, from its start to its end

  /** The environment's answers, cut to what a relay can answer truthfully. */
  function Honest(w: World, id: nat, o: Oracle): (honest: Oracle)
    requires id in w.workers
    ensures OracleIsHonest(w, id, honest)
  {
    var phase := w.workers[id].phase;
    if !phase.Publishing? then o
    else
      o.(acked := o.acked && o.stored,
         found := o.found && (o.stored || (phase.ctx.destinationCommunity, phase.event) in w.relay))
  }

  ghost function Call(w: World, id: nat, o: Oracle): World
    requires id in w.workers
  {
    Work(w, id, Honest(w, id, o))
  }

  /** The world after one run made all its calls with nothing in between. */
  ghost function RunOut(w: World, id: nat, o: Oracle): (end: World)
    requires id in w.workers
    ensures id in end.workers && !IsActive(end.workers[id])
    decreases CallsLeft(w.workers[id].phase)
  {
    if !IsActive(w.workers[id]) then w
    else
      CallsLeftFalls(w, id, Honest(w, id, o));
      RunOut(Call(w, id, o), id, o)
  }

  lemma OneCall(w: World, id: nat, o: Oracle)
    requires id in w.workers && IsActive(w.workers[id])
    ensures id in Call(w, id, o).workers
    ensures RunOut(w, id, o) == RunOut(Call(w, id, o), id, o)
  {
    CallsLeftFalls(w, id, Honest(w, id, o));
  }

  /** Running out is a run of the network: the invariants are kept. */
  lemma {:induction false} RunOutKeepsSound(w: World, id: nat, o: Oracle)
    requires Sound(w) && SerialOk(w) && id in w.workers
    ensures Sound(RunOut(w, id, o)) && SerialOk(RunOut(w, id, o))
    decreases CallsLeft(w.workers[id].phase)
  {
    if IsActive(w.workers[id]) {
      var step := Proceed(id, Honest(w, id, o));
      NextKeepsSound(w, step);
      NextKeepsSerial(w, step);
      CallsLeftFalls(w, id, Honest(w, id, o));
      RunOutKeepsSound(Call(w, id, o), id, o);
    }
  }

  function Begun(w: World, id: nat, delivery: Uuid, retryCount: nat): World {
    w.(workers := w.workers[id := Worker(delivery, retryCount, Starting)])
  }

  // ---------------------------------------------------------------- the last run

  /** While nobody closes the session, the key that the run is to sign with is not wiped. */
  predicate KeyIsLive(w: World, worker: Worker) {
    match worker.phase
    case Marking(ctx, session) => SessionIsLive(w, ctx.destinationCommunity, session)
    case Projecting(ctx, session) => SessionIsLive(w, ctx.destinationCommunity, session)
    case Threw(fault) => fault != KeyWiped
    case _ => true
  }

  lemma CallKeepsKey(w: World, id: nat, o: Oracle)
    requires id in w.workers && KeyIsLive(w, w.workers[id])
    ensures id in Work(w, id, o).workers && KeyIsLive(Work(w, id, o), Work(w, id, o).workers[id])
  {
  }

  lemma {:induction false} RunOutKeepsKey(w: World, id: nat, o: Oracle)
    requires id in w.workers && KeyIsLive(w, w.workers[id])
    ensures KeyIsLive(RunOut(w, id, o), RunOut(w, id, o).workers[id])
    decreases CallsLeft(w.workers[id].phase)
  {
    if IsActive(w.workers[id]) {
      CallKeepsKey(w, id, Honest(w, id, o));
      CallsLeftFalls(w, id, Honest(w, id, o));
      RunOutKeepsKey(Call(w, id, o), id, o);
    }
  }

  /**
   The ninth run, if nothing else touches the delivery or its session meanwhile, always
   returns, and leaves the delivery delivered, failed or cancelled whatever the relay
   answers.
   */
  lemma LastRunSettles(w: World, id: nat, delivery: Uuid, o: Oracle)
    requires Sound(w) && SerialOk(w) && id !in w.workers && IsQueued(w.db, delivery)
    requires IsSerialStep(w, Begin(id, delivery, RETRY_LIMIT))
    ensures var end := RunOut(Begun(w, id, delivery, RETRY_LIMIT), id, o);
            && end.workers[id].phase == Returned
            && delivery in end.db.deliveries && IsTerminal(end.db.deliveries[delivery].state)
  {
    BeginsSound(w, id, delivery);
    LastRunEnds(Begun(w, id, delivery, RETRY_LIMIT), id, o);
  }

  lemma BeginsSound(w: World, id: nat, delivery: Uuid)
    requires Sound(w) && SerialOk(w) && id !in w.workers && IsQueued(w.db, delivery)
    requires IsSerialStep(w, Begin(id, delivery, RETRY_LIMIT))
    ensures Sound(Begun(w, id, delivery, RETRY_LIMIT)) && SerialOk(Begun(w, id, delivery, RETRY_LIMIT))
  {
    var step := Begin(id, delivery, RETRY_LIMIT);
    NextKeepsSound(w, step);
    NextKeepsSerial(w, step);
  }

  lemma FitsAtEnd(w: World, id: nat, o: Oracle)
    requires Sound(w) && SerialOk(w) && id in w.workers
    ensures WorkerFits(RunOut(w, id, o).db, RunOut(w, id, o).workers[id])
  {
    RunOutKeepsSound(w, id, o);
  }

  lemma LastRunEnds(w: World, id: nat, o: Oracle)
    requires Sound(w) && SerialOk(w) && id in w.workers && IsLastAttempt(w.workers[id]) && KeyIsLive(w, w.workers[id])
    ensures var end := RunOut(w, id, o);
            && end.workers[id].phase == Returned
            && w.workers[id].delivery in end.db.deliveries
            && IsTerminal(end.db.deliveries[w.workers[id].delivery].state)
  {
    FitsAtEnd(w, id, o);
    RunOutKeepsKey(w, id, o);
    RunOutKeepsJob(w, id, o);
    var end := RunOut(w, id, o);
    EndedIsSettled(end.db, end.workers[id]);
  }

  lemma EndedIsSettled(db: Db, worker: Worker)
    requires WorkerFits(db, worker) && !IsActive(worker) && IsLastAttempt(worker) && worker.phase != Threw(KeyWiped)
    ensures worker.phase == Returned && IsTerminal(db.deliveries[worker.delivery].state)
  {
  }

  lemma {:induction false} RunOutKeepsJob(w: World, id: nat, o: Oracle)
    requires id in w.workers
    ensures RunOut(w, id, o).workers[id].delivery == w.workers[id].delivery
    ensures RunOut(w, id, o).workers[id].retryCount == w.workers[id].retryCount
    decreases CallsLeft(w.workers[id].phase)
  {
    if IsActive(w.workers[id]) {
      CallsLeftFalls(w, id, Honest(w, id, o));
      RunOutKeepsJob(Call(w, id, o), id, o);
    }
  }

  /** How a delivery attempt leaves its run: ended, thrown, or with the event on the relay. */
  datatype Attempted = Settled | Thrown(fault: Fault) | Published(event: Event)

  function AfterAttempt(ctx: Context, outcome: Attempted): Phase {
    match outcome
    case Settled => Returned
    case Thrown(fault) => Threw(fault)
    case Published(event) => Completing(ctx, event)
  }

  function HintText(slug: string): string {
    "buzzrouter: @"
    + (slug + " messaged you here. Type \"/open " + slug + "\" for a direct channel \U{2014} no tags.")
  }

  /** The announcement that a run owes: of the hint it newly claimed for its inbox and sender, or of nothing. */
  ghost function NewHint(before: Db, ended: Db, context: Option<Context>, now: int, stored: bool): Option<Step> {
    if context.None? then None
    else
      var ctx := context.value;
      var claim := (ctx.destination, ctx.sourceCommunity);
      if claim in ended.hints && claim !in before.hints then
        Some(Announce(Hint(claim.0, claim.1), Notice(ctx.destinationChannel, "hint", HintText(ctx.sourceSlug)), now,
                      stored))
      else None
  }

  lemma OnlyHintsMatter(before: Db, mid: Db, ended: Db, context: Option<Context>, now: int, stored: bool)
    requires mid.hints == before.hints
    ensures NewHint(mid, ended, context, now, stored) == NewHint(before, ended, context, now, stored)
    ensures ended.hints == mid.hints ==> NewHint(before, ended, context, now, stored) == None
  {
  }

  /** After a run that newly claimed a hint comes its announcement, and nothing after any other. */
  ghost predicate FollowsUp(ended: World, after: World, hint: Option<Step>) {
    if hint.None? then after == ended
    else Enabled(ended, hint.value) && after == Next(ended, hint.value)
  }

  // ---------------------------------------------------------------- reading

  /** A received event, with what the environment answers while it is handled. */
  datatype Reading = Reading(
    community: CommunityId, event: Event, verified: bool, now: int,
    messageId: Uuid, first: Uuid, name: Option<string>, digits: string,
    isMember: Option<bool>, handOff: Option<string>, channelName: string, endpoint: EndpointId,
    listing: string, stored: bool)

  // ---------------------------------------------------------------- what notices say

  function UndeliverableNotice(slug: string, user: Option<string>): string {
    if user.None? then
      "BuzzRouter: not delivered to @" + (slug + " \U{2014} no connected community has that name.")
    else
      "BuzzRouter: not delivered to @"
      + (slug + "/" + user.value + " \U{2014} @" + slug + " is connected, but nobody there is named "
         + user.value + ".")
  }

  function UndeliverableReason(user: Option<string>): string {
    if user.None? then "unknown-destination" else "unknown-user"
  }

  function UnknownPeer(slug: string): string {
    "BuzzRouter: no connected community named " + (slug + ".")
  }

  const NOT_CONNECTED := "BuzzRouter: " + "this community is not fully connected, so a direct channel cannot be opened."
  const NOT_COMPLETED := "BuzzRouter: " + "that command could not be completed \U{2014} try again."
  const WHICH_CHANNEL := "BuzzRouter: " + "/close needs a community name, or use it inside a direct channel."

  function OwnCommunity(slug: string): string {
    "BuzzRouter: " + (slug + " is this community.")
  }

  function ChannelOpened(name: string): string {
    "Opened #" + (name + " \U{2014} talk here, no tags.")
  }

  function ChannelClosed(slug: string): string {
    "Closed the direct channel with @" + (slug + " \U{2014} messages fall back to your inbox.")
  }

  function NothingToClose(slug: Option<string>): string {
    if slug.None? then "BuzzRouter: " + "there is no open direct channel here to close."
    else "BuzzRouter: no open direct channel with " + (slug.value + " to close.")
  }

  /** No notice can be taken for a command or an address. */
  lemma HintOpensPlainly(slug: string)
    ensures OpensPlainly(HintText(slug))
  {
    assert HintText(slug)[0] == 'b';
  }

  lemma BounceOpensPlainly(slug: string, user: Option<string>)
    ensures OpensPlainly(UndeliverableNotice(slug, user))
  {
    assert UndeliverableNotice(slug, user)[0] == 'B';
  }

  lemma OpenRepliesPlainly(slug: string)
    ensures OpensPlainly(UnknownPeer(slug)) && OpensPlainly(OwnCommunity(slug))
  {
    assert UnknownPeer(slug)[0] == 'B' && OwnCommunity(slug)[0] == 'B';
  }

  lemma ChangeRepliesPlainly(name: string)
    ensures OpensPlainly(ChannelOpened(name)) && OpensPlainly(ChannelClosed(name))
  {
    assert ChannelOpened(name)[0] == 'O' && ChannelClosed(name)[0] == 'C';
  }

  lemma NothingRepliesPlainly(slug: Option<string>)
    ensures OpensPlainly(NothingToClose(slug))
  {
    assert NothingToClose(slug)[0] == 'B';
  }

  lemma FixedRepliesPlainly(listing: string)
    ensures OpensPlainly(NOT_CONNECTED) && OpensPlainly(NOT_COMPLETED) && OpensPlainly(WHICH_CHANNEL)
    ensures OpensPlainly("BuzzRouter\n" + listing)
  {
    assert NOT_CONNECTED[0] == 'B' && NOT_COMPLETED[0] == 'B' && WHICH_CHANNEL[0] == 'B';
    assert ("BuzzRouter\n" + listing)[0] == 'B';
  }

  // ---------------------------------------------------------------- what handling an event comes to

  function Key(route: Route, event: Event): SourceEvent {
    (route.endpoint, IdOf(event))
  }

  ghost predicate ResolvesToAnother(db: Db, slug: string, community: CommunityId) {
    exists c :: c != community && ResolvesTo(db, slug, c)
  }

  /** The transactions of `/open` and the claim that the channel is open, or a reason not to make them. */
  ghost predicate Opens(db: Db, read: Reading, slug: string, peer: Option<CommunityId>, changes: seq<Step>,
                        reply: string)
  {
    match peer
    case Some(p) =>
      && reply == ChannelOpened(read.channelName)
      && read.handOff.Some? && ResolvesTo(db, slug, p) && CanOpen(db.registry, read.community, p)
      && changes == Changes(OpenOps(db.registry, read.community, p, read.handOff.value, read.endpoint), read.now)
    case None =>
      && changes == []
      && (|| (reply == NOT_CONNECTED && !IsMember(db.registry.endpoints, read.community))
          || (IsMember(db.registry.endpoints, read.community)
              && (|| (reply == UnknownPeer(slug) && ResolvesToNone(db, slug))
                  || (reply == OwnCommunity(slug) && ResolvesTo(db, slug, read.community))
                  || (reply == NOT_COMPLETED && read.handOff.None? && ResolvesToAnother(db, slug, read.community)))))
  }

  function Changes(ops: seq<HubOp>, now: int): (steps: seq<Step>)
    ensures |steps| == |ops|
  {
    if ops == [] then [] else Changes(ops[..|ops| - 1], now) + [Change(ops[|ops| - 1], now)]
  }

  /** The peer that a `/close` means: the one the channel is bound to, or the one named. */
  ghost predicate IsClosable(db: Db, community: CommunityId, route: Route, slug: Option<string>,
                             found: Option<CommunityId>)
  {
    if slug.None? then found == route.dedicatedTo
    else if found.Some? then IsMember(db.registry.endpoints, community) && ResolvesTo(db, slug.value, found.value)
    else !IsMember(db.registry.endpoints, community) || ResolvesToNone(db, slug.value)
  }

  /** The update of `/close`, with what is said when the channel was on, was off, or is not to be found. */
  ghost predicate Closes(db: Db, read: Reading, route: Route, slug: Option<string>, peer: Option<CommunityId>,
                         changes: seq<Step>, reply: string)
  {
    && IsClosable(db, read.community, route, slug, peer)
    && match peer
       case Some(p) =>
         && changes == [Change(CloseOp(read.community, p), read.now)]
         && reply == if HasFlow(db.registry.endpoints, read.community, p, true) then
                       ChannelClosed(HandleOf(db.handles, db.hosts, p))
                     else NothingToClose(slug)
       case None => changes == [] && reply == if slug.None? then WHICH_CHANNEL else UnknownPeer(slug.value)
  }

  /** What a command changes and answers, for the peer that it means. */
  ghost predicate Does(db: Db, read: Reading, route: Route, command: Command, peer: Option<CommunityId>,
                       changes: seq<Step>, reply: string)
  {
    match command
    case Open(slug) => Opens(db, read, slug, peer, changes, reply)
    case Close(slug) => Closes(db, read, route, slug, peer, changes, reply)
    case List => changes == [] && reply == "BuzzRouter\n" + read.listing
    case Usage(message) => changes == [] && reply == message
  }

  /** The part of an outcome that the event alone does not decide. */
  datatype Choice = Choice(resolved: Option<CommunityId>, peer: Option<CommunityId>, changes: seq<Step>, reply: string)

  function BounceSteps(db: Db, read: Reading, route: Route, slug: string, user: Option<string>): seq<Step> {
    var key := Key(route, read.event);
    [ReadUnroutable(route, read.event, read.verified, read.now)]
    + if key in db.notices then []
      else [Announce(Bounce(key.0, key.1),
                     Notice(route.localChannel, UndeliverableReason(user), UndeliverableNotice(slug, user)),
                     read.now, read.stored)]
  }

  function CommandSteps(db: Db, read: Reading, route: Route, changes: seq<Step>, reply: string): seq<Step> {
    [ReadCommand(route, read.event)]
    + if Key(route, read.event) in db.commands then [] else changes + [AnswerStep(read, route, reply)]
  }

  function AnswerStep(read: Reading, route: Route, reply: string): Step {
    Announce(Answer(route.endpoint, IdOf(read.event)), Notice(route.localChannel, "command", reply), read.now,
             read.stored)
  }

  function IngestStep(read: Reading, route: Route, resolved: CommunityId): Step {
    ReadMessage(route, read.event, read.verified, read.now, resolved, read.messageId, read.first, read.name,
                read.digits)
  }

  function AddressedSteps(db: Db, read: Reading, route: Route, slug: string, user: Option<string>,
                          resolved: Option<CommunityId>): seq<Step>
  {
    if resolved.None? then BounceSteps(db, read, route, slug, None)
    else if user.Some? && read.isMember == Some(false) then
      BounceSteps(db, read, route, HandleOf(db.handles, db.hosts, resolved.value), user)
    else [IngestStep(read, route, resolved.value)]
  }

  /** All that handling an event does on its route, step by step. */
  function RouteSteps(db: Db, read: Reading, route: Route, choice: Choice): seq<Step> {
    if IsCommandFor(read.event, route) then CommandSteps(db, read, route, choice.changes, choice.reply)
    else MessageSteps(db, read, route, Canonicalize(read.event, route, read.verified, read.now), choice.resolved)
  }

  function MessageSteps(db: Db, read: Reading, route: Route, canonical: Canonical, resolved: Option<CommunityId>)
    : seq<Step>
  {
    match canonical
    case Ignored => []
    case Refused(_) => []
    case Routed(_, Bound(peer), _) => [IngestStep(read, route, peer)]
    case Routed(_, Addressed(slug, user), _) => AddressedSteps(db, read, route, slug, user, resolved)
  }

  function EventSteps(w: World, read: Reading, choice: Choice): seq<Step> {
    var found := RouteOf(w, read.community, read.event);
    if found.None? then []
    else [Receive(read.community, read.event)] + RouteSteps(w.db, read, found.value, choice)
  }

  /** The choice fits the tables: what the handle resolves to, and what the command means and changes. */
  ghost predicate FitsRoute(db: Db, read: Reading, route: Route, choice: Choice) {
    if IsCommandFor(read.event, route) then
      Key(route, read.event) !in db.commands ==>
        && OpensPlainly(choice.reply)
        && Does(db, read, route, ParseCommand(read.event.content).value, choice.peer, choice.changes,
                choice.reply)
    else FitsMessage(db, Canonicalize(read.event, route, read.verified, read.now), choice.resolved)
  }

  ghost predicate FitsMessage(db: Db, canonical: Canonical, resolved: Option<CommunityId>) {
    match canonical
    case Routed(_, Addressed(slug, _), _) =>
      IsResolved(db, slug, resolved)
    case _ => true
  }

  ghost predicate Fits(w: World, read: Reading, choice: Choice) {
    var found := RouteOf(w, read.community, read.event);
    found.Some? ==> FitsRoute(w.db, read, found.value, choice)
  }

  // ---------------------------------------------------------------- where answers go

  lemma {:induction false} ChangesOnly(ops: seq<HubOp>, now: int, i: nat)
    requires i < |ops|
    ensures Changes(ops, now)[i].Change?
  {
    if i < |ops| - 1 {
      ChangesOnly(ops[..|ops| - 1], now, i);
    }
  }

  lemma DoesOnlyChange(db: Db, read: Reading, route: Route, command: Command, peer: Option<CommunityId>,
                       changes: seq<Step>, reply: string, i: nat)
    requires Does(db, read, route, command, peer, changes, reply) && i < |changes|
    ensures changes[i].Change?
  {
    if command.Open? && peer.Some? {
      ChangesOnly(OpenOps(db.registry, read.community, peer.value, read.handOff.value, read.endpoint), read.now, i);
    }
  }

  /** The step announces an answer to this event, at this endpoint and in this channel. */
  predicate AnswersIn(step: Step, endpoint: EndpointId, channel: string, event: Event) {
    && step.Announce? && step.notice.channel == channel
    && (step.cause == Bounce(endpoint, IdOf(event)) || step.cause == Answer(endpoint, IdOf(event)))
  }

  ghost predicate AllAnswerIn(steps: seq<Step>, endpoint: EndpointId, channel: string, event: Event) {
    forall i | 0 <= i < |steps| && steps[i].Announce? :: AnswersIn(steps[i], endpoint, channel, event)
  }

  lemma QuietThen(first: Step, rest: seq<Step>, endpoint: EndpointId, channel: string, event: Event)
    requires !first.Announce? && AllAnswerIn(rest, endpoint, channel, event)
    ensures AllAnswerIn([first] + rest, endpoint, channel, event)
  {
  }

  lemma CommandAnswers(db: Db, read: Reading, route: Route, changes: seq<Step>, reply: string)
    requires Key(route, read.event) !in db.commands ==> forall k | 0 <= k < |changes| :: changes[k].Change?
    ensures AllAnswerIn(CommandSteps(db, read, route, changes, reply), route.endpoint, route.localChannel, read.event)
  {
  }

  lemma MessageAnswers(db: Db, read: Reading, route: Route, canonical: Canonical, resolved: Option<CommunityId>)
    ensures AllAnswerIn(MessageSteps(db, read, route, canonical, resolved), route.endpoint, route.localChannel,
                        read.event)
  {
  }

  lemma RouteAnswers(db: Db, read: Reading, route: Route, choice: Choice)
    requires FitsRoute(db, read, route, choice)
    ensures AllAnswerIn(RouteSteps(db, read, route, choice), route.endpoint, route.localChannel, read.event)
  {
    if IsCommandFor(read.event, route) {
      if Key(route, read.event) !in db.commands {
        forall k | 0 <= k < |choice.changes| ensures choice.changes[k].Change? {
          DoesOnlyChange(db, read, route, ParseCommand(read.event.content).value, choice.peer, choice.changes,
                         choice.reply, k);
        }
      }
      CommandAnswers(db, read, route, choice.changes, choice.reply);
    } else {
      MessageAnswers(db, read, route, Canonicalize(read.event, route, read.verified, read.now), choice.resolved);
    }
  }

  /**
   Whatever is said in answer to an event is said in the channel that the event names, at
   an endpoint of the community on whose relay it was read, and under that event's claim.
   */
  lemma AnswersComeBack(w: World, read: Reading, choice: Choice)
    requires SessionsOk(w) && Fits(w, read, choice) && RouteOf(w, read.community, read.event).Some?
    ensures exists endpoint, channel ::
              && AllAnswerIn(EventSteps(w, read, choice), endpoint, channel, read.event)
              && FirstValue(read.event.tags, "h") == Some(Field.Text(channel))
              && endpoint in w.db.registry.endpoints && w.db.registry.endpoints[endpoint].community == read.community
  {
    var route := RouteOf(w, read.community, read.event).value;
    RouteOfIsOk(w, read.community, read.event);
    RouteAnswers(w.db, read, route, choice);
    QuietThen(Receive(read.community, read.event), RouteSteps(w.db, read, route, choice), route.endpoint,
              route.localChannel, read.event);
  }

  /** And an event that no route carries is answered by nothing. */
  lemma UnroutedIsSilent(w: World, read: Reading, choice: Choice)
    requires RouteOf(w, read.community, read.event).None?
    ensures EventSteps(w, read, choice) == []
  {
  }

  /** A hint goes to the delivery's own inbox, for the community it came from, and tells how to open a channel to it. */
  lemma HintFitsDelivery(before: Db, ended: Db, d: Uuid, now: int, stored: bool)
    requires NewHint(before, ended, GetContext(before, d), now, stored).Some?
    ensures Joins(before, d)
    ensures var hint := NewHint(before, ended, GetContext(before, d), now, stored).value;
            var at, from := before.deliveries[d].destination, before.registry.endpoints[SourceOf(before, d)].community;
            && hint.Announce? && hint.cause == Hint(at, from)
            && hint.notice.channel == before.registry.endpoints[at].localChannel
            && exists lead: string, more: string ::
                 hint.notice.text == lead + ("/open " + HandleOf(before.handles, before.hosts, from)) + more
  {
    var slug := HandleOf(before.handles, before.hosts, before.registry.endpoints[SourceOf(before, d)].community);
    HintTellsCommand(slug);
  }

  lemma HintTellsCommand(slug: string)
    ensures exists lead: string, more: string :: HintText(slug) == lead + ("/open " + slug) + more
  {
    var told, lead := " messaged you here. Type \"", "buzzrouter: @" + slug;
    var more := "\" for a direct channel \U{2014} no tags.";
    TypeOpen();
    HintParts("buzzrouter: @", slug, told, "/open ", more);
    assert HintText(slug) == (lead + told) + ("/open " + slug) + more;
  }

  lemma TypeOpen()
    ensures " messaged you here. Type \"/open " == " messaged you here. Type \"" + "/open "
  {
  }

  lemma HintParts(at: string, slug: string, told: string, verb: string, more: string)
    ensures at + (slug + (told + verb) + slug + more) == ((at + slug) + told) + (verb + slug) + more
  {
  }

  /** What a hint tells to type opens the channel to the community that it names. */
  lemma ToldCommandOpens(slug: string)
    requires ValidSlug(slug)
    ensures ParseCommand("/open " + slug) == Some(Open(slug))
  {
    ValidSlugIsLower(slug);
    CommandRoundTrip(slug);
    assert "/open" + " " == "/open ";
  }

  lemma DoesTheSame(db: Db, db': Db, read: Reading, route: Route, command: Command, peer: Option<CommunityId>,
                    changes: seq<Step>, reply: string)
    requires Does(db, read, route, command, peer, changes, reply)
    requires db'.registry == db.registry && db'.handles == db.handles && db'.hosts == db.hosts
    ensures Does(db', read, route, command, peer, changes, reply)
  {
    assert forall slug, c :: ResolvesTo(db', slug, c) <==> ResolvesTo(db, slug, c);
  }

  lemma Regrouped(a: seq<Step>, b: seq<Step>, c: seq<Step>)
    ensures (a + b) + c == a + (b + c) && a + [] == a && b + [] == b
  {
  }

  lemma ThreeChanges(steps: seq<Step>, first: HubOp, second: HubOp, third: HubOp, now: int)
    ensures steps + [Change(first, now)] + [Change(second, now)] == steps + Changes([first, second] + [], now)
    ensures steps + [Change(first, now)] + [Change(second, now)] + [Change(third, now)]
         == steps + Changes([first, second] + [third], now)
  {
    assert [first, second] + [] == [first, second] && [first, second] + [third] == [first, second, third];
    assert [first, second, third][..2] == [first, second] && [first, second][..1] == [first] && [first][..0] == [];
    assert Changes([first, second], now) == [Change(first, now), Change(second, now)];
    assert Changes([first, second, third], now) == [Change(first, now), Change(second, now), Change(third, now)];
  }

  /** A message that was read may be ingested for any peer, and one that names a handle may be bounced. */
  lemma StepsAreEnabled(w: World, read: Reading, route: Route)
    requires (route, read.event) in w.received && IsRoutable(read.event, route, read.verified, read.now)
    requires FreshIds(w.db, read.messageId, read.first)
    ensures forall c :: Enabled(w, IngestStep(read, route, c))
    ensures Canonicalize(read.event, route, read.verified, read.now).destination.Addressed? ==>
              Enabled(w, ReadUnroutable(route, read.event, read.verified, read.now))
  {
  }

  lemma IngestEffect(w: World, read: Reading, route: Route, resolved: CommunityId)
    requires Enabled(w, IngestStep(read, route, resolved))
    ensures var w' := Next(w, IngestStep(read, route, resolved));
            var input := MessageInput(route, read.event, Canonicalize(read.event, route, read.verified, read.now),
                                      resolved, read.messageId, read.name, read.digits);
            && w'.db == Ingest(w.db, input, read.first).db && w'.relay == w.relay && w'.sessions == w.sessions
  {
  }

  lemma AnnounceEffect(w: World, step: Step)
    requires step.Announce? && step.cause in w.pending && !step.cause.Mirror?
    requires step.cause.at in w.db.registry.endpoints && OpensPlainly(step.notice.text)
    ensures var w' := Next(w, step);
            var community := w.db.registry.endpoints[step.cause.at].community;
            && w'.db == w.db && w'.sessions == w.sessions
            && w'.relay == if step.stored then w.relay + {(community, NoticeEvent(community, step.notice, step.now))}
                           else w.relay
  {
  }

  /** Only the hub's rows and the cursors changed, as the operation says. */
  ghost predicate IsChange(db: Db, db': Db, op: HubOp, now: int) {
    db' == Changed(db, op, now)
  }

  class Supervisor {
    const store: Store
    var relay: set<(CommunityId, Event)>
    var sessions: map<CommunityId, Session>
    ghost var world: World

    ghost predicate Valid()
      reads this, store
    {
      store.Valid() && world.db == store.Tables() && world.relay == relay && world.sessions == sessions
    }

    constructor (handles: map<CommunityId, string>, hosts: map<CommunityId, string>)
      ensures Valid() && world == Initial(handles, hosts) && fresh(store)
    {
      store := new Store(handles, hosts);
      relay, sessions := {}, map[];
      world := Initial(handles, hosts);
    }

    ghost predicate At(id: nat, delivery: Uuid, retryCount: nat, phase: Phase)
      reads this`world
    {
      id in world.workers && world.workers[id] == Worker(delivery, retryCount, phase)
    }

    method ReadContext(ghost id: nat, delivery: Uuid, ghost retryCount: nat, ghost o: Oracle)
      returns (context: Option<Context>)
      requires Valid() && At(id, delivery, retryCount, Starting)
      modifies this`world
      ensures Valid() && At(id, delivery, retryCount, Decide(old(world), context))
      ensures context == GetContext(old(world).db, delivery)
      ensures RunOut(world, id, o) == RunOut(old(world), id, o) && world == Call(old(world), id, o)
    {
      context := store.GetBridgeDeliveryContext(delivery);
      OneCall(world, id, o);
      world := Call(world, id, o);
    }

    method Cancel(ghost id: nat, delivery: Uuid, ghost retryCount: nat, ghost o: Oracle)
      requires Valid() && At(id, delivery, retryCount, Cancelling)
      modifies this`world, store`deliveries
      ensures Valid() && At(id, delivery, retryCount, Returned)
      ensures RunOut(world, id, o) == RunOut(old(world), id, o) && world.pending == old(world).pending
    {
      store.CancelBridgeDelivery(delivery);
      OneCall(world, id, o);
      world := Call(world, id, o);
    }

    /** Notes the retry; the last attempt returns, every other one throws. */
    method NoteRetry(ghost id: nat, delivery: Uuid, retryCount: nat, code: string, ghost o: Oracle)
      returns (result: Result<(), Fault>)
      requires Valid() && At(id, delivery, retryCount, Retrying(code))
      modifies this`world, store`deliveries
      ensures Valid() && At(id, delivery, retryCount, if result.Success? then Returned else Threw(result.error))
      ensures RunOut(world, id, o) == RunOut(old(world), id, o) && world.pending == old(world).pending
    {
      store.MarkBridgeDeliveryRetry(delivery, code, retryCount >= RETRY_LIMIT);
      OneCall(world, id, o);
      world := Call(world, id, o);
      return if retryCount >= RETRY_LIMIT then Success(()) else Failure(Coded(code));
    }

    method MarkDelivering(ghost id: nat, delivery: Uuid, ghost retryCount: nat, ctx: Context, session: nat,
                          ghost o: Oracle)
      returns (marked: bool)
      requires Valid() && At(id, delivery, retryCount, Marking(ctx, session))
      modifies this`world, store`deliveries
      ensures Valid() && At(id, delivery, retryCount, if marked then Projecting(ctx, session) else Returned)
      ensures RunOut(world, id, o) == RunOut(old(world), id, o) && world.pending == old(world).pending
    {
      marked := store.MarkBridgeDeliveryDelivering(delivery);
      OneCall(world, id, o);
      world := Call(world, id, o);
    }

    /** The stored event, or a new projection signed with the session's key, unless the session was closed. */
    method SignProjection(ghost id: nat, ghost delivery: Uuid, ghost retryCount: nat, ctx: Context, session: nat,
                          o: Oracle)
      returns (projection: Result<Event, Fault>)
      requires Valid() && At(id, delivery, retryCount, Projecting(ctx, session))
      modifies this`world
      ensures Valid()
      ensures At(id, delivery, retryCount,
                 if projection.Success? then Persisting(ctx, projection.value) else Threw(projection.error))
      ensures RunOut(world, id, o) == RunOut(old(world), id, o) && world.pending == old(world).pending
    {
      if ctx.signed.Some? {
        projection := Success(ctx.signed.value);
      } else if ctx.destinationCommunity in sessions && sessions[ctx.destinationCommunity].id == session {
        projection := Success(Project(ctx, o.now));
      } else {
        projection := Failure(KeyWiped);
      }
      OneCall(world, id, o);
      world := Call(world, id, o);
    }

    method Persist(ghost id: nat, delivery: Uuid, ghost retryCount: nat, ctx: Context, projection: Event,
                   ghost o: Oracle)
      returns (event: Result<Event, string>)
      requires Valid() && At(id, delivery, retryCount, Persisting(ctx, projection))
      modifies this`world, store`deliveries
      ensures Valid()
      ensures At(id, delivery, retryCount,
                 if event.Success? then Checking(ctx, event.value) else Threw(Coded(event.error)))
      ensures RunOut(world, id, o) == RunOut(old(world), id, o) && world.pending == old(world).pending
    {
      event := store.PersistDestinationEvent(delivery, projection);
      OneCall(world, id, o);
      world := Call(world, id, o);
    }

    method CheckRoute(ghost id: nat, delivery: Uuid, ghost retryCount: nat, ctx: Context, event: Event, ghost o: Oracle)
      returns (active: bool)
      requires Valid() && At(id, delivery, retryCount, Checking(ctx, event))
      modifies this`world
      ensures Valid() && At(id, delivery, retryCount, if active then Publishing(ctx, event) else Cancelling)
      ensures RunOut(world, id, o) == RunOut(old(world), id, o) && world.pending == old(world).pending
    {
      active := store.IsBridgeDeliveryRouteActive(delivery);
      OneCall(world, id, o);
      world := Call(world, id, o);
    }

    /** Publishes, and on a failure asks whether the relay has the event after all. */
    method Publish(ghost id: nat, ghost delivery: Uuid, ghost retryCount: nat, ctx: Context, event: Event, o: Oracle)
      returns (published: bool)
      requires Valid() && At(id, delivery, retryCount, Publishing(ctx, event))
      modifies this`world, this`relay
      ensures Valid()
      ensures At(id, delivery, retryCount,
                 if published then Completing(ctx, event) else Retrying(o.code))
      ensures RunOut(world, id, o) == RunOut(old(world), id, o) && world.pending == old(world).pending
    {
      if o.stored {
        relay := relay + {(ctx.destinationCommunity, event)};
      }
      published := o.stored && o.acked;
      if !published {
        published := o.found && (ctx.destinationCommunity, event) in relay;
      }
      OneCall(world, id, o);
      world := Call(world, id, o);
    }

    method Complete(ghost id: nat, delivery: Uuid, ghost retryCount: nat, ctx: Context, event: Event, ghost o: Oracle)
      returns (error: Option<string>)
      requires Valid() && At(id, delivery, retryCount, Completing(ctx, event))
      modifies this`world, store`deliveries, store`mappings
      ensures Valid()
      ensures At(id, delivery, retryCount, if error.None? then Hinting(ctx) else Threw(Coded(error.value)))
      ensures RunOut(world, id, o) == RunOut(old(world), id, o) && world.pending == old(world).pending
    {
      error := store.CompleteBridgeDelivery(delivery, event);
      OneCall(world, id, o);
      world := Call(world, id, o);
    }

    method ClaimHint(ghost id: nat, ghost delivery: Uuid, ghost retryCount: nat, ctx: Context, ghost o: Oracle)
      returns (claimed: bool)
      requires Valid() && At(id, delivery, retryCount, Hinting(ctx))
      modifies this`world, store`hints
      ensures Valid() && At(id, delivery, retryCount, Returned)
      ensures RunOut(world, id, o) == RunOut(old(world), id, o)
      ensures var claim := (ctx.destination, ctx.sourceCommunity);
              claimed <==> claim !in old(store.hints) && claim in store.hints
      ensures claimed ==> Hint(ctx.destination, ctx.sourceCommunity) in world.pending
      ensures !claimed ==> world.pending == old(world).pending
    {
      claimed := store.ClaimDirectChannelHint(ctx.destination, ctx.sourceCommunity);
      OneCall(world, id, o);
      world := Call(world, id, o);
    }

    /** Marks, signs, stores, checks and publishes; absent an error the event is on the relay. */
    method Attempt(ghost id: nat, delivery: Uuid, retryCount: nat, ctx: Context, session: nat, o: Oracle)
      returns (outcome: Attempted)
      requires Valid() && At(id, delivery, retryCount, Marking(ctx, session))
      modifies this`world, this`relay, store`deliveries
      ensures Valid() && At(id, delivery, retryCount, AfterAttempt(ctx, outcome))
      ensures RunOut(world, id, o) == RunOut(old(world), id, o) && world.pending == old(world).pending
    {
      var marked := MarkDelivering(id, delivery, retryCount, ctx, session, o);
      if !marked {
        return Settled;
      }
      var projection := SignProjection(id, delivery, retryCount, ctx, session, o);
      if projection.Failure? {
        return Thrown(projection.error);
      }
      var event := Persist(id, delivery, retryCount, ctx, projection.value, o);
      if event.Failure? {
        return Thrown(Coded(event.error));
      }
      outcome := CheckAndPublish(id, delivery, retryCount, ctx, event.value, o);
    }

    method CheckAndPublish(ghost id: nat, delivery: Uuid, retryCount: nat, ctx: Context, event: Event, o: Oracle)
      returns (outcome: Attempted)
      requires Valid() && At(id, delivery, retryCount, Checking(ctx, event))
      modifies this`world, this`relay, store`deliveries
      ensures Valid() && At(id, delivery, retryCount, AfterAttempt(ctx, outcome))
      ensures RunOut(world, id, o) == RunOut(old(world), id, o) && world.pending == old(world).pending
    {
      var active := CheckRoute(id, delivery, retryCount, ctx, event, o);
      if !active {
        Cancel(id, delivery, retryCount, o);
        return Settled;
      }
      var published := Publish(id, delivery, retryCount, ctx, event, o);
      if !published {
        var noted := NoteRetry(id, delivery, retryCount, o.code, o);
        return if noted.Success? then Settled else Thrown(noted.error);
      }
      return Published(event);
    }

    /** The hint is claimed before it is published, and a hint that fails to publish is not repeated. */
    method HintDirectChannel(ghost id: nat, ghost delivery: Uuid, ghost retryCount: nat, ctx: Context, o: Oracle,
                             stored: bool)
      returns (ghost ended: World, ghost hint: Option<Step>)
      requires Valid() && At(id, delivery, retryCount, Hinting(ctx)) && ctx.destination in world.db.registry.endpoints
      modifies this`world, this`relay, store`hints
      ensures Valid() && ended == RunOut(old(world), id, o) && id in ended.workers
      ensures ended.workers[id].phase == Returned
      ensures hint == NewHint(old(world).db, ended.db, Some(ctx), o.now, stored) && FollowsUp(ended, world, hint)
    {
      var claimed := ClaimHint(id, delivery, retryCount, ctx, o);
      ended, hint := world, None;
      if claimed {
        var notice := Notice(ctx.destinationChannel, "hint", HintText(ctx.sourceSlug));
        HintOpensPlainly(ctx.sourceSlug);
        SendNotice(Hint(ctx.destination, ctx.sourceCommunity), notice, o.now, stored);
        hint := Some(Announce(Hint(ctx.destination, ctx.sourceCommunity), notice, o.now, stored));
      }
    }

    /** Hands a notice that is owed to the endpoint's own relay; a failure is swallowed. */
    method SendNotice(cause: Cause, notice: Notice, now: int, stored: bool)
      requires Valid() && cause in world.pending && !cause.Mirror? && OpensPlainly(notice.text)
      requires cause.at in world.db.registry.endpoints
      modifies this`world, this`relay
      ensures Valid() && Enabled(old(world), Announce(cause, notice, now, stored))
      ensures world == Next(old(world), Announce(cause, notice, now, stored))
    {
      var community := store.endpoints[cause.at].community;
      if stored {
        relay := relay + {(community, NoticeEvent(community, notice, now))};
      }
      AnnounceEffect(world, Announce(cause, notice, now, stored));
      world := Next(world, Announce(cause, notice, now, stored));
    }

    method Conclude(ghost id: nat, delivery: Uuid, ghost retryCount: nat, ctx: Context, event: Event, o: Oracle,
                    stored: bool)
      returns (result: Result<(), Fault>, ghost ended: World, ghost hint: Option<Step>)
      requires Valid() && At(id, delivery, retryCount, Completing(ctx, event))
      requires ctx.destination in world.db.registry.endpoints
      modifies this`world, this`relay, store`deliveries, store`mappings, store`hints
      ensures Valid() && ended == RunOut(old(world), id, o) && id in ended.workers
      ensures ended.workers[id].phase == if result.Success? then Returned else Threw(result.error)
      ensures hint == NewHint(old(world).db, ended.db, Some(ctx), o.now, stored) && FollowsUp(ended, world, hint)
    {
      ghost var before := world.db;
      var error := Complete(id, delivery, retryCount, ctx, event, o);
      ghost var mid := world.db;
      ended, hint := world, None;
      if error.Some? {
        result := Failure(Coded(error.value));
      } else {
        ended, hint := HintDirectChannel(id, delivery, retryCount, ctx, o, stored);
        result := Success(());
      }
      OnlyHintsMatter(before, mid, ended.db, Some(ctx), o.now, stored);
    }

    method Carry(delivery: Uuid, retryCount: nat, ctx: Context, session: nat, o: Oracle, stored: bool, ghost id: nat)
      returns (result: Result<(), Fault>, ghost ended: World, ghost hint: Option<Step>)
      requires Valid() && At(id, delivery, retryCount, Marking(ctx, session))
      requires ctx.destination in world.db.registry.endpoints
      modifies this`world, this`relay, store`deliveries, store`mappings, store`hints
      ensures Valid() && ended == RunOut(old(world), id, o) && id in ended.workers
      ensures ended.workers[id].phase == if result.Success? then Returned else Threw(result.error)
      ensures hint == NewHint(old(world).db, ended.db, Some(ctx), o.now, stored) && FollowsUp(ended, world, hint)
    {
      ghost var before := world.db;
      var outcome := Attempt(id, delivery, retryCount, ctx, session, o);
      ghost var mid := world.db;
      ended, hint := world, None;
      if outcome.Published? {
        result, ended, hint := Conclude(id, delivery, retryCount, ctx, outcome.event, o, stored);
      } else {
        result := if outcome.Settled? then Success(()) else Failure(outcome.fault);
      }
      OnlyHintsMatter(before, mid, ended.db, Some(ctx), o.now, stored);
    }

    /** Everything after the context was read. */
    method Dispatch(delivery: Uuid, retryCount: nat, ctx: Context, o: Oracle, stored: bool, ghost id: nat)
      returns (result: Result<(), Fault>, ghost ended: World, ghost hint: Option<Step>)
      requires Valid() && At(id, delivery, retryCount, Decide(world, Some(ctx))) && !IsTerminal(ctx.state)
      requires ctx.destination in world.db.registry.endpoints
      modifies this`world, this`relay, store`deliveries, store`mappings, store`hints
      ensures Valid() && ended == RunOut(old(world), id, o) && id in ended.workers
      ensures ended.workers[id].phase == if result.Success? then Returned else Threw(result.error)
      ensures hint == NewHint(old(world).db, ended.db, Some(ctx), o.now, stored) && FollowsUp(ended, world, hint)
    {
      ended, hint := RunOut(world, id, o), None;
      if !ctx.routeActive {
        Cancel(id, delivery, retryCount, o);
        return Success(()), ended, None;
      }
      if ctx.message.parentEvent.Some? && ctx.localParent.None? {
        result := NoteRetry(id, delivery, retryCount, "parent_mapping_missing", o);
        return;
      }
      if ctx.destinationCommunity !in sessions {
        result := NoteRetry(id, delivery, retryCount, "connector_unavailable", o);
        return;
      }
      result, ended, hint := Carry(delivery, retryCount, ctx, sessions[ctx.destinationCommunity].id, o, stored, id);
    }

    /**
     Delivers one queued delivery. Undisturbed, the call is exactly one run of the
     network from its start to its end, and throws exactly when that run does. The hint that
     the run newly claimed, for its own inbox and sender, is then published, once; without a
     new claim nothing is.
     */
    method Deliver(delivery: Uuid, retryCount: nat, o: Oracle, stored: bool, ghost id: nat)
      returns (result: Result<(), Fault>, ghost ended: World, ghost hint: Option<Step>)
      requires Valid() && id !in world.workers && IsQueued(world.db, delivery)
      modifies this`world, this`relay, store`deliveries, store`mappings, store`hints
      ensures Valid() && ended == RunOut(Begun(old(world), id, delivery, retryCount), id, o)
      ensures ended.workers[id].phase == if result.Success? then Returned else Threw(result.error)
      ensures hint == NewHint(old(world).db, ended.db, GetContext(old(world).db, delivery), o.now, stored)
      ensures FollowsUp(ended, world, hint)
    {
      world := Begun(world, id, delivery, retryCount);
      var context := ReadContext(id, delivery, retryCount, o);
      if context.None? || IsTerminal(context.value.state) {
        return Success(()), world, None;
      }
      result, ended, hint := Dispatch(delivery, retryCount, context.value, o, stored, id);
    }

    // -------------------------------------------------------------- reading source events

    /** Accounts for what was just done as one more step of the network. */
    ghost method Take(start: World, steps: seq<Step>, step: Step) returns (steps': seq<Step>)
      requires Taken(start, steps) == Some(world) && Enabled(world, step)
      modifies this`world
      ensures steps' == steps + [step] && world == Next(old(world), step) && Taken(start, steps') == Some(world)
    {
      steps' := steps + [step];
      TakenThen(start, steps, step);
      world := Next(world, step);
    }

    /** A hub operation that the store has carried out. */
    ghost method TakeChange(start: World, steps: seq<Step>, op: HubOp, now: int, db: Db) returns (steps': seq<Step>)
      requires Taken(start, steps) == Some(world) && world.db == db && IdsAreFresh(db.registry, op)
      requires store.Valid() && world.relay == relay && world.sessions == sessions
      requires IsChange(db, store.Tables(), op, now)
      modifies this`world
      ensures Valid() && Taken(start, steps') == Some(world)
      ensures steps' == steps + [Change(op, now)] && world.pending == old(world).pending
      ensures KeepsRows(old(world).db.registry.endpoints, world.db.registry.endpoints)
    {
      ApplyKeepsRows(db.registry, op);
      steps' := Take(start, steps, Change(op, now));
    }

    /** Publishes a claimed notice under the bridge's own key. */
    method PostNotice(cause: Cause, notice: Notice, now: int, stored: bool, ghost start: World, ghost steps: seq<Step>)
      returns (ghost steps': seq<Step>)
      requires Valid() && Taken(start, steps) == Some(world)
      requires (cause.Bounce? || cause.Answer?) && OpensPlainly(notice.text)
      requires cause in world.pending && cause.at in world.db.registry.endpoints
      modifies this`world, this`relay
      ensures Valid() && Taken(start, steps') == Some(world)
      ensures steps' == steps + [Announce(cause, notice, now, stored)]
    {
      TakenThen(start, steps, Announce(cause, notice, now, stored));
      SendNotice(cause, notice, now, stored);
      steps' := steps + [Announce(cause, notice, now, stored)];
    }

    method ClaimNotice(read: Reading, route: Route, ghost start: World, ghost steps: seq<Step>)
      returns (claimed: bool, ghost steps': seq<Step>)
      requires Valid() && Taken(start, steps) == Some(world)
      requires Enabled(world, ReadUnroutable(route, read.event, read.verified, read.now))
      modifies this`world, store`notices
      ensures Valid() && Taken(start, steps') == Some(world)
      ensures steps' == steps + [ReadUnroutable(route, read.event, read.verified, read.now)]
      ensures claimed <==> Key(route, read.event) !in old(world).db.notices
      ensures claimed ==> Bounce(route.endpoint, IdOf(read.event)) in world.pending
      ensures world.db.registry == old(world).db.registry
    {
      claimed := store.ClaimUndeliverableNotice(Key(route, read.event));
      steps' := Take(start, steps, ReadUnroutable(route, read.event, read.verified, read.now));
    }

    /** Tells the sender, once per event, that nothing was delivered. */
    method ReportUndeliverable(read: Reading, route: Route, slug: string, user: Option<string>,
                               ghost start: World, ghost steps: seq<Step>)
      returns (ghost steps': seq<Step>)
      requires Valid() && Taken(start, steps) == Some(world) && route.endpoint in world.db.registry.endpoints
      requires Enabled(world, ReadUnroutable(route, read.event, read.verified, read.now))
      modifies this`world, this`relay, store`notices
      ensures Valid() && Taken(start, steps') == Some(world)
      ensures steps' == steps + BounceSteps(old(world).db, read, route, slug, user)
    {
      var claimed;
      claimed, steps' := ClaimNotice(read, route, start, steps);
      if claimed {
        BounceOpensPlainly(slug, user);
        steps' := PostNotice(Bounce(route.endpoint, IdOf(read.event)),
                             Notice(route.localChannel, UndeliverableReason(user), UndeliverableNotice(slug, user)),
                             read.now, read.stored, start, steps');
      }
      Regrouped(steps, [ReadUnroutable(route, read.event, read.verified, read.now)],
                steps'[|steps| + 1..]);
    }

    method IngestMessage(read: Reading, route: Route, resolved: CommunityId, ghost start: World, ghost steps: seq<Step>)
      returns (ghost steps': seq<Step>)
      requires Valid() && Taken(start, steps) == Some(world) && Enabled(world, IngestStep(read, route, resolved))
      modifies this`world, store
      ensures Valid() && Taken(start, steps') == Some(world) && steps' == steps + [IngestStep(read, route, resolved)]
    {
      var canonical := Canonicalize(read.event, route, read.verified, read.now);
      var input := MessageInput(route, read.event, canonical, resolved, read.messageId, read.name, read.digits);
      var result := store.IngestBridgeMessage(input, read.first);
      IngestEffect(world, read, route, resolved);
      steps' := Take(start, steps, IngestStep(read, route, resolved));
    }

    // -------------------------------------------------------------- commands

    method ReserveChannel(community: CommunityId, peer: CommunityId, minted: string, now: int,
                          ghost start: World, ghost steps: seq<Step>)
      returns (channel: string, ghost steps': seq<Step>)
      requires Valid() && Taken(start, steps) == Some(world)
      modifies this`world, store`channels
      ensures Valid() && Taken(start, steps') == Some(world) && world.pending == old(world).pending
      ensures steps' == steps + [Change(ReserveOp(community, peer, minted), now)]
      ensures world.db.registry == Hub.ReserveChannel(old(world).db.registry, community, peer, minted)
      ensures (community, peer) in world.db.registry.channels
      ensures channel == world.db.registry.channels[(community, peer)]
    {
      ghost var db := store.Tables();
      channel := store.CreateDedicatedChannel(community, peer, minted);
      NoRestart(store.endpoints, store.endpoints, store.cursors, now);
      steps' := TakeChange(start, steps, ReserveOp(community, peer, minted), now, db);
    }

    method AttachChannel(community: CommunityId, peer: CommunityId, channel: string, id: EndpointId, now: int,
                         ghost start: World, ghost steps: seq<Step>)
      returns (bound: bool, ghost steps': seq<Step>)
      requires Valid() && Taken(start, steps) == Some(world) && id !in store.endpoints
      requires peer != community && IsMember(store.endpoints, peer)
      requires (community, peer) in store.channels && store.channels[(community, peer)] == channel
      modifies this`world, store`endpoints, store`cursors
      ensures Valid() && Taken(start, steps') == Some(world) && world.pending == old(world).pending
      ensures steps' == steps + [Change(AttachOp(community, peer, id), now)]
      ensures KeepsRows(old(world).db.registry.endpoints, world.db.registry.endpoints)
      ensures bound <==> Attachable(old(world).db.registry, community, peer, channel)
    {
      ghost var db := store.Tables();
      bound := store.AttachDedicatedPeerChannel(community, peer, channel, id, now);
      steps' := TakeChange(start, steps, AttachOp(community, peer, id), now, db);
    }

    method ReopenChannel(community: CommunityId, peer: CommunityId, now: int, ghost start: World,
                         ghost steps: seq<Step>)
      returns (ghost steps': seq<Step>)
      requires Valid() && Taken(start, steps) == Some(world)
      modifies this`world, store`endpoints
      ensures Valid() && Taken(start, steps') == Some(world) && world.pending == old(world).pending
      ensures steps' == steps + [Change(ReopenOp(community, peer), now)]
      ensures KeepsRows(old(world).db.registry.endpoints, world.db.registry.endpoints)
    {
      ghost var db := store.Tables();
      var reopened := store.ReopenDedicatedPeerChannel(community, peer);
      NoRestart(db.registry.endpoints, store.endpoints, db.cursors, now);
      steps' := TakeChange(start, steps, ReopenOp(community, peer), now, db);
    }

    /** The hand-off, the insert and, when nothing was bound, the update: three transactions. */
    method BindOrReopenChannel(community: CommunityId, peer: CommunityId, minted: string, id: EndpointId, now: int,
                               ghost start: World, ghost steps: seq<Step>)
      returns (ghost steps': seq<Step>)
      requires Valid() && Taken(start, steps) == Some(world) && id !in store.endpoints
      requires peer != community && IsMember(store.endpoints, peer)
      modifies this`world, store`channels, store`endpoints, store`cursors
      ensures Valid() && Taken(start, steps') == Some(world) && world.pending == old(world).pending
      ensures steps' == steps + Changes(OpenOps(old(world).db.registry, community, peer, minted, id), now)
      ensures KeepsRows(old(world).db.registry.endpoints, world.db.registry.endpoints)
    {
      var channel, bound;
      channel, steps' := ReserveChannel(community, peer, minted, now, start, steps);
      bound, steps' := AttachChannel(community, peer, channel, id, now, start, steps');
      ThreeChanges(steps, ReserveOp(community, peer, minted), AttachOp(community, peer, id), ReopenOp(community, peer),
                   now);
      if !bound {
        steps' := ReopenChannel(community, peer, now, start, steps');
      }
    }

    /** `/open <slug>`: a direct channel in the requester's own community, bound to the peer. */
    method RunOpenCommand(read: Reading, slug: string, ghost start: World, ghost steps: seq<Step>)
      returns (reply: string, ghost peer: Option<CommunityId>, ghost changes: seq<Step>, ghost steps': seq<Step>)
      requires Valid() && Taken(start, steps) == Some(world) && read.endpoint !in store.endpoints
      modifies this`world, store`channels, store`endpoints, store`cursors
      ensures Valid() && Taken(start, steps') == Some(world) && steps' == steps + changes
      ensures Opens(old(world).db, read, slug, peer, changes, reply) && OpensPlainly(reply)
      ensures world.pending == old(world).pending
      ensures KeepsRows(old(world).db.registry.endpoints, world.db.registry.endpoints)
    {
      peer, changes, steps' := None, [], steps;
      FixedRepliesPlainly(read.listing);
      OpenRepliesPlainly(slug);
      if !IsMember(store.endpoints, read.community) {
        return NOT_CONNECTED, None, [], steps;
      }
      var found := store.FindRoutableCommunityBySlug(slug);
      if found.None? {
        return UnknownPeer(slug), None, [], steps;
      }
      if found.value == read.community {
        return OwnCommunity(slug), None, [], steps;
      }
      if read.handOff.None? {
        return NOT_COMPLETED, None, [], steps;
      }
      assert store.Holds(HubRules);
      ReachableMeansMember(store.HubRows(), found.value);
      peer := found;
      changes := Changes(OpenOps(world.db.registry, read.community, found.value, read.handOff.value, read.endpoint),
                         read.now);
      steps' := BindOrReopenChannel(read.community, found.value, read.handOff.value, read.endpoint, read.now, start,
                                    steps);
      ChangeRepliesPlainly(read.channelName);
      reply := ChannelOpened(read.channelName);
    }

    method CloseChannel(community: CommunityId, peer: CommunityId, now: int, ghost start: World, ghost steps: seq<Step>)
      returns (closed: bool, ghost steps': seq<Step>)
      requires Valid() && Taken(start, steps) == Some(world)
      modifies this`world, store`endpoints
      ensures closed <==> HasFlow(old(world).db.registry.endpoints, community, peer, true)
      ensures Valid() && Taken(start, steps') == Some(world) && world.pending == old(world).pending
      ensures steps' == steps + [Change(CloseOp(community, peer), now)]
      ensures KeepsRows(old(world).db.registry.endpoints, world.db.registry.endpoints)
    {
      ghost var db := store.Tables();
      closed := store.UnbindDedicatedPeerChannel(community, peer);
      NoRestart(db.registry.endpoints, store.endpoints, db.cursors, now);
      steps' := TakeChange(start, steps, CloseOp(community, peer), now, db);
    }

    method FindClosable(community: CommunityId, route: Route, slug: Option<string>) returns (found: Option<CommunityId>)
      requires Valid()
      ensures IsClosable(world.db, community, route, slug, found)
    {
      assert world.db == store.Tables();
      if slug.None? {
        return route.dedicatedTo;
      }
      found := None;
      if IsMember(store.endpoints, community) {
        found := store.FindRoutableCommunityBySlug(slug.value);
      }
    }

    /** `/close <slug>`, or `/close` alone inside a direct channel. */
    method RunCloseCommand(read: Reading, route: Route, slug: Option<string>, ghost start: World,
                           ghost steps: seq<Step>)
      returns (reply: string, ghost peer: Option<CommunityId>, ghost changes: seq<Step>, ghost steps': seq<Step>)
      requires Valid() && Taken(start, steps) == Some(world)
      modifies this`world, store`endpoints
      ensures Valid() && Taken(start, steps') == Some(world) && steps' == steps + changes
      ensures Closes(old(world).db, read, route, slug, peer, changes, reply) && OpensPlainly(reply)
      ensures world.pending == old(world).pending
      ensures KeepsRows(old(world).db.registry.endpoints, world.db.registry.endpoints)
    {
      var found := FindClosable(read.community, route, slug);
      peer, changes, steps' := found, [], steps;
      if found.None? {
        FixedRepliesPlainly(read.listing);
        OpenRepliesPlainly(if slug.Some? then slug.value else []);
        reply := if slug.None? then WHICH_CHANNEL else UnknownPeer(slug.value);
        return;
      }
      var closed;
      changes := [Change(CloseOp(read.community, found.value), read.now)];
      closed, steps' := CloseChannel(read.community, found.value, read.now, start, steps);
      ChangeRepliesPlainly(store.SlugOf(found.value));
      NothingRepliesPlainly(slug);
      reply := if closed then ChannelClosed(store.SlugOf(found.value)) else NothingToClose(slug);
    }

    method RunCommand(read: Reading, route: Route, command: Command, ghost start: World, ghost steps: seq<Step>)
      returns (reply: string, ghost peer: Option<CommunityId>, ghost changes: seq<Step>, ghost steps': seq<Step>)
      requires Valid() && Taken(start, steps) == Some(world) && read.endpoint !in store.endpoints
      requires command.Usage? ==> OpensPlainly(command.message)
      modifies this`world, store`channels, store`endpoints, store`cursors
      ensures Valid() && Taken(start, steps') == Some(world) && steps' == steps + changes
      ensures Does(old(world).db, read, route, command, peer, changes, reply) && OpensPlainly(reply)
      ensures world.pending == old(world).pending
      ensures KeepsRows(old(world).db.registry.endpoints, world.db.registry.endpoints)
    {
      match command {
        case Open(slug) => reply, peer, changes, steps' := RunOpenCommand(read, slug, start, steps);
        case Close(slug) => reply, peer, changes, steps' := RunCloseCommand(read, route, slug, start, steps);
        case List =>
          FixedRepliesPlainly(read.listing);
          return "BuzzRouter\n" + read.listing, None, [], steps;
        case Usage(message) => return message, None, [], steps;
      }
    }

    /**
     Claimed before it runs: a replay neither runs the command nor answers again, and a command
     claimed now does exactly what it says, for the peer that it means, and is answered once.
     */
    method HandleCommand(read: Reading, route: Route, command: Command, ghost start: World, ghost steps: seq<Step>)
      returns (ghost choice: Choice, ghost steps': seq<Step>)
      requires Valid() && Taken(start, steps) == Some(world) && route.endpoint in world.db.registry.endpoints
      requires Enabled(world, ReadCommand(route, read.event)) && read.endpoint !in store.endpoints
      requires command.Usage? ==> OpensPlainly(command.message)
      modifies this`world, this`relay, store`commands, store`channels, store`endpoints, store`cursors
      ensures Valid() && Taken(start, steps') == Some(world)
      ensures steps' == steps + CommandSteps(old(world).db, read, route, choice.changes, choice.reply)
      ensures Key(route, read.event) !in old(world).db.commands ==>
                && OpensPlainly(choice.reply)
                && Does(old(world).db, read, route, command, choice.peer, choice.changes, choice.reply)
    {
      choice := Choice(None, None, [], "");
      ghost var before := world.db;
      var claimed;
      claimed, steps' := ClaimCommand(read, route, start, steps);
      if claimed {
        ghost var db := world.db;
        choice, steps' := RunAndAnswer(read, route, command, start, steps');
        DoesTheSame(db, before, read, route, command, choice.peer, choice.changes, choice.reply);
        Regrouped(steps, [ReadCommand(route, read.event)], choice.changes + [AnswerStep(read, route, choice.reply)]);
      } else {
        Regrouped(steps, [ReadCommand(route, read.event)], []);
      }
    }

    method ClaimCommand(read: Reading, route: Route, ghost start: World, ghost steps: seq<Step>)
      returns (claimed: bool, ghost steps': seq<Step>)
      requires Valid() && Taken(start, steps) == Some(world) && Enabled(world, ReadCommand(route, read.event))
      modifies this`world, store`commands
      ensures Valid() && Taken(start, steps') == Some(world) && steps' == steps + [ReadCommand(route, read.event)]
      ensures claimed <==> Key(route, read.event) !in old(world).db.commands
      ensures claimed ==> Answer(route.endpoint, IdOf(read.event)) in world.pending
      ensures world.db.registry == old(world).db.registry
      ensures world.db.handles == old(world).db.handles && world.db.hosts == old(world).db.hosts
    {
      claimed := store.ClaimCommandReceipt(Key(route, read.event));
      steps' := Take(start, steps, ReadCommand(route, read.event));
    }

    method RunAndAnswer(read: Reading, route: Route, command: Command, ghost start: World, ghost steps: seq<Step>)
      returns (ghost choice: Choice, ghost steps': seq<Step>)
      requires Valid() && Taken(start, steps) == Some(world) && route.endpoint in world.db.registry.endpoints
      requires Answer(route.endpoint, IdOf(read.event)) in world.pending && read.endpoint !in store.endpoints
      requires command.Usage? ==> OpensPlainly(command.message)
      modifies this`world, this`relay, store`channels, store`endpoints, store`cursors
      ensures Valid() && Taken(start, steps') == Some(world)
      ensures steps' == steps + (choice.changes + [AnswerStep(read, route, choice.reply)])
      ensures OpensPlainly(choice.reply)
      ensures Does(old(world).db, read, route, command, choice.peer, choice.changes, choice.reply)
    {
      var reply: string;
      ghost var peer, changes;
      reply, peer, changes, steps' := RunCommand(read, route, command, start, steps);
      choice := Choice(None, peer, changes, reply);
      Regrouped(steps, changes, [AnswerStep(read, route, reply)]);
      steps' := PostNotice(Answer(route.endpoint, IdOf(read.event)), Notice(route.localChannel, "command", reply),
                           read.now, read.stored, start, steps');
    }

    /**
     Handles one event received from a community's relay: exactly the steps that its route, its
     author, its text and the tables decide, with what the handle resolves to and what a
     command means as the tables have it.
     */
    method HandleSourceEvent(read: Reading) returns (ghost steps: seq<Step>, ghost choice: Choice)
      requires Valid() && SessionsOk(world) && OnRelay(world, read.community, read.event)
      requires FreshIds(world.db, read.messageId, read.first) && read.endpoint !in store.endpoints
      modifies this`world, this`relay, store
      ensures Valid() && Taken(old(world), steps) == Some(world)
      ensures steps == EventSteps(old(world), read, choice) && Fits(old(world), read, choice)
    {
      steps, choice := [], Choice(None, None, [], "");
      if read.community !in sessions {
        return;
      }
      var found := FindRoute(sessions[read.community].routes, FirstValue(read.event.tags, "h"), 0);
      if found.None? {
        return;
      }
      RouteOfIsOk(world, read.community, read.event);
      ghost var start := world;
      steps := Take(start, [], Receive(read.community, read.event));
      steps, choice := HandleOnRoute(read, found.value, start, steps);
    }

    method HandleOnRoute(read: Reading, route: Route, ghost start: World, ghost steps: seq<Step>)
      returns (ghost steps': seq<Step>, ghost choice: Choice)
      requires Valid() && Taken(start, steps) == Some(world) && (route, read.event) in world.received
      requires route.endpoint in world.db.registry.endpoints
      requires FreshIds(world.db, read.messageId, read.first) && read.endpoint !in store.endpoints
      modifies this`world, this`relay, store
      ensures Valid() && Taken(start, steps') == Some(world)
      ensures steps' == steps + RouteSteps(old(world).db, read, route, choice)
      ensures FitsRoute(old(world).db, read, route, choice)
    {
      steps', choice := steps, Choice(None, None, [], "");
      var command := ParseCommand(read.event.content);
      if !WrittenByBridge(read.event, route) && command.Some? {
        if command.value.Usage? {
          HelpOpensPlainly(read.event.content);
        }
        choice, steps' := HandleCommand(read, route, command.value, start, steps);
      } else {
        var canonical := Canonicalize(read.event, route, read.verified, read.now);
        steps', choice := HandleMessage(read, route, canonical, start, steps);
      }
    }

    method HandleMessage(read: Reading, route: Route, canonical: Canonical, ghost start: World, ghost steps: seq<Step>)
      returns (ghost steps': seq<Step>, ghost choice: Choice)
      requires Valid() && Taken(start, steps) == Some(world) && (route, read.event) in world.received
      requires route.endpoint in world.db.registry.endpoints && FreshIds(world.db, read.messageId, read.first)
      requires !IsCommandFor(read.event, route)
      requires canonical == Canonicalize(read.event, route, read.verified, read.now)
      modifies this`world, this`relay, store
      ensures Valid() && Taken(start, steps') == Some(world)
      ensures steps' == steps + MessageSteps(old(world).db, read, route, canonical, choice.resolved)
      ensures FitsMessage(old(world).db, canonical, choice.resolved)
    {
      steps', choice := steps, Choice(None, None, [], "");
      Regrouped(steps, [], []);
      if canonical.Routed? {
        if canonical.destination.Bound? {
          steps' := IngestMessage(read, route, canonical.destination.peer, start, steps);
        } else {
          var address := canonical.destination;
          steps', choice := HandleAddressed(read, route, address.slug, address.user, start, steps);
        }
      }
    }

    method HandleAddressed(read: Reading, route: Route, slug: string, user: Option<string>,
                           ghost start: World, ghost steps: seq<Step>)
      returns (ghost steps': seq<Step>, ghost choice: Choice)
      requires Valid() && Taken(start, steps) == Some(world) && (route, read.event) in world.received
      requires route.endpoint in world.db.registry.endpoints && FreshIds(world.db, read.messageId, read.first)
      requires IsRoutable(read.event, route, read.verified, read.now)
      requires Canonicalize(read.event, route, read.verified, read.now).destination.Addressed?
      modifies this`world, this`relay, store
      ensures Valid() && Taken(start, steps') == Some(world)
      ensures steps' == steps + AddressedSteps(old(world).db, read, route, slug, user, choice.resolved)
      ensures IsResolved(old(world).db, slug, choice.resolved)
    {
      var destination := store.FindRoutableCommunityBySlug(slug);
      assert IsResolved(world.db, slug, destination);
      choice := Choice(destination, None, [], "");
      steps' := IngestOrBounce(read, route, slug, user, destination, start, steps);
    }

    /** Without a destination, or for a name that nobody there has, the message bounces. */
    method IngestOrBounce(read: Reading, route: Route, slug: string, user: Option<string>,
                          destination: Option<CommunityId>, ghost start: World, ghost steps: seq<Step>)
      returns (ghost steps': seq<Step>)
      requires Valid() && Taken(start, steps) == Some(world) && (route, read.event) in world.received
      requires route.endpoint in world.db.registry.endpoints && FreshIds(world.db, read.messageId, read.first)
      requires IsRoutable(read.event, route, read.verified, read.now)
      requires Canonicalize(read.event, route, read.verified, read.now).destination.Addressed?
      modifies this`world, this`relay, store
      ensures Valid() && Taken(start, steps') == Some(world)
      ensures steps' == steps + AddressedSteps(old(world).db, read, route, slug, user, destination)
    {
      StepsAreEnabled(world, read, route);
      if destination.None? {
        steps' := ReportUndeliverable(read, route, slug, None, start, steps);
      } else if user.Some? && read.isMember == Some(false) {
        steps' := ReportUndeliverable(read, route, store.SlugOf(destination.value), user, start, steps);
      } else {
        steps' := IngestMessage(read, route, destination.value, start, steps);
      }
    }
  }
}
