/**
 What handling an event comes to, said on its text and the tables: which steps a message or
 a command leads to, for whom, and what is answered.
 */
module ConnectorTheorems {
  import opened Wrappers
  import opened Text
  import opened Nostr
  import opened Addressing
  import opened Commands
  import opened Bridge
  import opened Events
  import opened Hub
  import opened Slugs
  import opened Tables
  import opened Database
  import opened Network
  import opened Connector

  /** The community has this handle, in any letter case, and some row of it receives. */
  ghost predicate Hears(db: Db, slug: string, c: CommunityId) {
    c in db.handles && ToLower(db.handles[c]) == ToLower(slug) && IsHeardAnywhere(db.registry.endpoints, c)
  }

  lemma HearsIff(db: Db, slug: string)
    ensures forall c :: ResolvesTo(db, slug, c) <==> Hears(db, slug, c)
  {
    forall c ensures ResolvesTo(db, slug, c) <==> Hears(db, slug, c) {
      assert IsHeardAnywhere(db.registry.endpoints, c) <==> IsReachable(db.registry.endpoints, c);
    }
  }

  lemma OneHears(db: Db, slug: string, c: CommunityId, d: CommunityId)
    requires CaseInsensitivelyUnique(db.handles) && Hears(db, slug, c) && Hears(db, slug, d)
    ensures c == d
  {
  }

  // ---------------------------------------------------------------- messages

  /** The event is read and, unless it was bounced before, bounced to its own channel with this reason and text. */
  ghost predicate Bounces(db: Db, read: Reading, route: Route, steps: seq<Step>, reason: string, text: string) {
    && |steps| == (if (route.endpoint, IdOf(read.event)) in db.notices then 1 else 2)
    && steps[0] == ReadUnroutable(route, read.event, read.verified, read.now)
    && (|steps| == 2 ==> && steps[1].Announce? && steps[1].cause == Bounce(route.endpoint, IdOf(read.event))
                         && steps[1].notice == Notice(route.localChannel, reason, text))
  }

  /** The event is read as a message to this community. */
  predicate IsSentTo(read: Reading, route: Route, steps: seq<Step>, c: CommunityId) {
    && |steps| == 1 && steps[0].ReadMessage? && steps[0].route == route && steps[0].event == read.event
    && InputIsFor(steps[0], c)
  }

  /** What the step passes on is for this community, under the author's name. */
  predicate InputIsFor(step: Step, c: CommunityId)
    requires step.ReadMessage?
  {
    IsRoutable(step.event, step.route, step.verified, step.now) ==>
      && InputOf(step).destination == Some(c) && InputOf(step).event == step.event
      && InputOf(step).source == step.route.endpoint && InputOf(step).hub == step.route.hub
  }

  predicate IsKnownStranger(read: Reading, a: MessageAddress) {
    a.user.Some? && read.isMember == Some(false)
  }

  function NoSuchCommunity(slug: string): string {
    "BuzzRouter: not delivered to @" + (slug + " \U{2014} no connected community has that name.")
  }

  function NoSuchMember(handle: string, user: string): string {
    "BuzzRouter: not delivered to @"
    + (handle + "/" + user + " \U{2014} @" + handle + " is connected, but nobody there is named " + user + ".")
  }

  /**
   An addressed message goes to the one community that has the handle and receives; it is
   bounced if there is none, or if that community is known to have no such member.
   */
  ghost predicate IsHandled(db: Db, read: Reading, route: Route, a: MessageAddress, steps: seq<Step>) {
    && ((forall c :: !Hears(db, a.slug, c)) ==>
          Bounces(db, read, route, steps, "unknown-destination", NoSuchCommunity(a.slug)))
    && forall c | Hears(db, a.slug, c) ::
         if IsKnownStranger(read, a) then
           Bounces(db, read, route, steps, "unknown-user", NoSuchMember(db.handles[c], a.user.value))
         else IsSentTo(read, route, steps, c)
  }

  lemma AddressIsTaken(read: Reading, route: Route, a: MessageAddress)
    requires route.dedicatedTo == None && IsReadable(read.event, route, read.verified, read.now)
    requires IsAddressedAs(read.event.content, a)
    ensures Canonicalize(read.event, route, read.verified, read.now)
         == Routed(RoutedBody(a), Addressed(a.slug, a.user), ReplyEventId(read.event))
  {
    ParseIsExact(read.event.content, a);
    InboxIsRead(read.event, route, read.verified, read.now);
  }

  lemma NobodyIsFound(db: Db, read: Reading, route: Route, a: MessageAddress)
    ensures Bounces(db, read, route, AddressedSteps(db, read, route, a.slug, a.user, None), "unknown-destination",
                    NoSuchCommunity(a.slug))
  {
  }

  lemma SomebodyIsFound(db: Db, read: Reading, route: Route, a: MessageAddress, c: CommunityId)
    requires c in db.handles
    ensures var steps := AddressedSteps(db, read, route, a.slug, a.user, Some(c));
            if IsKnownStranger(read, a) then
              Bounces(db, read, route, steps, "unknown-user", NoSuchMember(db.handles[c], a.user.value))
            else steps == [IngestStep(read, route, c)]
  {
  }

  lemma InputNames(read: Reading, route: Route, c: CommunityId)
    requires !Canonicalize(read.event, route, read.verified, read.now).Routed?
             || Canonicalize(read.event, route, read.verified, read.now).destination.Addressed?
             || Canonicalize(read.event, route, read.verified, read.now).destination == Bound(c)
    ensures IsSentTo(read, route, [IngestStep(read, route, c)], c)
  {
  }

  lemma InboxOutcome(db: Db, read: Reading, route: Route, choice: Choice, a: MessageAddress)
    requires CaseInsensitivelyUnique(db.handles) && FitsRoute(db, read, route, choice)
    requires !IsCommandFor(read.event, route) && route.dedicatedTo == None
    requires IsReadable(read.event, route, read.verified, read.now) && IsAddressedAs(read.event.content, a)
    ensures IsHandled(db, read, route, a, RouteSteps(db, read, route, choice))
  {
    AddressIsTaken(read, route, a);
    HearsIff(db, a.slug);
    assert RouteSteps(db, read, route, choice) == AddressedSteps(db, read, route, a.slug, a.user, choice.resolved);
    AddressIsHandled(db, read, route, a, choice.resolved);
  }

  lemma AddressIsHandled(db: Db, read: Reading, route: Route, a: MessageAddress, resolved: Option<CommunityId>)
    requires CaseInsensitivelyUnique(db.handles) && IsResolved(db, a.slug, resolved)
    requires Canonicalize(read.event, route, read.verified, read.now)
          == Routed(RoutedBody(a), Addressed(a.slug, a.user), ReplyEventId(read.event))
    ensures IsHandled(db, read, route, a, AddressedSteps(db, read, route, a.slug, a.user, resolved))
  {
    HearsIff(db, a.slug);
    if resolved.None? {
      NobodyIsFound(db, read, route, a);
    } else {
      SomebodyIsFound(db, read, route, a, resolved.value);
      InputNames(read, route, resolved.value);
      forall c | Hears(db, a.slug, c) ensures c == resolved.value {
        OneHears(db, a.slug, c, resolved.value);
      }
    }
  }

  /** In a bound channel every readable message goes to the peer. */
  lemma BoundOutcome(db: Db, read: Reading, route: Route, choice: Choice, peer: CommunityId)
    requires !IsCommandFor(read.event, route) && route.dedicatedTo == Some(peer)
    requires IsReadable(read.event, route, read.verified, read.now)
    ensures IsSentTo(read, route, RouteSteps(db, read, route, choice), peer)
  {
    BoundIsRead(read.event, route, read.verified, read.now);
  }

  /** And whatever else is no command leads to nothing. */
  lemma OtherOutcome(db: Db, read: Reading, route: Route, choice: Choice)
    requires !IsCommandFor(read.event, route)
    requires || !IsReadable(read.event, route, read.verified, read.now)
             || (route.dedicatedTo == None && forall a :: !IsAddressedAs(read.event.content, a))
    ensures RouteSteps(db, read, route, choice) == []
  {
    RoutedIff(read.event, route, read.verified, read.now);
  }

  // ---------------------------------------------------------------- commands

  /** The command is read and, unless it was claimed before, run and then answered in its own channel. */
  ghost predicate IsAnswered(db: Db, read: Reading, route: Route, steps: seq<Step>, changes: seq<Step>, reply: string) {
    && steps != [] && steps[0] == ReadCommand(route, read.event)
    && if (route.endpoint, IdOf(read.event)) in db.commands then |steps| == 1
       else
         && |steps| == |changes| + 2 && steps[1..|changes| + 1] == changes
         && var last := steps[|changes| + 1];
            && last.Announce? && last.cause == Answer(route.endpoint, IdOf(read.event))
            && last.notice == Notice(route.localChannel, "command", reply)
  }

  lemma CommandIsAnswered(db: Db, read: Reading, route: Route, choice: Choice)
    requires IsCommandFor(read.event, route)
    ensures IsAnswered(db, read, route, RouteSteps(db, read, route, choice), choice.changes, choice.reply)
  {
    CommandStepsAre(db, read, route, choice.changes, choice.reply);
  }

  lemma CommandStepsAre(db: Db, read: Reading, route: Route, changes: seq<Step>, reply: string)
    ensures IsAnswered(db, read, route, CommandSteps(db, read, route, changes, reply), changes, reply)
  {
    var steps := CommandSteps(db, read, route, changes, reply);
    if (route.endpoint, IdOf(read.event)) !in db.commands {
      assert steps == [ReadCommand(route, read.event)] + changes + [AnswerStep(read, route, reply)];
    }
  }

  /** Some row of the community is dedicated to the peer and receives. */
  ghost predicate HasOpenRow(db: Db, community: CommunityId, peer: CommunityId) {
    exists id | id in db.registry.endpoints ::
      && db.registry.endpoints[id].community == community && db.registry.endpoints[id].dedicatedTo == Some(peer)
      && db.registry.endpoints[id].receives
  }

  /** Some row of the community is its inbox. */
  ghost predicate HasInbox(db: Db, community: CommunityId) {
    exists id | id in db.registry.endpoints ::
      db.registry.endpoints[id].community == community && db.registry.endpoints[id].dedicatedTo == None
  }

  /** The peer that `/close` means: the one the channel is bound to, or the one it names to a connected community. */
  ghost predicate IsMeant(db: Db, community: CommunityId, route: Route, slug: Option<string>, p: CommunityId) {
    if slug.None? then route.dedicatedTo == Some(p) else HasInbox(db, community) && Hears(db, slug.value, p)
  }

  function Unconnected(slug: string): string {
    "BuzzRouter: no connected community named " + (slug + ".")
  }

  /** What `/open` does for the community that was heard under the name. */
  predicate OpensFor(db: Db, read: Reading, slug: string, c: CommunityId, changes: seq<Step>, reply: string) {
    if c == read.community then changes == [] && reply == "BuzzRouter: " + (slug + " is this community.")
    else if read.handOff.None? then
      changes == [] && reply == "BuzzRouter: " + "that command could not be completed \U{2014} try again."
    else
      && changes == Changes(OpenOps(db.registry, read.community, c, read.handOff.value, read.endpoint), read.now)
      && reply == "Opened #" + (read.channelName + " \U{2014} talk here, no tags.")
  }

  ghost predicate OpenTakes(db: Db, read: Reading, slug: string, changes: seq<Step>, reply: string) {
    if !HasInbox(db, read.community) then
      && changes == []
      && reply == "BuzzRouter: " + "this community is not fully connected, so a direct channel cannot be opened."
    else
      && ((forall c :: !Hears(db, slug, c)) ==> changes == [] && reply == Unconnected(slug))
      && (forall c | Hears(db, slug, c) :: OpensFor(db, read, slug, c, changes, reply))
  }

  /** What `/close` does for the peer that it means. */
  ghost predicate ClosesFor(db: Db, read: Reading, slug: Option<string>, p: CommunityId, changes: seq<Step>,
                            reply: string)
  {
    && changes == [Change(CloseOp(read.community, p), read.now)]
    && reply == if HasOpenRow(db, read.community, p) then
                  "Closed the direct channel with @"
                  + (HandleOf(db.handles, db.hosts, p) + " \U{2014} messages fall back to your inbox.")
                else if slug.None? then "BuzzRouter: " + "there is no open direct channel here to close."
                else "BuzzRouter: no open direct channel with " + (slug.value + " to close.")
  }

  ghost predicate CloseTakes(db: Db, read: Reading, route: Route, slug: Option<string>, changes: seq<Step>,
                             reply: string)
  {
    && (forall p | IsMeant(db, read.community, route, slug, p) :: ClosesFor(db, read, slug, p, changes, reply))
    && ((forall p :: !IsMeant(db, read.community, route, slug, p)) ==>
          && changes == []
          && reply == if slug.None? then
                        "BuzzRouter: " + "/close needs a community name, or use it inside a direct channel."
                      else Unconnected(slug.value))
  }

  /** What a command does and says, for whom it means. */
  ghost predicate CommandTakes(db: Db, read: Reading, route: Route, command: Command, changes: seq<Step>,
                               reply: string)
  {
    match command
    case Open(slug) => OpenTakes(db, read, slug, changes, reply)
    case Close(slug) => CloseTakes(db, read, route, slug, changes, reply)
    case List => changes == [] && reply == "BuzzRouter\n" + read.listing
    case Usage(message) => changes == [] && reply == message
  }

  lemma InboxIff(db: Db, community: CommunityId)
    ensures IsMember(db.registry.endpoints, community) <==> HasInbox(db, community)
  {
    var eps := db.registry.endpoints;
    if HasInbox(db, community) {
      var id :| id in eps && eps[id].community == community && eps[id].dedicatedTo == None;
      assert IsOrdinary(eps, id, community);
    }
    if IsMember(eps, community) {
      var id :| id in eps && IsOrdinary(eps, id, community);
    }
  }

  lemma OpenRowIff(db: Db, community: CommunityId, peer: CommunityId)
    ensures HasFlow(db.registry.endpoints, community, peer, true) <==> HasOpenRow(db, community, peer)
  {
    var eps := db.registry.endpoints;
    if HasOpenRow(db, community, peer) {
      var id :| id in eps && eps[id].community == community && eps[id].dedicatedTo == Some(peer) && eps[id].receives;
      assert IsDedicated(eps, id, community, peer);
    }
    if HasFlow(eps, community, peer, true) {
      var id :| id in eps && IsDedicated(eps, id, community, peer) && eps[id].receives == true;
    }
  }

  lemma OpenIsTaken(db: Db, read: Reading, slug: string, peer: Option<CommunityId>, changes: seq<Step>, reply: string)
    requires CaseInsensitivelyUnique(db.handles) && Opens(db, read, slug, peer, changes, reply)
    ensures OpenTakes(db, read, slug, changes, reply)
  {
    HearsIff(db, slug);
    InboxIff(db, read.community);
    forall c, d | Hears(db, slug, c) && Hears(db, slug, d) ensures c == d {
      OneHears(db, slug, c, d);
    }
  }

  lemma CloseIsTaken(db: Db, read: Reading, route: Route, slug: Option<string>, peer: Option<CommunityId>,
                     changes: seq<Step>, reply: string)
    requires CaseInsensitivelyUnique(db.handles) && Closes(db, read, route, slug, peer, changes, reply)
    ensures CloseTakes(db, read, route, slug, changes, reply)
  {
    InboxIff(db, read.community);
    if slug.Some? {
      HearsIff(db, slug.value);
    }
    if peer.Some? {
      OpenRowIff(db, read.community, peer.value);
      assert IsMeant(db, read.community, route, slug, peer.value);
      forall p | IsMeant(db, read.community, route, slug, p) ensures p == peer.value {
        if slug.Some? {
          OneHears(db, slug.value, p, peer.value);
        }
      }
    }
  }

  lemma CommandOutcome(db: Db, read: Reading, route: Route, choice: Choice)
    requires CaseInsensitivelyUnique(db.handles) && FitsRoute(db, read, route, choice)
    requires IsCommandFor(read.event, route)
    ensures IsAnswered(db, read, route, RouteSteps(db, read, route, choice), choice.changes, choice.reply)
    ensures (route.endpoint, IdOf(read.event)) !in db.commands ==>
              CommandTakes(db, read, route, ParseCommand(read.event.content).value, choice.changes, choice.reply)
  {
    CommandIsAnswered(db, read, route, choice);
    if (route.endpoint, IdOf(read.event)) !in db.commands {
      DoneIsTaken(db, read, route, ParseCommand(read.event.content).value, choice);
    }
  }

  lemma DoneIsTaken(db: Db, read: Reading, route: Route, command: Command, choice: Choice)
    requires CaseInsensitivelyUnique(db.handles)
    requires Does(db, read, route, command, choice.peer, choice.changes, choice.reply)
    ensures CommandTakes(db, read, route, command, choice.changes, choice.reply)
  {
    match command
    case Open(slug) => OpenIsTaken(db, read, slug, choice.peer, choice.changes, choice.reply);
    case Close(slug) => CloseIsTaken(db, read, route, slug, choice.peer, choice.changes, choice.reply);
    case _ =>
  }
}
