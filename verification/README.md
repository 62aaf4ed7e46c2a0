# BuzzRouter, proved

A Dafny model of BuzzRouter's shared-channel bridge and of the loops that stand beside
it, with proofs of what the bridge promises over every run.

BuzzRouter connects communities, each with its own Nostr relay. A community joins one
open hub with an ordinary endpoint (its inbox) and may hold further endpoints, each
dedicated to one peer. A message that a person addresses to another community is
ingested once, queued in a transactional outbox, projected into an event signed with the
destination's bridge key, published, and mapped so that replies find their thread.

## How the model is laid out

| file | what it holds |
|---|---|
| Text, Addressing, Commands, Bridge | the grammar of addresses and commands, source events, projections and escaping |
| Events | what source events and projections say, tag by tag and character by character: the reference for the readers and writers |
| Hub, Routing | endpoints, membership operations and their invariant; destination selection |
| Tables | the tables as one value, and every bridge transaction as a function on them |
| Database | the store as a class, one field per table and one method per transaction, each proved against its function |
| Network | the bridge as a state machine: tables, relays, live sessions, events being handled, delivery runs in flight and pending notices; one step is one transaction, one relay call or one read |
| NetworkInvariant, NetworkSteps, NetworkProof | one inductive invariant and the proof that every step keeps it |
| NetworkContent | over every run, each message is what its event says and each projection what its message says, in the right channel |
| NetworkRecords | over every run, what a delivery row's state, attempts and error record of its history |
| NetworkTheorems, NetworkSerial, Counting | what the invariant means for every run; what serial runs add |
| NetworkRaces, NetworkFirstRun | runs, from any sound world with a waiting delivery, that lead to the failures listed below; a run from empty tables to such a world |
| Connector, LastRun | the supervisor as a class whose methods are runs of that machine; where the last run of a delivery leaves it |
| ConnectorTheorems | what each message and each command leads to, said on its text and the tables |
| Provisioning, Slugs | the provisioning pass; handle assignment |
| Handoff, HandoffTheorems, HandoffService | the create, promote and demote journal: state machine, theorems, and the class that drives it |
| Nip66, RateLimit, GithubSweep | backward pagination and its watermark, the sliding-window limiters, the search cursor |

Signing and hashing are symbolic: an event id is a constructor applied to the event it
identifies, and a key belongs either to one community's bridge connection or to a person.
People may publish any event under their own keys, and copy whatever a bridge has handed to
some relay to any other relay; only a bridge signs with a bridge key. Steps interleave freely:
`/open` and a provisioning round are several transactions between which others may come, an
event may be handled after its session is gone, delivery runs repeat and crash, and relay
answers get lost. The
environment's part of a call (clock, relay answer, profile name, generated id, what the
hand-off mints) is a parameter of the step or method. The unique keys and checks of the
schema are those of `migrations/` (`0010_shared_channels.sql`,
`20260804T0200_hub_dedicated_peer_channels.sql`, `0003_claims_and_listings.sql`).

The hand-off assumes of a relay that creating a group again never resets its roles and
that only owners and admins put users. Whether it accepts a repeated create, or a
repeated self-demotion by a plain member, is a parameter (`Policy`), because safety does
not depend on it and completion does.

Pagination assumes that the relays' contents do not change during one query and that a
page is the newest `limit` matching events (NIP-01, the `limit` attribute of a filter),
with ties broken in any way and differently each time.

## Where the code falls short of its own words

Each of these is kept as the code has it, shown by a lemma, and given its exact condition.
The runs below that start from a waiting delivery start from a world that is reached from
empty tables (`DeliveryWaits`).

- The second route check also demands that the row is still `delivering`, so when two
  runs of one delivery overlap, one run's retry makes the other cancel the delivery for
  good although nobody changed a setting (`RaceCancels`, `SettledIsCancelledIff`).
- Closing a session wipes its key, so even the ninth run can throw and leave its row
  `delivering` with no run to come (`ThrowsIff`, `ClosedSessionStrands`).
- `failed` is not final: under any interleaving a step takes a row out of it exactly when
  another run of the delivery is completing, cancelling, or noting a retry that is not its
  last (`FailedStaysIff`), and each of the three happens (`FailedMayBeDelivered`,
  `RaceCancels`, `FailedMayBeRetried`). It is final while runs do not overlap
  (`TerminalStatesStay`).
- A notice read by some other connector is said to route nowhere. A bridge's event is routed
  exactly if it is a notice of another bridge, on a route bound to a peer, whose channel has
  the id that the notice names (`BridgeEventIsReadIff`, `StrayNoticeIsRead`); projections
  never are. While channel ids are apart each person's event causes at most four bridge events
  per endpoint (`AmplificationIsBounded`), and finitely many in any case
  (`AmplificationIsFinite`).
- An `/open` that is not refused always answers that the channel is open. Undisturbed, it is
  exactly when the pair had a dedicated endpoint already or the channel carries no other
  route of the community (`OpenOpensIff`). The other case is reached when the caller moves its
  inbox into the reserved channel before the endpoint is inserted (`OpenMayFail`).
- Escaping is to keep a message from forging a header, and fails exactly for a header that
  carries no handle of the address grammar (a host stands in for a missing one), or a profile
  name with a line or paragraph separator (`HeaderIsForgedIff`).
- A subscription cursor can fall behind events already ingested, exactly when the channel is
  moved by a clock that is behind it (`CursorFallsIff`), as after a message from the near
  future (`CursorMayFall`).
- A closed channel cannot be reopened by `/open` while no endpoint of the peer receives
  (`ReopenUndoesClose`, `ReopenMayFail`).
- The handle column refuses two-letter handles and a trailing hyphen, both of which handle
  assignment can produce: `AssignSucceedsIff` says for every host and every set of handles
  when assignment succeeds, and `RefusedLabels` names two families of hosts for which it fails.
- The limiter returns the least of several waits, which is too short as soon as two full
  windows have different waits (`ReturnedWaitSuffices`, `ShortHint`, `ShortHintHappens`).
- A hand-off is documented as resumable at every point, but once the answer to the bridge's
  own demotion is lost, later callers finish exactly if the relay accepts the repeated
  demotion, and otherwise none ever does (`CompletesIff`, `LostDemotionStrands`).

## Model

| member | source | states |
|---|---|---|
| `Addressing.BracketedRoundTrip` | src/shared-channels/addressing.ts:43-71 | For every slug in any letter case, every user, any gap and every body opening with a non-space, `@[slug/user] body` parses to exactly the lower-cased slug, that user and that body. |
| `Addressing.BareRoundTrip` | src/shared-channels/addressing.ts:43-71 | The same for the bare spelling `@slug/user body`, which needs some white space after the target. |
| `Addressing.LeadIsIgnored` | src/shared-channels/addressing.ts:43-47 | White space before an address changes nothing about what it parses to. |
| `Addressing.ParseIsInGrammar` | src/shared-channels/addressing.ts:14-71 | Conversely, whatever parses has a valid slug and user and a body that opens with ink and is the end of the text. |
| `Addressing.ParseIsExact` | src/shared-channels/addressing.ts:14-71 | A text parses to an address if and only if it spells it: white space, `@`, the handle in any letter case and perhaps a user, bracketed or followed by white space, and a body opening with ink; the characters and lengths are written out. |
| `Commands.CommandRoundTrip` | src/shared-channels/commands.ts:42-80 | Any spelling of a handle after `/open` or `/close` reaches the command as the lower-cased handle. |
| `Commands.LineIsRead` | src/shared-channels/commands.ts:42-80 | For every message that opens with a slash, whatever its verb, argument and white space: which command it is, or that it is none. |
| `Commands.CommandIsLine` | src/shared-channels/commands.ts:42-49 | And every command is such a message. |
| `Commands.CommandsOpenWithSlash` | src/shared-channels/commands.ts:42-49 | Text whose first ink is no slash is never a command. |
| `Bridge.ProjectionReadsBack` | src/shared-channels/bridge.ts:154-227 | A projection read back yields the local parent it was given, the message it mirrors and the key that signed it, whatever the parent and the actor. |
| `Bridge.ProjectionIsNeverRead` | src/shared-channels/bridge.ts:69-79 | A projection is ignored by every route of every community and parses as no command. |
| `Bridge.NoticeIsRoutedIff` | src/shared-channels/connector.ts:600-609 | A notice is never a command and never a projection, and a route carries it if and only if the route is another community's, bound to a peer, with the very channel id that the notice names (and the event is verified, not from the future and of legal size). |
| `Bridge.EscapeKeepsLines` | src/shared-channels/bridge.ts:167-174 | Escaping works line by line: the escaped body splits into exactly the escaped lines. |
| `Bridge.NoForgedAttribution` | src/shared-channels/bridge.ts:167-174 | After escaping, no line of any message body has the shape of an attribution header. |
| `Bridge.HeaderIsForgedIff` | src/shared-channels/bridge.ts:159-174 | A delivered body holds a line equal to a header that the bridge can write if and only if the message had that line and the pattern does not know the header: no handle of the grammar, or a label with a line or paragraph separator. |
| `Bridge.ProjectionAnswersItsSender` | src/shared-channels/bridge.ts:159-174 | With a grammar-valid handle and actor label and a body that is not blank, the projected text parses as an address back to its sender, and the escaped body is what follows. |
| `Events.RoutedIff` | src/shared-channels/bridge.ts:69-151 | Exactly which events are routed (by author, markers, kind, signature, time, the one channel tag, and the byte length), and as what: the body, the destination and the parent are those that the text and the tags spell out, on bound channels and in inboxes. |
| `Events.RefusalIsExact` | src/shared-channels/bridge.ts:69-120 | Which events are refused and with which code: by kind, signature or time, then by the channel tags, then by the byte length; the rest that is not routed is ignored. |
| `Events.BytesAreCounted` | src/shared-channels/bridge.ts:99-105 | The length of a text in bytes is one for each character, and one more for each from U+0080, from U+0800 and from U+10000 on. |
| `Events.ReplyIsExact` | src/shared-channels/bridge.ts:212-229 | The parent of an event is the id in its first tag marked as a reply, else in its last event tag, and is absent exactly if there is none. |
| `Events.LabelIsExact` | src/shared-channels/bridge.ts:159-161 | The author's label is the profile name with a space for each run of breaks, trimmed and cut to eighty characters, or the first twelve digits of the key if nothing is left. |
| `Events.ShapeIff` | src/shared-channels/bridge.ts:168-173 | The escaping pattern matches exactly the lines that are `@`, 2 to 40 characters of a handle, `/`, and 1 to 80 more characters on one line. |
| `Events.ProjectionSays` | src/shared-channels/bridge.ts:154-200 | A projection is of kind 9, names its channel in its only `h` tag, answers the parent it was given, names the message, community, event and author it mirrors, and its text is the header and the escaped body, line by line. |
| `Hub.ApplyKeepsInv` | src/shared-channels/store.ts:1073-1609 | Every hub operation keeps the hub invariant: one hub, one ordinary endpoint per community, one dedicated endpoint per pair and none to itself, distinct channels, duplicate-free filters that name other members only. |
| `Hub.HubRunKeepsInv` | src/shared-channels/store.ts:1073-1609 | The hub invariant holds after any sequence of joins, settings, closes and the separate transactions of any number of opens and provisioning rounds, however they interleave. |
| `Hub.FilterCheckIsExact` | src/shared-channels/store.ts:1329-1389 | The row count of the settings query equals the length of the de-duplicated list exactly when every listed community is a member: a pigeonhole that rests on one ordinary endpoint per community. |
| `Hub.JoinTakes` | src/shared-channels/store.ts:1094-1196 | Joining, on the rows: a community with a row gets none; any other gets one open inbox in its channel, as does the home community of a new hub; without a hub and a home it fails, and no old row changes. |
| `Hub.AttachIsExact` | src/shared-channels/store.ts:1569-1609 | Binding adds exactly the one open row without a filter if there is a hub, an inbox, no row for the pair yet and no other row with the channel, and changes nothing otherwise. |
| `Hub.SettingsTake` | src/shared-channels/store.ts:1329-1426 | Accepted settings are what the member's ordinary row then says, field by field, and no other row changes. |
| `Hub.ApplyKeepsRows` | src/shared-channels/store.ts:1073-1609 | No hub transaction deletes an endpoint, moves it to another hub, owner or peer, or gives a dedicated one another channel. |
| `Hub.OpenIsItsOps` | src/shared-channels/connector.ts:944-969 | Undisturbed, the two or three transactions of `/open` come to what the one function of the lemmas below says. |
| `Hub.ProvisionIsItsOps` | src/jobs/provision-peer-channels.ts:99-127 | Undisturbed, the two transactions of a provisioning round come to what the one function says. |
| `Hub.ProvisionNeverRevives` | src/jobs/provision-peer-channels.ts:99-127 | A provisioning round adds at most one row and changes none, and does nothing for a pair that has a dedicated row, open or closed. |
| `Hub.OpenOpensIff` | src/shared-channels/connector.ts:944-970 | After an undisturbed `/open` the pair has an open channel if and only if it had a dedicated endpoint or the channel carries no other route of the community. |
| `Hub.OpenMayFail` | src/shared-channels/connector.ts:944-970 | And from empty tables some operations lead to where it has none: the caller's inbox was moved into the channel that its journal reserved. |
| `Hub.ReopenUndoesClose` | src/shared-channels/connector.ts:922-1005 | Closing an open channel and opening it again restores every row if and only if some endpoint of the peer still receives, because `/open` resolves the peer by such a row. |
| `Hub.ReopenMayFail` | src/shared-channels/connector.ts:922-1005 | And from empty tables some operations lead to an open channel whose peer turned receiving off: closed then, it is not reopened. |
| `Hub.OpenAndProvisionConverge` | src/shared-channels/connector.ts:944-969 | In either order `/open` and the provisioner end in the same rows: one endpoint on the one channel that the hand-off journal holds for the pair. |
| `Routing.SelectionIsPointToPoint` | src/shared-channels/store.ts:709-787 | Addressing one community selects at most one endpoint, of that community and not the sender's own, never one dedicated to a third community, and from a dedicated channel only its peer. |
| `Routing.SelectionIsExact` | src/shared-channels/store.ts:709-770 | Addressed to a peer, a message goes to a row if and only if it is the peer's, receives, each row's own list lets the other's community through as its mode reads it, and neither is bound elsewhere nor hidden by an open channel of the two. |
| `Routing.RouteActiveIff` | src/shared-channels/store.ts:1875-1911 | Delivery's own check holds if and only if the source sends, the destination receives, and the two lists let each other through. |
| `Routing.InboxHearsAsSet` | src/shared-channels/store.ts:1316-1434 | After a member's settings are accepted, its inbox hears exactly the sources whose community the mode and the list it set let through, if it is to receive and nothing on the source's side, and no channel of their own, stands in between. |
| `Routing.SelectedIsDeliverable` | src/shared-channels/store.ts:692-787 | Whatever the selection picks from a sending endpoint passes the route check that delivery makes. |
| `Routing.SelectedUnlessHidden` | src/shared-channels/store.ts:741-770 | Without an open dedicated endpoint, a message lands on the peer's ordinary endpoint if and only if that endpoint receives and both filters allow the pair. |
| `Routing.ClosingFallsBack` | src/shared-channels/store.ts:2402-2424 | Closing the dedicated channel reroutes the sender to the ordinary endpoint if and only if that endpoint receives and both filters allow the pair. |
| `Routing.OpenDedicatedWins` | src/shared-channels/store.ts:738-755 | While the dedicated endpoint is open it, and not the ordinary one, receives the sender's messages whenever the sender's filter allows. |
| `Routing.ReopeningRestoresRouting` | src/shared-channels/store.ts:2431-2448 | Reopening gives the sender exactly the destinations it had before the channel was closed. |
| `Database.Store.IngestBridgeMessage` | src/shared-channels/store.ts:666-943 | The transaction with its two loops does exactly what the ingest specification says, on every branch, and keeps the unique keys. |
| `Database.Store.GetBridgeDeliveryContext` | src/shared-channels/store.ts:1711-1853 | Reads exactly the specified context, with the local parent found through the two mapping joins and the host standing in for a missing handle. |
| `Database.Store.IsBridgeDeliveryRouteActive` | src/shared-channels/store.ts:1874-1915 | True exactly when the joined rows exist, the row is still being delivered and the route is active. |
| `Database.Store.MarkBridgeDeliveryDelivering` | src/shared-channels/store.ts:1855-1872 | Starts exactly the queued, retrying or delivering rows and counts the attempt. |
| `Database.Store.PersistDestinationEvent` | src/shared-channels/store.ts:1917-1969 | Stores the first signed event and answers with the stored one ever after; refuses cancelled and failed rows. |
| `Database.Store.CompleteBridgeDelivery` | src/shared-channels/store.ts:1971-2027 | Marks the row delivered and adds the mapping, or does neither: a conflict on the mapping takes the update back. |
| `Database.Store.MarkBridgeDeliveryRetry` | src/shared-channels/store.ts:2029-2054 | Moves every row but delivered and cancelled ones to retry, or to failed on the last attempt. |
| `Database.Store.CancelBridgeDelivery` | src/shared-channels/store.ts:2056-2072 | Cancels every row but delivered ones. |
| `Database.Store.ClaimUndeliverableNotice` | src/shared-channels/store.ts:2335-2367 | Claims a source event's notice exactly once. |
| `Database.Store.ClaimCommandReceipt` | src/shared-channels/store.ts:2371-2393 | Claims a source event's command exactly once. |
| `Database.Store.ClaimDirectChannelHint` | src/shared-channels/store.ts:2590-2613 | Claims the hint of an inbox and a sender exactly once, and never for a dedicated channel. |
| `Database.Store.EnsureCommunitySlug` | src/shared-channels/store.ts:2524-2567 | The loop over fifty candidates assigns the first free one, or fails as specified. |
| `Database.Store.JoinOpenHub` | src/shared-channels/store.ts:1073-1196 | Handle and membership are assigned together or not at all, the rows are those of the join specification, and new endpoints are read from now on. |
| `Database.Store.UpdateOpenHubSettings` | src/shared-channels/store.ts:1316-1434 | Writes the community's one ordinary row as specified and restarts its cursor exactly if the channel moved, or fails with the specified code and writes nothing. |
| `Database.Store.AttachDedicatedPeerChannel` | src/shared-channels/store.ts:1569-1609 | Binds a channel, to be read from now on, unless there is no home row or some unique key conflicts, and says which. |
| `Database.Store.UnbindDedicatedPeerChannel` | src/shared-channels/store.ts:2402-2424 | Turns the pair's one dedicated row off, and says whether it was on. |
| `Database.Store.ReopenDedicatedPeerChannel` | src/shared-channels/store.ts:2431-2448 | Turns the pair's one dedicated row on, and says whether it was off. |
| `Database.Store.FindRoutableCommunityBySlug` | src/shared-channels/store.ts:2290-2311 | Finds a community that answers to the handle in any letter case and has a receiving endpoint, or proves that there is none. |
| `Database.ResolvedIff` | src/shared-channels/store.ts:2290-2311 | With unique handles, a lookup finds exactly the community with this handle in any letter case, if some row of it receives. |
| `Database.CapitalsResolve` | src/shared-channels/store.ts:2290-2311 | An address that spells a handle in capitals is resolved to its community. |
| `NetworkSteps.IngestAnswersOnce` | src/shared-channels/store.ts:788-943 | An event never read before creates one message with every field as it was read and one queued, unsigned delivery to the row that the two rows' settings pick; a replay answers with the original delivery; anything else leaves every table as it was. |
| `NetworkSteps.IngestCreatesIff` | src/shared-channels/store.ts:666-943 | Of what a route reads, ingest creates a message if and only if the body has 1 to 16384 bytes, the source is of this hub and sends, some row is picked by the two rows' settings, and the event was not read there before; in the last case it is replayed. The key of mappings never refuses it. |
| `NetworkSteps.CompletionNeverConflicts` | src/shared-channels/store.ts:2003-2017 | Under the invariant, completing a signed delivery never meets the unique key of mappings. |
| `NetworkSteps.CompleteKeeps` | src/shared-channels/store.ts:1971-2027 | Completing a published event succeeds if and only if the row was not cancelled, and then the row is delivered. |
| `NetworkProof.NextKeepsSound` | src/shared-channels/connector.ts:285-385 | One invariant over tables, relays, sessions and runs in flight is kept by every step of the network, at any interleaving. |
| `NetworkProof.EveryWorldIsSound` | src/shared-channels/connector.ts:285-425 | That invariant holds in every world of every run that starts from empty tables. |
| `NetworkProof.TakenKeepsSound` | src/shared-channels/connector.ts:741-857 | Any sequence of enabled steps keeps the invariant of the network. |
| `NetworkProof.BridgeEventIsReadIff` | src/shared-channels/connector.ts:753-775 | Whatever is copied where: a received event under a bridge key is never a command, and is routed if and only if it is another bridge's notice on a route bound to a peer in the channel it names (verified, not from the future and of legal size). |
| `NetworkTheorems.MappingsAreInjective` | src/shared-channels/store.ts:1799-1807 | No endpoint knows two bridge messages by one local event: mappings are a partial bijection. |
| `NetworkTheorems.EveryProjectionIsInThread` | src/shared-channels/store.ts:1799-1807 | In every world, each persisted projection replies to the destination-local event of exactly the message that its source event's own tags answer, and to nothing if they answer nothing. |
| `NetworkTheorems.ReplyToMirrorFindsOriginal` | src/shared-channels/bridge.ts:182-190 | Answering a mirrored message in its channel, by the tags of the answer, produces at the original's endpoint a reply to the original event. |
| `NetworkContent.EveryMessageTells` | src/shared-channels/bridge.ts:106-151 | In every world, every stored message has the parent that its own event's tags name, and for its body the whole text (bound channel) or what follows the address with the addressed user in front (inbox). |
| `NetworkContent.EveryProjectionSays` | src/shared-channels/connector.ts:336-352 | In every world, each persisted projection is its message word for word under its author's and its community's name, and its only `h` tag is the channel of its destination row, if that is dedicated or was not rewritten since ingest. |
| `NetworkRecords.EveryRecordIsTrue` | src/shared-channels/store.ts:1855-2072 | In every world, a row has as many attempts as runs have started it, carries the code (cut to 80 characters) of the last run that gave up on it, and has failed exactly if that was a ninth or later run; a delivered row carries no code, and a cancelled one `route_inactive`. |
| `NetworkRecords.GivesUpIff` | src/shared-channels/connector.ts:285-385 | A run gives up with a code if and only if the row is due and its parent is not mirrored at the destination yet, or the destination has no session, or the relay neither acknowledges the event nor has it. |
| `NetworkRecords.CallsOffIff` | src/shared-channels/connector.ts:285-385 | A run turns to cancelling if and only if a row that is still open has a closed endpoint or list at the start, or the row at the second check is no longer due and being delivered. |
| `NetworkContent.HintIsClaimed` | src/shared-channels/store.ts:2590-2613 | A run that delivered leaves the hint of its destination and sender claimed if that is an inbox, and owes the announcement exactly if it was not claimed before. |
| `NetworkContent.OnlyInboxesAreHinted` | src/shared-channels/store.ts:2590-2613 | In every world, only inboxes have been hinted at. |
| `NetworkTheorems.OneEventPerDelivery` | src/shared-channels/store.ts:1917-1969 | However runs of one delivery interleave, crash, repeat or lose answers, all events ever handed to a relay for it are the same event. |
| `NetworkTheorems.DeliveredMeansStored` | src/shared-channels/connector.ts:363-383 | A delivered row's relay holds that event and the destination mapping carries its id. |
| `NetworkTheorems.OneJobPerMessage` | src/shared-channels/store.ts:788-935 | Messages, deliveries and queued jobs correspond one to one, and no two messages come from one event of one endpoint. |
| `NetworkTheorems.AbsorbedForever` | src/shared-channels/store.ts:1983-2072 | Under any interleaving a delivered or cancelled row keeps its state for ever. |
| `NetworkTheorems.FailedStaysIff` | src/shared-channels/store.ts:1983-2072 | Under any interleaving a step keeps a row `failed` if and only if it is not the completion, the cancellation or the non-final retry of another run of that delivery; which of the three decides the row's next state. |
| `NetworkTheorems.CursorFallsIff` | src/shared-channels/store.ts:1400-1404 | An endpoint's cursor falls in a step if and only if settings move its channel at a time before the cursor. |
| `NetworkFirstRun.CursorMayFall` | src/shared-channels/store.ts:1400-1404 | And one does in a run from empty tables: a message five minutes ahead is read, and its inbox is moved to another channel at once. |
| `NetworkFirstRun.DeliveryWaits` | src/shared-channels/store.ts:788-943 | A run from empty tables (two communities join and connect, a person writes to the other's handle, the message is read) ends in a sound world with a waiting, unsigned delivery and no run: where the races start. |
| `NetworkTheorems.OriginIsInjective` | src/shared-channels/connector.ts:396-425 | A mirror, bounce, command reply or hint goes back to one (endpoint, ingested or answered event), and each of those to at most one post of its kind. |
| `NetworkTheorems.AmplificationIsBounded` | src/shared-channels/connector.ts:609-642 | Then, over any run with any replays and copies, all bridges of the network together author at most four distinct events per pair of an endpoint and an event a person wrote. |
| `NetworkTheorems.AmplificationIsFinite` | src/shared-channels/connector.ts:609-642 | And without that condition the number of distinct bridge events is still bounded, by a polynomial in the numbers of endpoints and of events that people wrote. |
| `NetworkTheorems.OnlyStrayNoticesAreRead` | src/shared-channels/connector.ts:753-775 | In any run a step that reads what a bridge wrote ingests another bridge's notice through a bound channel with the id that it names; none bounces it or runs it as a command, and projections are never read. |
| `NetworkTheorems.ApartBridgesAreNeverRead` | src/shared-channels/bridge.ts:74-79 | While no bound channel has the id that another community's notice names, no step ever reads what a bridge wrote. |
| `NetworkSerial.CallsLeftFalls` | src/shared-channels/connector.ts:285-385 | Every call of a run brings it closer to its end, under any interleaving: at most eight calls are left at the start. |
| `NetworkSerial.NextKeepsSerial` | src/shared-channels/connector.ts:1085-1105 | When no two runs of one delivery overlap, the row's state and the run's position fit each other after every step, crashes included. |
| `NetworkSerial.ReturnedMeansSettled` | src/shared-channels/connector.ts:285-385 | A serial run that returned has left its delivery delivered, failed or cancelled, for good. |
| `NetworkSerial.TerminalStatesStay` | src/shared-channels/store.ts:1855-2072 | In serial runs no step leaves a terminal state, `failed` included. |
| `NetworkSerial.ThrowsIff` | src/shared-channels/connector.ts:285-385 | A call throws if and only if a retry was noted with tries remaining, or the session whose key was to sign has been closed meanwhile. |
| `NetworkSerial.LastRunReturns` | src/jobs/queues.ts:24-32 | The ninth run never throws, except with a closed session's wiped key. |
| `NetworkSerial.CancelledMeansRewritten` | src/shared-channels/connector.ts:298-301 | In serial runs a delivery is cancelled only after one of its two endpoints was rewritten since ingest. |
| `NetworkSerial.SettledIsCancelledIff` | src/shared-channels/connector.ts:360-363 | Under any interleaving, a run turns to cancelling an untouched delivery if and only if its second check finds the row moved out of `delivering` by another run. |
| `NetworkRaces.RaceCancels` | src/shared-channels/store.ts:1909-1910 | That race happens: from any sound world with a waiting delivery some run, in which no setting is changed, has one run of it note a retry (or fail it for good) and another then cancel it. |
| `NetworkRaces.FailedMayBeDelivered` | src/shared-channels/store.ts:1983-1990 | From any such world some run fails the delivery for good and then delivers it. |
| `NetworkRaces.FailedMayBeRetried` | src/shared-channels/store.ts:2045-2051 | From any such world some run fails the delivery for good and then puts it back to be retried. |
| `NetworkRaces.ClosedSessionStrands` | src/shared-channels/connector.ts:1730-1733 | From any such world some run closes the session between marking and signing: the last run throws and leaves the row `delivering`. |
| `NetworkRaces.StrayNoticeIsRead` | src/shared-channels/connector.ts:600-609 | Once a notice is copied to a relay where a live session has a bound route for the channel it names, that session's bridge receives and reads it, and queues it for the peer if and only if the endpoint sends, the selection picks a row of the peer and the notice was not read there before. |
| `Connector.Supervisor.Deliver` | src/shared-channels/connector.ts:285-385 | The method is, call by call, exactly one run of the network from start to end, and throws exactly when that run does; exactly the hint that it newly claimed, for its own inbox and sender, is then published, once. |
| `Connector.Supervisor.HintDirectChannel` | src/shared-channels/connector.ts:396-425 | Claims before it publishes, and publishes the hint of this inbox and sender if and only if the claim is new. |
| `Connector.Supervisor.HandleSourceEvent` | src/shared-channels/connector.ts:741-857 | Does exactly the steps that the route, the author, the text and the tables decide, one by one, given what the handle resolves to and what a command means in those tables; the steps are a run of the network. |
| `Connector.Supervisor.ReportUndeliverable` | src/shared-channels/connector.ts:609-642 | Claims the bounce, and posts it, with the text for what failed, if and only if the claim is new. |
| `Connector.Supervisor.HandleCommand` | src/shared-channels/connector.ts:874-895 | Claims the command before it runs: a replay does the claim and nothing else; a new claim makes exactly the changes that the command means and answers once, with the text that its outcome calls for. |
| `ConnectorTheorems.InboxOutcome` | src/shared-channels/connector.ts:793-841 | With unique handles, an addressed message goes to the one community that has the handle in any letter case and receives somewhere; it is bounced, once, with the reason and the text for it if there is none, or if that community is known to have no such member. |
| `ConnectorTheorems.BoundOutcome` | src/shared-channels/connector.ts:777-791 | In a bound channel every readable message that is no command goes to the peer. |
| `ConnectorTheorems.OtherOutcome` | src/shared-channels/connector.ts:741-775 | Any other event that is no command leads to nothing. |
| `ConnectorTheorems.CommandOutcome` | src/shared-channels/connector.ts:874-1012 | A new command is run once for the peer that it means and answered once in its own channel with the exact text: `/open` for the community heard under the name, unless it is the caller's own, has no inbox or gets no channel; `/close` for the named peer or the one that the channel is bound to. |
| `Connector.AnswersComeBack` | src/shared-channels/connector.ts:609-642 | Whatever is said in answer to an event is said in the channel that the event names, at an endpoint of the community on whose relay it was read, under that event's claim. |
| `Connector.HintFitsDelivery` | src/shared-channels/connector.ts:396-425 | A hint goes to the channel of the delivery's own inbox, under the claim of its sender, and spells the `/open` command for the sender's handle. |
| `Connector.ToldCommandOpens` | src/shared-channels/connector.ts:396-425 | What a hint tells its reader to type is parsed as `/open` of the community it names. |
| `Connector.UnroutedIsSilent` | src/shared-channels/connector.ts:741-752 | An event that no route of the session carries leads to nothing. |
| `Connector.Supervisor.BindOrReopenChannel` | src/shared-channels/connector.ts:944-969 | Reserves the channel, inserts the endpoint and, only if nothing was inserted, turns the existing one on: exactly these transactions, in this order. |
| `Connector.Supervisor.RunOpenCommand` | src/shared-channels/connector.ts:922-970 | `/open` makes the transactions of the hub for a peer that the handle resolves to and then says that the channel is open, whether or not it is; or it makes none, for the reason that its answer states. |
| `Connector.Supervisor.RunCloseCommand` | src/shared-channels/connector.ts:979-1013 | `/close` turns off the channel of the bound peer or of the peer named and says whether it was on, or leaves the rows alone and says which of the two is missing. |
| `Connector.RunOutKeepsSound` | src/shared-channels/connector.ts:285-385 | A whole delivery keeps both the invariant of the network and the serial one. |
| `Connector.LastRunSettles` | src/jobs/queues.ts:24-32 | The ninth run, if nothing else touches the delivery or closes its session, always returns and leaves the delivery delivered, failed or cancelled, whatever the relay answers. |
| `LastRun.LastRunEndsAs` | src/shared-channels/connector.ts:285-385 | And it says which: a settled row stays, an inactive route cancels, and any other delivery is delivered if its parent is known, its destination connected and the event confirmed by the relay, and failed otherwise. |
| `Provisioning.ListHubPeersMissingDedicatedChannel` | src/shared-channels/store.ts:1533-1559 | Lists distinct members without a dedicated row, oldest first, as many as there are up to the limit. |
| `Provisioning.ProvisionPeerChannels` | src/jobs/provision-peer-channels.ts:82-136 | A pass takes up the oldest that wait, as many as there are up to the limit. Each of them ends with an open row on its journalled channel and leaves the list, or its hand-off threw, or its channel carries another row; no existing row is changed, and errors count exactly the hand-offs that threw. Without a home membership nothing happens. |
| `Provisioning.ProvisionBindsUnlessRouted` | src/jobs/provision-peer-channels.ts:99-127 | When the hand-off succeeds, a peer stays on the list if and only if its journalled channel already carries another route. |
| `Slugs.AssignedIsAddressable` | src/shared-channels/store.ts:2542-2565 | A newly assigned handle is parsed back by both address spellings and by `/open` and `/close`, and nobody else answers to it in any letter case. |
| `Slugs.StemIsExact` | src/shared-channels/store.ts:2538-2547 | The stem is exactly the host's first label in lower case, without other characters and outer hyphens, cut to forty, or its fallback. |
| `Slugs.AssignKeepsUnique` | src/shared-channels/store.ts:2551-2562 | Assignment keeps handles unique whatever their letter case. |
| `Slugs.CandidateIsExact` | src/shared-channels/store.ts:2549-2550 | A candidate is the stem, or the stem with a hyphen and a number from 2 to 50 behind it, cut to forty characters. |
| `Slugs.CandidatesDifferIff` | src/shared-channels/store.ts:2549-2550 | The fifty candidates differ from each other if and only if the stem has at most 37 characters. |
| `Slugs.SomeCandidateIsFree` | src/shared-channels/store.ts:2549-2565 | With fewer other handles than distinct candidates (fifty up to 37 characters, then ten, two and one) some candidate is free. |
| `Slugs.AssignSucceedsIff` | src/shared-channels/store.ts:2538-2565 | For every host and every set of handles, assignment succeeds if and only if: a stem of two characters is taken and some candidate is free; or one of 3 to 38 has a free candidate; or a longer one is itself free and does not end in a hyphen. |
| `Slugs.AssignIsExact` | src/shared-channels/store.ts:2521-2565 | A handle that is not blank is kept; otherwise success, exactly under that condition, writes the first of the fifty candidates that nobody else has and nothing else. |
| `Slugs.RefusedLabels` | migrations/0003_claims_and_listings.sql:33-34 | Labels of two characters, and labels whose fortieth character of more is a hyphen, are refused by the column although the handle is free and in the address grammar. |
| `Handoff.NextKeepsInv` | src/shared-channels/channel-handoff.ts:209-272 | For any number of callers with stale copies of the journal, every step keeps what each stage promises about the group's roles. |
| `HandoffTheorems.JournalMovesForward` | src/shared-channels/channel-handoff.ts:428-443 | A key's row keeps its channel and owner and its stage never goes back: one key yields one channel. |
| `HandoffTheorems.EveryChannelHasAnOwner` | src/shared-channels/channel-handoff.ts:209-272 | At no moment of any run is a created channel without an owner. |
| `HandoffTheorems.OwnerIsNeverLowered` | src/shared-channels/channel-handoff.ts:239-256 | No step of any caller, however stale, lowers the promoted owner. |
| `HandoffTheorems.FinishedIsHandedOver` | src/shared-channels/channel-handoff.ts:258-272 | A caller that returned finds the chosen owner, who is not the bridge, as owner and the bridge as plain member. |
| `HandoffTheorems.ChannelsFollowKeys` | src/shared-channels/channel-handoff.ts:354-400 | Two callers that returned have the same channel if and only if they used the same key. |
| `HandoffTheorems.CompletesIff` | src/shared-channels/channel-handoff.ts:209-272 | An undisturbed caller, at whatever stage it takes the row up, finishes if and only if the relay tolerates the create or self-demotion that may have to be repeated. |
| `HandoffTheorems.MembersJoin` | src/shared-channels/channel-handoff.ts:226-256 | A caller that takes the row up before the promotion is done and is not disturbed leaves everyone it was to add in the group as a member. |
| `HandoffTheorems.LostDemotionStrands` | src/shared-channels/channel-handoff.ts:258-272 | Once the answer to a demotion that took effect is lost, at every later moment of every run a caller that takes up the row finishes, undisturbed, if and only if the relay accepts the repeated self-demotion; if it does not, no caller of the key ever finishes, whatever happens. That a person raises the bridge's role again by hand, which would help, is no step of these runs. |
| `HandoffService.OwnerIsBest` | src/shared-channels/channel-handoff.ts:171-200 | If the roster names an owner other than the bridge, the chosen key stands in it as owner, else as admin, and comes first among the keys with that standing; none is chosen exactly when it names neither. |
| `HandoffService.NormalizeMembers` | src/shared-channels/channel-handoff.ts:506-516 | Keeps exactly the well-formed keys that are not the bridge's, each once. |
| `HandoffService.Service.RunHandoff` | src/shared-channels/channel-handoff.ts:209-272 | The staged loop is a run of the hand-off machine, logged step by step from the empty journal on, that ends finished or thrown, and undisturbed it is the machine's undisturbed run. |
| `HandoffService.Service.CreateDedicatedChannel` | src/shared-channels/channel-handoff.ts:103-169 | Success means someone other than the bridge owns the key's one channel and the bridge is a member; a new key gets the roster's right owner. An undisturbed call succeeds exactly when the relay tolerates what must be repeated or, for a new key, when the roster names an owner, and then everyone to be added is in the group. |
| `Nip66.QueryNip66Page` | src/sources/nip66.ts:215-243 | Up to three attempts; a page is the newest part of the matching events, and a failure means three unanswered attempts. |
| `Nip66.AddBoundedEvents` | src/sources/nip66.ts:245-258 | Adds exactly the batch, and fails only when more than ten thousand events match. |
| `Nip66.ReadPage` | src/sources/nip66.ts:160-196 | One page with its oldest second read again: nothing is left, or the next page starts strictly earlier and everything newer has been collected, whatever timestamps are shared. |
| `Nip66.QueryRelay` | src/sources/nip66.ts:154-208 | Success collects every matching event of one relay and monitor; giving up without a client failure means one crowded second or ten thousand matches. |
| `Nip66.QueryNip66Events` | src/sources/nip66.ts:146-213 | The result is exactly the events of kind 30166 in the interval, by a monitor of the list, that some relay of the list stores, at most ten thousand; every failure has one of three stated causes. |
| `Nip66.NextWatermark` | src/sources/nip66.ts:76-129 | The watermark becomes the newest trusted event not older than the cursor, or stays. |
| `Nip66.RunNip66Source` | src/sources/nip66.ts:43-144 | A run saves the time of the newest such event that is signed well, or the cursor it started from, which is the saved one unless that is negative or more than five minutes ahead, and then a week ago; or it saves nothing. |
| `Nip66.WatermarkNeverGoesBack` | src/sources/nip66.ts:327-341 | Over any runs with a nondecreasing clock the saved watermark never goes back. |
| `RateLimit.PruneBefore` | src/http/rate-limit.ts:36-42 | The loop drops exactly the times at or before the cutoff. |
| `RateLimit.SubmissionLimiter.CheckSubmissionRateLimit` | src/http/rate-limit.ts:60-118 | For nondecreasing call times a call is allowed if and only if fewer than 5 allowed calls of its address lie in the last minute and 20 in the last hour, and fewer than 30 of all in the last minute; a denied call leaves the history as it was, and its hint is the first second at which a limit that was reached is not. |
| `RateLimit.NoWindowExceeds` | src/http/rate-limit.ts:60-118 | No sliding minute of one address, wherever it ends, ever holds more than 5 allowed calls, and no hour more than 20. |
| `RateLimit.NoGlobalWindowExceeds` | src/http/rate-limit.ts:60-118 | No sliding minute of all calls ever holds more than thirty. |
| `RateLimit.RetryIsExact` | src/http/rate-limit.ts:47-58 | The wait computed for a full window is exact: after that many whole seconds, and no fewer, it has room. |
| `RateLimit.HintIsFirstOpening` | src/http/rate-limit.ts:76-111 | Some limit that is reached now is not reached `s` seconds later, counting the calls themselves, if and only if `s` is at least the returned wait. |
| `RateLimit.ReturnedWaitSuffices` | src/http/rate-limit.ts:76-111 | The returned minimum is the admission time if and only if all full windows have the same wait. |
| `RateLimit.ReturnedWaitIsNeeded` | src/http/rate-limit.ts:108-111 | No whole second before the returned wait would admit the caller. |
| `RateLimit.ShortHint` | src/http/rate-limit.ts:108-111 | The failing family: an address whose hour is full for longer than its minute is denied again after the hint. |
| `RateLimit.ShortHintHappens` | src/http/rate-limit.ts:108-111 | And it happens: after five calls that the limiter let through at each of 0, 60001, 120002 and 180003 ms, the next caller is told to wait 60 seconds and is let in after 3420. |
| `RateLimit.EventLimiter.CheckEventRateLimit` | src/http/rate-limit.ts:145-167 | An event is allowed if and only if fewer than 60 allowed events of its address and fewer than 1000 of all lie in the last minute. |
| `RateLimit.NoEventWindowExceeds` | src/http/rate-limit.ts:145-167 | No sliding minute holds more than 60 events of one address, or 1000 of all. |
| `GithubSweep.Source.RunGitHubSource` | src/sources/github.ts:95-175 | A run completes at most three pages, each the one after the last completed page of any earlier run, and logs what they held; the cursor saved after a full page with more results behind it, before the tenth, is the next page, else the next query. Failures and deaths leave their page to be read again, and a run finishes only after three pages or at the end of the sweep. |
| `GithubSweep.PagesComeInOrder` | src/sources/github.ts:114-189 | Before any visited page of a query come all its earlier pages, in order with none skipped; pages stay within 1 to 10. |
| `GithubSweep.EarlierQueriesAreDone` | src/sources/github.ts:114-189 | When a query is read, every earlier query of the sweep has been read to its end. |
| `GithubSweep.NoPageIsSkipped` | src/sources/github.ts:521-530 | When a query is read, every earlier query has been read page by page up to one that held fewer than 100 results, that reached the query's total, or that was the tenth. |
| `GithubSweep.MoreIsReadNext` | src/sources/github.ts:521-530 | A page of 100 results with more behind it, before the tenth, is followed by the next page of its query. |
| `GithubSweep.SweepEnds` | src/sources/github.ts:164-189 | However runs are cut, the completed pages reach the end of the sweep within the pages that remained. |

## Left out

- Cryptography, WebSocket, NIP-42, HTTP, DNS and timers: foreign code; verification of an event is a parameter and a timer is a step that may happen.
- Connection setup and the reconcile loop: connecting is one step with any routes of the community's own sending endpoints; failure counts, back-off and overlapping reconcile passes are not modelled.
- A community has one connection, so connection ids and community ids are identified; suspended connections appear only as missing sessions.
- The state columns of channels and endpoints: the current schema allows only `active`, so the model has no other value.
- Ownership and candidate verification before joining: taken as passed, since they are guards on other tables; the home community is a parameter.
- Member-name index: whether a name is a member is an oracle answering yes, no or unknown.
- What `/list` reports after its first line, and the name of an opened channel: parameters.
- Handles change in the store's join transaction; over a run of the network they are fixed, since they enter only texts and lookups, whose answer is free there.
- A hand-off within `/open` or provisioning is one step of the network that reserves the channel; its own steps are the hand-off machine's, and one that throws leaves no reservation.
- Text is a sequence of code points: where the code slices or measures UTF-16 units (the 80-character label, the 120-character target), characters outside the basic plane count once here. Lower-casing is exact for characters whose lower case is ASCII and one character long.
- Row order: the rows a query returns are taken in the order of their ids, which stands for creation time where the code orders by it.
- Timestamps of rows, `next_attempt_at`, `attempts` and `last_error` of the hand-off, and the queue's back-off and expiry: no property depends on them; the queue may start any number of runs of a queued delivery at any time.
- Jobs and claims are never deleted; retention is not modelled.
- The first word of ingest's resolved destination: the network lets an addressed message resolve to any community, which covers every answer of the handle lookup.
- A late event older than the subscription cursor can be missed across a rebuild, and a reply to a message that was never mirrored ends as failed: the code gives no more, and neither does the model.
- People changing group roles: others' roles may change at any time, the promoted owner's and the bridge's only through the hand-off.
- Trust of a NIP-66 envelope beyond kind, monitor, time and signature, and the parsing of its content: settled by reading one branch.
- The item loop of the search sweep: fetching and ingesting one page's items is one step.
- Reliability scores, listing, joinability, the directory queries and the interface: easy or display code.
