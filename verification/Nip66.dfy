/**
 Backward pagination over relays that return the newest `limit` matching events
 (NIP-01, the `limit` of a filter), and the watermark kept between runs.
 */
module Nip66 {
  import opened Wrappers
  import opened Nostr
  import opened Counting

  const NIP66_KIND := 30_166
  const QUERY_PAGE_SIZE := 500
  const MAX_EVENTS_PER_RUN := 10_000
  const MAX_PAGES_PER_RELAY := 20
  const MAX_QUERY_ATTEMPTS := 3
  const CLOCK_SKEW := 300
  const INITIAL_LOOKBACK_SECONDS := 7 * 24 * 60 * 60

  type RelayUrl = string

  datatype Request = Request(relay: RelayUrl, monitor: Pubkey, since: int, until: int)

  /** What each relay stores while a run reads it. */
  type Stored = map<RelayUrl, set<Event>>

  predicate Matches(e: Event, r: Request) {
    e.pubkey == r.monitor && e.kind == NIP66_KIND && r.since <= e.createdAt <= r.until
  }

  function Matching(stored: Stored, r: Request): (found: set<Event>)
    ensures forall e :: e in found <==> r.relay in stored && e in stored[r.relay] && Matches(e, r)
  {
    if r.relay in stored then set e | e in stored[r.relay] && Matches(e, r) else {}
  }

  function Elements(batch: seq<Event>): (s: set<Event>)
    ensures forall e :: e in s <==> e in batch
  {
    set e | e in batch
  }

  /** A page is the newest `limit` of the matching events, ties broken in any way. */
  predicate IsNewestPage(batch: seq<Event>, matching: set<Event>, limit: nat) {
    && |Elements(batch)| == |batch| && Elements(batch) <= matching
    && |batch| == (if |matching| < limit then |matching| else limit)
    && forall x, y | x in matching && x !in batch && y in batch :: x.createdAt <= y.createdAt
  }

  /** `client` answers a request at the moment it is asked; a missing answer is a failed query. */
  type Client = map<(Request, nat), seq<Event>>

  ghost predicate IsHonest(client: Client, stored: Stored) {
    forall k | k in client :: IsNewestPage(client[k], Matching(stored, k.0), QUERY_PAGE_SIZE)
  }

  lemma SameSize(small: set<Event>, large: set<Event>)
    requires small <= large && |small| == |large|
    ensures small == large
  {
    assert large == small + (large - small);
    assert |large - small| == 0;
  }

  /** A page that is not full holds everything. */
  lemma ShortPageIsAll(batch: seq<Event>, matching: set<Event>, limit: nat)
    requires IsNewestPage(batch, matching, limit) && |batch| < limit
    ensures Elements(batch) == matching
  {
    SameSize(Elements(batch), matching);
  }

  // ---------------------------------------------------------------- one page

  /** Three attempts in a row get no answer. */
  predicate Unanswered(client: Client, r: Request, asked: nat) {
    (r, asked) !in client && (r, asked + 1) !in client && (r, asked + 2) !in client
  }

  ghost predicate ClientFails(client: Client) {
    exists r, asked: nat :: Unanswered(client, r, asked)
  }

  /** Up to three attempts. */
  method QueryNip66Page(client: Client, r: Request, ghost stored: Stored, asked: nat)
    returns (page: Result<seq<Event>, string>, asked': nat)
    requires IsHonest(client, stored)
    ensures asked < asked' <= asked + MAX_QUERY_ATTEMPTS
    ensures page.Success? ==> IsNewestPage(page.value, Matching(stored, r), QUERY_PAGE_SIZE)
    ensures page.Failure? ==> page.error == "remote_failed" && Unanswered(client, r, asked)
  {
    var attempt := 1;
    asked' := asked;
    while attempt <= MAX_QUERY_ATTEMPTS
      invariant 1 <= attempt <= MAX_QUERY_ATTEMPTS + 1 && asked' == asked + attempt - 1
      invariant forall n | asked <= n < asked' :: (r, n) !in client
    {
      asked' := asked' + 1;
      if (r, asked' - 1) in client {
        return Success(client[(r, asked' - 1)]), asked';
      }
      attempt := attempt + 1;
    }
    return Failure("remote_failed"), asked';
  }

  type Collected = map<EventId, Event>

  /** Events are kept under their own ids, at most ten thousand of them. */
  predicate IsKeyed(events: Collected) {
    forall id | id in events :: id == IdOf(events[id])
  }

  function Held(events: Collected): set<Event> {
    set id | id in events :: events[id]
  }

  lemma HeldSize(events: Collected)
    requires IsKeyed(events)
    ensures |Held(events)| == |events|
    ensures forall e :: e in Held(events) <==> IdOf(e) in events
  {
    forall e ensures e in Held(events) <==> IdOf(e) in events {
      if IdOf(e) in events {
        assert events[IdOf(e)] == e;
      }
    }
    KeysAndHeld(events.Keys, Held(events));
  }

  lemma {:induction false} KeysAndHeld(ids: set<EventId>, held: set<Event>)
    requires forall id | id in ids :: id.IdOf? && id.event in held
    requires forall e | e in held :: IdOf(e) in ids
    ensures |ids| == |held|
  {
    if held != {} {
      var e :| e in held;
      KeysAndHeld(ids - {IdOf(e)}, held - {e});
    } else {
      assert ids == {};
    }
  }

  lemma AddOne(events: Collected, e: Event)
    requires IsKeyed(events)
    ensures IsKeyed(events[IdOf(e) := e]) && Held(events[IdOf(e) := e]) == Held(events) + {e}
  {
    HeldSize(events);
    HeldSize(events[IdOf(e) := e]);
  }

  predicate IsUnion(held: set<Event>, before: set<Event>, batch: seq<Event>) {
    held == before + Elements(batch)
  }

  lemma HoldOne(held: Collected, batch: seq<Event>, i: nat, before: set<Event>, all: set<Event>)
    requires i < |batch| && IsKeyed(held) && IsUnion(Held(held), before, batch[..i])
    requires before <= all && Elements(batch) <= all
    ensures var more := held[IdOf(batch[i]) := batch[i]];
            IsKeyed(more) && IsUnion(Held(more), before, batch[..i + 1]) && |more| <= |all|
  {
    var more := held[IdOf(batch[i]) := batch[i]];
    AddOne(held, batch[i]);
    assert batch[..i + 1] == batch[..i] + [batch[i]];
    assert Elements(batch[..i + 1]) == Elements(batch[..i]) + {batch[i]};
    HeldSize(more);
    assert Held(more) <= all by {
      assert batch[i] in Elements(batch) && Elements(batch[..i]) <= Elements(batch);
    }
    SubsetSize(Held(more), all);
  }

  /** Adds a batch, and fails once more than ten thousand events are held. */
  method AddBoundedEvents(target: Collected, batch: seq<Event>, ghost all: set<Event>)
    returns (events: Result<Collected, string>)
    requires IsKeyed(target) && |target| <= MAX_EVENTS_PER_RUN && Held(target) <= all && Elements(batch) <= all
    ensures events.Success? ==> IsKeyed(events.value) && |events.value| <= 10_000
    ensures events.Success? ==> IsUnion(Held(events.value), Held(target), batch)
    ensures events.Failure? ==> events.error == "incomplete_results" && |all| > 10_000
  {
    var held := target;
    var i := 0;
    while i < |batch|
      invariant i <= |batch| && IsKeyed(held) && |held| <= MAX_EVENTS_PER_RUN
      invariant IsUnion(Held(held), Held(target), batch[..i])
    {
      HoldOne(held, batch, i, Held(target), all);
      held := held[IdOf(batch[i]) := batch[i]];
      i := i + 1;
      if |held| > MAX_EVENTS_PER_RUN {
        return Failure("incomplete_results");
      }
    }
    assert batch[..|batch|] == batch;
    assert IsUnion(Held(held), Held(target), batch);
    return Success(held);
  }

  // ---------------------------------------------------------------- one relay and monitor

  function Oldest(batch: seq<Event>): (at: int)
    requires batch != []
    ensures (exists e | e in batch :: e.createdAt == at) && forall e | e in batch :: at <= e.createdAt
  {
    if |batch| == 1 then batch[0].createdAt
    else
      var rest := Oldest(batch[1..]);
      assert batch == [batch[0]] + batch[1..];
      if rest < batch[0].createdAt then rest else batch[0].createdAt
  }

  /** Everything newer than `pageUntil` has been collected. */
  ghost predicate CoveredDownTo(events: Collected, matching: set<Event>, pageUntil: int) {
    forall e | e in matching && e.createdAt > pageUntil :: e in Held(events)
  }

  /** One timestamp alone fills a page. */
  ghost predicate IsCrowded(stored: Stored, r: Request) {
    exists at | r.since <= at <= r.until :: |Matching(stored, r.(since := at, until := at))| >= QUERY_PAGE_SIZE
  }

  /** A full page and its oldest second together cover everything down to that second. */
  lemma PageCovers(stored: Stored, r: Request, pageUntil: int, batch: seq<Event>)
    requires pageUntil <= r.until && batch != []
    requires IsNewestPage(batch, Matching(stored, r.(until := pageUntil)), QUERY_PAGE_SIZE)
    ensures r.since <= Oldest(batch) <= pageUntil
    ensures forall e | e in Matching(stored, r) && Oldest(batch) <= e.createdAt <= pageUntil ::
              e in batch || e in Matching(stored, r.(since := Oldest(batch), until := Oldest(batch)))
  {
    var at := Oldest(batch);
    var low :| low in batch && low.createdAt == at;
    assert low in Elements(batch);
    forall e | e in Matching(stored, r) && at <= e.createdAt <= pageUntil
      ensures e in batch || e in Matching(stored, r.(since := at, until := at))
    {
      assert e in Matching(stored, r.(until := pageUntil));
    }
  }

  lemma BoundaryCovers(stored: Stored, r: Request, pageUntil: int, batch: seq<Event>,
                       before: Collected, mid: Collected, after: Collected)
    requires pageUntil <= r.until && |batch| == QUERY_PAGE_SIZE
    requires IsNewestPage(batch, Matching(stored, r.(until := pageUntil)), QUERY_PAGE_SIZE)
    requires IsUnion(Held(mid), Held(before), batch)
    requires Held(after) == Held(mid) + Matching(stored, r.(since := Oldest(batch), until := Oldest(batch)))
    ensures CoveredDownTo(before, Matching(stored, r), pageUntil) ==>
              CoveredDownTo(after, Matching(stored, r), Oldest(batch) - 1)
  {
    PageCovers(stored, r, pageUntil, batch);
    forall e | e in Matching(stored, r) && Oldest(batch) <= e.createdAt <= pageUntil ensures e in Held(after) {
      assert e in batch ==> e in Elements(batch);
    }
  }

  lemma FullPage(stored: Stored, r: Request, pageUntil: int, batch: seq<Event>)
    requires pageUntil <= r.until && |batch| == QUERY_PAGE_SIZE
    requires IsNewestPage(batch, Matching(stored, r.(until := pageUntil)), QUERY_PAGE_SIZE)
    ensures IsFullPage(Elements(batch), Matching(stored, r), pageUntil, Oldest(batch) - 1)
  {
  }

  datatype PageOutcome = Done(events: Collected) | More(events: Collected, next: int) | Broken(error: string)

  /** What the collection is allowed to be at any moment of a run. */
  ghost predicate IsWithin(events: Collected, all: set<Event>) {
    IsKeyed(events) && |events| <= MAX_EVENTS_PER_RUN && Held(events) <= all
  }

  /** A full page: five hundred events, all newer than `next` and none newer than `pageUntil`. */
  ghost predicate IsFullPage(page: set<Event>, matching: set<Event>, pageUntil: int, next: int) {
    |page| == QUERY_PAGE_SIZE && page <= matching && forall e | e in page :: next < e.createdAt <= pageUntil
  }

  /**
   Reads one page, and its oldest second once more by itself. Either nothing is left, or
   the next page starts strictly earlier and everything newer has been collected.
   */
  method ReadPage(client: Client, r: Request, pageUntil: int, target: Collected, ghost stored: Stored,
                  ghost all: set<Event>, asked: nat)
    returns (outcome: PageOutcome, asked': nat, ghost page: set<Event>)
    requires IsHonest(client, stored) && IsWithin(target, all) && Matching(stored, r) <= all && pageUntil <= r.until
    ensures asked < asked' <= asked + 2 * MAX_QUERY_ATTEMPTS
    ensures outcome.Done? ==> IsWithin(outcome.events, all) && Held(target) <= Held(outcome.events)
                              && Matching(stored, r.(until := pageUntil)) <= Held(outcome.events)
    ensures outcome.More? ==> IsWithin(outcome.events, all) && Held(target) <= Held(outcome.events)
                              && r.since - 1 <= outcome.next < pageUntil
                              && IsFullPage(page, Matching(stored, r), pageUntil, outcome.next)
                              && (CoveredDownTo(target, Matching(stored, r), pageUntil)
                                  ==> CoveredDownTo(outcome.events, Matching(stored, r), outcome.next))
    ensures outcome.Broken? ==>
              (outcome.error == "remote_failed" && ClientFails(client))
              || (outcome.error == "incomplete_results" && (|all| > 10_000 || IsCrowded(stored, r)))
  {
    page := {};
    var first, n := QueryNip66Page(client, r.(until := pageUntil), stored, asked);
    asked' := n;
    if first.Failure? {
      assert Unanswered(client, r.(until := pageUntil), asked);
      return Broken("remote_failed"), asked', page;
    }
    var batch := first.value;
    assert Matching(stored, r.(until := pageUntil)) <= Matching(stored, r);
    var added := AddBoundedEvents(target, batch, all);
    if added.Failure? {
      return Broken("incomplete_results"), asked', page;
    }
    if |batch| < QUERY_PAGE_SIZE {
      ShortPageIsAll(batch, Matching(stored, r.(until := pageUntil)), QUERY_PAGE_SIZE);
      return Done(added.value), asked', page;
    }
    page := Elements(batch);
    PageCovers(stored, r, pageUntil, batch);
    outcome, asked' := ReadBoundary(client, r, Oldest(batch), added.value, stored, all, asked');
    if outcome.More? {
      FullPage(stored, r, pageUntil, batch);
      BoundaryCovers(stored, r, pageUntil, batch, target, added.value, outcome.events);
    }
  }

  /** The oldest second of a full page, by itself: its events must fit into one page. */
  method ReadBoundary(client: Client, r: Request, at: int, target: Collected, ghost stored: Stored,
                      ghost all: set<Event>, asked: nat)
    returns (outcome: PageOutcome, asked': nat)
    requires IsHonest(client, stored) && IsWithin(target, all) && Matching(stored, r) <= all && r.since <= at <= r.until
    ensures asked < asked' <= asked + MAX_QUERY_ATTEMPTS && !outcome.Done?
    ensures outcome.More? ==> IsWithin(outcome.events, all) && outcome.next == at - 1
                              && Held(outcome.events) == Held(target) + Matching(stored, r.(since := at, until := at))
    ensures outcome.Broken? ==>
              (outcome.error == "remote_failed" && ClientFails(client))
              || (outcome.error == "incomplete_results" && (|all| > 10_000 || IsCrowded(stored, r)))
  {
    var second, n := QueryNip66Page(client, r.(since := at, until := at), stored, asked);
    asked' := n;
    if second.Failure? {
      assert Unanswered(client, r.(since := at, until := at), asked);
      return Broken("remote_failed"), asked';
    }
    var boundary := second.value;
    if |boundary| >= QUERY_PAGE_SIZE {
      assert |Matching(stored, r.(since := at, until := at))| >= QUERY_PAGE_SIZE;
      return Broken("incomplete_results"), asked';
    }
    ShortPageIsAll(boundary, Matching(stored, r.(since := at, until := at)), QUERY_PAGE_SIZE);
    assert Matching(stored, r.(since := at, until := at)) <= Matching(stored, r);
    var both := AddBoundedEvents(target, boundary, all);
    if both.Failure? {
      return Broken("incomplete_results"), asked';
    }
    return More(both.value, at - 1), asked';
  }

  /**
   All pages of one relay and monitor. Success means that every matching event has been
   collected, whatever timestamps are shared; giving up without a client failure means
   that one second is crowded, or that ten thousand events match.
   */
  method QueryRelay(client: Client, r: Request, target: Collected, ghost stored: Stored, ghost all: set<Event>,
                    asked: nat)
    returns (events: Result<Collected, string>, asked': nat)
    requires IsHonest(client, stored) && IsWithin(target, all) && Matching(stored, r) <= all
    ensures asked <= asked'
    ensures events.Success? ==>
              IsWithin(events.value, all) && Covers(Held(events.value), Held(target), Matching(stored, r))
    ensures events.Failure? ==> GivesUp(client, stored, r, all, events.error)
  {
    asked' := asked;
    var pageUntil := r.until;
    var held := target;
    ghost var seen: set<Event> := {};
    var page := 0;
    while page < MAX_PAGES_PER_RELAY
      invariant page <= MAX_PAGES_PER_RELAY && pageUntil <= r.until && asked <= asked'
      invariant IsWithin(held, all) && Held(target) <= Held(held)
      invariant CoveredDownTo(held, Matching(stored, r), pageUntil)
      invariant IsSeen(seen, Matching(stored, r), pageUntil, page)
    {
      var outcome, n; ghost var full;
      outcome, n, full := ReadPage(client, r, pageUntil, held, stored, all, asked');
      asked' := n;
      match outcome {
        case Broken(error) => return Failure(error), asked';
        case Done(done) =>
          CoveredByLast(stored, r, pageUntil, held, done);
          return Success(done), asked';
        case More(more, next) =>
          SeenGrows(seen, full, Matching(stored, r), pageUntil, next, page);
          seen := seen + full;
          held, pageUntil := more, next;
      }
      if pageUntil < r.since {
        assert Matching(stored, r) <= Held(held);
        return Success(held), asked';
      }
      page := page + 1;
    }
    SubsetSize(seen, all);
    return Failure("incomplete_results"), asked';
  }

  /** Why a relay's pages are given up. */
  ghost predicate GivesUp(client: Client, stored: Stored, r: Request, all: set<Event>, error: string) {
    || (error == "remote_failed" && ClientFails(client))
    || (error == "incomplete_results" && (|all| >= 10_000 || IsCrowded(stored, r)))
  }

  /** The full pages read so far: five hundred events each, all different. */
  ghost predicate IsSeen(seen: set<Event>, matching: set<Event>, pageUntil: int, pages: nat) {
    seen <= matching && |seen| == QUERY_PAGE_SIZE * pages && forall e | e in seen :: e.createdAt > pageUntil
  }

  lemma SeenGrows(seen: set<Event>, page: set<Event>, matching: set<Event>, pageUntil: int, next: int, pages: nat)
    requires IsSeen(seen, matching, pageUntil, pages) && IsFullPage(page, matching, pageUntil, next) && next < pageUntil
    ensures IsSeen(seen + page, matching, next, pages + 1)
  {
    assert seen !! page;
  }

  lemma CoveredByLast(stored: Stored, r: Request, pageUntil: int, before: Collected, after: Collected)
    requires pageUntil <= r.until && CoveredDownTo(before, Matching(stored, r), pageUntil)
    requires Held(before) <= Held(after)
    requires Matching(stored, r.(until := pageUntil)) <= Held(after)
    ensures Matching(stored, r) <= Held(after)
  {
    forall e | e in Matching(stored, r) ensures e in Held(after) {
      assert e.createdAt <= pageUntil ==> e in Matching(stored, r.(until := pageUntil));
    }
  }

  // ---------------------------------------------------------------- all relays and monitors

  datatype Config = Config(relays: seq<RelayUrl>, monitors: seq<Pubkey>)

  function MonitorUnion(stored: Stored, relay: RelayUrl, monitors: seq<Pubkey>, since: int, until: int): set<Event> {
    if monitors == [] then {}
    else MonitorUnion(stored, relay, monitors[..|monitors| - 1], since, until)
         + Matching(stored, Request(relay, monitors[|monitors| - 1], since, until))
  }

  /** Every event that the run should see. */
  function AllMatching(stored: Stored, relays: seq<RelayUrl>, monitors: seq<Pubkey>, since: int,
                       until: int): set<Event>
  {
    if relays == [] then {}
    else AllMatching(stored, relays[..|relays| - 1], monitors, since, until)
         + MonitorUnion(stored, relays[|relays| - 1], monitors, since, until)
  }

  ghost predicate GivesUpSomewhere(client: Client, stored: Stored, since: int, until: int, all: set<Event>,
                                   error: string)
  {
    || (error == "remote_failed" && ClientFails(client))
    || (error == "incomplete_results"
        && (|| |all| >= 10_000
            || exists relay, monitor :: IsCrowded(stored, Request(relay, monitor, since, until))))
  }

  lemma {:induction false} MonitorsGrow(stored: Stored, relay: RelayUrl, monitors: seq<Pubkey>, since: int, until: int,
                                        j: nat)
    requires j < |monitors|
    ensures Matching(stored, Request(relay, monitors[j], since, until))
         <= MonitorUnion(stored, relay, monitors, since, until)
  {
    if j < |monitors| - 1 {
      MonitorsGrow(stored, relay, monitors[..|monitors| - 1], since, until, j);
    }
  }

  lemma {:induction false} RelaysGrow(stored: Stored, relays: seq<RelayUrl>, monitors: seq<Pubkey>, since: int,
                                      until: int, i: nat)
    requires i < |relays|
    ensures MonitorUnion(stored, relays[i], monitors, since, until)
         <= AllMatching(stored, relays, monitors, since, until)
  {
    if i < |relays| - 1 {
      RelaysGrow(stored, relays[..|relays| - 1], monitors, since, until, i);
    }
  }

  /** Some relay of the list stores the event, a monitor of the list published it, and it is of this time. */
  predicate IsWanted(e: Event, stored: Stored, config: Config, since: int, until: int) {
    && (exists i | 0 <= i < |config.relays| :: config.relays[i] in stored && e in stored[config.relays[i]])
    && e.pubkey in config.monitors && e.kind == 30_166 && since <= e.createdAt <= until
  }

  lemma {:induction false} MonitorUnionIff(stored: Stored, relay: RelayUrl, monitors: seq<Pubkey>, since: int,
                                           until: int, e: Event)
    ensures e in MonitorUnion(stored, relay, monitors, since, until)
       <==> && relay in stored && e in stored[relay] && e.pubkey in monitors && e.kind == 30_166
            && since <= e.createdAt <= until
  {
    if monitors != [] {
      var init, last := monitors[..|monitors| - 1], monitors[|monitors| - 1];
      MonitorUnionIff(stored, relay, init, since, until, e);
      assert monitors == init + [last];
    }
  }

  lemma {:induction false} AllMatchingIff(stored: Stored, relays: seq<RelayUrl>, monitors: seq<Pubkey>, since: int,
                                          until: int, e: Event)
    ensures e in AllMatching(stored, relays, monitors, since, until)
       <==> IsWanted(e, stored, Config(relays, monitors), since, until)
  {
    if relays != [] {
      var init, last := relays[..|relays| - 1], relays[|relays| - 1];
      AllMatchingIff(stored, init, monitors, since, until, e);
      MonitorUnionIff(stored, last, monitors, since, until, e);
      OneMoreWanted(stored, init, last, monitors, since, until, e);
      assert relays == init + [last];
    }
  }

  lemma OneMoreWanted(stored: Stored, init: seq<RelayUrl>, last: RelayUrl, monitors: seq<Pubkey>, since: int,
                      until: int, e: Event)
    ensures IsWanted(e, stored, Config(init + [last], monitors), since, until)
       <==> || IsWanted(e, stored, Config(init, monitors), since, until)
            || (&& last in stored && e in stored[last] && e.pubkey in monitors && e.kind == 30_166
                && since <= e.createdAt <= until)
  {
    var relays := init + [last];
    assert relays[|init|] == last;
    forall i | 0 <= i < |init| ensures relays[i] == init[i] {
    }
  }

  lemma WantedIsAll(stored: Stored, config: Config, since: int, until: int)
    ensures forall e :: e in AllMatching(stored, config.relays, config.monitors, since, until)
                   <==> IsWanted(e, stored, config, since, until)
  {
    forall e ensures e in AllMatching(stored, config.relays, config.monitors, since, until)
                <==> IsWanted(e, stored, config, since, until)
    {
      AllMatchingIff(stored, config.relays, config.monitors, since, until, e);
    }
  }

  predicate Covers(held: set<Event>, before: set<Event>, found: set<Event>) {
    before <= held && found <= held
  }

  lemma CoversMore(held: set<Event>, held': set<Event>, before: set<Event>, found: set<Event>, more: set<Event>)
    requires Covers(held, before, found) && Covers(held', held, more)
    ensures Covers(held', before, found + more)
  {
  }

  lemma MonitorWithin(stored: Stored, relay: RelayUrl, monitors: seq<Pubkey>, since: int, until: int, j: nat,
                      all: set<Event>)
    requires j < |monitors| && MonitorUnion(stored, relay, monitors, since, until) <= all
    ensures Matching(stored, Request(relay, monitors[j], since, until)) <= all
  {
    MonitorsGrow(stored, relay, monitors, since, until, j);
  }

  lemma OneMoreMonitor(stored: Stored, relay: RelayUrl, monitors: seq<Pubkey>, since: int, until: int, j: nat)
    requires j < |monitors|
    ensures MonitorUnion(stored, relay, monitors[..j + 1], since, until)
         == MonitorUnion(stored, relay, monitors[..j], since, until)
            + Matching(stored, Request(relay, monitors[j], since, until))
  {
    assert monitors[..j + 1][..j] == monitors[..j];
  }

  lemma OneMoreRelay(stored: Stored, relays: seq<RelayUrl>, monitors: seq<Pubkey>, since: int, until: int, i: nat)
    requires i < |relays|
    ensures AllMatching(stored, relays[..i + 1], monitors, since, until)
         == AllMatching(stored, relays[..i], monitors, since, until)
            + MonitorUnion(stored, relays[i], monitors, since, until)
  {
    assert relays[..i + 1][..i] == relays[..i];
  }

  lemma GivesUpHere(client: Client, stored: Stored, relay: RelayUrl, monitor: Pubkey, since: int, until: int,
                    all: set<Event>, error: string)
    requires GivesUp(client, stored, Request(relay, monitor, since, until), all, error)
    ensures GivesUpSomewhere(client, stored, since, until, all, error)
  {
  }

  method QueryMonitors(client: Client, relay: RelayUrl, monitors: seq<Pubkey>, since: int, until: int,
                       target: Collected, ghost stored: Stored, ghost all: set<Event>, asked: nat)
    returns (events: Result<Collected, string>, asked': nat)
    requires IsHonest(client, stored) && IsWithin(target, all)
    requires MonitorUnion(stored, relay, monitors, since, until) <= all
    ensures events.Success? ==> IsWithin(events.value, all)
                                && Covers(Held(events.value), Held(target),
                                          MonitorUnion(stored, relay, monitors, since, until))
    ensures events.Failure? ==> GivesUpSomewhere(client, stored, since, until, all, events.error)
  {
    asked' := asked;
    var held := target;
    var j := 0;
    while j < |monitors|
      invariant j <= |monitors| && IsWithin(held, all)
      invariant Covers(Held(held), Held(target), MonitorUnion(stored, relay, monitors[..j], since, until))
    {
      MonitorWithin(stored, relay, monitors, since, until, j, all);
      var events, n := QueryRelay(client, Request(relay, monitors[j], since, until), held, stored, all, asked');
      asked' := n;
      if events.Failure? {
        GivesUpHere(client, stored, relay, monitors[j], since, until, all, events.error);
        return Failure(events.error), asked';
      }
      OneMoreMonitor(stored, relay, monitors, since, until, j);
      CoversMore(Held(held), Held(events.value), Held(target), MonitorUnion(stored, relay, monitors[..j], since, until),
                 Matching(stored, Request(relay, monitors[j], since, until)));
      held := events.value;
      j := j + 1;
    }
    assert monitors[..|monitors|] == monitors;
    return Success(held), asked';
  }

  /**
   The whole query. If it returns, the result is exactly the set of events that some
   relay stores for some monitor in the interval, and at most ten thousand of them; if it
   fails, the client failed three times in a row, a second is crowded, or too many match.
   */
  method QueryNip66Events(client: Client, config: Config, since: int, until: int, ghost stored: Stored)
    returns (events: Result<Collected, string>)
    requires IsHonest(client, stored)
    ensures events.Success? ==> |events.value| <= 10_000
    ensures events.Success? ==> Held(events.value) == AllMatching(stored, config.relays, config.monitors, since, until)
    ensures events.Success? ==> forall e :: e in Held(events.value) <==> IsWanted(e, stored, config, since, until)
    ensures events.Failure? ==> GivesUpSomewhere(client, stored, since, until,
                                                 AllMatching(stored, config.relays, config.monitors, since, until),
                                                 events.error)
  {
    ghost var all := AllMatching(stored, config.relays, config.monitors, since, until);
    var held: Collected := map[];
    var asked := 0;
    var i := 0;
    while i < |config.relays|
      invariant i <= |config.relays| && IsWithin(held, all)
      invariant Covers(Held(held), {}, AllMatching(stored, config.relays[..i], config.monitors, since, until))
    {
      RelaysGrow(stored, config.relays, config.monitors, since, until, i);
      var events, n := QueryMonitors(client, config.relays[i], config.monitors, since, until, held, stored, all, asked);
      asked := n;
      if events.Failure? {
        return Failure(events.error);
      }
      OneMoreRelay(stored, config.relays, config.monitors, since, until, i);
      held := events.value;
      i := i + 1;
    }
    assert config.relays[..|config.relays|] == config.relays;
    WantedIsAll(stored, config, since, until);
    return Success(held);
  }

  // ---------------------------------------------------------------- the watermark

  /** `verified` holds the events whose signature is good. */
  predicate IsTrusted(e: Event, monitors: seq<Pubkey>, verified: set<Event>, now: int) {
    e.kind == NIP66_KIND && e.pubkey in monitors && 0 <= e.createdAt <= now + CLOCK_SKEW && e in verified
  }

  function SanitizeTimestampCursor(since: int, fallback: int, now: int): int {
    if since < 0 || since > now + CLOCK_SKEW then fallback else since
  }

  /** A trusted event of the run that is not older than the cursor. */
  predicate MovesCursor(e: Event, monitors: seq<Pubkey>, verified: set<Event>, now: int, since: int) {
    && e.kind == 30_166 && e.pubkey in monitors && e in verified
    && e.createdAt >= since && 0 <= e.createdAt <= now + 300
  }

  /** The newest trusted event becomes the next run's cursor; without one the cursor stays. */
  method NextWatermark(events: set<Event>, monitors: seq<Pubkey>, verified: set<Event>, now: int, since: int)
    returns (next: int)
    ensures since <= next
    ensures next == since || exists e | e in events ::
              MovesCursor(e, monitors, verified, now, since) && e.createdAt == next
    ensures forall e | e in events && MovesCursor(e, monitors, verified, now, since) :: e.createdAt <= next
  {
    var latest: Option<int> := None;
    var left := events;
    while left != {}
      invariant left <= events
      invariant latest.Some? ==> exists e | e in events - left ::
                                   MovesCursor(e, monitors, verified, now, since) && e.createdAt == latest.value
      invariant forall e | e in events - left && MovesCursor(e, monitors, verified, now, since) ::
                  latest.Some? && e.createdAt <= latest.value
      decreases |left|
    {
      var e :| e in left;
      left := left - {e};
      if e.createdAt >= since && IsTrusted(e, monitors, verified, now) {
        latest := Some(if latest.None? || latest.value < e.createdAt then e.createdAt else latest.value);
      }
    }
    next := if latest.None? then since else latest.value;
  }

  /** What one run may save, given what the previous one saved: the contract of `NextWatermark` after sanitizing. */
  ghost predicate IsRun(saved: int, fallback: int, now: int, next: int) {
    var since := SanitizeTimestampCursor(saved, fallback, now);
    next == since || (since <= next <= now + CLOCK_SKEW && 0 <= next)
  }

  /** A saved cursor is kept, unless it is negative or more than five minutes ahead: then it is a week ago. */
  function StartOf(saved: int, now: int): int {
    if 0 <= saved <= now + 300 then saved else now - 604_800
  }

  /** The time of the newest wanted event that is signed well and not from before 1970, or the start without one. */
  ghost predicate IsNewest(at: int, stored: Stored, config: Config, verified: set<Event>, start: int, now: int) {
    && (forall e | IsWanted(e, stored, config, start, now) && e in verified && e.createdAt >= 0 :: e.createdAt <= at)
    && (|| at == start
        || exists e ::
             IsWanted(e, stored, config, start, now) && e in verified && e.createdAt >= 0 && e.createdAt == at)
  }

  /** One run: the sanitized cursor, the query, and the new watermark, or a failure that saves nothing. */
  method RunNip66Source(client: Client, config: Config, saved: int, now: int, verified: set<Event>,
                        ghost stored: Stored)
    returns (next: Result<int, string>)
    requires IsHonest(client, stored)
    ensures |config.monitors| < 2 ==> next == Failure("invalid_configuration")
    ensures next.Success? ==> IsRun(saved, now - INITIAL_LOOKBACK_SECONDS, now, next.value)
    ensures next.Success? ==> IsNewest(next.value, stored, config, verified, StartOf(saved, now), now)
  {
    if |config.monitors| < 2 {
      return Failure("invalid_configuration");
    }
    var since := SanitizeTimestampCursor(saved, now - INITIAL_LOOKBACK_SECONDS, now);
    var events := QueryNip66Events(client, config, since, now, stored);
    if events.Failure? {
      return Failure(events.error);
    }
    var watermark := NextWatermark(Held(events.value), config.monitors, verified, now, since);
    assert since == StartOf(saved, now);
    return Success(watermark);
  }

  /**
   Over any runs with a nondecreasing clock, the saved watermark never goes back, once a
   first run has saved one that is not negative.
   */
  lemma {:induction false} WatermarkNeverGoesBack(saved: seq<int>, clocks: seq<int>, fallbacks: seq<int>, m: nat,
                                                  n: nat)
    requires |saved| == |clocks| + 1 && |fallbacks| == |clocks| && m <= n < |saved|
    requires forall i | 0 <= i < |clocks| :: IsRun(saved[i], fallbacks[i], clocks[i], saved[i + 1])
    requires forall i, j | 0 <= i < j < |clocks| :: clocks[i] <= clocks[j]
    requires m < |clocks| ==> 0 <= saved[m] <= clocks[m] + CLOCK_SKEW
    ensures saved[m] <= saved[n]
    ensures m < |clocks| && n < |clocks| ==> 0 <= saved[n] <= clocks[n] + CLOCK_SKEW
  {
    if m < n {
      WatermarkNeverGoesBack(saved, clocks, fallbacks, m, n - 1);
      assert IsRun(saved[n - 1], fallbacks[n - 1], clocks[n - 1], saved[n]);
      assert n < |clocks| ==> clocks[n - 1] <= clocks[n];
    }
  }
}
