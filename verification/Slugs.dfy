/**
 Community handles: a handle is derived from the relay host's first label, with a
 numeric suffix when other communities already answer to it.
 */
module Slugs {
  import opened Wrappers
  import opened Text
  import opened Nostr
  import opened Addressing
  import opened Commands
  import opened Bridge
  import opened Hub
  import opened Counting

  const ATTEMPTS := 50
  const MAX_SLUG := 40

  type Handles = map<CommunityId, string>

  // ---------------------------------------------------------------- candidates

  function FirstLabel(host: string): string {
    host[..RunLength(BeforeDot, host)]
  }

  /** `replace(/[^a-z0-9-]/g, "")` on the first `n` characters */
  function KeepSlugChars(s: string, n: nat): (kept: string)
    requires n <= |s|
    ensures All(OfSlug, kept)
  {
    if n == 0 then [] else KeepSlugChars(s, n - 1) + if In(s[n - 1], OfSlug) then [s[n - 1]] else []
  }

  function StripLeft(s: string): (t: string)
    ensures All(OfSlug, s) ==> All(OfSlug, t)
    ensures t == [] || t[0] != '-'
  {
    s[RunLength(Hyphen, s)..]
  }

  /** Where the hyphens before `n` begin. */
  function HyphensFrom(s: string, n: nat): (end: nat)
    requires n <= |s|
    ensures end <= n && (end > 0 ==> s[end - 1] != '-')
  {
    if n == 0 || s[n - 1] != '-' then n else HyphensFrom(s, n - 1)
  }

  function StripRight(s: string): (t: string)
    ensures t <= s
    ensures t == [] || t[|t| - 1] != '-'
  {
    s[..HyphensFrom(s, |s|)]
  }

  function Base(host: string): (base: string)
    ensures 1 <= |base| <= MAX_SLUG && All(OfSlug, base) && base[0] != '-'
    ensures |base| < MAX_SLUG ==> base[|base| - 1] != '-'
  {
    var lower := ToLower(FirstLabel(host));
    var name := StripRight(StripLeft(KeepSlugChars(lower, |lower|)));
    var cut := Take(name, MAX_SLUG);
    if cut == [] then "community" else cut
  }

  function Stem(host: string): (stem: string)
    ensures ValidSlug(stem)
    ensures |stem| < MAX_SLUG ==> stem[|stem| - 1] != '-'
  {
    Lengthened(Base(host))
  }

  function Lengthened(base: string): (stem: string)
    requires 1 <= |base| <= MAX_SLUG && All(OfSlug, base) && base[0] != '-'
    requires |base| < MAX_SLUG ==> base[|base| - 1] != '-'
    ensures ValidSlug(stem)
    ensures |stem| < MAX_SLUG ==> stem[|stem| - 1] != '-'
  {
    if |base| >= 2 then base else base + "-community"
  }

  function Digit(n: nat): char
    requires n < 10
  {
    (48 + n) as char
  }

  function Decimal(n: nat): (d: string)
    requires n < 100
    ensures 1 <= |d| <= 2 && forall i | 0 <= i < |d| :: '0' <= d[i] <= '9'
  {
    if n < 10 then [Digit(n)] else [Digit(n / 10), Digit(n % 10)]
  }

  function Candidate(stem: string, attempt: nat): string
    requires attempt < ATTEMPTS
  {
    if attempt == 0 then stem else Take(stem + "-" + Decimal(attempt + 1), MAX_SLUG)
  }

  /** The digits spell the number, without a leading zero. */
  predicate Spells(digits: string, n: nat) {
    && (forall i | 0 <= i < |digits| :: '0' <= digits[i] <= '9')
    && (|| (|digits| == 1 && digits[0] as int == 48 + n)
        || (|digits| == 2 && digits[0] != '0' && (digits[0] as int - 48) * 10 + (digits[1] as int - 48) == n))
  }

  /** The stem, then a hyphen and the number, from 2 to 50, behind it, cut to forty characters. */
  ghost predicate IsCandidate(slug: string, stem: string, attempt: nat) {
    if attempt == 0 then slug == stem
    else
      exists digits: string :: Spells(digits, attempt + 1) && slug == FirstForty(stem + "-" + digits)
  }

  function FirstForty(text: string): string {
    if |text| <= 40 then text else text[..40]
  }

  lemma DecimalSpells(n: nat, digits: string)
    requires 0 < n < 100
    ensures Spells(digits, n) <==> digits == Decimal(n)
  {
    if |digits| == 1 {
      assert digits == [digits[0]];
    } else if |digits| == 2 {
      assert digits == [digits[0], digits[1]];
    }
  }

  lemma CandidateIsExact(stem: string, attempt: nat, slug: string)
    requires attempt < 50
    ensures Candidate(stem, attempt) == slug <==> IsCandidate(slug, stem, attempt)
  {
    if attempt > 0 {
      var n := attempt + 1;
      DecimalSpells(n, Decimal(n));
      forall digits | Spells(digits, n) ensures digits == Decimal(n) {
        DecimalSpells(n, digits);
      }
    }
  }

  /** Every candidate is a handle that an author can type. */
  lemma CandidateIsValid(stem: string, attempt: nat)
    requires ValidSlug(stem) && attempt < ATTEMPTS
    ensures ValidSlug(Candidate(stem, attempt))
  {
    if attempt > 0 {
      var text := stem + "-" + Decimal(attempt + 1);
      assert All(OfSlug, text);
      assert text[0] == stem[0];
    }
  }

  lemma DecimalIsInjective(m: nat, n: nat)
    requires m < 100 && n < 100 && Decimal(m) == Decimal(n)
    ensures m == n
  {
    if m >= 10 {
      assert Decimal(m)[0] == Digit(m / 10) && Decimal(m)[1] == Digit(m % 10);
      assert Decimal(n)[0] == Digit(n / 10) && Decimal(n)[1] == Digit(n % 10);
    } else {
      assert Decimal(m)[0] == Digit(m);
    }
  }

  /** A short stem leaves room for every suffix. */
  lemma ShortCandidate(stem: string, attempt: nat)
    requires |stem| <= MAX_SLUG - 3 && 0 < attempt < ATTEMPTS
    ensures Candidate(stem, attempt) == stem + ("-" + Decimal(attempt + 1))
  {
    assert stem + "-" + Decimal(attempt + 1) == stem + ("-" + Decimal(attempt + 1));
  }

  /** One of 38 characters leaves room for the first digit only. */
  lemma TightCandidate(stem: string, attempt: nat)
    requires |stem| == MAX_SLUG - 2 && 0 < attempt < ATTEMPTS
    ensures Candidate(stem, attempt) == stem + ("-" + [Decimal(attempt + 1)[0]])
  {
    var text := stem + "-" + Decimal(attempt + 1);
    assert text[..MAX_SLUG] == stem + ("-" + [Decimal(attempt + 1)[0]]);
  }

  /** How many of the first candidates differ from each other. */
  function Room(stem: string): nat {
    if |stem| <= MAX_SLUG - 3 then ATTEMPTS
    else if |stem| == MAX_SLUG - 2 then 10
    else if |stem| == MAX_SLUG - 1 then 2
    else 1
  }

  lemma ShortCandidatesDiffer(stem: string, i: nat, j: nat)
    requires |stem| <= MAX_SLUG - 3 && i < j < ATTEMPTS
    ensures Candidate(stem, i) != Candidate(stem, j)
  {
    ShortCandidate(stem, j);
    if i > 0 {
      ShortCandidate(stem, i);
      if Candidate(stem, i) == Candidate(stem, j) {
        assert Candidate(stem, i)[|stem| + 1..] == Decimal(i + 1);
        assert Candidate(stem, j)[|stem| + 1..] == Decimal(j + 1);
        DecimalIsInjective(i + 1, j + 1);
      }
    }
  }

  lemma TightCandidatesDiffer(stem: string, i: nat, j: nat)
    requires |stem| == MAX_SLUG - 2 && i < j < 10
    ensures Candidate(stem, i) != Candidate(stem, j)
  {
    TightCandidate(stem, j);
    if i > 0 {
      TightCandidate(stem, i);
      assert Candidate(stem, i)[MAX_SLUG - 1] == Decimal(i + 1)[0] == Digit(i + 1);
      assert Candidate(stem, j)[MAX_SLUG - 1] == Decimal(j + 1)[0] == Digit(if j == 9 then 1 else j + 1);
    }
  }

  lemma FirstCandidatesDiffer(stem: string, i: nat, j: nat)
    requires i < j < Room(stem) && |stem| <= MAX_SLUG
    ensures Candidate(stem, i) != Candidate(stem, j)
  {
    if |stem| <= MAX_SLUG - 3 {
      ShortCandidatesDiffer(stem, i, j);
    } else if |stem| == MAX_SLUG - 2 {
      TightCandidatesDiffer(stem, i, j);
    }
  }

  lemma LongCandidatesCollide(stem: string)
    requires MAX_SLUG - 3 < |stem| <= MAX_SLUG
    ensures Candidate(stem, 1) == Candidate(stem, 19)
  {
    assert Decimal(2) == [Digit(2)] && Decimal(20) == [Digit(2), Digit(0)];
    var two, twenty := stem + "-" + Decimal(2), stem + "-" + Decimal(20);
    assert twenty == two + [Digit(0)];
    assert Take(two, MAX_SLUG) == Take(twenty, MAX_SLUG);
  }

  /** The fifty candidates differ from each other exactly for stems of at most 37 characters. */
  lemma CandidatesDifferIff(stem: string)
    requires ValidSlug(stem)
    ensures (forall i, j | 0 <= i < j < 50 :: Candidate(stem, i) != Candidate(stem, j)) <==> |stem| <= 37
  {
    if |stem| <= MAX_SLUG - 3 {
      forall i, j | 0 <= i < j < ATTEMPTS ensures Candidate(stem, i) != Candidate(stem, j) {
        ShortCandidatesDiffer(stem, i, j);
      }
    } else {
      LongCandidatesCollide(stem);
    }
  }

  // ---------------------------------------------------------------- assignment

  /** `lower(slug) = lower($1) AND id <> $2` */
  predicate IsTaken(handles: Handles, community: CommunityId, slug: string) {
    exists c | c in handles :: c != community && ToLower(handles[c]) == ToLower(slug)
  }

  /** The check constraint of the handle column: 3 to 50 characters, ending in a letter or digit. */
  predicate FitsColumn(slug: string) {
    && 3 <= |slug| <= 50 && All(OfSlug, slug)
    && IsLowerOrDigit(slug[0]) && IsLowerOrDigit(slug[|slug| - 1])
  }

  predicate HasHandle(handles: Handles, community: CommunityId) {
    community in handles && Trim(handles[community]) != []
  }

  function FirstFree(handles: Handles, community: CommunityId, stem: string, from: nat): (k: nat)
    requires from <= ATTEMPTS
    ensures from <= k <= ATTEMPTS
    ensures forall j | from <= j < k :: IsTaken(handles, community, Candidate(stem, j))
    ensures k < ATTEMPTS ==> !IsTaken(handles, community, Candidate(stem, k))
    decreases ATTEMPTS - from
  {
    if from == ATTEMPTS || !IsTaken(handles, community, Candidate(stem, from)) then from
    else FirstFree(handles, community, stem, from + 1)
  }

  datatype SlugOutcome = SlugOutcome(handles: Handles, result: Result<string, string>)

  /** The first free candidate is written, if the column takes it. */
  function AssignFrom(handles: Handles, community: CommunityId, stem: string): SlugOutcome {
    var k := FirstFree(handles, community, stem, 0);
    if k == ATTEMPTS then SlugOutcome(handles, Failure("invalid_input"))
    else
      var slug := Candidate(stem, k);
      if FitsColumn(slug) then SlugOutcome(handles[community := slug], Success(slug))
      else SlugOutcome(handles, Failure("check_violation"))
  }

  /** `host` is absent for an unknown community. */
  function Assign(handles: Handles, community: CommunityId, host: Option<string>): SlugOutcome {
    if host.None? then SlugOutcome(handles, Failure("invalid_input"))
    else if HasHandle(handles, community) then SlugOutcome(handles, Success(handles[community]))
    else AssignFrom(handles, community, Stem(host.value))
  }

  /** Both spellings of an address carry the handle back, and `/open` and `/close` name it. */
  predicate IsAddressable(slug: string, gap: string, body: string) {
    && ParseMessageAddress(Bracketed(slug, None, gap, body)) == Some(MessageAddress(slug, None, body))
    && (gap != [] ==> ParseMessageAddress(Bare(slug, None, gap, body)) == Some(MessageAddress(slug, None, body)))
    && ParseCommand("/open" + " " + slug) == Some(Open(slug))
    && ParseCommand("/close" + " " + slug) == Some(Close(Some(slug)))
  }

  lemma ValidSlugIsAddressable(slug: string, gap: string, body: string)
    requires ValidSlug(slug) && Blank(gap) && StartsWithInk(body)
    ensures IsAddressable(slug, gap, body)
  {
    ValidSlugIsLower(slug);
    BracketedRoundTrip(slug, None, gap, body);
    if gap != [] {
      BareRoundTrip(slug, None, gap, body);
    }
    CommandRoundTrip(slug);
  }

  /** A newly assigned handle is addressable, and no other community answers to it in any letter case. */
  lemma AssignedIsAddressable(handles: Handles, community: CommunityId, host: string, gap: string, body: string)
    requires !HasHandle(handles, community) && Assign(handles, community, Some(host)).result.Success?
    requires Blank(gap) && StartsWithInk(body)
    ensures var slug := Assign(handles, community, Some(host)).result.value;
            ValidSlug(slug) && !IsTaken(handles, community, slug) && IsAddressable(slug, gap, body)
  {
    CandidateIsValid(Stem(host), FirstFree(handles, community, Stem(host), 0));
    ValidSlugIsAddressable(Assign(handles, community, Some(host)).result.value, gap, body);
  }

  ghost predicate CaseInsensitivelyUnique(handles: Handles) {
    forall a, b | a in handles && b in handles && ToLower(handles[a]) == ToLower(handles[b]) :: a == b
  }

  lemma FreeSlugKeepsUnique(handles: Handles, community: CommunityId, out: SlugOutcome)
    requires CaseInsensitivelyUnique(handles) && WritesFree(handles, community, out)
    ensures CaseInsensitivelyUnique(out.handles)
  {
  }

  /** Nothing was written, or a handle that nobody else answers to. */
  predicate WritesFree(handles: Handles, community: CommunityId, out: SlugOutcome) {
    || out.handles == handles
    || (&& out.result.Success? && out.handles == handles[community := out.result.value]
        && !IsTaken(handles, community, out.result.value))
  }

  lemma FromWritesFree(handles: Handles, community: CommunityId, stem: string)
    ensures WritesFree(handles, community, AssignFrom(handles, community, stem))
  {
  }

  /** Assignment keeps handles unique whatever their letter case. */
  lemma AssignKeepsUnique(handles: Handles, community: CommunityId, host: Option<string>)
    requires CaseInsensitivelyUnique(handles)
    ensures CaseInsensitivelyUnique(Assign(handles, community, host).handles)
  {
    if host.Some? {
      FromWritesFree(handles, community, Stem(host.value));
    }
    FreeSlugKeepsUnique(handles, community, Assign(handles, community, host));
  }

  // ---------------------------------------------------------------- when assignment succeeds

  /** `owners` lists, attempt by attempt, a community that already answers to the candidate. */
  ghost predicate AreOwners(handles: Handles, community: CommunityId, stem: string, owners: seq<CommunityId>) {
    && |owners| <= ATTEMPTS
    && forall k | 0 <= k < |owners| :: IsOwner(handles, community, Candidate(stem, k), owners[k])
  }

  predicate IsOwner(handles: Handles, community: CommunityId, slug: string, owner: CommunityId) {
    owner in handles && owner != community && ToLower(handles[owner]) == ToLower(slug)
  }

  lemma {:induction false} OwnersExist(handles: Handles, community: CommunityId, stem: string, n: nat)
    returns (owners: seq<CommunityId>)
    requires n <= ATTEMPTS && forall k | 0 <= k < n :: IsTaken(handles, community, Candidate(stem, k))
    ensures |owners| == n && AreOwners(handles, community, stem, owners)
  {
    owners := [];
    if n > 0 {
      var init := OwnersExist(handles, community, stem, n - 1);
      var owner := OwnerOf(handles, community, Candidate(stem, n - 1));
      OwnersGrow(handles, community, stem, init, owner);
      owners := init + [owner];
    }
  }

  lemma OwnersGrow(handles: Handles, community: CommunityId, stem: string, init: seq<CommunityId>, owner: CommunityId)
    requires AreOwners(handles, community, stem, init) && |init| < ATTEMPTS
    requires IsOwner(handles, community, Candidate(stem, |init|), owner)
    ensures AreOwners(handles, community, stem, init + [owner])
  {
    forall k | 0 <= k < |init| + 1 ensures IsOwner(handles, community, Candidate(stem, k), (init + [owner])[k]) {
      assert k < |init| ==> IsOwner(handles, community, Candidate(stem, k), init[k]);
    }
  }

  lemma OwnerOf(handles: Handles, community: CommunityId, slug: string) returns (owner: CommunityId)
    requires IsTaken(handles, community, slug)
    ensures IsOwner(handles, community, slug, owner)
  {
    owner :| owner in handles && owner != community && ToLower(handles[owner]) == ToLower(slug);
  }

  /** Distinct candidates are taken by distinct communities. */
  lemma OwnersDiffer(handles: Handles, community: CommunityId, stem: string, owners: seq<CommunityId>, i: nat, j: nat)
    requires ValidSlug(stem) && |owners| <= Room(stem)
    requires AreOwners(handles, community, stem, owners) && i < j < |owners|
    ensures owners[i] != owners[j]
  {
    assert IsOwner(handles, community, Candidate(stem, i), owners[i]);
    assert IsOwner(handles, community, Candidate(stem, j), owners[j]);
    CandidateIsValid(stem, i);
    CandidateIsValid(stem, j);
    ValidSlugIsLower(Candidate(stem, i));
    ValidSlugIsLower(Candidate(stem, j));
    FirstCandidatesDiffer(stem, i, j);
  }

  lemma OwnersCount(handles: Handles, community: CommunityId, stem: string, owners: seq<CommunityId>)
    requires ValidSlug(stem) && |owners| <= Room(stem)
    requires AreOwners(handles, community, stem, owners)
    ensures |owners| <= |handles.Keys - {community}|
  {
    forall i, j | 0 <= i < j < |owners| ensures owners[i] != owners[j] {
      OwnersDiffer(handles, community, stem, owners, i, j);
    }
    forall k | 0 <= k < |owners| ensures owners[k] in handles.Keys - {community} {
      assert IsOwner(handles, community, Candidate(stem, k), owners[k]);
    }
    DistinctListSize(owners);
    SubsetSize((set c | c in owners), handles.Keys - {community});
  }

  /** Some candidate is nobody else's. */
  ghost predicate HasRoom(handles: Handles, community: CommunityId, stem: string) {
    exists k | 0 <= k < 50 :: !IsTaken(handles, community, Candidate(stem, k))
  }

  lemma RoomIsFirstFree(handles: Handles, community: CommunityId, stem: string)
    ensures HasRoom(handles, community, stem) <==> FirstFree(handles, community, stem, 0) < ATTEMPTS
  {
    var k := FirstFree(handles, community, stem, 0);
    if k < ATTEMPTS {
      assert !IsTaken(handles, community, Candidate(stem, k));
    }
  }

  /** With fewer other handles than distinct candidates, some candidate is free. */
  lemma SomeCandidateIsFree(handles: Handles, community: CommunityId, stem: string)
    requires ValidSlug(stem) && |handles.Keys - {community}| < Room(stem)
    ensures HasRoom(handles, community, stem)
  {
    if !HasRoom(handles, community, stem) {
      var owners := OwnersExist(handles, community, stem, Room(stem));
      OwnersCount(handles, community, stem, owners);
    }
  }

  lemma StemFits(stem: string)
    requires ValidSlug(stem)
    ensures FitsColumn(stem) <==> |stem| >= 3 && stem[|stem| - 1] != '-'
  {
    assert In(stem[|stem| - 1], OfSlug);
  }

  /** Up to 38 characters leave room for a digit of the suffix. */
  lemma SuffixedFits(stem: string, attempt: nat)
    requires ValidSlug(stem) && |stem| <= MAX_SLUG - 2 && 0 < attempt < ATTEMPTS
    ensures FitsColumn(Candidate(stem, attempt))
  {
    CandidateIsValid(stem, attempt);
    var slug, d := Candidate(stem, attempt), Decimal(attempt + 1);
    if |stem| == MAX_SLUG - 2 {
      TightCandidate(stem, attempt);
    } else {
      ShortCandidate(stem, attempt);
      assert slug[|slug| - 1] == d[|d| - 1];
    }
  }

  /** Longer stems have no candidate that fits but, at best, themselves. */
  lemma LongSuffixes(stem: string, attempt: nat)
    requires ValidSlug(stem) && MAX_SLUG - 2 < |stem| <= MAX_SLUG && 0 < attempt < ATTEMPTS
    ensures if |stem| == MAX_SLUG then Candidate(stem, attempt) == stem else !FitsColumn(Candidate(stem, attempt))
  {
    var text := stem + "-" + Decimal(attempt + 1);
    if |stem| == MAX_SLUG {
      assert text[..MAX_SLUG] == stem;
    } else {
      assert text[MAX_SLUG - 1] == '-';
    }
  }

  /** When a handle can be assigned to a community that has none, as a caller can tell beforehand. */
  ghost predicate IsAssignable(handles: Handles, community: CommunityId, stem: string)
    requires ValidSlug(stem)
  {
    if |stem| == 2 then IsTaken(handles, community, stem) && HasRoom(handles, community, stem)
    else if |stem| <= 38 then HasRoom(handles, community, stem)
    else !IsTaken(handles, community, stem) && stem[|stem| - 1] != '-'
  }

  /**
   Exactly when assignment succeeds, for every host and every set of handles. The column
   refuses two characters and a trailing hyphen, although the address grammar allows both: a
   stem of two characters needs a suffix and so must be taken, one of 3 to 38 needs some free
   candidate, and a longer one must itself be free and not end in a hyphen.
   */
  lemma AssignSucceedsIff(handles: Handles, community: CommunityId, host: string)
    requires !HasHandle(handles, community)
    ensures Assign(handles, community, Some(host)).result.Success? <==> IsAssignable(handles, community, Stem(host))
  {
    AssignTakesFirstFree(handles, community, host);
    FirstFreeFitsIff(handles, community, Stem(host));
  }

  /** The handle is a candidate that nobody else has, and somebody else has every candidate before it. */
  ghost predicate IsFirstFree(handles: Handles, community: CommunityId, stem: string, k: nat, slug: string) {
    && k < 50 && IsCandidate(slug, stem, k) && !IsTaken(handles, community, slug)
    && forall j: nat, other | j < k && IsCandidate(other, stem, j) :: IsTaken(handles, community, other)
  }

  /**
   A handle that is not blank is kept. Without one, assignment succeeds exactly as above, with
   the first candidate that is free, and writes nothing else.
   */
  lemma AssignIsExact(handles: Handles, community: CommunityId, host: string)
    ensures var out := Assign(handles, community, Some(host));
            if community in handles && !Blank(handles[community]) then
              out == SlugOutcome(handles, Success(handles[community]))
            else
              && (out.result.Success? <==> IsAssignable(handles, community, Stem(host)))
              && (out.result.Failure? ==> out.handles == handles)
              && (out.result.Success? ==>
                    && out.handles == handles[community := out.result.value]
                    && exists k :: IsFirstFree(handles, community, Stem(host), k, out.result.value))
  {
    if community in handles {
      TrimIsEmptyIffBlank(handles[community]);
    }
    if !HasHandle(handles, community) {
      AssignSucceedsIff(handles, community, host);
      var k := FirstFree(handles, community, Stem(host), 0);
      if k < ATTEMPTS {
        FirstFreeIsFirst(handles, community, Stem(host), k);
      }
    }
  }

  lemma FirstFreeIsFirst(handles: Handles, community: CommunityId, stem: string, k: nat)
    requires k == FirstFree(handles, community, stem, 0) && k < ATTEMPTS
    ensures IsFirstFree(handles, community, stem, k, Candidate(stem, k))
  {
    CandidateIsExact(stem, k, Candidate(stem, k));
    forall j: nat, other | j < k && IsCandidate(other, stem, j) ensures IsTaken(handles, community, other) {
      CandidateIsExact(stem, j, other);
    }
  }

  /** There is a free candidate, and the first such fits the column. */
  ghost predicate FirstFreeFits(handles: Handles, community: CommunityId, stem: string) {
    var k := FirstFree(handles, community, stem, 0);
    k < ATTEMPTS && FitsColumn(Candidate(stem, k))
  }

  lemma AssignTakesFirstFree(handles: Handles, community: CommunityId, host: string)
    requires !HasHandle(handles, community)
    ensures Assign(handles, community, Some(host)).result.Success? <==> FirstFreeFits(handles, community, Stem(host))
  {
  }

  lemma FirstFreeFitsIff(handles: Handles, community: CommunityId, stem: string)
    requires ValidSlug(stem) && (|stem| < MAX_SLUG ==> stem[|stem| - 1] != '-')
    ensures FirstFreeFits(handles, community, stem) <==> IsAssignable(handles, community, stem)
  {
    if |stem| <= MAX_SLUG - 2 {
      ShortStemFits(handles, community, stem);
    } else {
      LongStemFits(handles, community, stem);
    }
  }

  lemma ShortStemFits(handles: Handles, community: CommunityId, stem: string)
    requires ValidSlug(stem) && |stem| <= MAX_SLUG - 2 && (|stem| == 2 || stem[|stem| - 1] != '-')
    ensures FirstFreeFits(handles, community, stem) <==> IsAssignable(handles, community, stem)
  {
    RoomIsFirstFree(handles, community, stem);
    StemFits(stem);
    var k := FirstFree(handles, community, stem, 0);
    assert Candidate(stem, 0) == stem;
    if 0 < k < ATTEMPTS {
      SuffixedFits(stem, k);
    }
  }

  lemma LongStemFits(handles: Handles, community: CommunityId, stem: string)
    requires ValidSlug(stem) && |stem| > MAX_SLUG - 2
    ensures FirstFreeFits(handles, community, stem) <==> IsAssignable(handles, community, stem)
  {
    StemFits(stem);
    var k := FirstFree(handles, community, stem, 0);
    assert Candidate(stem, 0) == stem;
    if 0 < k < ATTEMPTS {
      LongSuffixes(stem, k);
    }
  }

  lemma LabelOfHost(name: string, domain: string)
    requires All(OfSlug, name)
    ensures FirstLabel(name + "." + domain) == name
  {
    forall i | 0 <= i < |name| ensures In(name[i], BeforeDot) {
      assert In(name[i], OfSlug);
    }
    RunStopsAt(BeforeDot, name, "." + domain);
    assert name + "." + domain == name + ("." + domain);
  }

  lemma {:induction false} SlugCharsAreKept(s: string, n: nat)
    requires All(OfSlug, s) && n <= |s|
    ensures KeepSlugChars(s, n) == s[..n]
  {
    if n > 0 {
      SlugCharsAreKept(s, n - 1);
      assert In(s[n - 1], OfSlug);
    }
  }

  /** A label that already looks like a handle is the stem, cut to forty characters. */
  lemma CleanLabelIsStem(name: string, domain: string)
    requires |name| >= 2 && All(OfSlug, name) && name[0] != '-' && name[|name| - 1] != '-'
    ensures Stem(name + "." + domain) == Take(name, MAX_SLUG)
  {
    LabelOfHost(name, domain);
    forall i | 0 <= i < |name| ensures !('A' <= name[i] <= 'Z') && name[i] != '\U{212A}' {
      assert In(name[i], OfSlug);
    }
    LowerIsIdentity(name);
    SlugCharsAreKept(name, |name|);
  }

  // ---------------------------------------------------------------- the stem, character by character

  /** What is kept of the first `n` characters: letters in lower case, digits and hyphens. */
  function Kept(s: string, n: nat): string
    requires n <= |s|
  {
    if n == 0 then []
    else
      var c := s[n - 1];
      Kept(s, n - 1)
      + if 'A' <= c <= 'Z' then [(c as int + 32) as char]
        else if c == '\U{212A}' then ['k']
        else if 'a' <= c <= 'z' || '0' <= c <= '9' || c == '-' then [c]
        else []
  }

  predicate IsHyphens(s: string) {
    forall i | 0 <= i < |s| :: s[i] == '-'
  }

  /** The host up to its first dot. */
  predicate IsFirstLabel(name: string, host: string) {
    name <= host && '.' !in name && (|name| == |host| || host[|name|] == '.')
  }

  /** The parts of what was kept: a core with no hyphen at either end, between hyphens. */
  predicate AreParts(kept: string, lead: string, core: string, trail: string) {
    && kept == lead + core + trail && IsHyphens(lead) && IsHyphens(trail)
    && (core == [] || (core[0] != '-' && core[|core| - 1] != '-'))
  }

  /** The core, cut to forty characters and made long enough to be a handle. */
  function CoreStem(core: string): string {
    if core == [] then "community"
    else if |core| == 1 then core + "-community"
    else if |core| <= 40 then core else core[..40]
  }

  /** What is left of the first label without its outer hyphens, cut or lengthened. */
  ghost predicate IsStemOf(stem: string, host: string) {
    exists name: string, lead: string, core: string, trail: string ::
      IsFirstLabel(name, host) && AreParts(Kept(name, |name|), lead, core, trail) && stem == CoreStem(core)
  }

  lemma FirstLabelIsFirst(host: string)
    ensures IsFirstLabel(FirstLabel(host), host)
  {
  }

  lemma {:induction false} KeptIsKept(s: string, n: nat)
    requires n <= |s|
    ensures KeepSlugChars(ToLower(s), n) == Kept(s, n)
  {
    if n > 0 {
      KeptIsKept(s, n - 1);
    }
  }

  lemma StripsHyphens(s: string) returns (lead: string, core: string, trail: string)
    ensures AreParts(s, lead, core, trail) && core == StripRight(StripLeft(s))
  {
    var run, rest := RunCuts(Hyphen, s);
    lead := run;
    assert forall i | 0 <= i < |lead| :: In(lead[i], Hyphen);
    var n := HyphensFrom(rest, |rest|);
    core, trail := rest[..n], rest[n..];
    HyphensAfter(rest, |rest|);
    CutTwice(s, lead, rest, n);
  }

  lemma CutTwice(s: string, lead: string, rest: string, n: nat)
    requires s == lead + rest && n <= |rest|
    ensures s == lead + rest[..n] + rest[n..]
  {
  }

  lemma HyphensAfter(s: string, n: nat)
    requires n <= |s|
    ensures forall i | HyphensFrom(s, n) <= i < n :: s[i] == '-'
  {
  }

  /** The stem is exactly what the host's characters make it. */
  lemma StemIsExact(host: string)
    ensures IsStemOf(Stem(host), host)
  {
    var name := FirstLabel(host);
    FirstLabelIsFirst(host);
    KeptIsKept(name, |name|);
    var lead, core, trail := StripsHyphens(Kept(name, |name|));
    StemOfCore(host, core);
    assert IsFirstLabel(name, host) && AreParts(Kept(name, |name|), lead, core, trail);
  }

  lemma StemOfCore(host: string, core: string)
    requires core == StripRight(StripLeft(KeepSlugChars(ToLower(FirstLabel(host)), |FirstLabel(host)|)))
    ensures Stem(host) == CoreStem(core)
  {
  }

  /**
   Two families of hosts are refused while their handle is free: labels of two
   characters, and labels of more than forty whose fortieth character is a hyphen.
   */
  lemma RefusedLabels(handles: Handles, community: CommunityId, name: string, domain: string)
    requires !HasHandle(handles, community) && All(OfSlug, name)
    requires |name| == 2 || (|name| > MAX_SLUG && name[MAX_SLUG - 1] == '-')
    requires name[0] != '-' && name[|name| - 1] != '-'
    requires !IsTaken(handles, community, Take(name, MAX_SLUG))
    ensures Assign(handles, community, Some(name + "." + domain)) == SlugOutcome(handles, Failure("check_violation"))
  {
    CleanLabelIsStem(name, domain);
  }
}
