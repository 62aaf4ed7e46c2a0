/** The hand-off as its caller runs it: journalled stages with relay calls that may fail. */
module HandoffService {
  import opened Wrappers
  import opened Nostr
  import opened Handoff
  import opened HandoffTheorems

  // ---------------------------------------------------------------- choosing the owner

  datatype Standing = RosterOwner | RosterAdmin | RosterOther

  type Entry = (Pubkey, Standing)

  /** The order of the hexadecimal spelling, as any total order of the keys. */
  predicate KeyBefore(a: Pubkey, b: Pubkey) {
    match (a, b)
    case (BridgeKey(c), BridgeKey(d)) => c < d
    case (BridgeKey(_), HumanKey(_)) => true
    case (HumanKey(_), BridgeKey(_)) => false
    case (HumanKey(m), HumanKey(n)) => m < n
  }

  /** Owners come before admins, and equals in the order of their keys. */
  predicate Precedes(a: Entry, b: Entry) {
    if a.1 != b.1 then a.1 == RosterOwner else KeyBefore(a.0, b.0)
  }

  predicate IsPrivileged(e: Entry, bridge: Pubkey) {
    e.0 != bridge && (e.1 == RosterOwner || e.1 == RosterAdmin)
  }

  function Privileged(roster: seq<Entry>, bridge: Pubkey): (chosen: seq<Entry>)
    ensures forall e :: e in chosen <==> e in roster && IsPrivileged(e, bridge)
  {
    if roster == [] then []
    else
      assert roster == [roster[0]] + roster[1..];
      (if IsPrivileged(roster[0], bridge) then [roster[0]] else []) + Privileged(roster[1..], bridge)
  }

  /** The head of the sorted list. */
  function First(entries: seq<Entry>): (e: Entry)
    requires entries != []
    ensures e in entries
  {
    if |entries| == 1 then entries[0]
    else
      var rest := First(entries[1..]);
      if Precedes(rest, entries[0]) then rest else entries[0]
  }

  function ResolveChannelOwner(roster: Option<seq<Entry>>, bridge: Pubkey): Result<Pubkey, string> {
    if roster.None? then Failure("channel_owner_unavailable")
    else
      var privileged := Privileged(roster.value, bridge);
      if privileged == [] then Failure("channel_owner_unavailable") else Success(First(privileged).0)
  }

  lemma PrecedesIsTransitive(a: Entry, b: Entry, c: Entry)
    requires !Precedes(b, a) && !Precedes(c, b)
    requires a.1 != RosterOther && b.1 != RosterOther && c.1 != RosterOther
    ensures !Precedes(c, a)
  {
  }

  lemma {:induction false} FirstIsFirst(entries: seq<Entry>)
    requires entries != [] && forall e | e in entries :: e.1 != RosterOther
    ensures forall e | e in entries :: !Precedes(e, First(entries))
  {
    if |entries| > 1 {
      var rest := First(entries[1..]);
      FirstIsFirst(entries[1..]);
      forall e | e in entries ensures !Precedes(e, First(entries)) {
        if e in entries[1..] && First(entries) == entries[0] {
          PrecedesIsTransitive(entries[0], rest, e);
        }
      }
    }
  }

  /** The roster names someone other than the bridge with this standing. */
  predicate HasStanding(roster: seq<Entry>, bridge: Pubkey, standing: Standing) {
    exists i | 0 <= i < |roster| :: roster[i].0 != bridge && roster[i].1 == standing
  }

  /**
   The right owner for a roster: an owner if it names one, else an admin; never the bridge,
   and of those with that standing the one whose key comes first.
   */
  predicate IsRightOwner(roster: seq<Entry>, bridge: Pubkey, chosen: Pubkey) {
    var standing := if HasStanding(roster, bridge, RosterOwner) then RosterOwner else RosterAdmin;
    && chosen != bridge && (chosen, standing) in roster
    && forall i | 0 <= i < |roster| && roster[i].0 != bridge && roster[i].1 == standing ::
         roster[i].0 == chosen || SpelledBefore(chosen, roster[i].0)
  }

  /** Bridge keys come before people's, and either kind in the order of its numbers. */
  predicate SpelledBefore(a: Pubkey, b: Pubkey) {
    || (a.BridgeKey? && b.HumanKey?)
    || (a.BridgeKey? && b.BridgeKey? && a.community < b.community)
    || (a.HumanKey? && b.HumanKey? && a.person < b.person)
  }

  predicate NamesOwner(roster: seq<Entry>, bridge: Pubkey) {
    HasStanding(roster, bridge, RosterOwner) || HasStanding(roster, bridge, RosterAdmin)
  }

  lemma KeysAreOrdered(a: Pubkey, b: Pubkey, c: Pubkey)
    ensures KeyBefore(a, b) <==> SpelledBefore(a, b)
    ensures a == b || KeyBefore(a, b) || KeyBefore(b, a)
    ensures !(KeyBefore(a, b) && KeyBefore(b, a)) && !KeyBefore(a, a)
    ensures KeyBefore(a, b) && KeyBefore(b, c) ==> KeyBefore(a, c)
  {
  }

  /** The choice is right, and there is none exactly if the roster names no owner and no admin but the bridge. */
  lemma OwnerIsBest(roster: seq<Entry>, bridge: Pubkey)
    ensures match ResolveChannelOwner(Some(roster), bridge)
            case Success(owner) => NamesOwner(roster, bridge) && IsRightOwner(roster, bridge, owner)
            case Failure(error) =>
              && error == "channel_owner_unavailable"
              && !NamesOwner(roster, bridge)
  {
    var privileged := Privileged(roster, bridge);
    if privileged != [] {
      FirstIsFirst(privileged);
      FirstIsRight(roster, bridge, First(privileged));
    } else {
      forall i | 0 <= i < |roster| ensures !IsPrivileged(roster[i], bridge) {
        assert roster[i] !in privileged;
      }
    }
  }

  lemma FirstIsRight(roster: seq<Entry>, bridge: Pubkey, best: Entry)
    requires best in roster && IsPrivileged(best, bridge)
    requires forall e | e in roster && IsPrivileged(e, bridge) :: !Precedes(e, best)
    ensures NamesOwner(roster, bridge) && IsRightOwner(roster, bridge, best.0)
  {
    var at :| 0 <= at < |roster| && roster[at] == best;
    var standing := if HasStanding(roster, bridge, RosterOwner) then RosterOwner else RosterAdmin;
    if HasStanding(roster, bridge, RosterOwner) {
      var i :| 0 <= i < |roster| && roster[i].0 != bridge && roster[i].1 == RosterOwner;
      assert roster[i] in roster && !Precedes(roster[i], best);
    }
    assert best.1 == standing && (best.0, standing) == best;
    forall i | 0 <= i < |roster| && roster[i].0 != bridge && roster[i].1 == standing
      ensures roster[i].0 == best.0 || SpelledBefore(best.0, roster[i].0)
    {
      assert roster[i] in roster && !Precedes(roster[i], best);
      KeysAreOrdered(best.0, roster[i].0, best.0);
    }
  }

  // ---------------------------------------------------------------- members

  /** Well-formed keys only, not the bridge's own, each once. */
  method NormalizeMembers(members: seq<Option<Pubkey>>, bridge: Pubkey) returns (seen: seq<Pubkey>)
    ensures forall k :: k in seen <==> Some(k) in members && k != bridge
    ensures forall i, j | 0 <= i < j < |seen| :: seen[i] != seen[j]
  {
    seen := [];
    for i := 0 to |members|
      invariant forall k :: k in seen <==> Some(k) in members[..i] && k != bridge
      invariant forall i, j | 0 <= i < j < |seen| :: seen[i] != seen[j]
    {
      assert members[..i + 1] == members[..i] + [members[i]];
      if members[i].Some? && members[i].value != bridge && members[i].value !in seen {
        seen := seen + [members[i].value];
      }
    }
    assert members[..|members|] == members;
  }

  /** The row found or reserved for a key: a new one has the minted channel and the roster's right owner. */
  lemma NewRowIsRight(key: Key, roster: Option<seq<Entry>>, minted: ChannelId, journal: map<Key, Row>,
                      row: Result<Row, string>)
    requires row == if key in journal then Success(journal[key])
                    else match ResolveChannelOwner(roster, Bridge(key))
                         case Success(owner) => Success(Row(minted, owner, Creating))
                         case Failure(error) => Failure(error)
    ensures key !in journal ==> (row.Success? <==> roster.Some? && NamesOwner(roster.value, Bridge(key)))
    ensures key !in journal && row.Success? ==>
              row.value.channel == minted && roster.Some? && IsRightOwner(roster.value, Bridge(key), row.value.owner)
  {
    if roster.Some? {
      OwnerIsBest(roster.value, Bridge(key));
    }
  }

  /** Everyone to be added but the owner is a member of the row's group. */
  predicate HasMembers(groups: map<ChannelId, Roles>, row: Row, members: seq<Pubkey>) {
    forall m | m in members && m != row.owner :: HasRole(groups, row.channel, m, Member)
  }

  lemma AllMembersJoin(policy: Policy, s: State, id: nat, groups: map<ChannelId, Roles>)
    requires Inv(s) && IsFresh(s, id) && Rank(s.journal[s.callers[id].key].stage) < 2
    requires Finishes(policy, s, id) && groups == Alone(policy, s, id).groups
    ensures HasMembers(groups, s.journal[s.callers[id].key], s.callers[id].members)
  {
    var row := s.journal[s.callers[id].key];
    forall m | m in s.callers[id].members && m != row.owner ensures HasRole(groups, row.channel, m, Member) {
      MembersJoin(policy, s, id, m);
    }
  }

  // ---------------------------------------------------------------- the service

  /** What befalls a relay call: nothing, the event never arrives, or only the answer is lost. */
  datatype Fault = Fine | Dropped | AnswerLost

  ghost predicate AllMoveOn(journal: map<Key, Row>, journal': map<Key, Row>) {
    forall k | k in journal :: k in journal' && RowMovesOn(journal[k], journal'[k])
  }

  lemma ChosenIsNotBridge(roster: Option<seq<Entry>>, bridge: Pubkey)
    ensures ResolveChannelOwner(roster, bridge).Success? ==> ResolveChannelOwner(roster, bridge).value != bridge
  {
  }

  /** The key's channel is handed over: someone other than the bridge owns it, and the bridge is a plain member. */
  predicate HandedOver(row: Row, groups: map<ChannelId, Roles>, key: Key, channel: ChannelId) {
    && row.channel == channel && row.stage == Completed && row.owner != Bridge(key)
    && HasRole(groups, channel, row.owner, Owner) && HasRole(groups, channel, Bridge(key), Member)
  }

  lemma FinishedFits(s: State, id: nat)
    requires Inv(s) && id in s.callers && s.callers[id].phase.Finished?
    ensures var key := s.callers[id].key;
            key in s.journal && HandedOver(s.journal[key], s.groups, key, s.callers[id].phase.channel)
  {
    var key := s.callers[id].key;
    assert CallerFits(s, s.callers[id]) && GroupFits(s.groups, key, s.journal[key]);
  }

  class Service {
    const policy: Policy
    var journal: map<Key, Row>
    var groups: map<ChannelId, Roles>
    var faults: seq<Fault>
    ghost var state: State
    ghost var log: seq<Step>

    /** The real fields show a state of the machine that `log`, a run from the empty journal, has led to. */
    ghost predicate Valid()
      reads this
    {
      state.journal == journal && state.groups == groups && Inv(state) && IsLogged()
    }

    ghost predicate IsLogged()
      reads this`state, this`log
    {
      Taken(policy, EMPTY, log) == Some(state)
    }

    constructor (policy: Policy)
      ensures Valid() && faults == [] && journal == map[] && groups == map[] && log == []
    {
      this.policy := policy;
      journal, groups, faults := map[], map[], [];
      state, log := EMPTY, [];
    }

    ghost predicate At(id: nat, key: Key, members: seq<Pubkey>, phase: Phase)
      reads this`state
    {
      id in state.callers && state.callers[id] == Caller(key, members, phase)
    }

    ghost method Take(step: Step)
      requires Inv(state) && IsLogged() && Enabled(policy, state, step)
      modifies this`state, this`log
      ensures Inv(state) && IsLogged() && log == old(log) + [step]
      ensures state == Next(policy, old(state), step) && AllMoveOn(old(state).journal, state.journal)
    {
      forall k | k in state.journal
        ensures k in Next(policy, state, step).journal
        ensures RowMovesOn(state.journal[k], Next(policy, state, step).journal[k])
      {
        StepMovesOn(policy, state, step, k);
      }
      NextKeepsInv(policy, state, step);
      TakenThen(policy, EMPTY, log, step);
      state, log := Next(policy, state, step), log + [step];
    }

    method NextFault() returns (fault: Fault)
      modifies this`faults
      ensures old(faults) == [] ==> fault == Fine && faults == []
    {
      if faults == [] {
        return Fine;
      }
      fault := faults[0];
      faults := faults[1..];
    }

    /** Publishes one group event and waits until the relay shows it stored. */
    method PublishConfirmed(key: Key, row: Row, call: Call, ghost id: nat, ghost members: seq<Pubkey>,
                            ghost todo: seq<Call>)
      returns (ok: bool)
      requires Valid() && At(id, key, members, Calling(row, [call] + todo))
      modifies this`groups, this`faults, this`state, this`log
      ensures Valid() && state.journal == old(state).journal
      ensures old(log) <= log
      ensures At(id, key, members, if !ok then Thrown else if todo == [] then Saving(row) else Calling(row, todo))
      ensures old(faults) == [] ==> faults == [] && Alone(policy, state, id) == Alone(policy, old(state), id)
    {
      var fault := NextFault();
      var applied := Accepts(policy, groups, row.channel, Bridge(key), call) && fault != Dropped;
      if applied {
        groups := Effect(groups, row.channel, Bridge(key), call);
      }
      ok := applied && fault == Fine;
      assert CallerFits(state, state.callers[id]) && call in [call] + todo && IsStageCall(key, row, call);
      assert ([call] + todo)[0] == call && ([call] + todo)[1..] == todo;
      ghost var step := Ask(id, applied, ok);
      assert old(faults) == [] ==> step == Undisturbed(policy, state, id);
      Take(step);
    }

    /** The journal moves on unless another caller was faster; the caller's copy moves on either way. */
    method AdvanceHandoff(key: Key, row: Row, ghost id: nat, ghost members: seq<Pubkey>) returns (moved: Row)
      requires Valid() && At(id, key, members, Saving(row))
      modifies this`journal, this`state, this`log
      ensures Valid() && AllMoveOn(old(state).journal, state.journal)
      ensures old(log) <= log
      ensures moved == row.(stage := NextStage(row.stage)) && row.stage != Completed
      ensures At(id, key, members, TakeUp(key, moved, members))
      ensures Alone(policy, state, id) == Alone(policy, old(state), id)
    {
      moved := row.(stage := NextStage(row.stage));
      assert CallerFits(state, state.callers[id]);
      if key in journal && journal[key].stage == row.stage {
        journal := journal[key := journal[key].(stage := moved.stage)];
      }
      Take(Save(id));
    }

    /** The first stage: the group is created, with the bridge as its owner. */
    method CreateStage(key: Key, row: Row, ghost id: nat, ghost members: seq<Pubkey>) returns (ok: bool, moved: Row)
      requires Valid() && At(id, key, members, TakeUp(key, row, members)) && row.stage == Creating
      modifies this`journal, this`groups, this`faults, this`state, this`log
      ensures Valid() && AllMoveOn(old(state).journal, state.journal)
      ensures old(log) <= log
      ensures moved == if ok then row.(stage := CreatedGroup) else row
      ensures At(id, key, members, if ok then TakeUp(key, moved, members) else Thrown)
      ensures old(faults) == [] ==> faults == [] && Alone(policy, state, id) == Alone(policy, old(state), id)
    {
      moved := row;
      assert StageCalls(key, row, members) == [CreateGroup] + [];
      ok := PublishConfirmed(key, row, CreateGroup, id, members, []);
      if ok {
        moved := AdvanceHandoff(key, row, id, members);
      }
    }

    /** The second stage: the person becomes owner, and the extra members join. */
    method PromoteStage(key: Key, row: Row, members: seq<Pubkey>, ghost id: nat) returns (ok: bool, moved: Row)
      requires Valid() && At(id, key, members, TakeUp(key, row, members)) && row.stage == CreatedGroup
      modifies this`journal, this`groups, this`faults, this`state, this`log
      ensures Valid() && AllMoveOn(old(state).journal, state.journal)
      ensures old(log) <= log
      ensures moved == if ok then row.(stage := HandedOff) else row
      ensures At(id, key, members, if ok then TakeUp(key, moved, members) else Thrown)
      ensures old(faults) == [] ==> faults == [] && Alone(policy, state, id) == Alone(policy, old(state), id)
    {
      moved := row;
      ok := PublishRoles(key, row, members, id);
      if ok {
        moved := AdvanceHandoff(key, row, id, members);
      }
    }

    method PublishRoles(key: Key, row: Row, members: seq<Pubkey>, ghost id: nat) returns (ok: bool)
      requires Valid() && At(id, key, members, TakeUp(key, row, members)) && row.stage == CreatedGroup
      modifies this`groups, this`faults, this`state, this`log
      ensures Valid() && state.journal == old(state).journal
      ensures old(log) <= log
      ensures At(id, key, members, if ok then Saving(row) else Thrown)
      ensures old(faults) == [] ==> faults == [] && Alone(policy, state, id) == Alone(policy, old(state), id)
    {
      ok := PromoteOwner(key, row, id, members);
      if ok {
        ok := AddMembers(key, row, members, id);
      }
    }

    method PromoteOwner(key: Key, row: Row, ghost id: nat, ghost members: seq<Pubkey>) returns (ok: bool)
      requires Valid() && At(id, key, members, TakeUp(key, row, members)) && row.stage == CreatedGroup
      modifies this`groups, this`faults, this`state, this`log
      ensures Valid() && state.journal == old(state).journal
      ensures old(log) <= log
      ensures At(id, key, members, if ok then Adding(row, members) else Thrown)
      ensures old(faults) == [] ==> faults == [] && Alone(policy, state, id) == Alone(policy, old(state), id)
    {
      ghost var calls := MemberCalls(members, row.owner);
      assert StageCalls(key, row, members) == [PutUser(row.owner, Owner)] + calls;
      ok := PublishConfirmed(key, row, PutUser(row.owner, Owner), id, members, calls);
    }

    /** Where a caller stands that has these members left to add. */
    function Adding(row: Row, members: seq<Pubkey>): Phase {
      if MemberCalls(members, row.owner) == [] then Saving(row) else Calling(row, MemberCalls(members, row.owner))
    }

    method AddMembers(key: Key, row: Row, members: seq<Pubkey>, ghost id: nat) returns (ok: bool)
      requires Valid() && At(id, key, members, Adding(row, members))
      modifies this`groups, this`faults, this`state, this`log
      ensures Valid() && state.journal == old(state).journal
      ensures old(log) <= log
      ensures At(id, key, members, if ok then Saving(row) else Thrown)
      ensures old(faults) == [] ==> faults == [] && Alone(policy, state, id) == Alone(policy, old(state), id)
    {
      ok := true;
      assert members[0..] == members;
      var i := 0;
      while i < |members|
        invariant i <= |members| && Valid() && state.journal == old(state).journal && old(log) <= log
        invariant ok && At(id, key, members, Adding(row, members[i..]))
        invariant old(faults) == [] ==> faults == [] && Alone(policy, state, id) == Alone(policy, old(state), id)
      {
        ok := AddMember(key, row, members, i, id);
        if !ok {
          return;
        }
        i := i + 1;
      }
    }

    method AddMember(key: Key, row: Row, members: seq<Pubkey>, i: nat, ghost id: nat) returns (ok: bool)
      requires i < |members| && Valid() && At(id, key, members, Adding(row, members[i..]))
      modifies this`groups, this`faults, this`state, this`log
      ensures Valid() && state.journal == old(state).journal
      ensures old(log) <= log
      ensures At(id, key, members, if ok then Adding(row, members[i + 1..]) else Thrown)
      ensures old(faults) == [] ==> faults == [] && Alone(policy, state, id) == Alone(policy, old(state), id)
    {
      ok := true;
      assert members[i..][0] == members[i] && members[i..][1..] == members[i + 1..];
      if members[i] != row.owner {
        ok := PublishConfirmed(key, row, PutUser(members[i], Member), id, members,
                               MemberCalls(members[i + 1..], row.owner));
      }
    }

    /** The third stage: the bridge steps down to plain member. */
    method DemoteStage(key: Key, row: Row, ghost id: nat, ghost members: seq<Pubkey>) returns (ok: bool)
      requires Valid() && At(id, key, members, TakeUp(key, row, members)) && row.stage == HandedOff
      modifies this`journal, this`groups, this`faults, this`state, this`log
      ensures Valid() && AllMoveOn(old(state).journal, state.journal)
      ensures old(log) <= log
      ensures At(id, key, members, if ok then Finished(row.channel) else Thrown)
      ensures old(faults) == [] ==> faults == [] && Alone(policy, state, id) == Alone(policy, old(state), id)
    {
      assert StageCalls(key, row, members) == [PutUser(Bridge(key), Member)] + [];
      ok := PublishConfirmed(key, row, PutUser(Bridge(key), Member), id, members, []);
      if ok {
        var moved := AdvanceHandoff(key, row, id, members);
      }
    }

    /** Drives whatever stages remain of the caller's copy of the row. */
    method RunHandoff(key: Key, handoff: Row, members: seq<Pubkey>, ghost id: nat) returns (ok: bool)
      requires Valid() && At(id, key, members, TakeUp(key, handoff, members))
      modifies this`journal, this`groups, this`faults, this`state, this`log
      ensures Valid() && AllMoveOn(old(state).journal, state.journal) && old(log) <= log
      ensures At(id, key, members, if ok then Finished(handoff.channel) else Thrown)
      ensures old(faults) == [] ==> Alone(policy, state, id) == Alone(policy, old(state), id)
    {
      var row := handoff;
      ok := true;
      if row.stage == Creating {
        ok, row := CreateStage(key, row, id, members);
        if !ok {
          return;
        }
      }
      if row.stage == CreatedGroup {
        ok, row := PromoteStage(key, row, members, id);
        if !ok {
          return;
        }
      }
      if row.stage == HandedOff {
        ok := DemoteStage(key, row, id, members);
      }
    }

    /** The row found for the key, or the one reserved now; the roster is read only for a new row. */
    method FindOrReserve(key: Key, roster: Option<seq<Entry>>, members: seq<Pubkey>, minted: ChannelId, ghost id: nat)
      returns (row: Result<Row, string>)
      requires Valid() && id !in state.callers && Bridge(key) !in members
      requires minted !in groups && forall k | k in journal :: journal[k].channel != minted
      modifies this`journal, this`state, this`log
      ensures Valid() && AllMoveOn(old(journal), journal)
      ensures old(log) <= log
      ensures row.Success? ==>
                IsFresh(state, id) && At(id, key, members, TakeUp(key, row.value, members)) && journal[key] == row.value
      ensures row == if key in old(journal) then Success(old(journal)[key])
                     else match ResolveChannelOwner(roster, Bridge(key))
                          case Success(owner) => Success(Row(minted, owner, Creating))
                          case Failure(error) => Failure(error)
      ensures journal == if key in old(journal) || row.Failure? then old(journal) else old(journal)[key := row.value]
    {
      Take(Enter(id, key, members));
      if key in journal {
        Take(Look(id, None));
        return Success(journal[key]);
      }
      var owner := ResolveChannelOwner(roster, Bridge(key));
      if owner.Failure? {
        return Failure(owner.error);
      }
      ChosenIsNotBridge(roster, Bridge(key));
      row := Success(Row(minted, owner.value, Creating));
      ReserveHandoff(key, owner.value, members, minted, id);
    }

    method ReserveHandoff(key: Key, owner: Pubkey, ghost members: seq<Pubkey>, minted: ChannelId, ghost id: nat)
      requires Valid() && At(id, key, members, Looking) && key !in journal && owner != Bridge(key)
      requires minted !in groups && forall k | k in journal :: journal[k].channel != minted
      modifies this`journal, this`state, this`log
      ensures Valid() && AllMoveOn(old(journal), journal)
      ensures old(log) <= log
      ensures IsFresh(state, id) && At(id, key, members, TakeUp(key, Row(minted, owner, Creating), members))
      ensures journal == old(journal)[key := Row(minted, owner, Creating)]
    {
      Take(Look(id, Some(owner)));
      journal := journal[key := Row(minted, owner, Creating)];
      Take(Reserve(id, minted));
    }

    /**
     One call with an idempotency key. Whatever happened to earlier calls, success means
     that the one channel of the key is owned by someone else and the bridge is a plain
     member. A call that nothing disturbs succeeds exactly when the relay tolerates what
     may have to be repeated or, for a new key, when the roster names an owner.
     */
    method CreateDedicatedChannel(key: Key, roster: Option<seq<Entry>>, extra: seq<Option<Pubkey>>, minted: ChannelId,
                                  ghost id: nat)
      returns (result: Result<ChannelId, string>)
      requires Valid() && id !in state.callers
      requires minted !in groups && forall k | k in journal :: journal[k].channel != minted
      modifies this`journal, this`groups, this`faults, this`state, this`log
      ensures Valid() && AllMoveOn(old(journal), journal)
      ensures old(log) <= log
      ensures result.Success? ==> key in journal && HandedOver(journal[key], groups, key, result.value)
      ensures key in journal && key !in old(journal) ==>
                journal[key].channel == minted
                && roster.Some? && IsRightOwner(roster.value, Bridge(key), journal[key].owner)
      ensures old(faults) == [] ==>
                (result.Success? <==> if key in old(journal) then CanFinish(policy, old(state), key)
                                      else roster.Some? && NamesOwner(roster.value, Bridge(key)))
      ensures old(faults) == [] && result.Success? && (key !in old(journal) || Rank(old(journal)[key].stage) < 2) ==>
                forall m | Some(m) in extra && m != Bridge(key) && m != journal[key].owner ::
                  HasRole(groups, result.value, m, Member)
    {
      var members := NormalizeMembers(extra, Bridge(key));
      var row := FindOrReserve(key, roster, members, minted, id);
      NewRowIsRight(key, roster, minted, old(journal), row);
      if row.Failure? {
        return Failure(row.error);
      }
      result := FinishHandoff(key, row.value, members, id);
    }

    method FinishHandoff(key: Key, row: Row, members: seq<Pubkey>, ghost id: nat)
      returns (result: Result<ChannelId, string>)
      requires Valid() && IsFresh(state, id) && At(id, key, members, TakeUp(key, row, members)) && journal[key] == row
      modifies this`journal, this`groups, this`faults, this`state, this`log
      ensures Valid() && AllMoveOn(old(journal), journal)
      ensures old(log) <= log
      ensures result.Success? ==> key in journal && HandedOver(journal[key], groups, key, result.value)
      ensures old(faults) == [] ==> (result.Success? <==> CanFinish(policy, old(state), key))
      ensures old(faults) == [] && result.Success? && Rank(row.stage) < 2 ==> HasMembers(groups, row, members)
    {
      CompletesIff(policy, state, id);
      ghost var start := state;
      var ok := RunHandoff(key, row, members, id);
      if ok {
        FinishedFits(state, id);
        if old(faults) == [] && Rank(row.stage) < 2 {
          AllMembersJoin(policy, start, id, state.groups);
        }
      }
      result := if ok then Success(row.channel) else Failure("channel_handoff_incomplete");
    }
  }
}
