/**
 The channel hand-off: create a group, promote a person of the community to owner,
 step the bridge down to plain member. Three journalled stages of relay calls, run by
 any number of callers that may hold stale copies of the journal row, crash between
 calls, or lose an answer.
 */
module Handoff {
  import opened Wrappers
  import opened Nostr

  type ChannelId = int

  datatype Role = Owner | Admin | Member

  type Roles = map<Pubkey, Role>

  /** An idempotency key of one community's connection. */
  datatype Key = Key(community: CommunityId, name: int)

  datatype Stage = Creating | CreatedGroup | HandedOff | Completed

  /** A journal row; `owner` is the person chosen when the row was reserved. */
  datatype Row = Row(channel: ChannelId, owner: Pubkey, stage: Stage)

  function Rank(stage: Stage): nat {
    match stage
    case Creating => 0
    case CreatedGroup => 1
    case HandedOff => 2
    case Completed => 3
  }

  function NextStage(stage: Stage): Stage {
    match stage
    case Creating => CreatedGroup
    case CreatedGroup => HandedOff
    case _ => Completed
  }

  // ---------------------------------------------------------------- the relay

  /** What a relay answers to events that change nothing; both are for the relay to decide. */
  datatype Policy = Policy(repeatsCreate: bool, repeatsDemotion: bool)

  datatype Call = CreateGroup | PutUser(target: Pubkey, role: Role)

  predicate MayManage(roles: Roles, author: Pubkey) {
    author in roles && (roles[author] == Owner || roles[author] == Admin)
  }

  /** Creating twice never resets roles; only owners and admins put users. */
  predicate Accepts(policy: Policy, groups: map<ChannelId, Roles>, channel: ChannelId, author: Pubkey, call: Call) {
    match call
    case CreateGroup => channel !in groups || policy.repeatsCreate
    case PutUser(target, role) =>
      && channel in groups
      && (|| MayManage(groups[channel], author)
          || (policy.repeatsDemotion && target == author && author in groups[channel]
              && groups[channel][author] == role))
  }

  function Effect(groups: map<ChannelId, Roles>, channel: ChannelId, author: Pubkey, call: Call)
    : map<ChannelId, Roles>
  {
    match call
    case CreateGroup => if channel in groups then groups else groups[channel := map[author := Owner]]
    case PutUser(target, role) =>
      if channel in groups && MayManage(groups[channel], author) then
        groups[channel := groups[channel][target := role]]
      else groups
  }

  // ---------------------------------------------------------------- callers

  function Bridge(key: Key): Pubkey {
    BridgeKey(key.community)
  }

  /** Extra members are added while the bridge may still put users, and never the owner. */
  function MemberCalls(members: seq<Pubkey>, owner: Pubkey): (calls: seq<Call>)
    ensures forall c | c in calls :: c.PutUser? && c.role == Member && c.target in members && c.target != owner
  {
    if members == [] then []
    else (if members[0] == owner then [] else [PutUser(members[0], Member)]) + MemberCalls(members[1..], owner)
  }

  /** The relay calls of the row's current stage. */
  function StageCalls(key: Key, row: Row, members: seq<Pubkey>): seq<Call> {
    match row.stage
    case Creating => [CreateGroup]
    case CreatedGroup => [PutUser(row.owner, Owner)] + MemberCalls(members, row.owner)
    case HandedOff => [PutUser(Bridge(key), Member)]
    case Completed => []
  }

  /** `row` in a phase is the caller's own copy of the journal row. */
  datatype Phase =
    | Looking
    | Reserving(owner: Pubkey)
    | Calling(row: Row, todo: seq<Call>)
    | Saving(row: Row)
    | Finished(channel: ChannelId)
    | Thrown

  datatype Caller = Caller(key: Key, members: seq<Pubkey>, phase: Phase)

  datatype State = State(journal: map<Key, Row>, groups: map<ChannelId, Roles>, callers: map<nat, Caller>)

  /** The phase in which a caller takes up a row it found or reserved. */
  function TakeUp(key: Key, row: Row, members: seq<Pubkey>): Phase {
    if row.stage == Completed then Finished(row.channel) else Calling(row, StageCalls(key, row, members))
  }

  datatype Step =
    | Enter(id: nat, key: Key, members: seq<Pubkey>)
    | Look(id: nat, owner: Option<Pubkey>)
    | Reserve(id: nat, minted: ChannelId)
    | Ask(id: nat, applied: bool, acked: bool)
    | Save(id: nat)
    | GiveUp(id: nat)
    | Others(channel: ChannelId, target: Pubkey, role: Role)

  predicate Enabled(policy: Policy, s: State, step: Step) {
    match step
    case Enter(id, key, members) => id !in s.callers && Bridge(key) !in members
    case Look(id, owner) =>
      && id in s.callers && s.callers[id].phase.Looking?
      && (owner.Some? ==> owner.value != Bridge(s.callers[id].key))
    case Reserve(id, minted) =>
      && id in s.callers && s.callers[id].phase.Reserving?
      && minted !in s.groups && forall k | k in s.journal :: s.journal[k].channel != minted
    case Ask(id, applied, acked) =>
      && id in s.callers && s.callers[id].phase.Calling? && s.callers[id].phase.todo != []
      && (acked ==> applied)
      && (applied ==>
            Accepts(policy, s.groups, s.callers[id].phase.row.channel, Bridge(s.callers[id].key),
                    s.callers[id].phase.todo[0]))
    case Save(id) => id in s.callers && s.callers[id].phase.Saving?
    case GiveUp(id) => id in s.callers
    case Others(channel, target, _) =>
      && channel in s.groups && target.HumanKey?
      && forall k | k in s.journal && s.journal[k].channel == channel :: s.journal[k].owner != target
  }

  function SetPhase(s: State, id: nat, phase: Phase): State
    requires id in s.callers
  {
    s.(callers := s.callers[id := s.callers[id].(phase := phase)])
  }

  /** `UPDATE … WHERE state = from`, and the caller's copy moves on either way. */
  function Saved(s: State, id: nat): State
    requires id in s.callers && s.callers[id].phase.Saving?
  {
    var caller := s.callers[id];
    var row := caller.phase.row;
    var moved := row.(stage := NextStage(row.stage));
    var journal :=
      if caller.key in s.journal && s.journal[caller.key].stage == row.stage then
        s.journal[caller.key := s.journal[caller.key].(stage := moved.stage)]
      else s.journal;
    SetPhase(s.(journal := journal), id, TakeUp(caller.key, moved, caller.members))
  }

  /** One relay call: applied or not, and the caller goes on only if it heard so. */
  function Asked(s: State, id: nat, applied: bool, acked: bool): State
    requires id in s.callers && s.callers[id].phase.Calling? && s.callers[id].phase.todo != []
  {
    var caller := s.callers[id];
    var row, todo := caller.phase.row, caller.phase.todo;
    var groups := if applied then Effect(s.groups, row.channel, Bridge(caller.key), todo[0]) else s.groups;
    SetPhase(s.(groups := groups), id, PhaseAfter(row, todo, acked))
  }

  /** Where a call leaves its caller. */
  function PhaseAfter(row: Row, todo: seq<Call>, acked: bool): Phase
    requires todo != []
  {
    if !acked then Thrown else if |todo| == 1 then Saving(row) else Calling(row, todo[1..])
  }

  function Next(policy: Policy, s: State, step: Step): State
    requires Enabled(policy, s, step)
  {
    match step
    case Enter(id, key, members) => s.(callers := s.callers[id := Caller(key, members, Looking)])
    case Look(id, owner) =>
      var caller := s.callers[id];
      SetPhase(s, id,
               if caller.key in s.journal then TakeUp(caller.key, s.journal[caller.key], caller.members)
               else if owner.Some? then Reserving(owner.value) else Thrown)
    case Reserve(id, minted) =>
      var caller := s.callers[id];
      var row := if caller.key in s.journal then s.journal[caller.key] else Row(minted, caller.phase.owner, Creating);
      SetPhase(s.(journal := s.journal[caller.key := row]), id, TakeUp(caller.key, row, caller.members))
    case Ask(id, applied, acked) => Asked(s, id, applied, acked)
    case Save(id) => Saved(s, id)
    case GiveUp(id) => s.(callers := s.callers - {id})
    case Others(channel, target, role) => s.(groups := s.groups[channel := s.groups[channel][target := role]])
  }

  // ---------------------------------------------------------------- the invariant

  predicate HasRole(groups: map<ChannelId, Roles>, channel: ChannelId, who: Pubkey, role: Role) {
    channel in groups && who in groups[channel] && groups[channel][who] == role
  }

  /** What the relay must show for each stage of a row. */
  predicate GroupFits(groups: map<ChannelId, Roles>, key: Key, row: Row) {
    match row.stage
    case Creating => row.channel in groups ==> HasRole(groups, row.channel, Bridge(key), Owner)
    case CreatedGroup => HasRole(groups, row.channel, Bridge(key), Owner)
    case HandedOff =>
      && HasRole(groups, row.channel, row.owner, Owner)
      && (HasRole(groups, row.channel, Bridge(key), Owner) || HasRole(groups, row.channel, Bridge(key), Member))
    case Completed =>
      HasRole(groups, row.channel, row.owner, Owner) && HasRole(groups, row.channel, Bridge(key), Member)
  }

  ghost predicate RowsFit(s: State) {
    && (forall k | k in s.journal :: s.journal[k].owner != Bridge(k) && GroupFits(s.groups, k, s.journal[k]))
    && (forall j, k | j in s.journal && k in s.journal && s.journal[j].channel == s.journal[k].channel :: j == k)
  }

  /** Every group was created for some row. */
  ghost predicate GroupsKnown(s: State) {
    forall ch | ch in s.groups :: exists k | k in s.journal :: s.journal[k].channel == ch
  }

  /** A caller's copy of the row lags behind the journal at most. */
  predicate IsCopy(s: State, key: Key, row: Row) {
    && key in s.journal && s.journal[key].channel == row.channel && s.journal[key].owner == row.owner
    && Rank(row.stage) <= Rank(s.journal[key].stage)
  }

  /** A call that a caller of this stage may still make. */
  predicate IsStageCall(key: Key, row: Row, call: Call) {
    match row.stage
    case Creating => call == CreateGroup
    case CreatedGroup =>
      && call.PutUser?
      && (if call.target == row.owner then call.role == Owner else call.role == Member && call.target != Bridge(key))
    case HandedOff => call == PutUser(Bridge(key), Member)
    case Completed => false
  }

  /** What an acknowledged stage has left on the relay. */
  predicate StageDone(groups: map<ChannelId, Roles>, key: Key, row: Row) {
    match row.stage
    case Creating => row.channel in groups
    case CreatedGroup => HasRole(groups, row.channel, row.owner, Owner)
    case HandedOff => HasRole(groups, row.channel, Bridge(key), Member)
    case Completed => true
  }

  /** Still ahead of its first call, or past the call that matters. */
  predicate TodoFits(groups: map<ChannelId, Roles>, key: Key, row: Row, todo: seq<Call>) {
    && todo != [] && (forall c | c in todo :: IsStageCall(key, row, c))
    && (|| StageDone(groups, key, row)
        || (row.stage == Creating && todo[0] == CreateGroup)
        || (row.stage == CreatedGroup && todo[0] == PutUser(row.owner, Owner))
        || (row.stage == HandedOff && todo[0] == PutUser(Bridge(key), Member)))
  }

  predicate CallerFits(s: State, caller: Caller) {
    && Bridge(caller.key) !in caller.members
    && match caller.phase
       case Looking => true
       case Reserving(owner) => owner != Bridge(caller.key)
       case Calling(row, todo) => IsCopy(s, caller.key, row) && TodoFits(s.groups, caller.key, row, todo)
       case Saving(row) => IsCopy(s, caller.key, row) && row.stage != Completed && StageDone(s.groups, caller.key, row)
       case Finished(channel) =>
         caller.key in s.journal && s.journal[caller.key].channel == channel && s.journal[caller.key].stage == Completed
       case Thrown => true
  }

  ghost predicate CallersFit(s: State) {
    forall id | id in s.callers :: CallerFits(s, s.callers[id])
  }

  ghost predicate Inv(s: State) {
    RowsFit(s) && GroupsKnown(s) && CallersFit(s)
  }

  // ---------------------------------------------------------------- one relay call

  /** A call of any caller of the row, stale or not, keeps what the journal promises about its group. */
  lemma CallKeepsFit(groups: map<ChannelId, Roles>, key: Key, row: Row, copy: Row, call: Call)
    requires GroupFits(groups, key, row) && row.owner != Bridge(key)
    requires copy.channel == row.channel && copy.owner == row.owner && Rank(copy.stage) <= Rank(row.stage)
    requires IsStageCall(key, copy, call)
    ensures GroupFits(Effect(groups, row.channel, Bridge(key), call), key, row)
  {
  }

  lemma OtherChannelFits(groups: map<ChannelId, Roles>, channel: ChannelId, author: Pubkey, call: Call, key: Key,
                         row: Row)
    requires GroupFits(groups, key, row) && row.channel != channel
    ensures GroupFits(Effect(groups, channel, author, call), key, row)
  {
  }

  /** Nothing a caller of the row does undoes a finished stage: the owner stays owner, the bridge stays down. */
  lemma CallKeepsDone(groups: map<ChannelId, Roles>, key: Key, row: Row, copy: Row, call: Call)
    requires StageDone(groups, key, row) && row.owner != Bridge(key)
    requires copy.channel == row.channel && copy.owner == row.owner && IsStageCall(key, copy, call)
    ensures StageDone(Effect(groups, row.channel, Bridge(key), call), key, row)
  {
  }

  lemma OtherChannelDone(groups: map<ChannelId, Roles>, channel: ChannelId, author: Pubkey, call: Call, key: Key,
                         row: Row)
    requires StageDone(groups, key, row) && row.channel != channel
    ensures StageDone(Effect(groups, channel, author, call), key, row)
  {
  }

  /** An accepted call that opens its stage completes the part of the stage that matters. */
  lemma AcceptedIsDone(policy: Policy, groups: map<ChannelId, Roles>, key: Key, row: Row, call: Call)
    requires row.owner != Bridge(key) && Accepts(policy, groups, row.channel, Bridge(key), call)
    requires || (row.stage == Creating && call == CreateGroup)
             || (row.stage == CreatedGroup && call == PutUser(row.owner, Owner))
             || (row.stage == HandedOff && call == PutUser(Bridge(key), Member))
    ensures StageDone(Effect(groups, row.channel, Bridge(key), call), key, row)
  {
  }

  /** The groups after some caller's call: its own row's group changed by that call, every other as it was. */
  ghost predicate IsCallOf(s: State, groups': map<ChannelId, Roles>, key: Key, copy: Row, call: Call) {
    && IsCopy(s, key, copy) && IsStageCall(key, copy, call)
    && (groups' == s.groups || groups' == Effect(s.groups, copy.channel, Bridge(key), call))
  }

  lemma CallKeepsRows(s: State, groups': map<ChannelId, Roles>, key: Key, copy: Row, call: Call)
    requires RowsFit(s) && GroupsKnown(s) && IsCallOf(s, groups', key, copy, call)
    ensures RowsFit(s.(groups := groups')) && GroupsKnown(s.(groups := groups'))
  {
    forall k | k in s.journal ensures GroupFits(groups', k, s.journal[k]) {
      if groups' != s.groups {
        if s.journal[k].channel == copy.channel {
          CallKeepsFit(s.groups, k, s.journal[k], copy, call);
        } else {
          OtherChannelFits(s.groups, copy.channel, Bridge(key), call, k, s.journal[k]);
        }
      }
    }
    assert s.journal[key].channel == copy.channel;
  }

  lemma CallKeepsStageDone(s: State, groups': map<ChannelId, Roles>, key: Key, copy: Row, call: Call, k: Key, row: Row)
    requires RowsFit(s) && IsCallOf(s, groups', key, copy, call)
    requires IsCopy(s, k, row) && StageDone(s.groups, k, row)
    ensures StageDone(groups', k, row)
  {
    if groups' != s.groups {
      if row.channel == copy.channel {
        assert k == key;
        CallKeepsDone(s.groups, k, row, copy, call);
      } else {
        OtherChannelDone(s.groups, copy.channel, Bridge(key), call, k, row);
      }
    }
  }

  lemma CallKeepsCaller(s: State, groups': map<ChannelId, Roles>, key: Key, copy: Row, call: Call, caller: Caller)
    requires RowsFit(s) && IsCallOf(s, groups', key, copy, call) && CallerFits(s, caller)
    ensures CallerFits(s.(groups := groups'), caller)
  {
    if (caller.phase.Calling? || caller.phase.Saving?) && StageDone(s.groups, caller.key, caller.phase.row) {
      CallKeepsStageDone(s, groups', key, copy, call, caller.key, caller.phase.row);
    }
  }

  /** An acknowledged call leaves its stage done, whether it was the call that matters or a later one. */
  lemma AckedFits(policy: Policy, s: State, groups': map<ChannelId, Roles>, key: Key, row: Row, todo: seq<Call>)
    requires RowsFit(s) && IsCopy(s, key, row) && TodoFits(s.groups, key, row, todo)
    requires Accepts(policy, s.groups, row.channel, Bridge(key), todo[0])
    requires groups' == Effect(s.groups, row.channel, Bridge(key), todo[0])
    ensures row.stage != Completed && StageDone(groups', key, row)
    ensures |todo| > 1 ==> TodoFits(groups', key, row, todo[1..])
  {
    assert todo[0] in todo && IsStageCall(key, row, todo[0]);
    if StageDone(s.groups, key, row) {
      CallKeepsStageDone(s, groups', key, row, todo[0], key, row);
    } else {
      AcceptedIsDone(policy, s.groups, key, row, todo[0]);
    }
    assert forall c | c in todo[1..] :: c in todo;
  }

  /** One caller moves on, in a state that fits it and all others. */
  lemma PhaseKeepsInv(s: State, id: nat, phase: Phase)
    requires Inv(s) && id in s.callers && CallerFits(s, s.callers[id].(phase := phase))
    ensures Inv(SetPhase(s, id, phase))
  {
    var s' := SetPhase(s, id, phase);
    forall x | x in s'.callers ensures CallerFits(s', s'.callers[x]) {
      assert x != id ==> CallerFits(s, s.callers[x]);
    }
  }

  lemma CallKeepsInv(s: State, groups': map<ChannelId, Roles>, key: Key, copy: Row, call: Call)
    requires Inv(s) && IsCallOf(s, groups', key, copy, call)
    ensures Inv(s.(groups := groups'))
  {
    CallKeepsRows(s, groups', key, copy, call);
    forall x | x in s.callers ensures CallerFits(s.(groups := groups'), s.callers[x]) {
      CallKeepsCaller(s, groups', key, copy, call, s.callers[x]);
    }
  }

  lemma AskerFits(policy: Policy, s: State, groups': map<ChannelId, Roles>, caller: Caller, acked: bool)
    requires RowsFit(s) && CallerFits(s, caller) && caller.phase.Calling?
    requires var row, call := caller.phase.row, caller.phase.todo[0];
             && IsCallOf(s, groups', caller.key, row, call)
             && (acked ==> Accepts(policy, s.groups, row.channel, Bridge(caller.key), call)
                           && groups' == Effect(s.groups, row.channel, Bridge(caller.key), call))
    ensures CallerFits(s.(groups := groups'),
                       caller.(phase := PhaseAfter(caller.phase.row, caller.phase.todo, acked)))
  {
    if acked {
      AckedFits(policy, s, groups', caller.key, caller.phase.row, caller.phase.todo);
    }
  }

  lemma AskKeepsInv(policy: Policy, s: State, step: Step)
    requires Inv(s) && step.Ask? && Enabled(policy, s, step)
    ensures Inv(Next(policy, s, step))
  {
    var caller := s.callers[step.id];
    var row, todo := caller.phase.row, caller.phase.todo;
    var groups' := if step.applied then Effect(s.groups, row.channel, Bridge(caller.key), todo[0]) else s.groups;
    assert CallerFits(s, caller) && todo[0] in todo;
    CallKeepsInv(s, groups', caller.key, row, todo[0]);
    AskerFits(policy, s, groups', caller, step.acked);
    PhaseKeepsInv(s.(groups := groups'), step.id, PhaseAfter(row, todo, step.acked));
  }

  // ---------------------------------------------------------------- taking up and saving a row

  lemma FirstCallsFit(groups: map<ChannelId, Roles>, key: Key, row: Row, members: seq<Pubkey>)
    requires Bridge(key) !in members && row.stage != Completed
    ensures TodoFits(groups, key, row, StageCalls(key, row, members))
  {
  }

  lemma TakeUpFits(s: State, key: Key, row: Row, members: seq<Pubkey>)
    requires IsCopy(s, key, row) && Bridge(key) !in members
    ensures CallerFits(s, Caller(key, members, TakeUp(key, row, members)))
  {
    if row.stage != Completed {
      FirstCallsFit(s.groups, key, row, members);
    }
  }

  /** The journal after a save: the caller's row moved one stage on, or was already further. */
  ghost predicate Advances(s: State, journal': map<Key, Row>, key: Key, row: Row) {
    && IsCopy(s, key, row) && row.stage != Completed && StageDone(s.groups, key, row)
    && journal' == if s.journal[key].stage == row.stage then s.journal[key := row.(stage := NextStage(row.stage))]
        else s.journal
  }

  lemma SaveKeepsRows(s: State, journal': map<Key, Row>, key: Key, row: Row)
    requires RowsFit(s) && GroupsKnown(s) && Advances(s, journal', key, row)
    ensures RowsFit(s.(journal := journal')) && GroupsKnown(s.(journal := journal'))
    ensures IsCopy(s.(journal := journal'), key, row.(stage := NextStage(row.stage)))
  {
    assert GroupFits(s.groups, key, s.journal[key]);
    forall k | k in s.journal ensures k in journal' && journal'[k].channel == s.journal[k].channel {
    }
  }

  lemma SaveKeepsCaller(s: State, journal': map<Key, Row>, key: Key, row: Row, caller: Caller)
    requires Advances(s, journal', key, row) && CallerFits(s, caller)
    ensures CallerFits(s.(journal := journal'), caller)
  {
  }

  lemma SaveKeepsInv(s: State, id: nat)
    requires Inv(s) && id in s.callers && s.callers[id].phase.Saving?
    ensures Inv(Saved(s, id))
  {
    var caller := s.callers[id];
    var row := caller.phase.row;
    var s' := Saved(s, id);
    assert CallerFits(s, caller);
    SaveKeepsRows(s, s'.journal, caller.key, row);
    var s1, moved := s.(journal := s'.journal), row.(stage := NextStage(row.stage));
    forall x | x in s.callers ensures CallerFits(s1, s.callers[x]) {
      SaveKeepsCaller(s, s'.journal, caller.key, row, s.callers[x]);
    }
    TakeUpFits(s1, caller.key, moved, caller.members);
    PhaseKeepsInv(s1, id, TakeUp(caller.key, moved, caller.members));
  }

  lemma LookKeepsInv(policy: Policy, s: State, step: Step)
    requires Inv(s) && step.Look? && Enabled(policy, s, step)
    ensures Inv(Next(policy, s, step))
  {
    var caller := s.callers[step.id];
    assert CallerFits(s, caller);
    if caller.key in s.journal {
      TakeUpFits(s, caller.key, s.journal[caller.key], caller.members);
    }
  }

  lemma ReserveKeepsInv(policy: Policy, s: State, step: Step)
    requires Inv(s) && step.Reserve? && Enabled(policy, s, step)
    ensures Inv(Next(policy, s, step))
  {
    var caller := s.callers[step.id];
    assert CallerFits(s, caller);
    var row := if caller.key in s.journal then s.journal[caller.key]
        else Row(step.minted, caller.phase.owner, Creating);
    var s1 := s.(journal := s.journal[caller.key := row]);
    ReservedRowsFit(s, caller.key, row);
    forall x | x in s.callers ensures CallerFits(s1, s.callers[x]) {
      ReservedCallerFits(s, caller.key, row, s.callers[x]);
    }
    TakeUpFits(s1, caller.key, row, caller.members);
    PhaseKeepsInv(s1, step.id, TakeUp(caller.key, row, caller.members));
  }

  lemma ReservedCallerFits(s: State, key: Key, row: Row, caller: Caller)
    requires CallerFits(s, caller) && (key in s.journal ==> row == s.journal[key])
    ensures CallerFits(s.(journal := s.journal[key := row]), caller)
  {
  }

  lemma ReservedRowsFit(s: State, key: Key, row: Row)
    requires RowsFit(s) && GroupsKnown(s)
    requires if key in s.journal then row == s.journal[key]
             else row.stage == Creating && row.owner != Bridge(key) && row.channel !in s.groups
                  && forall k | k in s.journal :: s.journal[k].channel != row.channel
    ensures RowsFit(s.(journal := s.journal[key := row])) && GroupsKnown(s.(journal := s.journal[key := row]))
  {
    var journal' := s.journal[key := row];
    forall ch | ch in s.groups ensures exists k | k in journal' :: journal'[k].channel == ch {
      var k :| k in s.journal && s.journal[k].channel == ch;
      assert k in journal' && journal'[k].channel == ch;
    }
  }

  lemma OthersKeepInv(policy: Policy, s: State, step: Step)
    requires Inv(s) && step.Others? && Enabled(policy, s, step)
    ensures Inv(Next(policy, s, step))
  {
    var s' := Next(policy, s, step);
    forall k | k in s.journal ensures GroupFits(s'.groups, k, s.journal[k]) {
      assert GroupFits(s.groups, k, s.journal[k]);
    }
    forall x | x in s.callers ensures CallerFits(s', s.callers[x]) {
      assert CallerFits(s, s.callers[x]);
    }
  }

  /** The invariant is inductive, for any number of callers of any number of keys. */
  lemma NextKeepsInv(policy: Policy, s: State, step: Step)
    requires Inv(s) && Enabled(policy, s, step)
    ensures Inv(Next(policy, s, step))
  {
    match step
    case Enter(_, _, _) =>
    case Look(_, _) => LookKeepsInv(policy, s, step);
    case Reserve(_, _) => ReserveKeepsInv(policy, s, step);
    case Ask(_, _, _) => AskKeepsInv(policy, s, step);
    case Save(id) => SaveKeepsInv(s, id);
    case GiveUp(_) =>
    case Others(_, _, _) => OthersKeepInv(policy, s, step);
  }
}
