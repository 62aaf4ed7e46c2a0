/** What the hand-off guarantees over every run, and exactly when an undisturbed caller completes it. */
module HandoffTheorems {
  import opened Wrappers
  import opened Nostr
  import opened Handoff

  const EMPTY := State(map[], map[], map[])

  ghost predicate IsRun(policy: Policy, states: seq<State>, steps: seq<Step>) {
    && |states| == |steps| + 1
    && states[0] == EMPTY
    && forall n | 0 <= n < |steps| ::
        Enabled(policy, states[n], steps[n]) && states[n + 1] == Next(policy, states[n], steps[n])
  }

  lemma {:induction false} EveryStateFits(policy: Policy, states: seq<State>, steps: seq<Step>, n: nat)
    requires IsRun(policy, states, steps) && n < |states|
    ensures Inv(states[n])
  {
    if n > 0 {
      EveryStateFits(policy, states, steps, n - 1);
      NextKeepsInv(policy, states[n - 1], steps[n - 1]);
    }
  }

  // ---------------------------------------------------------------- safety

  /** A key's row keeps its channel and its owner, and its stage never goes back. */
  predicate RowMovesOn(row: Row, row': Row) {
    row'.channel == row.channel && row'.owner == row.owner && Rank(row.stage) <= Rank(row'.stage)
  }

  lemma StepMovesOn(policy: Policy, s: State, step: Step, key: Key)
    requires Enabled(policy, s, step) && key in s.journal
    ensures key in Next(policy, s, step).journal && RowMovesOn(s.journal[key], Next(policy, s, step).journal[key])
  {
  }

  /** The journal only moves forward, so one key yields one channel id. */
  lemma {:induction false} JournalMovesForward(policy: Policy, states: seq<State>, steps: seq<Step>, m: nat, n: nat,
                                               key: Key)
    requires IsRun(policy, states, steps) && m <= n < |states| && key in states[m].journal
    ensures key in states[n].journal && RowMovesOn(states[m].journal[key], states[n].journal[key])
  {
    if m < n {
      JournalMovesForward(policy, states, steps, m, n - 1, key);
      StepMovesOn(policy, states[n - 1], steps[n - 1], key);
    }
  }

  ghost predicate HasOwner(groups: map<ChannelId, Roles>, channel: ChannelId) {
    exists who :: HasRole(groups, channel, who, Owner)
  }

  /** At no moment is a created channel without an owner. */
  lemma EveryChannelHasAnOwner(policy: Policy, states: seq<State>, steps: seq<Step>, n: nat, channel: ChannelId)
    requires IsRun(policy, states, steps) && n < |states| && channel in states[n].groups
    ensures HasOwner(states[n].groups, channel)
  {
    EveryStateFits(policy, states, steps, n);
    var s := states[n];
    var k :| k in s.journal && s.journal[k].channel == channel;
    assert GroupFits(s.groups, k, s.journal[k]);
    assert HasRole(s.groups, channel, Bridge(k), Owner) || HasRole(s.groups, channel, s.journal[k].owner, Owner);
  }

  predicate IsPromoted(s: State, key: Key) {
    key in s.journal && HasRole(s.groups, s.journal[key].channel, s.journal[key].owner, Owner)
  }

  lemma StepKeepsOwner(policy: Policy, s: State, step: Step, key: Key)
    requires Inv(s) && Enabled(policy, s, step) && IsPromoted(s, key)
    ensures IsPromoted(Next(policy, s, step), key)
  {
    StepMovesOn(policy, s, step, key);
    if step.Ask? && step.applied {
      var caller := s.callers[step.id];
      var row, call := caller.phase.row, caller.phase.todo[0];
      assert CallerFits(s, caller) && call in caller.phase.todo;
      var promoted := s.journal[key].(stage := CreatedGroup);
      if promoted.channel == row.channel {
        CallKeepsDone(s.groups, key, promoted, row, call);
      } else {
        OtherChannelDone(s.groups, row.channel, Bridge(caller.key), call, key, promoted);
      }
    }
  }

  /** No step of any caller, however stale, lowers the promoted owner. */
  lemma {:induction false} OwnerIsNeverLowered(policy: Policy, states: seq<State>, steps: seq<Step>, m: nat, n: nat,
                                               key: Key)
    requires IsRun(policy, states, steps) && m <= n < |states| && IsPromoted(states[m], key)
    ensures IsPromoted(states[n], key)
  {
    if m < n {
      OwnerIsNeverLowered(policy, states, steps, m, n - 1, key);
      EveryStateFits(policy, states, steps, n - 1);
      StepKeepsOwner(policy, states[n - 1], steps[n - 1], key);
    }
  }

  /** A caller that returned finds the chosen owner, who is not the bridge, and the bridge as plain member. */
  lemma FinishedIsHandedOver(policy: Policy, states: seq<State>, steps: seq<Step>, n: nat, id: nat)
    requires IsRun(policy, states, steps) && n < |states| && id in states[n].callers
    requires states[n].callers[id].phase.Finished?
    ensures var s, caller := states[n], states[n].callers[id];
            && caller.key in s.journal && s.journal[caller.key].channel == caller.phase.channel
            && s.journal[caller.key].owner != Bridge(caller.key)
            && HasRole(s.groups, caller.phase.channel, s.journal[caller.key].owner, Owner)
            && HasRole(s.groups, caller.phase.channel, Bridge(caller.key), Member)
  {
    EveryStateFits(policy, states, steps, n);
    assert CallerFits(states[n], states[n].callers[id]);
  }

  /** Callers of one key get one channel, callers of two keys get two. */
  lemma ChannelsFollowKeys(policy: Policy, states: seq<State>, steps: seq<Step>, n: nat, i: nat, j: nat)
    requires IsRun(policy, states, steps) && n < |states| && i in states[n].callers && j in states[n].callers
    requires states[n].callers[i].phase.Finished? && states[n].callers[j].phase.Finished?
    ensures states[n].callers[i].phase.channel == states[n].callers[j].phase.channel
       <==> states[n].callers[i].key == states[n].callers[j].key
  {
    EveryStateFits(policy, states, steps, n);
    assert CallerFits(states[n], states[n].callers[i]) && CallerFits(states[n], states[n].callers[j]);
  }

  // ---------------------------------------------------------------- completion

  /** The next step of a caller whose calls all arrive and are all answered. */
  function Undisturbed(policy: Policy, s: State, id: nat): Step
    requires id in s.callers
  {
    match s.callers[id].phase
    case Calling(row, todo) =>
      var accepted := todo != [] && Accepts(policy, s.groups, row.channel, Bridge(s.callers[id].key), todo[0]);
      Ask(id, accepted, accepted)
    case Saving(_) => Save(id)
    case _ => GiveUp(id)
  }

  predicate IsUnderWay(s: State, id: nat) {
    && id in s.callers
    && (|| (s.callers[id].phase.Calling? && s.callers[id].phase.todo != []
            && s.callers[id].phase.row.stage != Completed)
        || (s.callers[id].phase.Saving? && s.callers[id].phase.row.stage != Completed))
  }

  function StagesLeft(s: State, id: nat): nat {
    if IsUnderWay(s, id) then 3 - Rank(s.callers[id].phase.row.stage) else 0
  }

  function CallsLeft(s: State, id: nat): nat {
    if id in s.callers && s.callers[id].phase.Calling? then |s.callers[id].phase.todo| else 0
  }

  /** The state after the caller went on alone until it finished or threw. */
  function Alone(policy: Policy, s: State, id: nat): State
    decreases StagesLeft(s, id), CallsLeft(s, id)
  {
    if !IsUnderWay(s, id) then s else Alone(policy, Next(policy, s, Undisturbed(policy, s, id)), id)
  }

  /** The caller has just taken up the journal's own row. */
  predicate IsFresh(s: State, id: nat) {
    && id in s.callers && s.callers[id].key in s.journal
    && s.callers[id].phase == TakeUp(s.callers[id].key, s.journal[s.callers[id].key], s.callers[id].members)
  }

  predicate Finishes(policy: Policy, s: State, id: nat) {
    id in Alone(policy, s, id).callers && Alone(policy, s, id).callers[id].phase.Finished?
  }

  lemma DemotionFinishes(policy: Policy, s: State, id: nat)
    requires Inv(s) && IsFresh(s, id) && s.journal[s.callers[id].key].stage == HandedOff
    ensures var key := s.callers[id].key;
            Finishes(policy, s, id)
            <==> HasRole(s.groups, s.journal[key].channel, Bridge(key), Owner) || policy.repeatsDemotion
  {
    var key := s.callers[id].key;
    assert GroupFits(s.groups, key, s.journal[key]);
    var s1 := Next(policy, s, Undisturbed(policy, s, id));
    if s1.callers[id].phase.Saving? {
      var s2 := Next(policy, s1, Undisturbed(policy, s1, id));
      assert s2.callers[id].phase.Finished?;
      assert Alone(policy, s, id) == Alone(policy, s1, id) == Alone(policy, s2, id) == s2;
    } else {
      assert Alone(policy, s, id) == Alone(policy, s1, id) == s1;
    }
  }

  /** In the middle of the second stage, the bridge is owner and every call it has left is accepted. */
  predicate IsPromoting(s: State, id: nat) {
    && id in s.callers && s.callers[id].key in s.journal
    && var row := s.journal[s.callers[id].key];
       && row.stage == CreatedGroup
       && (s.callers[id].phase == Saving(row) || (s.callers[id].phase.Calling? && s.callers[id].phase.row == row))
  }

  lemma {:induction false} PromotionFinishes(policy: Policy, s: State, id: nat)
    requires Inv(s) && IsPromoting(s, id)
    ensures Finishes(policy, s, id)
    decreases CallsLeft(s, id)
  {
    var key := s.callers[id].key;
    var row := s.journal[key];
    assert GroupFits(s.groups, key, row) && CallerFits(s, s.callers[id]);
    var step := Undisturbed(policy, s, id);
    var s1 := Next(policy, s, step);
    NextKeepsInv(policy, s, step);
    assert Alone(policy, s, id) == Alone(policy, s1, id);
    if s.callers[id].phase.Calling? {
      var todo := s.callers[id].phase.todo;
      assert todo[0] in todo && IsStageCall(key, row, todo[0]);
      assert MayManage(s.groups[row.channel], Bridge(key));
      assert IsPromoting(s1, id);
      PromotionFinishes(policy, s1, id);
    } else {
      assert GroupFits(s1.groups, key, s1.journal[key]);
      DemotionFinishes(policy, s1, id);
    }
  }

  lemma CreationFinishes(policy: Policy, s: State, id: nat)
    requires Inv(s) && IsFresh(s, id) && s.journal[s.callers[id].key].stage == Creating
    ensures Finishes(policy, s, id) <==> s.journal[s.callers[id].key].channel !in s.groups || policy.repeatsCreate
  {
    var s1 := Next(policy, s, Undisturbed(policy, s, id));
    NextKeepsInv(policy, s, Undisturbed(policy, s, id));
    if s1.callers[id].phase.Saving? {
      var s2 := Next(policy, s1, Undisturbed(policy, s1, id));
      NextKeepsInv(policy, s1, Undisturbed(policy, s1, id));
      PromotionFinishes(policy, s2, id);
      assert Alone(policy, s, id) == Alone(policy, s1, id) == Alone(policy, s2, id);
    } else {
      assert Alone(policy, s, id) == Alone(policy, s1, id) == s1;
    }
  }

  /** What the relay must tolerate: a repeated create, or a repeated self-demotion, where one is due. */
  predicate CanFinish(policy: Policy, s: State, key: Key)
    requires key in s.journal
  {
    var row := s.journal[key];
    && (row.stage == Creating && row.channel in s.groups ==> policy.repeatsCreate)
    && (row.stage == HandedOff && !HasRole(s.groups, row.channel, Bridge(key), Owner) ==> policy.repeatsDemotion)
  }

  /**
   An undisturbed caller that takes up the row, at whatever stage earlier callers left
   it, finishes exactly when the relay tolerates the call that may have to be repeated.
   */
  lemma CompletesIff(policy: Policy, s: State, id: nat)
    requires Inv(s) && IsFresh(s, id)
    ensures Finishes(policy, s, id) <==> CanFinish(policy, s, s.callers[id].key)
  {
    match s.journal[s.callers[id].key].stage
    case Creating => CreationFinishes(policy, s, id);
    case CreatedGroup => PromotionFinishes(policy, s, id);
    case HandedOff => DemotionFinishes(policy, s, id);
    case Completed =>
  }

  // ---------------------------------------------------------------- the extra members

  /** Every extra member is in the group already or still to be put there. */
  predicate MembersAreDue(groups: map<ChannelId, Roles>, row: Row, members: seq<Pubkey>, todo: seq<Call>) {
    forall m | m in members && m != row.owner ::
      PutUser(m, Member) in todo || HasRole(groups, row.channel, m, Member)
  }

  lemma CallBringsMembers(groups: map<ChannelId, Roles>, key: Key, row: Row, members: seq<Pubkey>, todo: seq<Call>)
    requires MembersAreDue(groups, row, members, todo) && todo != [] && row.stage == CreatedGroup
    requires IsStageCall(key, row, todo[0])
    requires row.channel in groups && MayManage(groups[row.channel], Bridge(key))
    ensures MembersAreDue(Effect(groups, row.channel, Bridge(key), todo[0]), row, members, todo[1..])
  {
    forall m | m in members && m != row.owner
      ensures PutUser(m, Member) in todo[1..]
              || HasRole(Effect(groups, row.channel, Bridge(key), todo[0]), row.channel, m, Member)
    {
      if PutUser(m, Member) in todo && PutUser(m, Member) != todo[0] {
        var i :| 0 <= i < |todo| && todo[i] == PutUser(m, Member);
        assert todo[1..][i - 1] == PutUser(m, Member);
      }
    }
  }

  /** The bridge's own demotion changes nobody else's role. */
  lemma DemotionKeepsOthers(policy: Policy, s: State, id: nat, who: Pubkey, role: Role)
    requires Inv(s) && IsFresh(s, id) && s.journal[s.callers[id].key].stage == HandedOff
    requires who != Bridge(s.callers[id].key) && HasRole(s.groups, s.journal[s.callers[id].key].channel, who, role)
    ensures HasRole(Alone(policy, s, id).groups, s.journal[s.callers[id].key].channel, who, role)
  {
    var key := s.callers[id].key;
    assert GroupFits(s.groups, key, s.journal[key]);
    var s1 := Next(policy, s, Undisturbed(policy, s, id));
    if s1.callers[id].phase.Saving? {
      var s2 := Next(policy, s1, Undisturbed(policy, s1, id));
      assert s2.callers[id].phase.Finished?;
      assert Alone(policy, s, id) == Alone(policy, s1, id) == Alone(policy, s2, id) == s2;
    } else {
      assert Alone(policy, s, id) == Alone(policy, s1, id) == s1;
    }
  }

  function TodoOf(s: State, id: nat): seq<Call>
    requires id in s.callers
  {
    if s.callers[id].phase.Calling? then s.callers[id].phase.todo else []
  }

  lemma {:induction false} MembersArrive(policy: Policy, s: State, id: nat, m: Pubkey)
    requires Inv(s) && IsPromoting(s, id) && m in s.callers[id].members && m != s.journal[s.callers[id].key].owner
    requires MembersAreDue(s.groups, s.journal[s.callers[id].key], s.callers[id].members, TodoOf(s, id))
    ensures HasRole(Alone(policy, s, id).groups, s.journal[s.callers[id].key].channel, m, Member)
    decreases CallsLeft(s, id)
  {
    var key, row := s.callers[id].key, s.journal[s.callers[id].key];
    assert GroupFits(s.groups, key, row) && CallerFits(s, s.callers[id]);
    var step := Undisturbed(policy, s, id);
    var s1 := Next(policy, s, step);
    NextKeepsInv(policy, s, step);
    assert Alone(policy, s, id) == Alone(policy, s1, id);
    if s.callers[id].phase.Calling? {
      var todo := s.callers[id].phase.todo;
      assert todo[0] in todo && IsStageCall(key, row, todo[0]);
      assert MayManage(s.groups[row.channel], Bridge(key));
      CallBringsMembers(s.groups, key, row, s.callers[id].members, todo);
      assert IsPromoting(s1, id);
      MembersArrive(policy, s1, id, m);
    } else {
      DemotionKeepsOthers(policy, s1, id, m, Member);
    }
  }

  lemma {:induction false} EveryoneIsCalled(members: seq<Pubkey>, owner: Pubkey, m: Pubkey)
    requires m in members && m != owner
    ensures PutUser(m, Member) in MemberCalls(members, owner)
  {
    if members[0] != m {
      EveryoneIsCalled(members[1..], owner, m);
    }
  }

  lemma PromotionBringsMembers(policy: Policy, s: State, id: nat, m: Pubkey)
    requires Inv(s) && IsFresh(s, id) && s.journal[s.callers[id].key].stage == CreatedGroup
    requires m in s.callers[id].members && m != s.journal[s.callers[id].key].owner
    ensures HasRole(Alone(policy, s, id).groups, s.journal[s.callers[id].key].channel, m, Member)
  {
    var key, row := s.callers[id].key, s.journal[s.callers[id].key];
    forall x | x in s.callers[id].members && x != row.owner
      ensures PutUser(x, Member) in StageCalls(key, row, s.callers[id].members)
    {
      EveryoneIsCalled(s.callers[id].members, row.owner, x);
    }
    MembersArrive(policy, s, id, m);
  }

  /**
   A caller that takes the row up before the promotion is done and is not disturbed leaves
   everyone it was to add in the group: the owner as owner, the others as members.
   */
  lemma MembersJoin(policy: Policy, s: State, id: nat, m: Pubkey)
    requires Inv(s) && IsFresh(s, id) && Rank(s.journal[s.callers[id].key].stage) < 2
    requires Finishes(policy, s, id) && m in s.callers[id].members && m != s.journal[s.callers[id].key].owner
    ensures HasRole(Alone(policy, s, id).groups, s.journal[s.callers[id].key].channel, m, Member)
  {
    if s.journal[s.callers[id].key].stage == CreatedGroup {
      PromotionBringsMembers(policy, s, id, m);
    } else {
      var s1 := Next(policy, s, Undisturbed(policy, s, id));
      NextKeepsInv(policy, s, Undisturbed(policy, s, id));
      FinishingIsSaving(policy, s, id);
      var s2 := Next(policy, s1, Undisturbed(policy, s1, id));
      NextKeepsInv(policy, s1, Undisturbed(policy, s1, id));
      assert Alone(policy, s, id) == Alone(policy, s1, id) == Alone(policy, s2, id);
      PromotionBringsMembers(policy, s2, id, m);
    }
  }

  /** A caller that finishes was told that its create went through. */
  lemma FinishingIsSaving(policy: Policy, s: State, id: nat)
    requires Inv(s) && IsFresh(s, id) && s.journal[s.callers[id].key].stage == Creating
    ensures Finishes(policy, s, id) ==> Next(policy, s, Undisturbed(policy, s, id)).callers[id].phase.Saving?
  {
    var s1 := Next(policy, s, Undisturbed(policy, s, id));
    if !s1.callers[id].phase.Saving? {
      assert Alone(policy, s, id) == Alone(policy, s1, id) == s1;
    }
  }

  // ---------------------------------------------------------------- the lost demotion

  predicate IsPast(phase: Phase) {
    phase.Finished? || (phase.Saving? && phase.row.stage == HandedOff)
  }

  /** The bridge has stepped down, the journal does not know, and no caller of the key is past the demotion. */
  ghost predicate IsStranded(s: State, key: Key) {
    && key in s.journal && s.journal[key].stage == HandedOff
    && HasRole(s.groups, s.journal[key].channel, Bridge(key), Member)
    && forall id | id in s.callers && s.callers[id].key == key :: !IsPast(s.callers[id].phase)
  }

  /** A group that its bridge cannot manage is left alone by every call of a caller of its key. */
  lemma StrandedCall(policy: Policy, s: State, step: Step, key: Key)
    requires Inv(s) && Enabled(policy, s, step) && step.Ask? && IsStranded(s, key) && !policy.repeatsDemotion
    ensures HasRole(Next(policy, s, step).groups, s.journal[key].channel, Bridge(key), Member)
    ensures s.callers[step.id].key == key ==> !IsPast(Next(policy, s, step).callers[step.id].phase)
  {
    var caller := s.callers[step.id];
    var row, call := caller.phase.row, caller.phase.todo[0];
    assert CallerFits(s, caller) && call in caller.phase.todo && IsStageCall(caller.key, row, call);
    if caller.key != key {
      assert s.journal[caller.key].channel != s.journal[key].channel;
    }
  }

  lemma StrandedStays(policy: Policy, s: State, step: Step, key: Key)
    requires Inv(s) && Enabled(policy, s, step) && IsStranded(s, key) && !policy.repeatsDemotion
    ensures IsStranded(Next(policy, s, step), key)
  {
    if step.Ask? {
      StrandedCall(policy, s, step, key);
    } else if step.Save? {
      assert CallerFits(s, s.callers[step.id]);
    }
  }

  lemma {:induction false} StrandedForever(policy: Policy, states: seq<State>, steps: seq<Step>, m: nat, n: nat,
                                           key: Key)
    requires IsRun(policy, states, steps) && m <= n < |states| && IsStranded(states[m], key) && !policy.repeatsDemotion
    ensures IsStranded(states[n], key)
  {
    if m < n {
      StrandedForever(policy, states, steps, m, n - 1, key);
      EveryStateFits(policy, states, steps, n - 1);
      StrandedStays(policy, states[n - 1], steps[n - 1], key);
    }
  }

  /** A demotion that took effect, and whose answer was lost. */
  predicate LosesDemotion(s: State, step: Step, key: Key) {
    && step.Ask? && step.applied && !step.acked && step.id in s.callers && s.callers[step.id].key == key
    && s.callers[step.id].phase.Calling? && s.callers[step.id].phase.row.stage == HandedOff
    && key in s.journal && s.journal[key].stage == HandedOff
    && HasRole(s.groups, s.journal[key].channel, Bridge(key), Owner)
  }

  lemma LosingStrands(policy: Policy, s: State, step: Step, key: Key)
    requires Inv(s) && LosesDemotion(s, step, key) && Enabled(policy, s, step)
    ensures IsStranded(Next(policy, s, step), key)
  {
    var s' := Next(policy, s, step);
    var caller := s.callers[step.id];
    assert CallerFits(s, caller) && caller.phase.todo[0] in caller.phase.todo;
    forall id | id in s'.callers && s'.callers[id].key == key ensures !IsPast(s'.callers[id].phase) {
      assert CallerFits(s, s.callers[id]);
    }
  }

  /**
   The stranding crash. Once the demotion took effect and its answer was lost, at every
   later moment of every run a caller that takes the row up finishes, undisturbed, exactly if
   the relay accepts the repeated self-demotion; and if the relay does not, no caller of the
   key ever finishes, whatever happens.
   */
  lemma LostDemotionStrands(policy: Policy, states: seq<State>, steps: seq<Step>, m: nat, n: nat, key: Key)
    requires IsRun(policy, states, steps) && m < n < |states| && LosesDemotion(states[m], steps[m], key)
    ensures !policy.repeatsDemotion ==> IsStranded(states[n], key)
    ensures forall id | IsFresh(states[n], id) && states[n].callers[id].key == key ::
              Finishes(policy, states[n], id) <==> policy.repeatsDemotion
  {
    EveryStateFits(policy, states, steps, m);
    EveryStateFits(policy, states, steps, n);
    LosingStrands(policy, states[m], steps[m], key);
    JournalMovesForward(policy, states, steps, m + 1, n, key);
    if !policy.repeatsDemotion {
      StrandedForever(policy, states, steps, m + 1, n, key);
    }
    forall id | IsFresh(states[n], id) && states[n].callers[id].key == key
      ensures Finishes(policy, states[n], id) <==> policy.repeatsDemotion
    {
      CompletesIff(policy, states[n], id);
    }
  }

  // ---------------------------------------------------------------- sequences of steps

  /** The state after a sequence of steps, each enabled where it is taken. */
  function Taken(policy: Policy, s: State, steps: seq<Step>): Option<State> {
    if steps == [] then Some(s)
    else
      var mid := Taken(policy, s, steps[..|steps| - 1]);
      var step := steps[|steps| - 1];
      if mid.Some? && Enabled(policy, mid.value, step) then Some(Next(policy, mid.value, step)) else None
  }

  lemma TakenThen(policy: Policy, s: State, steps: seq<Step>, step: Step)
    requires Taken(policy, s, steps).Some? && Enabled(policy, Taken(policy, s, steps).value, step)
    ensures Taken(policy, s, steps + [step]) == Some(Next(policy, Taken(policy, s, steps).value, step))
  {
    assert (steps + [step])[..|steps|] == steps;
  }
}
