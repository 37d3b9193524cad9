/**
 * Crash recovery of everything that cleans up: recording a merge, cancelling a proposal, removing an
 * environment, and retiring a slice. Each closes, deletes and then records; each stage can be
 * repeated, so crashes between stages leave nothing that another pass does not finish.
 */
module RecoveryCleanup {
  import opened Wrappers
  import opened Bytes
  import opened Trees
  import opened Slices
  import opened Lifecycle
  import opened Invariants
  import opened Recovery

  /** A clean-up is retiring, or applying one of the three plans that render nothing. */
  predicate IsCleanup(op: Operation) {
    op.Applying? ==>
      op.plan.RecordMerged? || op.plan.CancelProposal? || op.plan.RemoveEnvironment?
  }

  predicate Closes(op: Operation) {
    op.Applying? ==> op.plan.CancelProposal?
  }

  predicate Removes(op: Operation, desired: DesiredSlice) {
    if op.Retiring? then desired.BorrowedEnvironment().None? else op.plan.RemoveEnvironment?
  }

  function Pending(w0: World, e: string): Option<Proposal> {
    var pending := w0.Load(e).proposal;
    if pending.Some? then Some(pending.value.proposal) else None
  }

  /** The pull requests once the pending one is closed, if it was open. */
  function ClosedPulls(w0: World, e: string): map<nat, Pull> {
    var p := Pending(w0, e);
    if p.Some? && p.value.number in w0.pulls && w0.pulls[p.value.number].state.Open?
    then w0.pulls[p.value.number := w0.pulls[p.value.number].(state := Closed)]
    else w0.pulls
  }

  /** What the clean-up records at its end. */
  function Recorded(w0: World, e: string, op: Operation): TargetState {
    var state := w0.Load(e);
    if op.Applying? && op.plan.CancelProposal? then state.(proposal := None)
    else if op.Applying? && op.plan.RecordMerged? && state.proposal.Some? then
      TargetState(Some(state.proposal.value.inputDigest), state.proposal.value.outputs,
                  Some(op.plan.commit), true, None)
    else DEFAULT_STATE
  }

  /** The world an uninterrupted clean-up leaves. */
  function CleanedWorld(w0: World, desired: DesiredSlice, op: Operation): World {
    var e := desired.environment;
    World(SetRef(SetRef(w0.refs, EnvBranch(e),
                        if Removes(op, desired) then None else w0.Ref(EnvBranch(e))),
                 ProposalBranch(e),
                 if Pending(w0, e).Some? then None else w0.Ref(ProposalBranch(e))),
          if Closes(op) then ClosedPulls(w0, e) else w0.pulls,
          w0.files[StatePath(e) := Recorded(w0, e, op)])
  }

  /** Nobody has moved the proposal branch, so that it can be dropped. */
  predicate Droppable(w0: World, e: string) {
    var p := Pending(w0, e);
    p.Some? ==>
      e != "" && (w0.Ref(ProposalBranch(e)).Some? ==> w0.Ref(ProposalBranch(e)) == Some(p.value.commit))
  }

  /** Some of the stages are done, and nothing is recorded. */
  predicate CleanForm(w0: World, desired: DesiredSlice, op: Operation, world: World) {
    var e := desired.environment;
    var branch, review := world.Ref(EnvBranch(e)), world.Ref(ProposalBranch(e));
    world.files == w0.files &&
    (world.pulls == w0.pulls || (Closes(op) && world.pulls == ClosedPulls(w0, e))) &&
    (branch == w0.Ref(EnvBranch(e)) || (Removes(op, desired) && branch == None)) &&
    (review == w0.Ref(ProposalBranch(e)) ||
     (Pending(w0, e).Some? && review == None && Droppable(w0, e))) &&
    world.refs == SetRef(SetRef(w0.refs, EnvBranch(e), branch), ProposalBranch(e), review)
  }

  /** The pull request has been dealt with, and the proposal branch is gone. */
  predicate PullDone(w0: World, desired: DesiredSlice, op: Operation, world: World) {
    Closes(op) ==> world.pulls == ClosedPulls(w0, desired.environment)
  }

  predicate DropDone(w0: World, desired: DesiredSlice, op: Operation, world: World) {
    Pending(w0, desired.environment).Some? ==>
      PullDone(w0, desired, op, world) && Droppable(w0, desired.environment) &&
      world.Ref(ProposalBranch(desired.environment)) == None
  }

  predicate RemoveDone(desired: DesiredSlice, op: Operation, world: World) {
    Removes(op, desired) ==> world.Ref(EnvBranch(desired.environment)) == None
  }

  predicate CleanPoint(w0: World, desired: DesiredSlice, op: Operation, world: World, pc: Pc) {
    var e := desired.environment;
    pc.Running? ==>
      pc.desired == desired && pc.op == op &&
      match pc.at
      case CancelGet(p) => Pending(w0, e) == Some(p) && Closes(op)
      case CancelClose(p) => Pending(w0, e) == Some(p) && Closes(op)
      case DropLs(p) => Pending(w0, e) == Some(p) && PullDone(w0, desired, op, world)
      case DropFetch(p) =>
        Pending(w0, e) == Some(p) && PullDone(w0, desired, op, world) && e != "" &&
        world.Ref(EnvBranch(e)).Some?
      case DropLsProposal(p) =>
        Pending(w0, e) == Some(p) && PullDone(w0, desired, op, world) && e != ""
      case DropPush(p) =>
        Pending(w0, e) == Some(p) && PullDone(w0, desired, op, world) && e != "" &&
        world.Ref(ProposalBranch(e)) == Some(p.commit)
      case RemoveLs => Removes(op, desired) && DropDone(w0, desired, op, world)
      case RemoveFetch(expected) =>
        Removes(op, desired) && DropDone(w0, desired, op, world) &&
        world.Ref(EnvBranch(e)) == Some(expected)
      case RemovePush(expected) =>
        Removes(op, desired) && DropDone(w0, desired, op, world) &&
        world.Ref(EnvBranch(e)) == Some(expected)
      case Save(state) =>
        state == Recorded(w0, e, op) && DropDone(w0, desired, op, world) &&
        RemoveDone(desired, op, world)
      case _ => false
  }

  predicate Cleaning(w0: World, desired: DesiredSlice, op: Operation, s: State) {
    CleanForm(w0, desired, op, s.world) && CleanPoint(w0, desired, op, s.world, s.pc)
  }

  /** What makes sense to clean up: a pending proposal is the environment's own. */
  predicate ToClean(w0: World, desired: DesiredSlice, op: Operation) {
    var e, p := desired.environment, Pending(w0, desired.environment);
    IsCleanup(op) && (p.Some? ==> ProposalOk(w0.pulls, e, p.value)) &&
    (op.Applying? ==> (op.plan.RemoveEnvironment? <==> p.None?))
  }

  function CleanRank(at: At): nat {
    match at
    case CancelGet(_) => 9
    case CancelClose(_) => 8
    case DropLs(_) => 7
    case DropFetch(_) => 6
    case DropLsProposal(_) => 5
    case DropPush(_) => 4
    case RemoveLs => 3
    case RemoveFetch(_) => 2
    case RemovePush(_) => 1
    case _ => 0
  }

  predicate MovesOn(s: State, s': State) {
    s.pc.Running? && s'.pc.Running? && CleanRank(s'.pc.at) < CleanRank(s.pc.at)
  }

  /* ---------------------------------------------------------------- One action */

  lemma CancelAction(w0: World, desired: DesiredSlice, op: Operation, s: State)
    requires ToClean(w0, desired, op) && Cleaning(w0, desired, op, s)
    requires s.pc.Running? && (s.pc.at.CancelGet? || s.pc.at.CancelClose?)
    ensures Cleaning(w0, desired, op, StepCancel(s)) && MovesOn(s, StepCancel(s))
  {
    hide EnvBranch, ProposalBranch, StatePath, SetRef;
  }

  /** After the drop: the environment branch is next, or the record. */
  lemma AfterDropPoint(w0: World, desired: DesiredSlice, op: Operation, world: World)
    requires ToClean(w0, desired, op) && CleanForm(w0, desired, op, world)
    requires DropDone(w0, desired, op, world) && Pending(w0, desired.environment).Some?
    ensures var at := AfterDrop(world.Load(desired.environment), desired, op);
            at.Some? && (at.value.RemoveLs? || at.value.Save?) &&
            CleanPoint(w0, desired, op, world, Running(desired, op, at.value))
  {
    hide EnvBranch, ProposalBranch, StatePath, SetRef, ClosedPulls;
  }

  lemma DropReads(w0: World, desired: DesiredSlice, op: Operation, s: State)
    requires ToClean(w0, desired, op) && Cleaning(w0, desired, op, s)
    requires s.pc.Running? && (s.pc.at.DropLs? || s.pc.at.DropFetch?)
    ensures Cleaning(w0, desired, op, StepDrop(s))
    ensures Droppable(w0, desired.environment) ==> MovesOn(s, StepDrop(s))
  {
    ProposalBranchRoundTrip(desired.environment);
    hide EnvBranch, ProposalBranch, StatePath, SetRef, ClosedPulls, AfterDrop,
         ProposalBranchEnvironment, CleanForm;
  }

  lemma DroppingKeepsForm(w0: World, desired: DesiredSlice, op: Operation, world: World)
    requires CleanForm(w0, desired, op, world) && Pending(w0, desired.environment).Some?
    requires Droppable(w0, desired.environment)
    ensures var e := desired.environment;
            var dropped := world.(refs := SetRef(world.refs, ProposalBranch(e), None));
            CleanForm(w0, desired, op, dropped) && dropped.Ref(ProposalBranch(e)) == None
  {
    BranchNamesAreApart(desired.environment, desired.environment);
    hide EnvBranch, ProposalBranch, ClosedPulls, Removes;
  }

  lemma DropInspects(w0: World, desired: DesiredSlice, op: Operation, s: State)
    requires ToClean(w0, desired, op) && Cleaning(w0, desired, op, s)
    requires s.pc.Running? && s.pc.at.DropLsProposal?
    ensures Cleaning(w0, desired, op, StepDrop(s))
    ensures Droppable(w0, desired.environment) ==> MovesOn(s, StepDrop(s))
  {
    ReviewIsAsBefore(w0, desired, op, s.world);
    if s.world.Ref(ProposalBranch(desired.environment)).None? {
      AfterDropPoint(w0, desired, op, s.world);
    }
    hide EnvBranch, ProposalBranch, StatePath, SetRef, ClosedPulls, AfterDrop, CleanForm, Recorded,
         Removes, ProposalBranchEnvironment;
  }

  lemma ReviewIsAsBefore(w0: World, desired: DesiredSlice, op: Operation, world: World)
    requires CleanForm(w0, desired, op, world)
    ensures world.Ref(ProposalBranch(desired.environment)).Some? ==>
              world.Ref(ProposalBranch(desired.environment)) ==
              w0.Ref(ProposalBranch(desired.environment))
    ensures desired.environment != "" && world.Ref(ProposalBranch(desired.environment)).None? ==>
              Droppable(w0, desired.environment)
  {
    hide EnvBranch, ProposalBranch, ClosedPulls, SetRef;
  }

  lemma DropDeletes(w0: World, desired: DesiredSlice, op: Operation, s: State)
    requires ToClean(w0, desired, op) && Cleaning(w0, desired, op, s)
    requires s.pc.Running? && s.pc.at.DropPush?
    ensures Cleaning(w0, desired, op, StepDrop(s)) && MovesOn(s, StepDrop(s))
  {
    var e := desired.environment;
    ReviewIsAsBefore(w0, desired, op, s.world);
    DroppingKeepsForm(w0, desired, op, s.world);
    var dropped := s.world.(refs := SetRef(s.world.refs, ProposalBranch(e), None));
    AfterDropPoint(w0, desired, op, dropped);
    assert dropped.Load(e) == s.world.Load(e);
    hide EnvBranch, ProposalBranch, StatePath, SetRef, ClosedPulls, AfterDrop, CleanForm, Recorded,
         Removes, ProposalBranchEnvironment;
  }

  lemma RemovingKeepsForm(w0: World, desired: DesiredSlice, op: Operation, world: World)
    requires CleanForm(w0, desired, op, world) && Removes(op, desired)
    ensures var e := desired.environment;
            var removed := world.(refs := SetRef(world.refs, EnvBranch(e), None));
            CleanForm(w0, desired, op, removed) && removed.Ref(EnvBranch(e)) == None &&
            removed.Ref(ProposalBranch(e)) == world.Ref(ProposalBranch(e))
  {
    BranchNamesAreApart(desired.environment, desired.environment);
    hide EnvBranch, ProposalBranch, ClosedPulls, Removes;
  }

  lemma RemoveReads(w0: World, desired: DesiredSlice, op: Operation, s: State)
    requires ToClean(w0, desired, op) && Cleaning(w0, desired, op, s)
    requires s.pc.Running? && (s.pc.at.RemoveLs? || s.pc.at.RemoveFetch?)
    ensures Cleaning(w0, desired, op, StepRemove(s)) && MovesOn(s, StepRemove(s))
  {
    hide EnvBranch, ProposalBranch, StatePath, SetRef, ClosedPulls, CleanForm, Pending, DropDone;
  }

  lemma RemovePushes(w0: World, desired: DesiredSlice, op: Operation, s: State)
    requires ToClean(w0, desired, op) && Cleaning(w0, desired, op, s)
    requires s.pc.Running? && s.pc.at.RemovePush?
    ensures Cleaning(w0, desired, op, StepRemove(s)) && MovesOn(s, StepRemove(s))
  {
    RemovingKeepsForm(w0, desired, op, s.world);
    hide EnvBranch, ProposalBranch, StatePath, SetRef, ClosedPulls, CleanForm, Pending;
  }

  /** Recording, once everything is done. */
  lemma SaveAction(cfg: Config, w0: World, desired: DesiredSlice, op: Operation, s: State, ch: Choice)
    requires ToClean(w0, desired, op) && Cleaning(w0, desired, op, s)
    requires s.pc.Running? && s.pc.at.Save?
    ensures var s' := Step(cfg, s, ch);
            s'.pc.Idle? && s'.world == CleanedWorld(w0, desired, op) && s'.approved == s.approved
  {
    var e := desired.environment;
    assert s.world.Ref(EnvBranch(e)) ==
           (if Removes(op, desired) then None else w0.Ref(EnvBranch(e))) by {
      hide EnvBranch, ProposalBranch, SetRef, ClosedPulls, Recorded;
    }
    assert s.world.Ref(ProposalBranch(e)) ==
           (if Pending(w0, e).Some? then None else w0.Ref(ProposalBranch(e))) by {
      hide EnvBranch, ProposalBranch, SetRef, ClosedPulls, Recorded;
    }
    assert s.world.pulls == (if Closes(op) then ClosedPulls(w0, e) else w0.pulls) by {
      hide EnvBranch, ProposalBranch, SetRef, Recorded;
    }
    hide EnvBranch, ProposalBranch, SetRef, ClosedPulls, Recorded, StatePath, Removes, Pending,
         RemoveDone, DropDone;
  }

  lemma CleanTick(cfg: Config, w0: World, desired: DesiredSlice, op: Operation, s: State, ch: Choice)
    requires ToClean(w0, desired, op) && Cleaning(w0, desired, op, s) && s.pc.Running?
    ensures var s' := Step(cfg, s, ch);
            s'.approved == s.approved &&
            if s.pc.at.Save? then
              s'.pc.Idle? && s'.world == CleanedWorld(w0, desired, op) &&
              Droppable(w0, desired.environment)
            else
              Cleaning(w0, desired, op, s') &&
              (Droppable(w0, desired.environment) ==> MovesOn(s, s'))
  {
    StepPulls(cfg, s, ch);
    if s.pc.at.Save? {
      SaveAction(cfg, w0, desired, op, s, ch);
      assert Droppable(w0, desired.environment) by {
        hide Step, CleanForm, PullDone, RemoveDone, Recorded, EnvBranch, ProposalBranch;
      }
      hide Step, Cleaning;
    } else if s.pc.at.CancelGet? || s.pc.at.CancelClose? {
      CancelAction(w0, desired, op, s);
      hide StepCancel, Cleaning, PullsStep, Quiet;
    } else if s.pc.at.DropLs? || s.pc.at.DropFetch? {
      DropReads(w0, desired, op, s);
      hide StepDrop, Cleaning, PullsStep;
    } else if s.pc.at.DropLsProposal? || s.pc.at.DropPush? {
      if s.pc.at.DropPush? {
        DropDeletes(w0, desired, op, s);
      } else {
        DropInspects(w0, desired, op, s);
      }
      hide StepDrop, Cleaning, PullsStep;
    } else {
      if s.pc.at.RemovePush? {
        RemovePushes(w0, desired, op, s);
      } else {
        RemoveReads(w0, desired, op, s);
      }
      hide StepRemove, Cleaning, PullsStep;
    }
  }

  /* ---------------------------------------------------------------- Starting again */

  lemma CrashOrStart(w0: World, desired: DesiredSlice, op: Operation, s: State)
    requires ToClean(w0, desired, op) && Cleaning(w0, desired, op, s)
    ensures Cleaning(w0, desired, op, s.(pc := Idle))
    ensures var state := s.world.Load(desired.environment);
            var at := if op.Retiring? then Some(RetireEntry(desired, state))
                      else PlanEntry(op.plan, state);
            at.Some? && CleanRank(at.value) < 10 && (at.value.Save? ==> op.Retiring?) &&
            Cleaning(w0, desired, op, s.(pc := Running(desired, op, at.value)))
  {
    assert s.world.Load(desired.environment) == w0.Load(desired.environment);
    hide EnvBranch, ProposalBranch, StatePath, SetRef, ClosedPulls, CleanForm;
  }

  /**
   * Planning at any stage gives the same plan again, if it gives one; with merges shown, it gives one
   * exactly if the pull request shows the recorded commit.
   */
  lemma CleanPlans(cfg: Config, w0: World, desired: DesiredSlice, plan: Plan, world: World,
                   shown: MergeIdentity, runner: PreparedRunner)
    requires ToClean(w0, desired, Applying(plan))
    requires Fits(cfg, w0.pulls, desired, plan, w0.Load(desired.environment))
    requires TargetStateOk(w0.pulls, desired.environment, w0.Load(desired.environment))
    requires CleanForm(w0, desired, Applying(plan), world)
    ensures var again := MakePlan(cfg, world, desired, shown, runner);
            (again.Some? ==> again == Some(plan)) &&
            (shown.Shown? ==>
               again == if Observable(world, desired.environment, shown) then Some(plan) else None)
  {
    hide EnvBranch, ProposalBranch, StatePath, SetRef;
  }

  /* ---------------------------------------------------------------- Applied clean-ups */

  /** The target state is unchanged at least until the last step of the run. */
  predicate Unrecorded(cfg: Config, s: State, labels: seq<Label>, e: string, state: TargetState)
    decreases |labels|
  {
    labels == [] ||
    (s.world.Load(e) == state && Unrecorded(cfg, Do(cfg, s, labels[0]), labels[1..], e, state))
  }

  /** A clean-up that was planned over this world. */
  predicate PlannedOver(cfg: Config, w0: World, desired: DesiredSlice, plan: Plan) {
    var e := desired.environment;
    IsCleanup(Applying(plan)) && Fits(cfg, w0.pulls, desired, plan, w0.Load(e)) &&
    TargetStateOk(w0.pulls, e, w0.Load(e))
  }

  lemma PlannedIsToClean(cfg: Config, w0: World, desired: DesiredSlice, plan: Plan)
    requires PlannedOver(cfg, w0, desired, plan)
    ensures ToClean(w0, desired, Applying(plan))
    ensures CleanedWorld(w0, desired, Applying(plan)).Load(desired.environment) !=
            w0.Load(desired.environment)
  {
    hide EnvBranch, ProposalBranch, StatePath;
  }

  predicate CleanPhase(w0: World, desired: DesiredSlice, op: Operation, s: State) {
    Cleaning(w0, desired, op, s) || (s.pc.Idle? && s.world == CleanedWorld(w0, desired, op))
  }

  lemma CleanStep(cfg: Config, w0: World, desired: DesiredSlice, plan: Plan, s: State, l: Label)
    requires PlannedOver(cfg, w0, desired, plan) && Alone(l, desired)
    requires PlanOver(s, desired, w0.Load(desired.environment), plan)
    requires Cleaning(w0, desired, Applying(plan), s)
    ensures CleanPhase(w0, desired, Applying(plan), Do(cfg, s, l))
    ensures !Droppable(w0, desired.environment) ==>
              Cleaning(w0, desired, Applying(plan), Do(cfg, s, l))
    ensures PlanOver(Do(cfg, s, l), desired, w0.Load(desired.environment), plan)
  {
    var op := Applying(plan);
    PlannedIsToClean(cfg, w0, desired, plan);
    assert s.world.Load(desired.environment) == w0.Load(desired.environment);
    if Enabled(cfg, s, l) {
      match l
      case Tick(_, ch) => CleanTick(cfg, w0, desired, op, s, ch);
      case Planned(_, shown, runner) => CleanPlans(cfg, w0, desired, plan, s.world, shown, runner);
      case Start(_) => CrashOrStart(w0, desired, op, s);
      case Crash(_) => CrashOrStart(w0, desired, op, s);
    }
    hide Step, MakePlan, Cleaning, CleanedWorld, ToClean, PlannedOver, StatePath, PlanEntry;
  }

  lemma {:induction false} CleanRun(cfg: Config, w0: World, desired: DesiredSlice, plan: Plan,
                                    s: State, labels: seq<Label>)
    requires PlannedOver(cfg, w0, desired, plan) && AllAlone(labels, desired)
    requires Unrecorded(cfg, s, labels, desired.environment, w0.Load(desired.environment))
    requires PlanOver(s, desired, w0.Load(desired.environment), plan)
    requires CleanPhase(w0, desired, Applying(plan), s)
    ensures CleanPhase(w0, desired, Applying(plan), Exec(cfg, s, labels))
    ensures PlanOver(Exec(cfg, s, labels), desired, w0.Load(desired.environment), plan)
    decreases |labels|
  {
    if labels != [] {
      PlannedIsToClean(cfg, w0, desired, plan);
      assert Cleaning(w0, desired, Applying(plan), s);
      CleanStep(cfg, w0, desired, plan, s, labels[0]);
      CleanRun(cfg, w0, desired, plan, Do(cfg, s, labels[0]), labels[1..]);
    }
    hide Do, Cleaning, CleanedWorld, PlannedOver, StatePath, OnlyPlan;
  }

  /** Over, or as many actions from the end as the rank says. */
  predicate Finishing(w0: World, desired: DesiredSlice, op: Operation, s: State, left: nat) {
    || (s.pc.Idle? && s.world == CleanedWorld(w0, desired, op))
    || (Cleaning(w0, desired, op, s) && s.pc.Running? && CleanRank(s.pc.at) < left)
  }

  lemma {:induction false} TicksClean(cfg: Config, w0: World, desired: DesiredSlice, op: Operation,
                                      s: State, choices: seq<Choice>)
    requires ToClean(w0, desired, op) && Droppable(w0, desired.environment)
    requires Finishing(w0, desired, op, s, |choices|)
    ensures var t := Exec(cfg, s, Ticks(desired.environment, choices));
            t.pc.Idle? && t.world == CleanedWorld(w0, desired, op)
    decreases |choices|
  {
    if choices != [] {
      var e := desired.environment;
      var l := Tick(e, choices[0]);
      assert Ticks(e, choices)[1..] == Ticks(e, choices[1..]);
      assert Exec(cfg, s, Ticks(e, choices)) ==
             Exec(cfg, Do(cfg, s, l), Ticks(e, choices[1..]));
      if s.pc.Running? {
        CleanTick(cfg, w0, desired, op, s, choices[0]);
        CleanIsEnabled(cfg, w0, desired, op, s, l);
      } else {
        assert Do(cfg, s, l) == s;
      }
      hide Do, Step, Cleaning, CleanedWorld;
      TicksClean(cfg, w0, desired, op, Do(cfg, s, l), choices[1..]);
    }
    hide Do, Step, Cleaning, CleanedWorld;
  }

  lemma CleanIsEnabled(cfg: Config, w0: World, desired: DesiredSlice, op: Operation, s: State,
                       l: Label)
    requires Cleaning(w0, desired, op, s) && s.pc.Running?
    requires l.Tick? && l.environment == desired.environment
    ensures Do(cfg, s, l) == Step(cfg, s, l.choice)
  {
    hide Step, CleanForm, DropDone, RemoveDone, PullDone, Recorded, Pending;
  }

  /** What cannot be dropped is never recorded. */
  lemma {:induction false} UndroppableRun(cfg: Config, w0: World, desired: DesiredSlice, plan: Plan,
                                          s: State, labels: seq<Label>)
    requires PlannedOver(cfg, w0, desired, plan) && AllAlone(labels, desired)
    requires PlanOver(s, desired, w0.Load(desired.environment), plan)
    requires Cleaning(w0, desired, Applying(plan), s) && !Droppable(w0, desired.environment)
    ensures Cleaning(w0, desired, Applying(plan), Exec(cfg, s, labels))
    decreases |labels|
  {
    if labels != [] {
      CleanStep(cfg, w0, desired, plan, s, labels[0]);
      UndroppableRun(cfg, w0, desired, plan, Do(cfg, s, labels[0]), labels[1..]);
    }
    hide Do, Cleaning, CleanedWorld, PlannedOver, StatePath, PlanOver, Droppable;
  }

  lemma {:induction false} IdleTicks(cfg: Config, s: State, e: string, choices: seq<Choice>)
    requires s.pc.Idle?
    ensures Exec(cfg, s, Ticks(e, choices)) == s
    decreases |choices|
  {
    if choices != [] {
      var l := Tick(e, choices[0]);
      assert Ticks(e, choices)[1..] == Ticks(e, choices[1..]);
      assert Exec(cfg, s, Ticks(e, choices)) ==
             Exec(cfg, Do(cfg, s, l), Ticks(e, choices[1..]));
      assert Do(cfg, s, l) == s;
      hide Do;
      IdleTicks(cfg, s, e, choices[1..]);
    }
    hide Do;
  }

  lemma TicksAreAlone(desired: DesiredSlice, choices: seq<Choice>)
    ensures AllAlone(Ticks(desired.environment, choices), desired)
  {
    if choices != [] {
      TicksAreAlone(desired, choices[1..]);
    }
  }

  /** One more pass from idle, with nothing recorded. */
  lemma OneMorePass(cfg: Config, w0: World, s: State, desired: DesiredSlice, plan: Plan,
                    runner: PreparedRunner, choices: seq<Choice>)
    requires PlannedOver(cfg, w0, desired, plan) && s.pc.Idle? && |choices| == 10
    requires PlanOver(s, desired, w0.Load(desired.environment), plan)
    requires Cleaning(w0, desired, Applying(plan), s)
    ensures var e := desired.environment;
            var t := Exec(cfg, s, Pass(desired, Shown, runner, choices));
            if Droppable(w0, e) && (Observable(s.world, e, Shown) || CanStart(s, e)) then
              t.pc.Idle? && t.world == CleanedWorld(w0, desired, Applying(plan))
            else t.world.Load(e) == w0.Load(e)
  {
    var e, op := desired.environment, Applying(plan);
    var planned, start := Planned(desired, Shown, runner), Start(e);
    PlannedIsToClean(cfg, w0, desired, plan);
    FormKeepsLoad(w0, desired, op, s);
    if !Droppable(w0, e) {
      TicksAreAlone(desired, choices);
      UndroppableRun(cfg, w0, desired, plan, s, Pass(desired, Shown, runner, choices));
      FormKeepsLoad(w0, desired, op, Exec(cfg, s, Pass(desired, Shown, runner, choices)));
    } else {
      CleanPlans(cfg, w0, desired, plan, s.world, Shown, runner);
      CrashOrStart(w0, desired, op, s);
      ExecTwo(cfg, s, planned, start, Ticks(e, choices));
      StartsThePlan(cfg, s, desired, plan, runner);
      var t := Do(cfg, Do(cfg, s, planned), start);
      if Observable(s.world, e, Shown) || CanStart(s, e) {
        TicksClean(cfg, w0, desired, op, t, choices);
      } else {
        IdleTicks(cfg, s, e, choices);
      }
    }
    hide Do, Exec, Cleaning, CleanedWorld, PlannedOver, StatePath, PlanOver, Droppable, MakePlan,
         PlanEntry, Pending, Observable, CanStart;
  }

  lemma FormKeepsLoad(w0: World, desired: DesiredSlice, op: Operation, s: State)
    requires Cleaning(w0, desired, op, s)
    ensures s.world.Load(desired.environment) == w0.Load(desired.environment)
  {
  }

  /**
   * Crash recovery of recording a merge, cancelling a proposal and removing an environment. In any
   * run of plans, starts, actions and crashes for the slice, up to the step that changes the target
   * state: once it has changed, the world is the one that an uninterrupted clean-up leaves. Until
   * then, whenever the run is idle, one more uninterrupted pass gets there if and only if nobody has
   * moved the proposal branch, and the pull request shows the recorded commit or a plan at hand can
   * still be started. Otherwise it records nothing.
   */
  lemma CleanupSurvivesCrashes(cfg: Config, s0: State, desired: DesiredSlice, plan: Plan,
                               labels: seq<Label>, runner: PreparedRunner, choices: seq<Choice>)
    requires s0.pc.Idle? && PlannedOver(cfg, s0.world, desired, plan)
    requires PlanOver(s0, desired, s0.world.Load(desired.environment), plan)
    requires AllAlone(labels, desired) && |choices| == 10
    requires Unrecorded(cfg, s0, labels, desired.environment,
                        s0.world.Load(desired.environment))
    ensures var s := Exec(cfg, s0, labels);
            s.world.Load(desired.environment) != s0.world.Load(desired.environment) ==>
              s.pc.Idle? && s.world == CleanedWorld(s0.world, desired, Applying(plan))
    ensures var s, e := Exec(cfg, s0, labels), desired.environment;
            var t := Exec(cfg, s, Pass(desired, Shown, runner, choices));
            s.pc.Idle? && s.world.Load(e) == s0.world.Load(e) ==>
              if Droppable(s0.world, e) && (Observable(s.world, e, Shown) || CanStart(s, e)) then
                t.pc.Idle? && t.world == CleanedWorld(s0.world, desired, Applying(plan))
              else t.world.Load(e) == s0.world.Load(e)
  {
    var e, w0, op := desired.environment, s0.world, Applying(plan);
    PlannedIsToClean(cfg, w0, desired, plan);
    NothingDoneYet(w0, desired, op, s0);
    CleanRun(cfg, w0, desired, plan, s0, labels);
    var s := Exec(cfg, s0, labels);
    if s.world.Load(e) != w0.Load(e) {
      LoadOfForm(w0, desired, op, s);
    } else if s.pc.Idle? {
      OneMorePass(cfg, w0, s, desired, plan, runner, choices);
    }
    hide Do, Exec, Cleaning, CleanedWorld, PlannedOver, StatePath, PlanOver, Droppable, MakePlan,
         PlanEntry, Pending, Observable, CanStart;
  }

  lemma LoadOfForm(w0: World, desired: DesiredSlice, op: Operation, s: State)
    requires s.world.Load(desired.environment) != w0.Load(desired.environment)
    ensures !Cleaning(w0, desired, op, s)
  {
  }

  lemma NothingDoneYet(w0: World, desired: DesiredSlice, op: Operation, s: State)
    requires s.pc.Idle? && s.world == w0
    ensures Cleaning(w0, desired, op, s)
  {
    hide EnvBranch, ProposalBranch, StatePath;
  }

  lemma StartsThePlan(cfg: Config, s: State, desired: DesiredSlice, plan: Plan,
                      runner: PreparedRunner)
    requires s.pc.Idle? && PlanOver(s, desired, s.world.Load(desired.environment), plan)
    requires MakePlan(cfg, s.world, desired, Shown, runner) ==
             if Observable(s.world, desired.environment, Shown) then Some(plan) else None
    requires PlanEntry(plan, s.world.Load(desired.environment)).Some?
    ensures var e := desired.environment;
            var t := Do(cfg, Do(cfg, s, Planned(desired, Shown, runner)), Start(e));
            if Observable(s.world, e, Shown) || CanStart(s, e) then
              t.world == s.world &&
              t.pc == Running(desired, Applying(plan), PlanEntry(plan, s.world.Load(e)).value)
            else t == s
  {
    hide MakePlan, PlanEntry, StatePath, Observable;
  }

  /* ---------------------------------------------------------------- Retiring */

  /** Retirements of one slice, with crashes anywhere and nobody else acting. */
  predicate RetiresAlone(l: Label, desired: DesiredSlice) {
    match l
    case Retire(d) => d == desired
    case Tick(e, _) => e == desired.environment
    case Crash(e) => e == desired.environment
    case _ => false
  }

  /** Retired already; a further retirement finds nothing to do. */
  predicate Retired(w0: World, desired: DesiredSlice, s: State) {
    s.world == CleanedWorld(w0, desired, Retiring) &&
    (s.pc.Running? ==>
      s.pc.desired == desired && s.pc.op == Retiring &&
      ((s.pc.at == RemoveLs && desired.BorrowedEnvironment().None?) ||
       s.pc.at == Save(DEFAULT_STATE)))
  }

  predicate RetirePhase(w0: World, desired: DesiredSlice, s: State) {
    Cleaning(w0, desired, Retiring, s) || Retired(w0, desired, s)
  }

  lemma RetiredStays(cfg: Config, w0: World, desired: DesiredSlice, s: State, l: Label)
    requires Retired(w0, desired, s) && RetiresAlone(l, desired)
    ensures Retired(w0, desired, Do(cfg, s, l))
    ensures l.Retire? && s.pc.Idle? ==> Do(cfg, s, l).pc.Running?
    ensures l.Tick? && s.pc.Running? && s.pc.at.Save? ==> Do(cfg, s, l).pc.Idle?
    ensures l.Tick? && s.pc.Running? && s.pc.at.RemoveLs? ==>
              Do(cfg, s, l).pc.Running? && Do(cfg, s, l).pc.at.Save?
  {
    BranchNamesAreApart(desired.environment, desired.environment);
    hide EnvBranch, ProposalBranch, StatePath, ClosedPulls;
  }

  lemma RetireStep(cfg: Config, w0: World, desired: DesiredSlice, s: State, l: Label)
    requires ToClean(w0, desired, Retiring) && RetiresAlone(l, desired)
    requires RetirePhase(w0, desired, s)
    ensures RetirePhase(w0, desired, Do(cfg, s, l))
    ensures Cleaning(w0, desired, Retiring, s) && !Droppable(w0, desired.environment) ==>
              Cleaning(w0, desired, Retiring, Do(cfg, s, l))
  {
    if Retired(w0, desired, s) {
      RetiredStays(cfg, w0, desired, s, l);
      hide Do, Cleaning, Retired;
    } else if Enabled(cfg, s, l) {
      CrashOrStart(w0, desired, Retiring, s);
      if l.Tick? {
        CleanTick(cfg, w0, desired, Retiring, s, l.choice);
      }
      hide Step, MakePlan, Cleaning, CleanedWorld, ToClean, RetireEntry, StatePath;
    }
  }

  lemma {:induction false} RetireRun(cfg: Config, w0: World, desired: DesiredSlice, s: State,
                                     labels: seq<Label>)
    requires ToClean(w0, desired, Retiring) && RetirePhase(w0, desired, s)
    requires forall l | l in labels :: RetiresAlone(l, desired)
    ensures RetirePhase(w0, desired, Exec(cfg, s, labels))
    decreases |labels|
  {
    if labels != [] {
      RetireStep(cfg, w0, desired, s, labels[0]);
      RetireRun(cfg, w0, desired, Do(cfg, s, labels[0]), labels[1..]);
    }
    hide Do, ToClean, RetirePhase;
  }

  lemma {:induction false} TicksRetire(cfg: Config, w0: World, desired: DesiredSlice, s: State,
                                       choices: seq<Choice>)
    requires Retired(w0, desired, s)
    requires s.pc.Running? ==> |choices| >= if s.pc.at.Save? then 1 else 2
    ensures var t := Exec(cfg, s, Ticks(desired.environment, choices));
            t.pc.Idle? && t.world == CleanedWorld(w0, desired, Retiring)
    decreases |choices|
  {
    if choices != [] {
      var e := desired.environment;
      var l := Tick(e, choices[0]);
      assert Ticks(e, choices)[1..] == Ticks(e, choices[1..]);
      assert Exec(cfg, s, Ticks(e, choices)) ==
             Exec(cfg, Do(cfg, s, l), Ticks(e, choices[1..]));
      RetiredStays(cfg, w0, desired, s, l);
      if s.pc.Idle? {
        assert Do(cfg, s, l) == s;
      }
      hide Do, CleanedWorld;
      TicksRetire(cfg, w0, desired, Do(cfg, s, l), choices[1..]);
    }
    hide Do, CleanedWorld;
  }

  lemma RetiringTicks(desired: DesiredSlice, choices: seq<Choice>)
    ensures forall l | l in Ticks(desired.environment, choices) :: RetiresAlone(l, desired)
  {
    if choices != [] {
      RetiringTicks(desired, choices[1..]);
    }
  }

  lemma {:induction false} UndroppableRetirement(cfg: Config, w0: World, desired: DesiredSlice,
                                                 s: State, labels: seq<Label>)
    requires ToClean(w0, desired, Retiring) && !Droppable(w0, desired.environment)
    requires forall l | l in labels :: RetiresAlone(l, desired)
    requires Cleaning(w0, desired, Retiring, s)
    ensures Cleaning(w0, desired, Retiring, Exec(cfg, s, labels))
    decreases |labels|
  {
    if labels != [] {
      RetireStep(cfg, w0, desired, s, labels[0]);
      UndroppableRetirement(cfg, w0, desired, Do(cfg, s, labels[0]), labels[1..]);
    }
    hide Do, ToClean, Cleaning, Droppable;
  }

  /**
   * Crash recovery of retiring. After any retirements of the slice that crashed anywhere, the next
   * uninterrupted one leaves the world that a single uninterrupted retirement leaves, if and only if
   * nobody has moved the proposal branch; otherwise it leaves the target state as it was.
   */
  lemma RetireSurvivesCrashes(cfg: Config, s0: State, desired: DesiredSlice, labels: seq<Label>,
                              choices: seq<Choice>)
    requires s0.pc.Idle? && ToClean(s0.world, desired, Retiring)
    requires forall l | l in labels :: RetiresAlone(l, desired)
    requires |choices| == 10 && Exec(cfg, s0, labels).pc.Idle?
    ensures var t := Exec(cfg, Exec(cfg, s0, labels),
                          [Retire(desired)] + Ticks(desired.environment, choices));
            if Droppable(s0.world, desired.environment) then
              t.pc.Idle? && t.world == CleanedWorld(s0.world, desired, Retiring)
            else t.world.Load(desired.environment) == s0.world.Load(desired.environment)
  {
    var e, w0 := desired.environment, s0.world;
    NothingDoneYet(w0, desired, Retiring, s0);
    if !Droppable(w0, e) {
      var all := labels + ([Retire(desired)] + Ticks(e, choices));
      RetiringTicks(desired, choices);
      UndroppableRetirement(cfg, w0, desired, s0, all);
      ExecAppend(cfg, s0, labels, [Retire(desired)] + Ticks(e, choices));
      FormKeepsLoad(w0, desired, Retiring, Exec(cfg, s0, all));
      return;
    }
    RetireRun(cfg, w0, desired, s0, labels);
    var s := Exec(cfg, s0, labels);
    var l := Retire(desired);
    var t := Do(cfg, s, l);
    assert ([l] + Ticks(e, choices))[1..] == Ticks(e, choices);
    assert Exec(cfg, s, [l] + Ticks(e, choices)) == Exec(cfg, t, Ticks(e, choices));
    if Retired(w0, desired, s) {
      RetiredStays(cfg, w0, desired, s, l);
      TicksRetire(cfg, w0, desired, t, choices);
    } else {
      CrashOrStart(w0, desired, Retiring, s);
      assert t == s.(pc := Running(desired, Retiring, RetireEntry(desired, s.world.Load(e))));
      TicksClean(cfg, w0, desired, Retiring, t, choices);
    }
    hide Do, Exec, ToClean, Cleaning, CleanedWorld, RetireEntry;
  }

  /** What a retirement leaves: none of the environment's branches but a borrowed one. */
  lemma RetiredWorldMeans(w0: World, desired: DesiredSlice)
    requires ToClean(w0, desired, Retiring)
    ensures var e, w := desired.environment, CleanedWorld(w0, desired, Retiring);
            (w.Ref(EnvBranch(e)).None? <==>
              (desired.BorrowedEnvironment().None? || w0.Ref(EnvBranch(e)).None?)) &&
            (Pending(w0, e).Some? ==>
              w.Ref(ProposalBranch(e)).None? &&
              !w.pulls[Pending(w0, e).value.number].state.Open?) &&
            (forall other ::
              other != EnvBranch(e) && other != ProposalBranch(e) ==>
                w.Ref(other) == w0.Ref(other)) &&
            (forall n | n in w0.pulls && Pending(w0, e).Some? &&
                        n != Pending(w0, e).value.number :: w.pulls[n] == w0.pulls[n]) &&
            w.Load(e) == DEFAULT_STATE
  {
    BranchNamesAreApart(desired.environment, desired.environment);
    hide EnvBranch, ProposalBranch;
  }
}
