/**
 * Convergence: every pass that makes progress on a fixed slice lowers a rank that starts at two at
 * most, whatever people, outsiders and crashes do in between; and a pass that makes none ends in
 * one of the settled outcomes.
 */
module Convergence {
  import opened Wrappers
  import opened Bytes
  import opened Trees
  import opened Slices
  import opened Lifecycle
  import opened Invariants

  /** Published at this slice's digest. */
  predicate IsPublished(desired: DesiredSlice, state: TargetState) {
    state.published && state.inputDigest == Some(desired.MaterializationDigest())
  }

  /** How many applications a slice still needs over a target state. */
  function Rank(policy: PublicationPolicy, desired: DesiredSlice, state: TargetState): (rank: nat)
    ensures rank <= 2
  {
    var pending := if state.proposal.Some? then 1 else 0;
    if desired.BorrowedEnvironment().Some? then pending
    else if desired.components == [] then
      pending + if policy == Direct && state.published then 1 else 0
    else if policy == Direct then
      pending + if IsPublished(desired, state) then 0 else 1
    else if state.proposal.Some? &&
            state.proposal.value.inputDigest == desired.MaterializationDigest() then 1
    else if IsPublished(desired, state) then 0
    else 2
  }

  function RankIn(cfg: Config, desired: DesiredSlice, world: World): nat {
    Rank(cfg.policies.ForEnvironment(desired.environment), desired,
         world.Load(desired.environment))
  }

  /** What applying a plan over a target state may record. */
  predicate MayRecord(desired: DesiredSlice, plan: Plan, over: TargetState, state: TargetState) {
    match plan
    case Publish(_, outputs) =>
      state.commit.Some? && state == PublishedState(desired, outputs, state.commit.value)
    case Propose(_, outputs) =>
      || (state.commit.Some? && state == PublishedState(desired, outputs, state.commit.value))
      || (state.proposal.Some? &&
          state == PendingState(over, desired, plan, state.proposal.value.proposal.number,
                                state.proposal.value.proposal.commit))
    case RecordMerged(commit) =>
      over.proposal.Some? &&
      state == TargetState(Some(over.proposal.value.inputDigest), over.proposal.value.outputs,
                           Some(commit), true, None)
    case CancelProposal => state == over.(proposal := None)
    case RemoveEnvironment => state == DEFAULT_STATE
  }

  /** A pass at its last action is about to record what its plan may record. */
  predicate RecordsAsPlanned(s: State) {
    s.pc.Running? && s.pc.op.Applying? && s.pc.at.Save? ==>
      MayRecord(s.pc.desired, s.pc.op.plan, s.world.Load(s.pc.desired.environment), s.pc.at.state)
  }

  lemma PublishRecords(s: State, ch: Choice)
    requires s.pc.Running? && s.pc.op.Applying? && s.pc.op.plan.Publish? && !s.pc.at.Save?
    ensures RecordsAsPlanned(StepPublish(s, ch))
  {
    hide EnvBranch, StatePath, CommitOver;
  }

  lemma ProposeRecords(cfg: Config, s: State, ch: Choice)
    requires s.pc.Running? && s.pc.op.Applying? && s.pc.op.plan.Propose? && !s.pc.at.Save?
    ensures RecordsAsPlanned(StepPropose(cfg, s, ch))
  {
    hide EnvBranch, ProposalBranch, StatePath, CommitOver;
  }

  lemma PullRecords(s: State, ch: Choice)
    requires s.pc.Running? && s.pc.op.Applying? && s.pc.op.plan.Propose? && !s.pc.at.Save?
    ensures RecordsAsPlanned(StepPull(s, ch))
  {
    hide EnvBranch, ProposalBranch, StatePath, OpenPulls;
  }

  lemma DropRecords(s: State)
    requires s.pc.Running?
    ensures RecordsAsPlanned(StepDrop(s))
  {
    hide EnvBranch, ProposalBranchEnvironment, StatePath;
  }

  lemma RestRecords(cfg: Config, s: State, ch: Choice)
    requires s.pc.Running? && !s.pc.at.Save?
    ensures RecordsAsPlanned(StepRender(cfg, s, ch)) && RecordsAsPlanned(StepCancel(s))
    ensures (s.pc.op.Retiring? || s.pc.op.plan.RemoveEnvironment?) ==>
              RecordsAsPlanned(StepRemove(s))
  {
    hide EnvBranch, StatePath;
  }

  lemma TickRecords(cfg: Config, s: State, ch: Choice)
    requires Inv(cfg, s) && s.pc.Running? && !s.pc.at.Save?
    ensures RecordsAsPlanned(Step(cfg, s, ch))
  {
    match s.pc.at
    case PublishLs(_) | PublishFetch(_, _) | PublishPush(_, _, _) => PublishRecords(s, ch);
    case ProposeLs(_) | ProposeFetch(_, _) | ProposeBootstrap(_, _) | ProposeLsProposal(_, _)
       | ProposePush(_, _, _) => ProposeRecords(cfg, s, ch);
    case ProposeList(_, _) | ProposeUpdate(_, _, _) | ProposeCreate(_, _)
       | ProposeWait(_, _, _, _) => PullRecords(s, ch);
    case DropLs(_) | DropFetch(_) | DropLsProposal(_) | DropPush(_) => DropRecords(s);
    case _ => RestRecords(cfg, s, ch);
    hide StepRender, StepPublish, StepPropose, StepPull, StepCancel, StepDrop, StepRemove,
         RecordsAsPlanned, FilesOk, ApprovedOk, PullsOk, Fits;
  }

  lemma DoRecords(cfg: Config, s: State, l: Label)
    requires Inv(cfg, s) && RecordsAsPlanned(s)
    ensures RecordsAsPlanned(Do(cfg, s, l))
  {
    if l.Tick? && Enabled(cfg, s, l) {
      if !s.pc.at.Save? {
        TickRecords(cfg, s, l.choice);
        hide Step, Inv, RecordsAsPlanned;
      }
    } else {
      hide Step, Inv, MayRecord, MakePlan, StatePath;
    }
  }

  /** Recording what a fitting plan may record lowers the rank. */
  lemma RecordingLowers(cfg: Config, pulls: map<nat, Pull>, desired: DesiredSlice, plan: Plan,
                        over: TargetState, state: TargetState)
    requires Fits(cfg, pulls, desired, plan, over) && MayRecord(desired, plan, over, state)
    ensures var policy := cfg.policies.ForEnvironment(desired.environment);
            Rank(policy, desired, state) < Rank(policy, desired, over)
  {
    hide EnvBranch, ProposalBranch;
  }

  /** The step records what an applied plan did: the one kind of step that is progress. */
  predicate Progresses(cfg: Config, s: State, l: Label) {
    Enabled(cfg, s, l) && l.Tick? && s.pc.op.Applying? && s.pc.at.Save?
  }

  /**
   * Progress lowers the rank, in every reachable state of every run with crashes, reviews and
   * outside writers.
   */
  lemma ProgressLowersTheRank(cfg: Config, labels: seq<Label>, l: Label)
    requires Progresses(cfg, Exec(cfg, INITIAL, labels), l)
    ensures var s := Exec(cfg, INITIAL, labels);
            RankIn(cfg, s.pc.desired, Do(cfg, s, l).world) < RankIn(cfg, s.pc.desired, s.world)
  {
    ExecKeepsPass(cfg, INITIAL, labels);
    var s := Exec(cfg, INITIAL, labels);
    RecordingLowers(cfg, s.world.pulls, s.pc.desired, s.pc.op.plan,
                    s.world.Load(s.pc.desired.environment), s.pc.at.state);
    SavesWhatItHolds(cfg, s, l);
    hide Do, Exec, Rank, MayRecord, Fits, AtOk, StatePath, FilesOk, ApprovedOk, PullsOk;
  }

  /* ---------------------------------------------------------------- Counting progress */

  /** How many steps of the run are progress for an environment. */
  function Progress(cfg: Config, s: State, labels: seq<Label>, e: string): nat
    decreases |labels|
  {
    if labels == [] then 0
    else
      (if Progresses(cfg, s, labels[0]) && s.pc.desired.environment == e then 1 else 0) +
      Progress(cfg, Do(cfg, s, labels[0]), labels[1..], e)
  }

  /** Nothing but this slice is planned for its environment, and it is not retired. */
  predicate Only(l: Label, desired: DesiredSlice) {
    (l.Planned? && l.desired.environment == desired.environment ==> l.desired == desired) &&
    (l.Retire? ==> l.desired.environment != desired.environment)
  }

  /** No plan for another slice can be started, and no pass of one is running. */
  predicate OnlyThis(s: State, desired: DesiredSlice) {
    var e := desired.environment;
    (e in s.approved ==>
       s.approved[e].desired == desired || s.approved[e].over != s.world.Load(e)) &&
    (s.pc.Running? && s.pc.desired.environment == e ==> s.pc.desired == desired && s.pc.op.Applying?)
  }

  /** A running application is of the plan at hand, over the state that it was made for. */
  predicate AppliesApproved(s: State) {
    s.pc.Running? && s.pc.op.Applying? ==>
      var e := s.pc.desired.environment;
      e in s.approved &&
      s.approved[e] == Approved(s.pc.desired, s.pc.op.plan, s.world.Load(e))
  }

  lemma DoKeepsApplying(cfg: Config, s: State, l: Label)
    requires ApprovedOk(cfg, s) && AppliesApproved(s)
    ensures AppliesApproved(Do(cfg, s, l))
  {
    if l.Tick? && Enabled(cfg, s, l) {
      StepStaysInPass(cfg, s, l.choice);
      StepPulls(cfg, s, l.choice);
      SaveEnds(cfg, s, l.choice);
      hide Step, PullsStep, ApprovedOk, StatePath;
    } else {
      hide Step, MakePlan, StatePath, Fits, PlanEntry, RetireEntry;
    }
  }

  lemma SaveEnds(cfg: Config, s: State, ch: Choice)
    requires s.pc.Running?
    ensures s.pc.at.Save? ==> Step(cfg, s, ch).pc.Idle?
  {
    hide StepRender, StepPublish, StepPropose, StepPull, StepCancel, StepDrop, StepRemove;
  }

  /** What a run keeps of the pass and of the plans. */
  ghost predicate PassInv(cfg: Config, s: State) {
    Inv(cfg, s) && RecordsAsPlanned(s) && AppliesApproved(s)
  }

  lemma {:induction false} ExecKeepsPass(cfg: Config, s: State, labels: seq<Label>)
    requires PassInv(cfg, s)
    ensures PassInv(cfg, Exec(cfg, s, labels))
    decreases |labels|
  {
    if labels != [] {
      DoKeeps(cfg, s, labels[0]);
      DoRecords(cfg, s, labels[0]);
      DoKeepsApplying(cfg, s, labels[0]);
      ExecKeepsPass(cfg, Do(cfg, s, labels[0]), labels[1..]);
    }
    hide Do, FilesOk, ApprovedOk, PullsOk, PcOk, RecordsAsPlanned, AppliesApproved;
  }

  lemma DoKeepsOnly(cfg: Config, s: State, l: Label, desired: DesiredSlice)
    requires ApprovedOk(cfg, s) && AppliesApproved(s)
    requires OnlyThis(s, desired) && Only(l, desired)
    ensures OnlyThis(Do(cfg, s, l), desired)
  {
    if l.Tick? && Enabled(cfg, s, l) {
      StepStaysInPass(cfg, s, l.choice);
      StepPulls(cfg, s, l.choice);
      if s.pc.at.Save? && s.pc.desired.environment != desired.environment {
        SaveWritesOneFile(cfg, s, l.choice, desired.environment);
      }
      hide Step, PullsStep, ApprovedOk, StatePath;
    } else {
      hide Step, MakePlan, StatePath, Fits, PlanEntry, RetireEntry;
    }
  }

  lemma SaveWritesOneFile(cfg: Config, s: State, ch: Choice, e: string)
    requires s.pc.Running? && s.pc.at.Save? && s.pc.desired.environment != e
    ensures Step(cfg, s, ch).world.Load(e) == s.world.Load(e)
  {
    if StatePath(e) == StatePath(s.pc.desired.environment) {
      StatePathIsInjective(e, s.pc.desired.environment);
    }
    hide StatePath;
  }

  /** Steps that are not progress for the environment leave its target state alone. */
  lemma OnlyProgressRecords(cfg: Config, s: State, l: Label, desired: DesiredSlice)
    requires OnlyThis(s, desired)
    requires !(Progresses(cfg, s, l) && s.pc.desired.environment == desired.environment)
    ensures Do(cfg, s, l).world.Load(desired.environment) == s.world.Load(desired.environment)
  {
    var e := desired.environment;
    if l.Tick? && Enabled(cfg, s, l) {
      if s.pc.at.Save? {
        SaveWritesOneFile(cfg, s, l.choice, e);
        hide Step, StatePath;
      } else {
        StepPulls(cfg, s, l.choice);
        hide Step, PullsStep, StatePath;
      }
    } else {
      hide Step, MakePlan, StatePath, PlanEntry, RetireEntry;
    }
  }

  lemma {:induction false} ProgressIsPaidFor(cfg: Config, s: State, labels: seq<Label>,
                                             desired: DesiredSlice)
    requires PassInv(cfg, s) && OnlyThis(s, desired)
    requires forall l | l in labels :: Only(l, desired)
    ensures RankIn(cfg, desired, Exec(cfg, s, labels).world) +
            Progress(cfg, s, labels, desired.environment) <= RankIn(cfg, desired, s.world)
    decreases |labels|
  {
    if labels != [] {
      var l := labels[0];
      DoKeeps(cfg, s, l);
      DoRecords(cfg, s, l);
      DoKeepsApplying(cfg, s, l);
      DoKeepsOnly(cfg, s, l, desired);
      if Progresses(cfg, s, l) && s.pc.desired.environment == desired.environment {
        RecordingLowers(cfg, s.world.pulls, desired, s.pc.op.plan,
                        s.world.Load(desired.environment), s.pc.at.state);
        SavesWhatItHolds(cfg, s, l);
      } else {
        OnlyProgressRecords(cfg, s, l, desired);
      }
      ProgressIsPaidFor(cfg, Do(cfg, s, l), labels[1..], desired);
    }
    hide Do, Rank, MayRecord, Fits, FilesOk, ApprovedOk, PullsOk, AtOk, OnlyThis;
  }

  lemma SavesWhatItHolds(cfg: Config, s: State, l: Label)
    requires Progresses(cfg, s, l)
    ensures Do(cfg, s, l).world.Load(s.pc.desired.environment) == s.pc.at.state
  {
    hide StatePath;
  }

  /**
   * At most two applications. From any reachable state on in which no plan for another slice can be
   * started, as long as only one slice is asked for, no run of any length makes progress on it more
   * often than the rank of its target state, which is two at most.
   */
  lemma AtMostTwoApplications(cfg: Config, before: seq<Label>, labels: seq<Label>,
                              desired: DesiredSlice)
    requires OnlyThis(Exec(cfg, INITIAL, before), desired)
    requires forall l | l in labels :: Only(l, desired)
    ensures var s := Exec(cfg, INITIAL, before);
            Progress(cfg, s, labels, desired.environment) <= RankIn(cfg, desired, s.world) <= 2
  {
    ExecKeepsPass(cfg, INITIAL, before);
    ProgressIsPaidFor(cfg, Exec(cfg, INITIAL, before), labels, desired);
    hide Exec, Inv, RecordsAsPlanned, OnlyThis;
  }

  /* ---------------------------------------------------------------- Settled outcomes */

  /** Observing and planning a slice comes to this outcome. */
  predicate ComesTo(cfg: Config, world: World, desired: DesiredSlice, shown: MergeIdentity,
                    runner: PreparedRunner, applied: Option<Commit>, outcome: PlanOutcome)
  {
    var observed := Observe(world, desired.environment, shown);
    observed.Ok? && (observed.value.state.published ==> observed.value.state.commit.Some?) &&
    outcome == Decide(cfg.policies.ForEnvironment(desired.environment), desired, observed.value,
                      cfg.render(runner, desired), applied)
  }

  /** The pull request of the pending proposal, if the host knows it. */
  function PendingPull(world: World, e: string): Option<Pull> {
    var state := world.Load(e);
    if state.proposal.Some? then Get(world.pulls, state.proposal.value.proposal.number) else None
  }

  /** This very slice is proposed, and its review decides what happens next. */
  predicate UnderReview(cfg: Config, world: World, desired: DesiredSlice) {
    var state := world.Load(desired.environment);
    desired.BorrowedEnvironment().None? && desired.components != [] &&
    cfg.policies.ForEnvironment(desired.environment) == PrGated && state.proposal.Some? &&
    state.proposal.value.inputDigest == desired.MaterializationDigest()
  }

  /** Planning needs a render: of a borrowed world, or of one that is still to be published. */
  predicate AsksForRender(policy: PublicationPolicy, desired: DesiredSlice, state: TargetState) {
    if desired.BorrowedEnvironment().Some? then state.proposal.None?
    else
      desired.components != [] && !IsPublished(desired, state) &&
      (state.proposal.Some? ==>
         policy == PrGated &&
         state.proposal.value.inputDigest != desired.MaterializationDigest())
  }

  /** An empty slice of a reviewed environment that is still deployed. */
  predicate CannotBeDeleted(policy: PublicationPolicy, desired: DesiredSlice, state: TargetState) {
    desired.BorrowedEnvironment().None? && desired.components == [] && policy == PrGated &&
    state.published && state.proposal.None?
  }

  /** Which outcomes are failures, and which failure each is. */
  predicate FailsExactly(cfg: Config, world: World, desired: DesiredSlice, runner: PreparedRunner,
                         applied: Option<Commit>, outcome: PlanOutcome)
  {
    var policy, state := cfg.policies.ForEnvironment(desired.environment),
                         world.Load(desired.environment);
    var pull, rendered := PendingPull(world, desired.environment), cfg.render(runner, desired);
    var asks := AsksForRender(policy, desired, state);
    (outcome == Failed("k8s.review.branch-deletion-unsupported") <==>
      CannotBeDeleted(policy, desired, state)) &&
    (outcome == Failed("k8s.review.closed") <==>
      UnderReview(cfg, world, desired) && pull.Some? && pull.value.state.Closed?) &&
    (outcome == Failed("k8s.renderer.execute") <==> asks && rendered.None?) &&
    (outcome == Failed("k8s.publisher.git") <==>
      asks && rendered.Some? && desired.BorrowedEnvironment().Some? && applied.None?) &&
    (outcome.Failed? ==>
      outcome.code in {"k8s.review.branch-deletion-unsupported", "k8s.review.closed",
                       "k8s.renderer.execute", "k8s.publisher.git"})
  }

  /** What is reported: a borrowed render, nothing of nothing, or what was recorded. */
  predicate ReportsTruly(cfg: Config, world: World, desired: DesiredSlice, runner: PreparedRunner,
                         applied: Option<Commit>, outputs: seq<Output>, publication: Option<Commit>)
  {
    var state, rendered := world.Load(desired.environment), cfg.render(runner, desired);
    if desired.BorrowedEnvironment().Some? then
      state.proposal.None? && rendered.Some? && outputs == rendered.value.outputs &&
      applied.Some? && publication == applied
    else if desired.components == [] then
      state.proposal.None? && !state.published && outputs == [] && publication.None?
    else
      (state.proposal.Some? ==>
         cfg.policies.ForEnvironment(desired.environment) == PrGated &&
         state.proposal.value.inputDigest != desired.MaterializationDigest()) &&
      IsPublished(desired, state) && outputs == state.outputs && publication.Some? &&
      publication == state.commit
  }

  /**
   * What an outcome means. A slice under review is waited for, recorded or failed as its pull request
   * stands. In general a pass is ready at rank zero, waits for an open pull request or for the
   * identity of a merge, fails for exactly one of four reasons, or has a plan with a positive rank to
   * lower, which carries what was rendered.
   */
  predicate Settled(cfg: Config, world: World, desired: DesiredSlice, shown: MergeIdentity,
                    runner: PreparedRunner, applied: Option<Commit>, outcome: PlanOutcome)
  {
    var state, rank := world.Load(desired.environment), RankIn(cfg, desired, world);
    var pull, rendered := PendingPull(world, desired.environment), cfg.render(runner, desired);
    (UnderReview(cfg, world, desired) ==>
      pull.Some? &&
      (outcome.Waiting? <==>
        pull.value.state.Open? || (pull.value.state.Merged? && shown.Withheld?)) &&
      (outcome.Apply? <==> pull.value.state.Merged? && shown.Shown?) &&
      (outcome.Failed? <==> pull.value.state.Closed?)) &&
    FailsExactly(cfg, world, desired, runner, applied, outcome) &&
    match outcome
    case Apply(plan) =>
      rank > 0 && Fits(cfg, world.pulls, desired, plan, state) &&
      ((plan.Publish? || plan.Propose?) ==>
        rendered.Some? && plan.treeDigest == rendered.value.treeDigest &&
        plan.outputs == rendered.value.outputs)
    case Ready(outputs, publication) =>
      rank == 0 && ReportsTruly(cfg, world, desired, runner, applied, outputs, publication)
    case Waiting =>
      rank == 1 && pull.Some? &&
      (pull.value.state.Open? || (pull.value.state.Merged? && shown.Withheld?))
    case Failed(_) => true
  }

  /** Why an observation fails: the exact reason for each of its errors. */
  lemma ObservationFails(world: World, e: string, shown: MergeIdentity)
    ensures var observed, state := Observe(world, e, shown), world.Load(e);
            var pull := PendingPull(world, e);
            (observed.Ok? ==> observed.value.state == state) &&
            (observed == Err("k8s.github.api") <==> state.proposal.Some? && pull.None?) &&
            (observed == Err("k8s.review.proposal_changed") <==>
              pull.Some? && pull.value.head != state.proposal.value.proposal.commit) &&
            (observed == Err("k8s.review.merge") <==>
              pull.Some? && pull.value.head == state.proposal.value.proposal.commit &&
              pull.value.state.Merged? && shown.Malformed?) &&
            (observed.Err? ==>
              observed.error in {"k8s.github.api", "k8s.review.proposal_changed",
                                 "k8s.review.merge"})
  {
    hide StatePath;
  }

  lemma FailuresAreExact(cfg: Config, world: World, desired: DesiredSlice, shown: MergeIdentity,
                         runner: PreparedRunner, applied: Option<Commit>, outcome: PlanOutcome)
    requires ComesTo(cfg, world, desired, shown, runner, applied, outcome)
    ensures FailsExactly(cfg, world, desired, runner, applied, outcome)
  {
    hide EnvBranch, ProposalBranch, StatePath, DesiredSlice.MaterializationDigest,
         DesiredSlice.BorrowedEnvironment;
  }

  /** Every pass that can observe settles or has something to apply, over any world at all. */
  lemma PassesSettle(cfg: Config, world: World, desired: DesiredSlice, shown: MergeIdentity,
                     runner: PreparedRunner, applied: Option<Commit>, outcome: PlanOutcome)
    requires ComesTo(cfg, world, desired, shown, runner, applied, outcome)
    ensures Settled(cfg, world, desired, shown, runner, applied, outcome)
  {
    FailuresAreExact(cfg, world, desired, shown, runner, applied, outcome);
    hide EnvBranch, ProposalBranch, StatePath, FailsExactly, DesiredSlice.MaterializationDigest,
         DesiredSlice.BorrowedEnvironment;
  }
}
