/** What every step of every run keeps: persisted state, plans, and the running pass. */
module Invariants {
  import opened Wrappers
  import opened Bytes
  import opened Trees
  import opened Slices
  import opened Lifecycle
  import Contexts

  function PullEnvironment(pull: Pull): string {
    if |pull.base| < 4 then "" else pull.base[4..]
  }

  /** A connector pull request, whose merge, if any, has the tree of its head. */
  predicate PullOk(pull: Pull) {
    PullOf(pull, PullEnvironment(pull)) &&
    (pull.state.Merged? ==> pull.state.commit.tree == pull.head.tree)
  }

  lemma PullEnvironmentIsUnique(pull: Pull, environment: string)
    requires PullOf(pull, environment)
    ensures PullEnvironment(pull) == environment
  {
    assert EnvBranch(environment)[4..] == environment;
  }

  predicate PullsOk(pulls: map<nat, Pull>) {
    forall n | n in pulls :: PullOk(pulls[n])
  }

  /** Pull requests are never forgotten or redirected, and a merged one never changes. */
  predicate PullsAdvance(before: map<nat, Pull>, after: map<nat, Pull>) {
    forall n | n in before ::
      n in after &&
      after[n].base == before[n].base && after[n].branch == before[n].branch &&
      (before[n].state.Merged? ==> after[n] == before[n])
  }

  predicate ProposalOk(pulls: map<nat, Pull>, environment: string, p: Proposal) {
    p.targetBranch == EnvBranch(environment) &&
    p.proposalBranch == ProposalBranch(environment) &&
    p.number in pulls && PullOf(pulls[p.number], environment)
  }

  /** Publication needs its commit and digest; a pending proposal is for a different digest. */
  predicate TargetStateOk(pulls: map<nat, Pull>, environment: string, state: TargetState) {
    (state.published ==> state.commit.Some? && state.inputDigest.Some?) &&
    (state.proposal.Some? ==>
      ProposalOk(pulls, environment, state.proposal.value.proposal) &&
      (state.published ==> state.inputDigest != Some(state.proposal.value.inputDigest)))
  }

  ghost predicate FilesOk(world: World) {
    forall e: string :: TargetStateOk(world.pulls, e, world.Load(e))
  }

  /** The plan is one that `Decide` can give for this slice over this target state. */
  predicate Fits(cfg: Config, pulls: map<nat, Pull>, desired: DesiredSlice, plan: Plan,
                 over: TargetState)
  {
    var policy := cfg.policies.ForEnvironment(desired.environment);
    var digest := desired.MaterializationDigest();
    var whole := desired.BorrowedEnvironment().None? && desired.components != [];
    match plan
    case Publish(_, _) =>
      whole && policy == Direct && over.proposal.None? &&
      !(over.published && over.inputDigest == Some(digest))
    case Propose(_, _) =>
      whole && policy == PrGated &&
      (over.proposal.Some? ==> over.proposal.value.inputDigest != digest) &&
      !(over.published && over.inputDigest == Some(digest))
    case RecordMerged(commit) =>
      whole && policy == PrGated &&
      over.proposal.Some? && over.proposal.value.inputDigest == digest &&
      var p := over.proposal.value.proposal;
      p.number in pulls && pulls[p.number].state == Merged(commit) &&
      pulls[p.number].head == p.commit
    case CancelProposal =>
      over.proposal.Some? && (!whole || policy == Direct)
    case RemoveEnvironment =>
      desired.BorrowedEnvironment().None? && desired.components == [] && policy == Direct &&
      over.proposal.None? && over.published
  }

  ghost predicate ApprovedOk(cfg: Config, s: State) {
    forall e | e in s.approved ::
      s.approved[e].desired.environment == e &&
      Fits(cfg, s.world.pulls, s.approved[e].desired, s.approved[e].plan, s.approved[e].over)
  }

  /** The proposal that a cleaning pass works on is the one in the target state. */
  predicate Cleans(world: World, desired: DesiredSlice, op: Operation, p: Proposal) {
    var state := world.Load(desired.environment);
    state.proposal.Some? && state.proposal.value.proposal == p &&
    (op.Retiring? || op.plan.CancelProposal? || op.plan.RecordMerged?)
  }

  predicate AtOk(world: World, desired: DesiredSlice, op: Operation, at: At) {
    var e := desired.environment;
    match at
    case Render => op.Applying? && (op.plan.Publish? || op.plan.Propose?)
    case PublishLs(_) => op.Applying? && op.plan.Publish?
    case PublishFetch(_, _) => op.Applying? && op.plan.Publish?
    case PublishPush(_, _, _) => op.Applying? && op.plan.Publish?
    case ProposeBootstrap(_, root) =>
      op.Applying? && op.plan.Propose? && root.tree == EMPTY_TREE && root.parents == []
    case ProposeUpdate(_, _, n) =>
      op.Applying? && op.plan.Propose? && n in world.pulls && PullOf(world.pulls[n], e)
    case ProposeWait(_, _, n, left) =>
      op.Applying? && op.plan.Propose? && n in world.pulls && PullOf(world.pulls[n], e)
    case CancelGet(p) =>
      Cleans(world, desired, op, p) && (op.Retiring? || op.plan.CancelProposal?)
    case CancelClose(p) =>
      Cleans(world, desired, op, p) && (op.Retiring? || op.plan.CancelProposal?)
    case DropLs(p) => Cleans(world, desired, op, p)
    case DropFetch(p) => Cleans(world, desired, op, p)
    case DropLsProposal(p) => Cleans(world, desired, op, p)
    case DropPush(p) => Cleans(world, desired, op, p)
    case RemoveLs => op.Retiring? || op.plan.RemoveEnvironment?
    case RemoveFetch(_) => op.Retiring? || op.plan.RemoveEnvironment?
    case RemovePush(_) => op.Retiring? || op.plan.RemoveEnvironment?
    case Save(state) => TargetStateOk(world.pulls, e, state)
    case _ => op.Applying? && op.plan.Propose?
  }

  predicate PcOk(cfg: Config, s: State) {
    s.pc.Running? ==>
      var world, desired, op := s.world, s.pc.desired, s.pc.op;
      (op.Applying? ==>
        Fits(cfg, world.pulls, desired, op.plan, world.Load(desired.environment))) &&
      AtOk(world, desired, op, s.pc.at)
  }

  ghost predicate Inv(cfg: Config, s: State) {
    PullsOk(s.world.pulls) && FilesOk(s.world) && ApprovedOk(cfg, s) && PcOk(cfg, s)
  }

  /* ---------------------------------------------------------------- Preservation */

  /**
   * What one connector action does to the pull requests: opening its own, closing one that is
   * open, or nothing.
   */
  predicate PullsStep(s: State, ch: Choice, pulls: map<nat, Pull>)
    requires s.pc.Running?
  {
    var e, at := s.pc.desired.environment, s.pc.at;
    || pulls == s.world.pulls
    || (at.ProposeCreate? && s.world.Ref(ProposalBranch(e)).Some? &&
        pulls == s.world.pulls[ch.number :=
          Pull(EnvBranch(e), ProposalBranch(e), s.world.Ref(ProposalBranch(e)).value, Open)])
    || (at.CancelClose? && at.proposal.number in s.world.pulls &&
        s.world.pulls[at.proposal.number].state.Open? &&
        pulls == s.world.pulls[at.proposal.number :=
          s.world.pulls[at.proposal.number].(state := Closed)])
  }

  /**
   * What one connector action does to the branches: one of the six pushes, each on the branch's
   * leased value, or nothing.
   */
  predicate RefsStep(s: State, refs: map<string, Commit>)
    requires s.pc.Running?
  {
    var world, at, branch := s.world, s.pc.at, EnvBranch(s.pc.desired.environment);
    var review := ProposalBranch(s.pc.desired.environment);
    || refs == world.refs
    || (at.PublishPush? && s.pc.op.Applying? && s.pc.op.plan.Publish? &&
        world.Ref(branch) == at.lease && refs == SetRef(world.refs, branch, Some(at.commit)))
    || (at.ProposeBootstrap? &&
        world.Ref(branch) == None && refs == SetRef(world.refs, branch, Some(at.root)))
    || (at.ProposePush? &&
        world.Ref(review) == at.lease && refs == SetRef(world.refs, review, Some(at.commit)))
    || (at.DropPush? && world.Ref(at.proposal.proposalBranch) == Some(at.proposal.commit) &&
        refs == SetRef(world.refs, at.proposal.proposalBranch, None))
    || (at.RemovePush? &&
        world.Ref(branch) == Some(at.expected) && refs == SetRef(world.refs, branch, None))
  }

  lemma StepRefs(cfg: Config, s: State, ch: Choice)
    requires s.pc.Running?
    ensures RefsStep(s, Step(cfg, s, ch).world.refs)
  {
    match s.pc.at
    case PublishLs(_) | PublishFetch(_, _) | PublishPush(_, _, _) => PublishRefs(s, ch);
    case ProposeLs(_) | ProposeFetch(_, _) | ProposeBootstrap(_, _) | ProposeLsProposal(_, _)
       | ProposePush(_, _, _) => ProposeRefs(cfg, s, ch);
    case _ => CleanupRefs(s, ch);
    hide StepPublish, StepPropose, StepPull, StepCancel, StepDrop, StepRemove, RefsStep;
  }

  lemma PublishRefs(s: State, ch: Choice)
    requires s.pc.Running?
    ensures s.pc.op.Applying? && s.pc.op.plan.Publish? ==>
              RefsStep(s, StepPublish(s, ch).world.refs)
    ensures RefsStep(s, s.world.refs)
  {
    hide EnvBranch, ProposalBranch, PublishedState, CommitOver;
  }

  lemma ProposeRefs(cfg: Config, s: State, ch: Choice)
    requires s.pc.Running?
    ensures s.pc.op.Applying? && s.pc.op.plan.Propose? ==>
              RefsStep(s, StepPropose(cfg, s, ch).world.refs)
    ensures RefsStep(s, s.world.refs)
  {
    hide EnvBranch, ProposalBranch, Compare, CommitOver;
  }

  lemma CleanupRefs(s: State, ch: Choice)
    requires s.pc.Running?
    ensures RefsStep(s, s.world.refs) && RefsStep(s, StepCancel(s).world.refs)
    ensures RefsStep(s, StepDrop(s).world.refs) && RefsStep(s, StepRemove(s).world.refs)
    ensures s.pc.op.Applying? && s.pc.op.plan.Propose? ==>
              StepPull(s, ch).world.refs == s.world.refs
  {
    hide EnvBranch, ProposalBranch, AfterDrop, AwaitHead, OpenPulls, StatePath;
  }

  /** The actions other than the save change neither files nor approvals. */
  predicate Quiet(s: State, s': State) {
    s'.world.files == s.world.files && s'.approved == s.approved
  }

  lemma StepPulls(cfg: Config, s: State, ch: Choice)
    requires s.pc.Running?
    ensures PullsStep(s, ch, Step(cfg, s, ch).world.pulls)
    ensures s.pc.at.Save? || Quiet(s, Step(cfg, s, ch))
    ensures Step(cfg, s, ch).approved == s.approved
  {
    GitStepsKeepPulls(cfg, s, ch);
    if s.pc.op.Applying? && s.pc.op.plan.Propose? {
      StepPullPulls(s, ch);
    }
    hide StepRender, StepPublish, StepPropose, StepPull, StepCancel, StepDrop, StepRemove;
  }

  lemma GitStepsKeepPulls(cfg: Config, s: State, ch: Choice)
    requires s.pc.Running?
    ensures Quiet(s, StepRender(cfg, s, ch)) && StepRender(cfg, s, ch).world == s.world
    ensures s.pc.op.Applying? && s.pc.op.plan.Publish? ==>
              Quiet(s, StepPublish(s, ch)) && StepPublish(s, ch).world.pulls == s.world.pulls
    ensures s.pc.op.Applying? && s.pc.op.plan.Propose? ==>
              Quiet(s, StepPropose(cfg, s, ch)) && StepPropose(cfg, s, ch).world.pulls == s.world.pulls
    ensures Quiet(s, StepCancel(s)) && PullsStep(s, ch, StepCancel(s).world.pulls)
    ensures Quiet(s, StepDrop(s)) && StepDrop(s).world.pulls == s.world.pulls
    ensures Quiet(s, StepRemove(s)) && StepRemove(s).world.pulls == s.world.pulls
  {
    hide AfterDrop, Compare, CommitOver, PublishedState, ProposalBranchEnvironment, DraftProjects;
  }

  lemma StepPullPulls(s: State, ch: Choice)
    requires s.pc.Running? && s.pc.op.Applying? && s.pc.op.plan.Propose?
    ensures PullsStep(s, ch, StepPull(s, ch).world.pulls) && Quiet(s, StepPull(s, ch))
  {
    hide OpenPulls, AwaitHead, PendingState;
  }

  lemma PullsStepAdvances(s: State, ch: Choice, pulls: map<nat, Pull>)
    requires s.pc.Running? && PullsStep(s, ch, pulls) && PullsOk(s.world.pulls)
    requires s.pc.at.ProposeCreate? ==> ch.number !in s.world.pulls
    ensures PullsOk(pulls) && PullsAdvance(s.world.pulls, pulls)
  {
    var e := s.pc.desired.environment;
    if s.pc.at.ProposeCreate? && s.world.Ref(ProposalBranch(e)).Some? {
      PullEnvironmentIsUnique(
        Pull(EnvBranch(e), ProposalBranch(e), s.world.Ref(ProposalBranch(e)).value, Open), e);
    }
    hide EnvBranch, ProposalBranch, PullEnvironment;
  }

  /** A step of people or the host changes one open connector pull request, or none. */
  lemma OthersAdvance(cfg: Config, s: State, l: Label)
    requires PullsOk(s.world.pulls) && !(l.Tick? && Enabled(cfg, s, l))
    ensures PullsOk(Do(cfg, s, l).world.pulls)
    ensures PullsAdvance(s.world.pulls, Do(cfg, s, l).world.pulls)
  {
    hide EnvBranch, ProposalBranch, Step, MakePlan, PlanEntry, RetireEntry, StatePath;
  }

  /** What a step may do to the pull requests, for any label. */
  lemma PullsOnlyAdvance(cfg: Config, s: State, l: Label)
    requires PullsOk(s.world.pulls)
    ensures PullsOk(Do(cfg, s, l).world.pulls)
    ensures PullsAdvance(s.world.pulls, Do(cfg, s, l).world.pulls)
  {
    if l.Tick? && Enabled(cfg, s, l) {
      StepPulls(cfg, s, l.choice);
      PullsStepAdvances(s, l.choice, Step(cfg, s, l.choice).world.pulls);
      hide Step, PullsOk, PullsAdvance, PullsStep;
    } else {
      OthersAdvance(cfg, s, l);
      hide Do, PullsOk, PullsAdvance;
    }
  }

  /** Everything but the running pass carries over when pull requests advance. */
  lemma AdvanceKeeps(cfg: Config, s: State, s': State)
    requires FilesOk(s.world) && ApprovedOk(cfg, s)
    requires PullsAdvance(s.world.pulls, s'.world.pulls)
    requires s'.world.files == s.world.files && s'.approved == s.approved
    ensures FilesOk(s'.world) && ApprovedOk(cfg, s')
  {
    forall e: string
      ensures TargetStateOk(s'.world.pulls, e, s'.world.Load(e))
    {
      assert TargetStateOk(s.world.pulls, e, s.world.Load(e));
    }
  }

  lemma AdvanceKeepsPc(cfg: Config, s: State, s': State)
    requires PcOk(cfg, s) && s'.pc == s.pc
    requires PullsAdvance(s.world.pulls, s'.world.pulls)
    requires s'.world.files == s.world.files
    ensures PcOk(cfg, s')
  {
  }

  lemma FitsAdvances(cfg: Config, s: State, s': State)
    requires PcOk(cfg, s) && s.pc.Running? && s.pc.op.Applying?
    requires PullsAdvance(s.world.pulls, s'.world.pulls)
    requires s'.world.files == s.world.files
    ensures Fits(cfg, s'.world.pulls, s.pc.desired, s.pc.op.plan,
                 s'.world.Load(s.pc.desired.environment))
  {
    hide AtOk;
  }

  lemma PlanFits(cfg: Config, s: State, desired: DesiredSlice, shown: MergeIdentity,
                 runner: PreparedRunner)
    requires FilesOk(s.world)
    requires MakePlan(cfg, s.world, desired, shown, runner).Some?
    ensures Fits(cfg, s.world.pulls, desired,
                 MakePlan(cfg, s.world, desired, shown, runner).value,
                 s.world.Load(desired.environment))
  {
    assert TargetStateOk(s.world.pulls, desired.environment, s.world.Load(desired.environment));
  }

  /** The pass is idle, or at a program point that is well-formed. */
  predicate Lands(s: State) {
    s.pc.Running? ==> AtOk(s.world, s.pc.desired, s.pc.op, s.pc.at)
  }

  /** A running pass keeps its slice and its operation. */
  lemma StepStaysInPass(cfg: Config, s: State, ch: Choice)
    requires s.pc.Running?
    ensures var s' := Step(cfg, s, ch);
            s'.pc.Running? ==> s'.pc.desired == s.pc.desired && s'.pc.op == s.pc.op
  {
    hide AfterDrop, Compare, CommitOver, PublishedState, ProposalBranchEnvironment, AwaitHead,
         OpenPulls, EnvBranch, ProposalBranch, StatePath;
  }

  lemma PublishLands(s: State, ch: Choice)
    requires s.pc.Running? && s.pc.op.Applying? && s.pc.op.plan.Publish?
    requires !s.pc.at.Save?
    ensures Lands(StepPublish(s, ch))
  {
  }

  lemma ProposeLands(cfg: Config, s: State, ch: Choice)
    requires s.pc.Running? && s.pc.op.Applying? && s.pc.op.plan.Propose?
    ensures Lands(StepPropose(cfg, s, ch))
  {
    hide EnvBranch, ProposalBranch, Readable, DraftProjects, StatePath, CommitOver;
  }

  lemma PendingStateOk(pulls: map<nat, Pull>, state: TargetState, desired: DesiredSlice,
                       plan: Plan, number: nat, commit: Commit)
    requires plan.Propose? && number in pulls && PullOf(pulls[number], desired.environment)
    requires TargetStateOk(pulls, desired.environment, state)
    requires !(state.published && state.inputDigest == Some(desired.MaterializationDigest()))
    ensures TargetStateOk(pulls, desired.environment,
                          PendingState(state, desired, plan, number, commit))
  {
  }

  /** The state before a proposal is saved: well-formed, and not yet at this slice's digest. */
  predicate Unpublished(world: World, desired: DesiredSlice) {
    var state := world.Load(desired.environment);
    TargetStateOk(world.pulls, desired.environment, state) &&
    !(state.published && state.inputDigest == Some(desired.MaterializationDigest()))
  }

  lemma AwaitLands(world: World, desired: DesiredSlice, plan: Plan, rendered: RenderedWorld,
                   commit: Commit, number: nat, seen: Commit, left: nat)
    requires plan.Propose? && Unpublished(world, desired)
    requires number in world.pulls && PullOf(world.pulls[number], desired.environment)
    ensures var at := AwaitHead(world.Load(desired.environment), desired, plan, rendered, commit,
                                number, seen, left);
            at.Some? ==> AtOk(world, desired, Applying(plan), at.value)
  {
    PendingStateOk(world.pulls, world.Load(desired.environment), desired, plan, number, commit);
    hide TargetStateOk, PendingState, PullOf;
  }

  lemma PullLands(s: State, ch: Choice)
    requires Lands(s) && s.pc.Running? && s.pc.op.Applying? && s.pc.op.plan.Propose?
    requires Unpublished(s.world, s.pc.desired)
    requires s.pc.at.ProposeCreate? ==> ch.number !in s.world.pulls
    ensures Lands(StepPull(s, ch))
  {
    var s' := StepPull(s, ch);
    var e, at := s.pc.desired.environment, s.pc.at;
    if at.ProposeUpdate? || (at.ProposeWait? && at.left > 0) {
      AwaitLands(s.world, s.pc.desired, s.pc.op.plan, at.world, at.commit, at.number,
                 s.world.pulls[at.number].head, if at.ProposeUpdate? then 3 else at.left - 1);
      hide AwaitHead, AtOk, Unpublished;
    } else if at.ProposeCreate? && s'.pc.Running? {
      assert Unpublished(s'.world, s.pc.desired);
      AwaitLands(s'.world, s.pc.desired, s.pc.op.plan, at.world, at.commit, ch.number,
                 s.world.Ref(ProposalBranch(e)).value, 3);
      hide AwaitHead, AtOk, Unpublished;
    } else {
      hide OpenPulls, AwaitHead;
    }
  }

  lemma CancelLands(s: State)
    requires Lands(s) && s.pc.Running? && (s.pc.at.CancelGet? || s.pc.at.CancelClose?)
    ensures Lands(StepCancel(s))
  {
    hide EnvBranch, ProposalBranch;
  }

  lemma DropLands(s: State)
    requires Lands(s) && s.pc.Running?
    requires s.pc.at.DropLs? || s.pc.at.DropFetch? || s.pc.at.DropLsProposal? || s.pc.at.DropPush?
    requires TargetStateOk(s.world.pulls, s.pc.desired.environment,
                           s.world.Load(s.pc.desired.environment))
    ensures Lands(StepDrop(s))
  {
    hide EnvBranch, ProposalBranch, ProposalBranchEnvironment, StatePath;
  }

  lemma RemoveLands(s: State)
    requires Lands(s) && s.pc.Running?
    requires s.pc.at.RemoveLs? || s.pc.at.RemoveFetch? || s.pc.at.RemovePush?
    ensures Lands(StepRemove(s))
  {
    hide EnvBranch, ProposalBranch, StatePath;
  }

  /** A tick that is not the final save leaves the pass well-formed. */
  lemma TickLands(cfg: Config, s: State, ch: Choice)
    requires Inv(cfg, s) && s.pc.Running? && !s.pc.at.Save?
    requires s.pc.at.ProposeCreate? ==> ch.number !in s.world.pulls
    ensures Lands(Step(cfg, s, ch))
  {
    assert TargetStateOk(s.world.pulls, s.pc.desired.environment,
                         s.world.Load(s.pc.desired.environment));
    match s.pc.at
    case Render =>
    case PublishLs(_) | PublishFetch(_, _) | PublishPush(_, _, _) => PublishLands(s, ch);
    case ProposeLs(_) | ProposeFetch(_, _) | ProposeBootstrap(_, _) | ProposeLsProposal(_, _)
       | ProposePush(_, _, _) => ProposeLands(cfg, s, ch);
    case ProposeList(_, _) | ProposeUpdate(_, _, _) | ProposeCreate(_, _)
       | ProposeWait(_, _, _, _) => PullLands(s, ch);
    case CancelGet(_) | CancelClose(_) => CancelLands(s);
    case DropLs(_) | DropFetch(_) | DropLsProposal(_) | DropPush(_) => DropLands(s);
    case RemoveLs | RemoveFetch(_) | RemovePush(_) => RemoveLands(s);
    hide StepPublish, StepPropose, StepPull, StepCancel, StepDrop, StepRemove;
  }

  lemma StatePathIsInjective(a: string, b: string)
    requires StatePath(a) == StatePath(b)
    ensures a == b
  {
    assert a == StatePath(a)[..|StatePath(a)| - 5];
    assert b == StatePath(b)[..|StatePath(b)| - 5];
  }

  lemma SaveKeeps(cfg: Config, s: State, ch: Choice)
    requires Inv(cfg, s) && s.pc.Running? && s.pc.at.Save?
    ensures Inv(cfg, Step(cfg, s, ch))
  {
    var s' := Step(cfg, s, ch);
    forall e: string
      ensures TargetStateOk(s'.world.pulls, e, s'.world.Load(e))
    {
      assert TargetStateOk(s.world.pulls, e, s.world.Load(e));
      if StatePath(e) == StatePath(s.pc.desired.environment) {
        StatePathIsInjective(e, s.pc.desired.environment);
      }
    }
  }

  lemma EntryLands(cfg: Config, world: World, desired: DesiredSlice, plan: Plan)
    requires Fits(cfg, world.pulls, desired, plan, world.Load(desired.environment))
    ensures var at := PlanEntry(plan, world.Load(desired.environment));
            at.Some? ==> AtOk(world, desired, Applying(plan), at.value)
  {
  }

  lemma RetireEntryLands(world: World, desired: DesiredSlice)
    ensures AtOk(world, desired, Retiring,
                 RetireEntry(desired, world.Load(desired.environment)))
  {
  }

  /** Starting a pass: the plan was made over the state that still stands. */
  lemma StartKeeps(cfg: Config, s: State, l: Label)
    requires Inv(cfg, s) && Enabled(cfg, s, l) && (l.Planned? || l.Start? || l.Retire?)
    ensures Inv(cfg, Do(cfg, s, l))
  {
    if l.Planned? {
      PlanFits(cfg, s, l.desired, l.shown, l.runner);
      hide MakePlan, Fits, TargetStateOk, PullsOk;
    } else if l.Start? {
      var e := l.environment;
      assert TargetStateOk(s.world.pulls, e, s.world.Load(e));
      EntryLands(cfg, s.world, s.approved[e].desired, s.approved[e].plan);
      hide TargetStateOk, PullsOk, StatePath, Fits, AtOk, PlanEntry;
    } else {
      RetireEntryLands(s.world, l.desired);
      hide TargetStateOk, PullsOk, StatePath, Fits, AtOk, RetireEntry;
    }
  }

  /** People, the host, outsiders and crashes. */
  lemma OthersKeep(cfg: Config, s: State, l: Label)
    requires Inv(cfg, s) && !l.Planned? && !l.Start? && !l.Retire? && !l.Tick?
    ensures Inv(cfg, Do(cfg, s, l))
  {
    var s' := Do(cfg, s, l);
    PullsOnlyAdvance(cfg, s, l);
    AdvanceKeeps(cfg, s, s');
    if !l.Crash? {
      AdvanceKeepsPc(cfg, s, s');
    }
    hide Fits, AtOk, TargetStateOk, PullsAdvance, PullsOk;
  }

  lemma DoKeeps(cfg: Config, s: State, l: Label)
    requires Inv(cfg, s)
    ensures Inv(cfg, Do(cfg, s, l))
  {
    if !Enabled(cfg, s, l) {
    } else if l.Tick? && s.pc.at.Save? {
      SaveKeeps(cfg, s, l.choice);
    } else if l.Tick? {
      var s' := Do(cfg, s, l);
      PullsOnlyAdvance(cfg, s, l);
      TickLands(cfg, s, l.choice);
      StepPulls(cfg, s, l.choice);
      AdvanceKeeps(cfg, s, s');
      StepStaysInPass(cfg, s, l.choice);
      if s.pc.op.Applying? {
        FitsAdvances(cfg, s, s');
      }
      hide Step, AtOk, Fits, TargetStateOk, PullsOk, PullsAdvance, PullsStep;
    } else if l.Planned? || l.Start? || l.Retire? {
      StartKeeps(cfg, s, l);
    } else {
      OthersKeep(cfg, s, l);
    }
    hide Inv, Do;
  }

  lemma {:induction false} ExecKeeps(cfg: Config, s: State, labels: seq<Label>)
    requires Inv(cfg, s)
    ensures Inv(cfg, Exec(cfg, s, labels))
    decreases |labels|
  {
    if labels != [] {
      DoKeeps(cfg, s, labels[0]);
      ExecKeeps(cfg, Do(cfg, s, labels[0]), labels[1..]);
    }
  }

  /** Every reachable state is well-formed, whatever people, outsiders and crashes do. */
  lemma EveryRunIsSound(cfg: Config, labels: seq<Label>)
    ensures Inv(cfg, Exec(cfg, INITIAL, labels))
  {
    ExecKeeps(cfg, INITIAL, labels);
  }

  /* ---------------------------------------------------------------- Branch names */

  lemma TwoLevels(a: string, b: string, separator: char)
    requires separator !in a && separator !in b
    ensures Contexts.Split(a + [separator] + b, separator) == [a, b]
  {
    Contexts.JoinedSplits(a, b, separator);
    Contexts.JoinedSplits(b, "", separator);
    hide Contexts.Split;
  }

  /** The names as paths, of which the identity of an environment is one level. */
  lemma BranchesHaveLevels(e: string)
    requires '/' !in e
    ensures Contexts.Split(EnvBranch(e), '/') == ["env", e]
    ensures Contexts.Split(ProposalBranch(e), '/') == ["henosis", "proposals", e]
  {
    assert EnvBranch(e) == "env" + ['/'] + e;
    assert '/' !in "env";
    TwoLevels("env", e, '/');
    ProposalsHaveLevels(e);
    hide Contexts.Split, ProposalBranch;
  }

  lemma ProposalsHaveLevels(e: string)
    requires '/' !in e
    ensures Contexts.Split(ProposalBranch(e), '/') == ["henosis", "proposals", e]
  {
    hide Contexts.Split;
    var first, second := "henosis", "proposals";
    assert ProposalBranch(e) == first + ['/'] + (second + ['/'] + e);
    assert '/' !in first && '/' !in second;
    Contexts.JoinedSplits(first, second + ['/'] + e, '/');
    TwoLevels(second, e, '/');
  }

  lemma StateFilesAreJson(e: string)
    requires '.' !in e
    ensures Contexts.Split(StatePath(e), '.') == [e, "json"]
  {
    assert '.' !in "json";
    TwoLevels(e, "json", '.');
    assert StatePath(e) == e + "." + "json";
    hide Contexts.Split;
  }

  lemma BranchNamesAreApart(a: string, b: string)
    ensures EnvBranch(a) == EnvBranch(b) <==> a == b
    ensures ProposalBranch(a) == ProposalBranch(b) <==> a == b
    ensures EnvBranch(a) != ProposalBranch(b)
  {
    assert EnvBranch(a)[4..] == a && EnvBranch(b)[4..] == b;
    assert ProposalBranch(a)[18..] == a && ProposalBranch(b)[18..] == b;
    assert EnvBranch(a)[0] == 'e' && ProposalBranch(b)[0] == 'h';
  }

  lemma ProposalBranchRoundTrip(e: string)
    ensures ProposalBranchEnvironment(ProposalBranch(e)) == if e == "" then None else Some(e)
  {
    var prefix := "henosis/proposals/";
    assert ProposalBranch(e)[|prefix|..] == e;
    assert prefix <= ProposalBranch(e);
    assert e == "" ==> ProposalBranch(e) == prefix;
  }

  /* ---------------------------------------------------------------- The gate */

  /** How the connector itself may move a gated branch: an empty root, or a retirement. */
  predicate GatedMove(s: State, s': State, branch: string)
    requires s.pc.Running?
  {
    var before, after := s.world.Ref(branch), s'.world.Ref(branch);
    || (before == None && after.Some? &&
        after.value.tree == EMPTY_TREE && after.value.parents == [])
    || (s.pc.op.Retiring? && after == None)
  }

  /** A connector action that moves a gated branch. */
  lemma TickMovesGated(cfg: Config, s: State, ch: Choice, e: string)
    requires Inv(cfg, s) && s.pc.Running? && cfg.policies.ForEnvironment(e) == PrGated
    requires Step(cfg, s, ch).world.Ref(EnvBranch(e)) != s.world.Ref(EnvBranch(e))
    ensures s.pc.desired.environment == e && GatedMove(s, Step(cfg, s, ch), EnvBranch(e))
  {
    StepRefs(cfg, s, ch);
    var d := s.pc.desired.environment;
    BranchNamesAreApart(d, e);
    BranchNamesAreApart(e, d);
    assert TargetStateOk(s.world.pulls, d, s.world.Load(d));
    assert PcOk(cfg, s);
    hide Step, EnvBranch, ProposalBranch, Inv, StatePath;
  }

  lemma GateHolds(cfg: Config, s: State, l: Label, e: string)
    requires Inv(cfg, s) && cfg.policies.ForEnvironment(e) == PrGated
    requires Do(cfg, s, l).world.Ref(EnvBranch(e)) != s.world.Ref(EnvBranch(e))
    ensures match l
            case Merge(environment, number, merge) =>
              environment == e && s.world.pulls[number].state.Open? &&
              Do(cfg, s, l).world.Ref(EnvBranch(e)) == Some(merge)
            case Write(ref, value) => ref == EnvBranch(e)
            case Tick(environment, choice) =>
              environment == e && s.pc.Running? && GatedMove(s, Do(cfg, s, l), EnvBranch(e))
            case _ => false
  {
    if l.Merge? {
      BranchNamesAreApart(l.environment, e);
    } else if l.Tick? && Enabled(cfg, s, l) {
      TickMovesGated(cfg, s, l.choice, e);
      hide Step, EnvBranch, ProposalBranch, Inv, GatedMove;
    } else {
      hide EnvBranch, ProposalBranch, MakePlan, Step;
    }
  }

  /**
   * Gate safety: under a pr-gated policy, in every run with crashes, reviews and outside writers,
   * the connector itself changes the environment branch only by creating it as an empty root when
   * it is absent, or by deleting it in a retirement. Every other change is a merge of an open pull
   * request or an outside write.
   */
  lemma ReviewIsNeverBypassed(cfg: Config, labels: seq<Label>, l: Label, e: string)
    requires cfg.policies.ForEnvironment(e) == PrGated
    requires var s := Exec(cfg, INITIAL, labels);
             Do(cfg, s, l).world.Ref(EnvBranch(e)) != s.world.Ref(EnvBranch(e))
    ensures var s := Exec(cfg, INITIAL, labels);
            || (l.Merge? && l.environment == e && s.world.pulls[l.number].state.Open?)
            || (l.Write? && l.ref == EnvBranch(e))
            || (l.Tick? && l.environment == e && s.pc.Running? &&
                GatedMove(s, Do(cfg, s, l), EnvBranch(e)))
  {
    EveryRunIsSound(cfg, labels);
    GateHolds(cfg, Exec(cfg, INITIAL, labels), l, e);
  }

  /* ---------------------------------------------------------------- One open pull request */

  /** At most one open pull request; none at all while the connector is about to open one. */
  ghost predicate OneOpen(s: State, e: string) {
    (forall n, m | n in OpenPulls(s.world.pulls, e) && m in OpenPulls(s.world.pulls, e) :: n == m) &&
    (s.pc.Running? && s.pc.at.ProposeCreate? && s.pc.desired.environment == e ==>
      OpenPulls(s.world.pulls, e) == {})
  }

  lemma PullsStepOpens(s: State, ch: Choice, pulls: map<nat, Pull>, e: string)
    requires s.pc.Running? && PullsStep(s, ch, pulls)
    requires s.pc.at.ProposeCreate? ==> ch.number !in s.world.pulls
    ensures var before, after := OpenPulls(s.world.pulls, e), OpenPulls(pulls, e);
            after <= before ||
            (s.pc.at.ProposeCreate? && s.pc.desired.environment == e &&
             after <= before + {ch.number})
  {
    BranchNamesAreApart(s.pc.desired.environment, e);
    hide EnvBranch, ProposalBranch;
  }

  lemma DoKeepsOneOpen(cfg: Config, s: State, l: Label, e: string)
    requires OneOpen(s, e)
    ensures OneOpen(Do(cfg, s, l), e)
  {
    if l.Tick? && Enabled(cfg, s, l) {
      var s' := Step(cfg, s, l.choice);
      StepPulls(cfg, s, l.choice);
      PullsStepOpens(s, l.choice, s'.world.pulls, e);
      CreateOnlyAfterList(cfg, s, l.choice);
      StepStaysInPass(cfg, s, l.choice);
      hide Step, PullsStep, OpenPulls;
    } else {
      OthersOpenNothing(cfg, s, l, e);
      hide OpenPulls, MakePlan, Step;
    }
  }

  lemma OthersOpenNothing(cfg: Config, s: State, l: Label, e: string)
    requires !(l.Tick? && Enabled(cfg, s, l))
    ensures var s' := Do(cfg, s, l);
            OpenPulls(s'.world.pulls, e) <= OpenPulls(s.world.pulls, e)
  {
    hide EnvBranch, ProposalBranch, MakePlan, Step;
  }

  /** No other action leads to opening a pull request. */
  lemma GitNeverCreates(cfg: Config, s: State, ch: Choice)
    requires s.pc.Running? && !s.pc.at.Save?
    ensures var s' := StepRender(cfg, s, ch); s'.pc.Running? ==> !s'.pc.at.ProposeCreate?
    ensures s.pc.op.Applying? && s.pc.op.plan.Publish? ==>
              (var s' := StepPublish(s, ch); s'.pc.Running? ==> !s'.pc.at.ProposeCreate?)
    ensures s.pc.op.Applying? && s.pc.op.plan.Propose? ==>
              (var s' := StepPropose(cfg, s, ch); s'.pc.Running? ==> !s'.pc.at.ProposeCreate?)
  {
    hide EnvBranch, ProposalBranch, Readable, DraftProjects, CommitOver, PublishedState;
  }

  lemma CleanupNeverCreates(s: State)
    requires s.pc.Running? && !s.pc.at.Save?
    ensures var s' := StepCancel(s); s'.pc.Running? ==> !s'.pc.at.ProposeCreate?
    ensures var s' := StepDrop(s); s'.pc.Running? ==> !s'.pc.at.ProposeCreate?
    ensures var s' := StepRemove(s); s'.pc.Running? ==> !s'.pc.at.ProposeCreate?
  {
    hide EnvBranch, ProposalBranch, StatePath, ProposalBranchEnvironment;
  }

  lemma PullCreatesAfterList(s: State, ch: Choice)
    requires s.pc.Running? && s.pc.op.Applying? && s.pc.op.plan.Propose?
    ensures var s' := StepPull(s, ch);
            s'.pc.Running? && s'.pc.at.ProposeCreate? ==>
              OpenPulls(s'.world.pulls, s.pc.desired.environment) == {}
  {
    hide EnvBranch, ProposalBranch, OpenPulls, StatePath;
  }

  lemma CreateOnlyAfterList(cfg: Config, s: State, ch: Choice)
    requires s.pc.Running?
    ensures var s' := Step(cfg, s, ch);
            s'.pc.Running? && s'.pc.at.ProposeCreate? ==>
              OpenPulls(s'.world.pulls, s.pc.desired.environment) == {}
  {
    if !s.pc.at.Save? {
      GitNeverCreates(cfg, s, ch);
      CleanupNeverCreates(s);
    }
    if s.pc.op.Applying? && s.pc.op.plan.Propose? {
      PullCreatesAfterList(s, ch);
    }
    hide StepRender, StepPublish, StepPropose, StepPull, StepCancel, StepDrop, StepRemove,
         OpenPulls;
  }

  lemma {:induction false} ExecKeepsOneOpen(cfg: Config, s: State, labels: seq<Label>, e: string)
    requires OneOpen(s, e)
    ensures OneOpen(Exec(cfg, s, labels), e)
    decreases |labels|
  {
    if labels != [] {
      DoKeepsOneOpen(cfg, s, labels[0], e);
      ExecKeepsOneOpen(cfg, Do(cfg, s, labels[0]), labels[1..], e);
    }
  }

  /** Every run keeps at most one open connector pull request for each environment. */
  lemma AtMostOneOpenPull(cfg: Config, labels: seq<Label>, e: string, n: nat, m: nat)
    requires var open := OpenPulls(Exec(cfg, INITIAL, labels).world.pulls, e);
             n in open && m in open
    ensures n == m
  {
    ExecKeepsOneOpen(cfg, INITIAL, labels, e);
  }

  /**
   * A proposal is recorded only after its pull request was seen with the proposed commit as head.
   */
  lemma AwaitingSawItsHead(cfg: Config, s: State, ch: Choice)
    requires s.pc.Running? && s.pc.op.Applying? && s.pc.op.plan.Propose?
    requires var s' := Step(cfg, s, ch);
             s'.pc.Running? && s'.pc.at.Save? && s'.pc.at.state.proposal.Some? &&
             !s.pc.at.Save?
    ensures var p := Step(cfg, s, ch).pc.at.state.proposal.value.proposal;
            var pulls := Step(cfg, s, ch).world.pulls;
            p.number in pulls && pulls[p.number].head == p.commit && p.commit == s.pc.at.commit
  {
    ProposingRecordsNoProposal(cfg, s, ch);
    CleanupRecordsNoProposal(s);
    hide EnvBranch, ProposalBranch, OpenPulls, StatePath, StepRender, StepPropose, StepCancel,
         StepDrop, StepRemove;
  }

  /** What is recorded without opening a pull request has none pending. */
  lemma ProposingRecordsNoProposal(cfg: Config, s: State, ch: Choice)
    requires s.pc.Running? && s.pc.op.Applying? && s.pc.op.plan.Propose? && !s.pc.at.Save?
    ensures var s' := StepPropose(cfg, s, ch);
            s'.pc.Running? && s'.pc.at.Save? ==> s'.pc.at.state.proposal.None?
    ensures var s' := StepRender(cfg, s, ch); s'.pc.Running? ==> !s'.pc.at.Save?
  {
    hide EnvBranch, ProposalBranch, Readable, DraftProjects, CommitOver;
  }

  lemma CleanupRecordsNoProposal(s: State)
    requires s.pc.Running? && s.pc.op.Applying? && s.pc.op.plan.Propose? && !s.pc.at.Save?
    ensures var s' := StepCancel(s); s'.pc.Running? ==> !s'.pc.at.Save?
    ensures var s' := StepDrop(s); s'.pc.Running? ==> !s'.pc.at.Save?
    ensures var s' := StepRemove(s);
            s'.pc.Running? && s'.pc.at.Save? ==> s'.pc.at.state.proposal.None?
  {
    hide EnvBranch, ProposalBranch, StatePath, ProposalBranchEnvironment;
  }

  /* ---------------------------------------------------------------- No panic */

  /** Planning never meets the two conditions that its two `expect`s would abort on. */
  lemma PlanNeverPanics(cfg: Config, labels: seq<Label>, desired: DesiredSlice,
                        shown: MergeIdentity)
    requires var world := Exec(cfg, INITIAL, labels).world;
             Observe(world, desired.environment, shown).Ok?
    ensures var world := Exec(cfg, INITIAL, labels).world;
            var observed := Observe(world, desired.environment, shown).value;
            (observed.state.proposal.Some? ==> observed.status.Some?) &&
            (observed.state.published ==> observed.state.commit.Some?)
  {
    EveryRunIsSound(cfg, labels);
    var world := Exec(cfg, INITIAL, labels).world;
    assert TargetStateOk(world.pulls, desired.environment, world.Load(desired.environment));
  }

  /** What every reachable target state satisfies. */
  lemma TargetStateInvariant(cfg: Config, labels: seq<Label>, e: string)
    ensures var world := Exec(cfg, INITIAL, labels).world;
            TargetStateOk(world.pulls, e, world.Load(e))
  {
    EveryRunIsSound(cfg, labels);
  }
}
