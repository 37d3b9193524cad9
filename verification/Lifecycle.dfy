/**
 * The publication lifecycle as one labelled state machine.
 *
 * The connector observes and plans, then applies its plan as a sequence of atomic actions on a
 * deploy repository and its pull requests, each of which can be the last one before a crash.
 * Between any two of them people may merge or close pull requests, the host may refresh a pull
 * request's head, and an outside writer may move any branch. A run is a list of labels; a label
 * that is not enabled changes nothing.
 */
module Lifecycle {
  import opened Wrappers
  import opened Bytes
  import opened Trees
  import opened Slices
  import Reviews

  /* ---------------------------------------------------------------- Configuration */

  datatype PublicationPolicy = Direct | PrGated

  datatype PublicationPolicies = PublicationPolicies(
    default: PublicationPolicy,
    environments: map<string, PublicationPolicy>)
  {
    function ForEnvironment(environment: string): PublicationPolicy {
      if environment in environments then environments[environment] else default
    }
  }

  /** An entry is what its environment gets, and nobody else; without an entry there is the default. */
  lemma OverridesWin(policies: PublicationPolicies, environment: string, policy: PublicationPolicy,
                     other: string)
    ensures var entered := policies.(environments := policies.environments[environment := policy]);
            entered.ForEnvironment(environment) == policy &&
            (other != environment ==>
               entered.ForEnvironment(other) == policies.ForEnvironment(other))
    ensures var cleared := policies.(environments := policies.environments - {environment});
            cleared.ForEnvironment(environment) == policies.default &&
            (other != environment ==>
               cleared.ForEnvironment(other) == policies.ForEnvironment(other))
  {
  }

  /** The identity of one prepared platform runner. */
  datatype PreparedRunner = PreparedRunner(
    platformSha: string,
    prepareRecipeDigest: Hash32,
    entrypointDigest: Hash32,
    ambientDigest: Hash32)

  const NO_HASH: Hash32 := seq(32, _ => 0)

  const SOME_RUNNER := PreparedRunner("", NO_HASH, NO_HASH, NO_HASH)

  /** A successful render: the Git tree it becomes, its outputs, and its full-tree digest. */
  datatype RenderedWorld = RenderedWorld(tree: GitTree, outputs: seq<Output>, treeDigest: Digest)

  /**
   * The renderer is a function of the prepared runner and the slice, and may fail. The patch is the
   * text in which Git shows the difference of two trees.
   */
  datatype Config = Config(
    policies: PublicationPolicies,
    render: (PreparedRunner, DesiredSlice) -> Option<RenderedWorld>,
    patch: (GitTree, GitTree) -> ByteString)

  /** The patch can be read as text. */
  predicate Readable(cfg: Config, before: GitTree, after: GitTree) {
    Reviews.ValidUtf8(cfg.patch(before, after))
  }

  /** The differing paths can be read as text, and none changes its kind. */
  predicate Projectable(before: GitTree, after: GitTree) {
    forall p | p in before.Keys + after.Keys && Get(before, p) != Get(after, p) ::
      Reviews.ValidUtf8(Joined(p)) &&
      (p in before && p in after ==> before[p].Blob? == after[p].Blob?)
  }

  /** The difference can be shown for review. */
  predicate Reviewable(cfg: Config, before: GitTree, after: GitTree) {
    Readable(cfg, before, after) && Projectable(before, after)
  }

  /* ---------------------------------------------------------------- The deploy repository */

  /**
   * A commit is its content: tree, parents and everything else that enters its identity (message,
   * author, time), summed up as a stamp. Equal commits have equal identities.
   */
  datatype Commit = Commit(tree: GitTree, parents: seq<Commit>, stamp: nat)

  datatype PullState = Open | Closed | Merged(commit: Commit)

  /** A pull request. Its head is what the host shows, which can lag behind the branch. */
  datatype Pull = Pull(base: string, branch: string, head: Commit, state: PullState)

  /* ---------------------------------------------------------------- Persisted target state */

  datatype Proposal = Proposal(
    number: nat, commit: Commit, targetBranch: string, proposalBranch: string)

  datatype PendingProposal = PendingProposal(
    inputDigest: Digest, treeDigest: Digest, outputs: seq<Output>, proposal: Proposal)

  datatype TargetState = TargetState(
    inputDigest: Option<Digest>,
    outputs: seq<Output>,
    commit: Option<Commit>,
    published: bool,
    proposal: Option<PendingProposal>)

  const DEFAULT_STATE := TargetState(None, [], None, false, None)

  datatype World = World(
    refs: map<string, Commit>, pulls: map<nat, Pull>, files: map<string, TargetState>)
  {
    function Ref(name: string): Option<Commit> {
      Get(refs, name)
    }

    function Load(environment: string): TargetState {
      if StatePath(environment) in files then files[StatePath(environment)] else DEFAULT_STATE
    }
  }

  /** The value of a branch after a push: the pushed commit, or nothing after a deletion. */
  function SetRef(refs: map<string, Commit>, name: string, value: Option<Commit>)
    : map<string, Commit>
  {
    if value.Some? then refs[name := value.value] else refs - {name}
  }

  function EnvBranch(environment: string): string {
    "env/" + environment
  }

  function ProposalBranch(environment: string): string {
    "henosis/proposals/" + environment
  }

  function ProposalBranchEnvironment(branch: string): Option<string> {
    var prefix := "henosis/proposals/";
    if prefix < branch then Some(branch[|prefix|..]) else None
  }

  function StatePath(environment: string): string {
    environment + ".json"
  }

  /** The pull request goes from the environment's proposal branch to its branch. */
  predicate PullOf(pull: Pull, environment: string) {
    pull.base == EnvBranch(environment) && pull.branch == ProposalBranch(environment)
  }

  function OpenPulls(pulls: map<nat, Pull>, environment: string): set<nat> {
    set n | n in pulls && pulls[n].state.Open? && PullOf(pulls[n], environment)
  }

  /* ---------------------------------------------------------------- Observe and plan */

  /** How much of a merge the host shows: its identity may still be missing, or malformed. */
  datatype MergeIdentity = Withheld | Malformed | Shown

  datatype ProposalStatus = StatusOpen | StatusMerged(commit: Commit) | StatusClosed

  function Classify(proposal: Proposal, pull: Pull, shown: MergeIdentity)
    : Result<ProposalStatus, string>
  {
    if pull.head != proposal.commit then
      Err("k8s.review.proposal_changed")
    else if pull.state.Merged? then
      match shown
      case Withheld => Ok(StatusOpen)
      case Malformed => Err("k8s.review.merge")
      case Shown => Ok(StatusMerged(pull.state.commit))
    else if pull.state.Open? then
      Ok(StatusOpen)
    else
      Ok(StatusClosed)
  }

  function ObserveStatus(world: World, proposal: Proposal, shown: MergeIdentity)
    : Result<ProposalStatus, string>
  {
    if proposal.number in world.pulls
    then Classify(proposal, world.pulls[proposal.number], shown)
    else Err("k8s.github.api")
  }

  datatype Observation = Observation(state: TargetState, status: Option<ProposalStatus>)

  function Observe(world: World, environment: string, shown: MergeIdentity)
    : Result<Observation, string>
  {
    var state := world.Load(environment);
    match state.proposal
    case None => Ok(Observation(state, None))
    case Some(pending) =>
      var status :- ObserveStatus(world, pending.proposal, shown);
      Ok(Observation(state, Some(status)))
  }

  datatype Plan =
    | Publish(treeDigest: Digest, outputs: seq<Output>)
    | Propose(treeDigest: Digest, outputs: seq<Output>)
    | RecordMerged(commit: Commit)
    | CancelProposal
    | RemoveEnvironment

  datatype PlanOutcome =
    | Apply(plan: Plan)
    | Ready(outputs: seq<Output>, publication: Option<Commit>)
    | Waiting
    | Failed(code: string)

  /**
   * The plan for a slice. `rendered` and `applied` are what the renderer and the borrowed branch
   * answer if they are asked.
   */
  function Decide(policy: PublicationPolicy, desired: DesiredSlice, observed: Observation,
                  rendered: Option<RenderedWorld>, applied: Option<Commit>): PlanOutcome
    requires observed.state.proposal.Some? ==> observed.status.Some?
    requires observed.state.published ==> observed.state.commit.Some?
  {
    var state := observed.state;
    var digest := desired.MaterializationDigest();
    if desired.BorrowedEnvironment().Some? then
      if state.proposal.Some? then Apply(CancelProposal)
      else if rendered.None? then Failed("k8s.renderer.execute")
      else if applied.None? then Failed("k8s.publisher.git")
      else Ready(rendered.value.outputs, applied)
    else if desired.components == [] then
      if state.proposal.Some? then Apply(CancelProposal)
      else if policy == PrGated && state.published then
        Failed("k8s.review.branch-deletion-unsupported")
      else if policy == Direct && state.published then Apply(RemoveEnvironment)
      else Ready([], None)
    else if state.proposal.Some? && policy == Direct then
      Apply(CancelProposal)
    else if state.proposal.Some? && state.proposal.value.inputDigest == digest then
      match observed.status.value
      case StatusOpen => Waiting
      case StatusMerged(commit) => Apply(RecordMerged(commit))
      case StatusClosed => Failed("k8s.review.closed")
    else if state.published && state.inputDigest == Some(digest) then
      Ready(state.outputs, Some(state.commit.value))
    else if rendered.None? then
      Failed("k8s.renderer.execute")
    else if policy == Direct then
      Apply(Publish(rendered.value.treeDigest, rendered.value.outputs))
    else
      Apply(Propose(rendered.value.treeDigest, rendered.value.outputs))
  }

  /* ---------------------------------------------------------------- Program points of a pass */

  /** What a pass is doing: applying a plan, or retiring the slice. */
  datatype Operation = Applying(plan: Plan) | Retiring

  /** The next atomic action of a pass, with the local variables that are live before it. */
  datatype At =
    | Render
    | PublishLs(world: RenderedWorld)
    | PublishFetch(world: RenderedWorld, expected: Commit)
    | PublishPush(world: RenderedWorld, lease: Option<Commit>, commit: Commit)
    | ProposeLs(world: RenderedWorld)
    | ProposeFetch(world: RenderedWorld, expected: Commit)
    | ProposeBootstrap(world: RenderedWorld, root: Commit)
    | ProposeLsProposal(world: RenderedWorld, commit: Commit)
    | ProposePush(world: RenderedWorld, lease: Option<Commit>, commit: Commit)
    | ProposeList(world: RenderedWorld, commit: Commit)
    | ProposeUpdate(world: RenderedWorld, commit: Commit, number: nat)
    | ProposeCreate(world: RenderedWorld, commit: Commit)
    | ProposeWait(world: RenderedWorld, commit: Commit, number: nat, left: nat)
    | CancelGet(proposal: Proposal)
    | CancelClose(proposal: Proposal)
    | DropLs(proposal: Proposal)
    | DropFetch(proposal: Proposal)
    | DropLsProposal(proposal: Proposal)
    | DropPush(proposal: Proposal)
    | RemoveLs
    | RemoveFetch(expected: Commit)
    | RemovePush(expected: Commit)
    | Save(state: TargetState)

  datatype Pc = Idle | Running(desired: DesiredSlice, op: Operation, at: At)

  /** A plan that was made over one target state and may be applied while that state stands. */
  datatype Approved = Approved(desired: DesiredSlice, plan: Plan, over: TargetState)

  datatype State = State(world: World, approved: map<string, Approved>, pc: Pc)

  const INITIAL := State(World(map[], map[], map[]), map[], Idle)

  /** Free choices of one connector action: commit stamp, pull-request number, prepared runner. */
  datatype Choice = Choice(stamp: nat, number: nat, runner: PreparedRunner)

  /* ---------------------------------------------------------------- Atomic connector actions */

  function PublishedState(desired: DesiredSlice, outputs: seq<Output>, commit: Commit): TargetState {
    TargetState(Some(desired.MaterializationDigest()), outputs, Some(commit), true, None)
  }

  /** The commit made from a cleared worktree that received the whole render. */
  function CommitOver(world: RenderedWorld, head: Commit, stamp: nat): Commit {
    Commit(world.tree, [head], stamp)
  }

  /**
   * Comparing the staged render with the fetched head: leaving, going on to propose, or failing on a
   * patch that is no text.
   */
  function Compare(cfg: Config, desired: DesiredSlice, outputs: seq<Output>, world: RenderedWorld,
                   expected: Commit, head: Commit, stamp: nat): Option<At>
  {
    if world.tree == head.tree then
      Some(Save(PublishedState(desired, outputs, expected)))
    else if !Readable(cfg, head.tree, world.tree) then
      None
    else
      Some(ProposeLsProposal(world, CommitOver(world, head, stamp)))
  }

  /** The projection of a draft against the commit that it stands on can be built. */
  predicate DraftProjects(draft: Commit) {
    draft.parents != [] ==> Projectable(draft.parents[0].tree, draft.tree)
  }

  function PendingState(state: TargetState, desired: DesiredSlice, plan: Plan, number: nat,
                        commit: Commit): TargetState
    requires plan.Propose?
  {
    state.(proposal := Some(PendingProposal(
      desired.MaterializationDigest(), plan.treeDigest, plan.outputs,
      Proposal(number, commit, EnvBranch(desired.environment),
               ProposalBranch(desired.environment)))))
  }

  /** One look at a pull request's head, with `left` further looks before giving up. */
  function AwaitHead(state: TargetState, desired: DesiredSlice, plan: Plan, world: RenderedWorld,
                     commit: Commit, number: nat, seen: Commit, left: nat): Option<At>
    requires plan.Propose?
  {
    if seen == commit then Some(Save(PendingState(state, desired, plan, number, commit)))
    else if left == 0 then None
    else Some(ProposeWait(world, commit, number, left))
  }

  /** Where a pass goes once the proposal branch is gone. */
  function AfterDrop(state: TargetState, desired: DesiredSlice, op: Operation): Option<At> {
    if op.Retiring? then
      Some(if desired.BorrowedEnvironment().None? then RemoveLs else Save(DEFAULT_STATE))
    else if op.plan.CancelProposal? then
      Some(Save(state.(proposal := None)))
    else if op.plan.RecordMerged? && state.proposal.Some? then
      Some(Save(TargetState(Some(state.proposal.value.inputDigest), state.proposal.value.outputs,
                            Some(op.plan.commit), true, None)))
    else
      None
  }

  function Goto(s: State, at: Option<At>): State
    requires s.pc.Running?
  {
    s.(pc := if at.Some? then s.pc.(at := at.value) else Idle)
  }

  function WithRefs(s: State, refs: map<string, Commit>): State {
    s.(world := s.world.(refs := refs))
  }

  function WithPulls(s: State, pulls: map<nat, Pull>): State {
    s.(world := s.world.(pulls := pulls))
  }

  /** A push that replaces a branch's value only if it is still the leased one. */
  function PushWithLease(s: State, name: string, lease: Option<Commit>, value: Option<Commit>,
                         next: Option<At>): State
    requires s.pc.Running?
  {
    if s.world.Ref(name) == lease
    then Goto(WithRefs(s, SetRef(s.world.refs, name, value)), next)
    else Goto(s, None)
  }

  function StepPublish(s: State, ch: Choice): State
    requires s.pc.Running? && s.pc.op.Applying? && s.pc.op.plan.Publish?
  {
    var desired, plan := s.pc.desired, s.pc.op.plan;
    var branch := EnvBranch(desired.environment);
    match s.pc.at
    case PublishLs(world) =>
      (match s.world.Ref(branch)
       case Some(expected) => Goto(s, Some(PublishFetch(world, expected)))
       case None =>
         if world.tree == EMPTY_TREE then Goto(s, None)
         else Goto(s, Some(PublishPush(world, None, Commit(world.tree, [], ch.stamp)))))
    case PublishFetch(world, expected) =>
      (match s.world.Ref(branch)
       case None => Goto(s, None)
       case Some(head) =>
         var commit :=
           if world.tree == head.tree then head else CommitOver(world, head, ch.stamp);
         Goto(s, Some(PublishPush(world, Some(expected), commit))))
    case PublishPush(world, lease, commit) =>
      PushWithLease(s, branch, lease, Some(commit),
                    Some(Save(PublishedState(desired, plan.outputs, commit))))
    case _ => Goto(s, None)
  }

  /** Staging the render over the environment branch and pushing the proposal branch. */
  function StepPropose(cfg: Config, s: State, ch: Choice): State
    requires s.pc.Running? && s.pc.op.Applying? && s.pc.op.plan.Propose?
  {
    var desired, plan := s.pc.desired, s.pc.op.plan;
    var environment := desired.environment;
    var branch, review := EnvBranch(environment), ProposalBranch(environment);
    match s.pc.at
    case ProposeLs(world) =>
      (match s.world.Ref(branch)
       case Some(expected) => Goto(s, Some(ProposeFetch(world, expected)))
       case None => Goto(s, Some(ProposeBootstrap(world, Commit(EMPTY_TREE, [], ch.stamp)))))
    case ProposeFetch(world, expected) =>
      (match s.world.Ref(branch)
       case None => Goto(s, None)
       case Some(head) =>
         Goto(s, Compare(cfg, desired, plan.outputs, world, expected, head, ch.stamp)))
    case ProposeBootstrap(world, root) =>
      PushWithLease(s, branch, None, Some(root),
                    Compare(cfg, desired, plan.outputs, world, root, root, ch.stamp))
    case ProposeLsProposal(world, commit) =>
      Goto(s, Some(ProposePush(world, s.world.Ref(review), commit)))
    case ProposePush(world, lease, commit) =>
      PushWithLease(s, review, lease, Some(commit),
                    if DraftProjects(commit) then Some(ProposeList(world, commit)) else None)
    case _ => Goto(s, None)
  }

  /** Opening or updating the pull request, and waiting for its head to be the proposed commit. */
  function StepPull(s: State, ch: Choice): State
    requires s.pc.Running? && s.pc.op.Applying? && s.pc.op.plan.Propose?
  {
    var desired, plan := s.pc.desired, s.pc.op.plan;
    var environment := desired.environment;
    var branch, review := EnvBranch(environment), ProposalBranch(environment);
    match s.pc.at
    case ProposeList(world, commit) =>
      var open := OpenPulls(s.world.pulls, environment);
      if open == {} then Goto(s, Some(ProposeCreate(world, commit)))
      else if open == {ch.number} then Goto(s, Some(ProposeUpdate(world, commit, ch.number)))
      else Goto(s, None)
    case ProposeUpdate(world, commit, number) =>
      if number !in s.world.pulls then Goto(s, None)
      else
        Goto(s, AwaitHead(s.world.Load(environment), desired, plan, world, commit, number,
                          s.world.pulls[number].head, 3))
    case ProposeCreate(world, commit) =>
      if s.world.Ref(review).None? || s.world.Ref(branch).None? then Goto(s, None)
      else
        var head := s.world.Ref(review).value;
        var pulls := s.world.pulls[ch.number := Pull(branch, review, head, Open)];
        Goto(WithPulls(s, pulls),
             AwaitHead(s.world.Load(environment), desired, plan, world, commit, ch.number, head, 3))
    case ProposeWait(world, commit, number, left) =>
      if number !in s.world.pulls || left == 0 then Goto(s, None)
      else
        Goto(s, AwaitHead(s.world.Load(environment), desired, plan, world, commit, number,
                          s.world.pulls[number].head, left - 1))
    case _ => Goto(s, None)
  }

  /** Closing an unmerged proposal. */
  function StepCancel(s: State): State
    requires s.pc.Running?
  {
    match s.pc.at
    case CancelGet(p) =>
      if p.number !in s.world.pulls then Goto(s, None)
      else Goto(s, Some(if s.world.pulls[p.number].state.Open? then CancelClose(p) else DropLs(p)))
    case CancelClose(p) =>
      if p.number !in s.world.pulls then Goto(s, None)
      else if !s.world.pulls[p.number].state.Open? then Goto(s, Some(DropLs(p)))
      else
        Goto(WithPulls(s, s.world.pulls[p.number := s.world.pulls[p.number].(state := Closed)]),
             Some(DropLs(p)))
    case _ => Goto(s, None)
  }

  /** Removing a proposal branch that still holds the proposed commit. */
  function StepDrop(s: State): State
    requires s.pc.Running?
  {
    var done := AfterDrop(s.world.Load(s.pc.desired.environment), s.pc.desired, s.pc.op);
    match s.pc.at
    case DropLs(p) =>
      (match ProposalBranchEnvironment(p.proposalBranch)
       case None => Goto(s, None)
       case Some(environment) =>
         Goto(s, Some(if s.world.Ref(EnvBranch(environment)).Some? then DropFetch(p)
                      else DropLsProposal(p))))
    case DropFetch(p) =>
      (match ProposalBranchEnvironment(p.proposalBranch)
       case None => Goto(s, None)
       case Some(environment) =>
         Goto(s, if s.world.Ref(EnvBranch(environment)).Some? then Some(DropLsProposal(p))
                 else None))
    case DropLsProposal(p) =>
      (match s.world.Ref(p.proposalBranch)
       case None => Goto(s, done)
       case Some(current) => Goto(s, if current == p.commit then Some(DropPush(p)) else None))
    case DropPush(p) => PushWithLease(s, p.proposalBranch, Some(p.commit), None, done)
    case _ => Goto(s, None)
  }

  /** Deleting the environment branch. */
  function StepRemove(s: State): State
    requires s.pc.Running?
  {
    var branch := EnvBranch(s.pc.desired.environment);
    match s.pc.at
    case RemoveLs =>
      (match s.world.Ref(branch)
       case None => Goto(s, Some(Save(DEFAULT_STATE)))
       case Some(expected) => Goto(s, Some(RemoveFetch(expected))))
    case RemoveFetch(expected) =>
      Goto(s, if s.world.Ref(branch).Some? then Some(RemovePush(expected)) else None)
    case RemovePush(expected) =>
      PushWithLease(s, branch, Some(expected), None, Some(Save(DEFAULT_STATE)))
    case _ => Goto(s, None)
  }

  /** Rendering again, and checking the result against the plan before any remote effect. */
  function StepRender(cfg: Config, s: State, ch: Choice): State
    requires s.pc.Running?
  {
    if s.pc.op.Retiring? || !(s.pc.op.plan.Publish? || s.pc.op.plan.Propose?) then Goto(s, None)
    else
      var plan := s.pc.op.plan;
      match cfg.render(ch.runner, s.pc.desired)
      case None => Goto(s, None)
      case Some(world) =>
        if world.treeDigest != plan.treeDigest || world.outputs != plan.outputs then Goto(s, None)
        else Goto(s, Some(if plan.Publish? then PublishLs(world) else ProposeLs(world)))
  }

  /** The next atomic action of the running pass. A pass that fails becomes idle. */
  function Step(cfg: Config, s: State, ch: Choice): State
    requires s.pc.Running?
  {
    match s.pc.at
    case Render => StepRender(cfg, s, ch)
    case PublishLs(_) | PublishFetch(_, _) | PublishPush(_, _, _) =>
      if s.pc.op.Applying? && s.pc.op.plan.Publish? then StepPublish(s, ch) else Goto(s, None)
    case ProposeLs(_) | ProposeFetch(_, _) | ProposeBootstrap(_, _) | ProposeLsProposal(_, _)
       | ProposePush(_, _, _) =>
      if s.pc.op.Applying? && s.pc.op.plan.Propose? then StepPropose(cfg, s, ch) else Goto(s, None)
    case ProposeList(_, _) | ProposeUpdate(_, _, _) | ProposeCreate(_, _)
       | ProposeWait(_, _, _, _) =>
      if s.pc.op.Applying? && s.pc.op.plan.Propose? then StepPull(s, ch) else Goto(s, None)
    case CancelGet(_) | CancelClose(_) => StepCancel(s)
    case DropLs(_) | DropFetch(_) | DropLsProposal(_) | DropPush(_) => StepDrop(s)
    case RemoveLs | RemoveFetch(_) | RemovePush(_) => StepRemove(s)
    case Save(state) =>
      var files := s.world.files[StatePath(s.pc.desired.environment) := state];
      State(s.world.(files := files), s.approved, Idle)
  }

  /** Where applying a plan starts, after loading the target state. Nothing: already done. */
  function PlanEntry(plan: Plan, state: TargetState): Option<At> {
    match plan
    case Publish(_, _) => Some(Render)
    case Propose(_, _) => Some(Render)
    case RecordMerged(_) =>
      if state.proposal.Some? then Some(DropLs(state.proposal.value.proposal)) else None
    case CancelProposal =>
      if state.proposal.Some? then Some(CancelGet(state.proposal.value.proposal)) else None
    case RemoveEnvironment => Some(RemoveLs)
  }

  function RetireEntry(desired: DesiredSlice, state: TargetState): At {
    if state.proposal.Some? then CancelGet(state.proposal.value.proposal)
    else if desired.BorrowedEnvironment().None? then RemoveLs
    else Save(DEFAULT_STATE)
  }

  /* ---------------------------------------------------------------- Labels and runs */

  datatype Label =
    | Planned(desired: DesiredSlice, shown: MergeIdentity, runner: PreparedRunner)
    | Start(environment: string)
    | Retire(desired: DesiredSlice)
    | Tick(environment: string, choice: Choice)
    | Crash(environment: string)
    | Merge(environment: string, number: nat, merge: Commit)
    | Close(environment: string, number: nat)
    | Sync(environment: string, number: nat)
    | Write(ref: string, value: Option<Commit>)

  /** The plan a fresh observation leads to, or nothing when the pass ends without one. */
  function MakePlan(cfg: Config, world: World, desired: DesiredSlice, shown: MergeIdentity,
                    runner: PreparedRunner): Option<Plan>
  {
    match Observe(world, desired.environment, shown)
    case Err(_) => None
    case Ok(observed) =>
      if observed.state.published && observed.state.commit.None? then None
      else
        var outcome := Decide(cfg.policies.ForEnvironment(desired.environment), desired, observed,
                              cfg.render(runner, desired), None);
        if outcome.Apply? then Some(outcome.plan) else None
  }

  predicate Enabled(cfg: Config, s: State, l: Label) {
    match l
    case Planned(desired, shown, runner) =>
      s.pc.Idle? && MakePlan(cfg, s.world, desired, shown, runner).Some?
    case Start(environment) =>
      s.pc.Idle? && environment in s.approved &&
      s.world.Load(environment) == s.approved[environment].over
    case Retire(desired) => s.pc.Idle?
    case Tick(environment, choice) =>
      s.pc.Running? && s.pc.desired.environment == environment &&
      (s.pc.at.ProposeCreate? ==> choice.number !in s.world.pulls)
    case Crash(environment) => s.pc.Running? && s.pc.desired.environment == environment
    case Merge(environment, number, merge) =>
      number in s.world.pulls && PullOf(s.world.pulls[number], environment) &&
      s.world.pulls[number].state.Open? && EnvBranch(environment) in s.world.refs &&
      merge.tree == s.world.pulls[number].head.tree
    case Close(environment, number) =>
      number in s.world.pulls && PullOf(s.world.pulls[number], environment) &&
      s.world.pulls[number].state.Open?
    case Sync(environment, number) =>
      number in s.world.pulls && PullOf(s.world.pulls[number], environment) &&
      s.world.pulls[number].state.Open? && ProposalBranch(environment) in s.world.refs
    case Write(ref, value) => true
  }

  function Do(cfg: Config, s: State, l: Label): State {
    if !Enabled(cfg, s, l) then s
    else
      match l
      case Planned(desired, shown, runner) =>
        var plan := MakePlan(cfg, s.world, desired, shown, runner).value;
        s.(approved := s.approved[desired.environment :=
          Approved(desired, plan, s.world.Load(desired.environment))])
      case Start(environment) =>
        var a := s.approved[environment];
        var at := PlanEntry(a.plan, s.world.Load(environment));
        s.(pc := if at.Some? then Running(a.desired, Applying(a.plan), at.value) else Idle)
      case Retire(desired) =>
        s.(pc := Running(desired, Retiring,
                         RetireEntry(desired, s.world.Load(desired.environment))))
      case Tick(environment, choice) => Step(cfg, s, choice)
      case Crash(environment) => s.(pc := Idle)
      case Merge(environment, number, merge) =>
        s.(world := s.world.(
          refs := s.world.refs[EnvBranch(environment) := merge],
          pulls := s.world.pulls[number := s.world.pulls[number].(state := Merged(merge))]))
      case Close(environment, number) =>
        WithPulls(s, s.world.pulls[number := s.world.pulls[number].(state := Closed)])
      case Sync(environment, number) =>
        WithPulls(s, s.world.pulls[number := s.world.pulls[number].(
          head := s.world.refs[ProposalBranch(environment)])])
      case Write(ref, value) => WithRefs(s, SetRef(s.world.refs, ref, value))
  }

  function Exec(cfg: Config, s: State, labels: seq<Label>): State
    decreases |labels|
  {
    if labels == [] then s else Exec(cfg, Do(cfg, s, labels[0]), labels[1..])
  }

  lemma {:induction false} ExecAppend(cfg: Config, s: State, a: seq<Label>, b: seq<Label>)
    ensures Exec(cfg, s, a + b) == Exec(cfg, Exec(cfg, s, a), b)
    decreases |a|
  {
    if a == [] {
      assert a + b == b;
    } else {
      assert (a + b)[1..] == a[1..] + b;
      ExecAppend(cfg, Do(cfg, s, a[0]), a[1..], b);
    }
    hide Do;
  }

  lemma ExecSnoc(cfg: Config, s: State, labels: seq<Label>, l: Label)
    ensures Exec(cfg, s, labels + [l]) == Do(cfg, Exec(cfg, s, labels), l)
  {
    ExecAppend(cfg, s, labels, [l]);
    assert [l][1..] == [];
    var t := Exec(cfg, s, labels);
    assert Exec(cfg, t, [l]) == Exec(cfg, Do(cfg, t, l), []);
    hide Do;
  }

  /** The ticks of one environment's pass, with one choice each. */
  function Ticks(environment: string, choices: seq<Choice>): (labels: seq<Label>)
    ensures |labels| == |choices|
  {
    if choices == [] then []
    else [Tick(environment, choices[0])] + Ticks(environment, choices[1..])
  }

  /** One uninterrupted pass: plan, start, and run to the end. */
  function Pass(desired: DesiredSlice, shown: MergeIdentity, runner: PreparedRunner,
                choices: seq<Choice>): seq<Label>
  {
    [Planned(desired, shown, runner), Start(desired.environment)]
    + Ticks(desired.environment, choices)
  }

  lemma ExecTwo(cfg: Config, s: State, a: Label, b: Label, rest: seq<Label>)
    ensures Exec(cfg, s, [a, b] + rest) == Exec(cfg, Do(cfg, Do(cfg, s, a), b), rest)
  {
    ExecAppend(cfg, s, [a, b], rest);
    assert [a, b][1..] == [b] && [b][1..] == [];
    var t := Do(cfg, s, a);
    assert Exec(cfg, s, [a, b]) == Exec(cfg, t, [b]);
    assert Exec(cfg, t, [b]) == Exec(cfg, Do(cfg, t, b), []);
    hide Do;
  }
}
