/**
 * What a published target state is evidence of: the recorded commit holds exactly a render of a
 * slice with the recorded digest, and the recorded outputs are that render's outputs.
 */
module Evidence {
  import opened Wrappers
  import opened Bytes
  import opened Trees
  import opened Slices
  import opened Lifecycle
  import opened Invariants

  predicate RendersTo(cfg: Config, runner: PreparedRunner, desired: DesiredSlice, digest: Digest,
                      outputs: seq<Output>, tree: GitTree)
  {
    desired.MaterializationDigest() == digest &&
    var rendered := cfg.render(runner, desired);
    rendered.Some? && rendered.value.outputs == outputs && rendered.value.tree == tree
  }

  /** Some runner renders some slice of this digest to these outputs and exactly this tree. */
  ghost predicate Supported(cfg: Config, digest: Digest, outputs: seq<Output>, tree: GitTree) {
    exists runner, desired :: RendersTo(cfg, runner, desired, digest, outputs, tree)
  }

  ghost predicate StateSupported(cfg: Config, state: TargetState) {
    (state.published ==>
      state.commit.Some? && state.inputDigest.Some? &&
      Supported(cfg, state.inputDigest.value, state.outputs, state.commit.value.tree)) &&
    (state.proposal.Some? ==>
      var pending := state.proposal.value;
      Supported(cfg, pending.inputDigest, pending.outputs, pending.proposal.commit.tree))
  }

  ghost predicate FilesSupported(cfg: Config, world: World) {
    forall e: string :: StateSupported(cfg, world.Load(e))
  }

  /** The world a pass carries is a verified render of its slice. */
  ghost predicate Verified(cfg: Config, desired: DesiredSlice, op: Operation, world: RenderedWorld) {
    op.Applying? && (op.plan.Publish? || op.plan.Propose?) &&
    world.outputs == op.plan.outputs &&
    exists runner :: cfg.render(runner, desired) == Some(world)
  }

  ghost predicate AtSupported(cfg: Config, desired: DesiredSlice, op: Operation, at: At) {
    match at
    case PublishLs(world) => Verified(cfg, desired, op, world)
    case PublishFetch(world, _) => Verified(cfg, desired, op, world)
    case PublishPush(world, _, commit) =>
      Verified(cfg, desired, op, world) && commit.tree == world.tree
    case ProposeLs(world) => Verified(cfg, desired, op, world)
    case ProposeFetch(world, _) => Verified(cfg, desired, op, world)
    case ProposeBootstrap(world, _) => Verified(cfg, desired, op, world)
    case ProposeLsProposal(world, commit) =>
      Verified(cfg, desired, op, world) && commit.tree == world.tree
    case ProposePush(world, _, commit) =>
      Verified(cfg, desired, op, world) && commit.tree == world.tree
    case ProposeList(world, commit) =>
      Verified(cfg, desired, op, world) && commit.tree == world.tree
    case ProposeUpdate(world, commit, _) =>
      Verified(cfg, desired, op, world) && commit.tree == world.tree
    case ProposeCreate(world, commit) =>
      Verified(cfg, desired, op, world) && commit.tree == world.tree
    case ProposeWait(world, commit, _, _) =>
      Verified(cfg, desired, op, world) && commit.tree == world.tree
    case Save(state) => StateSupported(cfg, state)
    case _ => true
  }

  ghost predicate PcSupported(cfg: Config, s: State) {
    s.pc.Running? ==> AtSupported(cfg, s.pc.desired, s.pc.op, s.pc.at)
  }

  ghost predicate EvidenceInv(cfg: Config, s: State) {
    Inv(cfg, s) && FilesSupported(cfg, s.world) && PcSupported(cfg, s)
  }

  /**
   * The step is not a proposing pass that finds its render in the head it fetches although the head
   * it inspected has another tree. The two are one commit unless the branch moved in between.
   */
  predicate FetchesInspected(s: State, l: Label) {
    l.Tick? && s.pc.Running? && s.pc.at.ProposeFetch? ==>
      var head := s.world.Ref(EnvBranch(s.pc.desired.environment));
      head.Some? && head.value.tree == s.pc.at.world.tree ==>
        s.pc.at.expected.tree == s.pc.at.world.tree
  }

  predicate InspectedRun(cfg: Config, s: State, labels: seq<Label>)
    decreases |labels|
  {
    labels == [] ||
    (FetchesInspected(s, labels[0]) && InspectedRun(cfg, Do(cfg, s, labels[0]), labels[1..]))
  }

  lemma VerifiedSupports(cfg: Config, desired: DesiredSlice, op: Operation, world: RenderedWorld)
    requires Verified(cfg, desired, op, world)
    ensures Supported(cfg, desired.MaterializationDigest(), op.plan.outputs, world.tree)
  {
    var runner :| cfg.render(runner, desired) == Some(world);
    assert RendersTo(cfg, runner, desired, desired.MaterializationDigest(), op.plan.outputs,
                     world.tree);
  }

  lemma RenderSupported(cfg: Config, s: State, ch: Choice)
    requires s.pc.Running? && s.pc.at.Render?
    ensures PcSupported(cfg, StepRender(cfg, s, ch))
  {
  }

  lemma PublishSupported(cfg: Config, s: State, ch: Choice)
    requires PcSupported(cfg, s) && s.pc.Running?
    requires s.pc.op.Applying? && s.pc.op.plan.Publish?
    ensures PcSupported(cfg, StepPublish(s, ch))
  {
    if s.pc.at.PublishPush? {
      VerifiedSupports(cfg, s.pc.desired, s.pc.op, s.pc.at.world);
    }
    hide Supported, Verified, EnvBranch;
  }

  lemma ProposeSupported(cfg: Config, s: State, ch: Choice)
    requires PcSupported(cfg, s) && s.pc.Running?
    requires s.pc.op.Applying? && s.pc.op.plan.Propose?
    requires FetchesInspected(s, Tick(s.pc.desired.environment, ch))
    ensures PcSupported(cfg, StepPropose(cfg, s, ch))
  {
    if s.pc.at.ProposeFetch? || s.pc.at.ProposeBootstrap? {
      VerifiedSupports(cfg, s.pc.desired, s.pc.op, s.pc.at.world);
    }
    hide Supported, Verified, EnvBranch, ProposalBranch;
  }

  lemma PullSupported(cfg: Config, s: State, ch: Choice)
    requires PcSupported(cfg, s) && s.pc.Running?
    requires s.pc.op.Applying? && s.pc.op.plan.Propose?
    requires StateSupported(cfg, s.world.Load(s.pc.desired.environment))
    ensures PcSupported(cfg, StepPull(s, ch))
  {
    var at := s.pc.at;
    if at.ProposeUpdate? || at.ProposeWait? || at.ProposeCreate? {
      VerifiedSupports(cfg, s.pc.desired, s.pc.op, at.world);
    }
    hide Supported, Verified, EnvBranch, ProposalBranch, OpenPulls, StatePath;
  }

  /** Dropping a proposal ends in the state it had, or in recording the observed merge. */
  lemma DropSupported(cfg: Config, s: State)
    requires s.pc.Running?
    requires var at := AfterDrop(s.world.Load(s.pc.desired.environment), s.pc.desired, s.pc.op);
             at.Some? ==> AtSupported(cfg, s.pc.desired, s.pc.op, at.value)
    ensures PcSupported(cfg, StepDrop(s))
  {
    DropGoesOn(s);
    hide StepDrop, AfterDrop, StateSupported;
  }

  /** Each action of a drop fails, goes on dropping, or is the last one. */
  lemma DropGoesOn(s: State)
    requires s.pc.Running?
    ensures var s' := StepDrop(s);
            s'.pc.Running? ==>
              s'.pc.desired == s.pc.desired && s'.pc.op == s.pc.op &&
              (s'.pc.at.DropFetch? || s'.pc.at.DropLsProposal? || s'.pc.at.DropPush? ||
               Some(s'.pc.at) ==
                 AfterDrop(s.world.Load(s.pc.desired.environment), s.pc.desired, s.pc.op))
  {
    hide EnvBranch, ProposalBranchEnvironment, AfterDrop, StatePath;
  }

  lemma AfterDropSupported(cfg: Config, s: State)
    requires Inv(cfg, s) && s.pc.Running?
    requires StateSupported(cfg, s.world.Load(s.pc.desired.environment))
    ensures var at := AfterDrop(s.world.Load(s.pc.desired.environment), s.pc.desired, s.pc.op);
            at.Some? ==> AtSupported(cfg, s.pc.desired, s.pc.op, at.value)
  {
    if s.pc.op.Applying? && s.pc.op.plan.RecordMerged? {
      var pending := s.world.Load(s.pc.desired.environment).proposal.value;
      assert PullOk(s.world.pulls[pending.proposal.number]);
    }
    hide Supported, AtOk, StatePath, FilesOk, ApprovedOk;
  }

  lemma CleanupSupported(cfg: Config, s: State)
    requires s.pc.Running?
    ensures (s.pc.at.CancelGet? || s.pc.at.CancelClose?) ==> PcSupported(cfg, StepCancel(s))
    ensures (s.pc.at.RemoveLs? || s.pc.at.RemoveFetch? || s.pc.at.RemovePush?) ==>
              PcSupported(cfg, StepRemove(s))
  {
    hide EnvBranch, Supported;
  }

  lemma TickSupported(cfg: Config, s: State, ch: Choice)
    requires EvidenceInv(cfg, s) && s.pc.Running? && !s.pc.at.Save?
    requires FetchesInspected(s, Tick(s.pc.desired.environment, ch))
    ensures PcSupported(cfg, Step(cfg, s, ch))
  {
    assert StateSupported(cfg, s.world.Load(s.pc.desired.environment));
    match s.pc.at
    case Render => RenderSupported(cfg, s, ch);
    case PublishLs(_) | PublishFetch(_, _) | PublishPush(_, _, _) =>
      PublishSupported(cfg, s, ch);
    case ProposeLs(_) | ProposeFetch(_, _) | ProposeBootstrap(_, _) | ProposeLsProposal(_, _)
       | ProposePush(_, _, _) => ProposeSupported(cfg, s, ch);
    case ProposeList(_, _) | ProposeUpdate(_, _, _) | ProposeCreate(_, _)
       | ProposeWait(_, _, _, _) => PullSupported(cfg, s, ch);
    case CancelGet(_) | CancelClose(_) => CleanupSupported(cfg, s);
    case DropLs(_) | DropFetch(_) | DropLsProposal(_) | DropPush(_) =>
      AfterDropSupported(cfg, s);
      DropSupported(cfg, s);
    case RemoveLs | RemoveFetch(_) | RemovePush(_) => CleanupSupported(cfg, s);
    hide StepRender, StepPublish, StepPropose, StepPull, StepDrop, StepCancel, StepRemove,
         AfterDrop, AtSupported, Inv, FilesSupported, StateSupported;
  }

  lemma SaveSupported(cfg: Config, s: State, ch: Choice)
    requires EvidenceInv(cfg, s) && s.pc.Running? && s.pc.at.Save?
    ensures FilesSupported(cfg, Step(cfg, s, ch).world)
  {
    var s' := Step(cfg, s, ch);
    forall e: string
      ensures StateSupported(cfg, s'.world.Load(e))
    {
      assert StateSupported(cfg, s.world.Load(e));
      hide StateSupported;
    }
  }

  lemma SameFilesSupported(cfg: Config, world: World, world': World)
    requires FilesSupported(cfg, world) && world'.files == world.files
    ensures FilesSupported(cfg, world')
  {
    forall e: string
      ensures StateSupported(cfg, world'.Load(e))
    {
      assert StateSupported(cfg, world.Load(e));
    }
    hide StateSupported;
  }

  /** Files and the running pass are untouched by everything but ticks and starts. */
  lemma OthersSupport(cfg: Config, s: State, l: Label)
    requires FilesSupported(cfg, s.world) && PcSupported(cfg, s) && !l.Tick?
    ensures var s' := Do(cfg, s, l); FilesSupported(cfg, s'.world) && PcSupported(cfg, s')
  {
    assert StateSupported(cfg, DEFAULT_STATE);
    var s' := Do(cfg, s, l);
    assert s'.world.files == s.world.files;
    SameFilesSupported(cfg, s.world, s'.world);
    hide Step, StateSupported, FilesSupported, StatePath, MakePlan;
  }

  lemma DoSupports(cfg: Config, s: State, l: Label)
    requires EvidenceInv(cfg, s) && FetchesInspected(s, l)
    ensures EvidenceInv(cfg, Do(cfg, s, l))
  {
    DoKeeps(cfg, s, l);
    if !Enabled(cfg, s, l) {
    } else if l.Tick? && s.pc.at.Save? {
      SaveSupported(cfg, s, l.choice);
      hide FilesSupported, Inv;
    } else if l.Tick? {
      TickSupported(cfg, s, l.choice);
      StepPulls(cfg, s, l.choice);
      SameFilesSupported(cfg, s.world, Step(cfg, s, l.choice).world);
      hide Inv, Step, PullsStep, AtSupported, FilesSupported;
    } else {
      OthersSupport(cfg, s, l);
      hide Do, Inv, FilesSupported, PcSupported;
    }
  }

  lemma {:induction false} ExecSupports(cfg: Config, s: State, labels: seq<Label>)
    requires EvidenceInv(cfg, s) && InspectedRun(cfg, s, labels)
    ensures EvidenceInv(cfg, Exec(cfg, s, labels))
    decreases |labels|
  {
    if labels != [] {
      DoSupports(cfg, s, labels[0]);
      ExecSupports(cfg, Do(cfg, s, labels[0]), labels[1..]);
    }
  }

  /**
   * In every run in which no proposing pass finds its render in a fetched head after inspecting one
   * with another tree, a published state's commit holds exactly a render of a slice of its digest,
   * with exactly its outputs.
   */
  lemma InspectedMeansRendered(cfg: Config, labels: seq<Label>, environment: string)
    requires InspectedRun(cfg, INITIAL, labels)
    ensures var state := Exec(cfg, INITIAL, labels).world.Load(environment);
            state.published ==>
              state.commit.Some? && state.inputDigest.Some? &&
              Supported(cfg, state.inputDigest.value, state.outputs, state.commit.value.tree)
  {
    ExecSupports(cfg, INITIAL, labels);
    assert StateSupported(cfg, Exec(cfg, INITIAL, labels).world.Load(environment));
  }

  /* ---------------------------------------------------------------- Undisturbed fetches */

  /** Nobody merges into or writes the branch that a proposing pass has inspected and not fetched. */
  predicate FetchUndisturbed(s: State, l: Label) {
    s.pc.Running? && s.pc.at.ProposeFetch? ==>
      var e := s.pc.desired.environment;
      !(l.Merge? && l.environment == e) && !(l.Write? && l.ref == EnvBranch(e))
  }

  predicate UndisturbedRun(cfg: Config, s: State, labels: seq<Label>)
    decreases |labels|
  {
    labels == [] ||
    (FetchUndisturbed(s, labels[0]) && UndisturbedRun(cfg, Do(cfg, s, labels[0]), labels[1..]))
  }

  /** A pass that is about to fetch the branch fetches what it inspected. */
  predicate FetchesWhatItSaw(s: State) {
    s.pc.Running? && s.pc.at.ProposeFetch? ==>
      s.world.Ref(EnvBranch(s.pc.desired.environment)) == Some(s.pc.at.expected)
  }

  lemma TickFetches(cfg: Config, s: State, ch: Choice)
    requires s.pc.Running?
    ensures FetchesWhatItSaw(Step(cfg, s, ch))
  {
    hide EnvBranch, ProposalBranch, StatePath, ProposalBranchEnvironment, OpenPulls, Readable,
         DraftProjects, CommitOver, PublishedState;
  }

  lemma DoFetches(cfg: Config, s: State, l: Label)
    requires FetchesWhatItSaw(s) && FetchUndisturbed(s, l)
    ensures FetchesWhatItSaw(Do(cfg, s, l)) && FetchesInspected(s, l)
  {
    if l.Tick? && Enabled(cfg, s, l) {
      TickFetches(cfg, s, l.choice);
    } else if l.Merge? && s.pc.Running? {
      BranchNamesAreApart(l.environment, s.pc.desired.environment);
    }
    hide Step, MakePlan, EnvBranch, ProposalBranch, StatePath;
  }

  /** If nobody moves a branch between its inspection and its fetch, the two see one commit. */
  lemma {:induction false} UndisturbedInspects(cfg: Config, s: State, labels: seq<Label>)
    requires FetchesWhatItSaw(s) && UndisturbedRun(cfg, s, labels)
    ensures InspectedRun(cfg, s, labels)
    decreases |labels|
  {
    if labels != [] {
      DoFetches(cfg, s, labels[0]);
      UndisturbedInspects(cfg, Do(cfg, s, labels[0]), labels[1..]);
    }
    hide Do, FetchesWhatItSaw, FetchUndisturbed, FetchesInspected;
  }

  /**
   * Ready evidence is sound: in every run in which nobody merges into or writes an environment
   * branch between a proposing pass's inspection and fetch of it, a published state's commit holds
   * exactly a render of a slice of its digest, with exactly its outputs. Crashes, reviews, merges
   * and outside writers may occur anywhere else.
   */
  lemma PublishedMeansRendered(cfg: Config, labels: seq<Label>, environment: string)
    requires UndisturbedRun(cfg, INITIAL, labels)
    ensures var state := Exec(cfg, INITIAL, labels).world.Load(environment);
            state.published ==>
              state.commit.Some? && state.inputDigest.Some? &&
              Supported(cfg, state.inputDigest.value, state.outputs, state.commit.value.tree)
  {
    UndisturbedInspects(cfg, INITIAL, labels);
    InspectedMeansRendered(cfg, labels, environment);
  }

  /* ---------------------------------------------------------------- Where it fails */

  /**
   * The condition on a step is exact. A proposing pass that finds nothing to propose records the
   * head it inspected, but it compared the head it fetched: what it then saves as published holds
   * the verified render if and only if the two heads have one tree.
   */
  lemma UnchangedIsSoundIffInspected(cfg: Config, s: State, ch: Choice, last: Choice)
    requires s.pc.Running? && s.pc.at.ProposeFetch? && s.pc.op.Applying? && s.pc.op.plan.Propose?
    requires Step(cfg, s, ch).pc.Running? && Step(cfg, s, ch).pc.at.Save?
    ensures var e := s.pc.desired.environment;
            var fetched, saved := s.world.Ref(EnvBranch(e)),
                                  Step(cfg, Step(cfg, s, ch), last).world.Load(e);
            fetched.Some? && saved.published && saved.commit.Some? &&
            (saved.commit.value.tree == s.pc.at.world.tree <==>
             fetched.value.tree == s.pc.at.expected.tree)
    ensures FetchesInspected(s, Tick(s.pc.desired.environment, ch)) <==>
            s.world.Ref(EnvBranch(s.pc.desired.environment)).value.tree == s.pc.at.expected.tree
  {
  }

  /** A gated connector whose renderer always gives the same world. */
  function ConstantConfig(rendered: RenderedWorld): Config {
    Config(PublicationPolicies(PrGated, map[]), (runner, desired) => Some(rendered),
           (before, after) => [])
  }

  /** The state at one point of a proposing pass over a single branch value. */
  function ProposingAt(desired: DesiredSlice, rendered: RenderedWorld, head: Commit, at: At): State {
    var e, plan := desired.environment, Propose(rendered.treeDigest, rendered.outputs);
    State(World(map[EnvBranch(e) := head], map[], map[]),
          map[e := Approved(desired, plan, DEFAULT_STATE)],
          Running(desired, Applying(plan), at))
  }

  lemma FirstPassStarts(desired: DesiredSlice, rendered: RenderedWorld, stale: Commit,
                        runner: PreparedRunner)
    requires desired.BorrowedEnvironment().None? && desired.components != []
    ensures var cfg, e := ConstantConfig(rendered), desired.environment;
            var s := Do(cfg, INITIAL, Write(EnvBranch(e), Some(stale)));
            Do(cfg, Do(cfg, s, Planned(desired, Shown, runner)), Start(e)) ==
            ProposingAt(desired, rendered, stale, Render)
  {
    var cfg, e := ConstantConfig(rendered), desired.environment;
    var s := Do(cfg, INITIAL, Write(EnvBranch(e), Some(stale)));
    var plan := Propose(rendered.treeDigest, rendered.outputs);
    assert s.world == World(map[EnvBranch(e) := stale], map[], map[]) && s.pc.Idle?;
    assert MakePlan(cfg, s.world, desired, Shown, runner) == Some(plan) by {
      hide EnvBranch, StatePath;
    }
    hide MakePlan, EnvBranch, StatePath;
  }

  /** The branch moves between the inspection and the fetch, from another tree to the render. */
  lemma FirstPassIsMisled(desired: DesiredSlice, rendered: RenderedWorld, stale: Commit,
                          moved: Commit, ch: Choice)
    requires stale.tree != rendered.tree && moved.tree == rendered.tree
    ensures var cfg, e := ConstantConfig(rendered), desired.environment;
            var tick, write := Tick(e, ch), Write(EnvBranch(e), Some(moved));
            var s := ProposingAt(desired, rendered, stale, Render);
            var inspected := Do(cfg, Do(cfg, s, tick), tick);
            var saved := Do(cfg, Do(cfg, Do(cfg, inspected, write), tick), tick);
            saved.world.Load(e) == PublishedState(desired, rendered.outputs, stale)
  {
    var cfg, e := ConstantConfig(rendered), desired.environment;
    var tick, write := Tick(e, ch), Write(EnvBranch(e), Some(moved));
    var s := ProposingAt(desired, rendered, stale, Render);
    assert Do(cfg, s, tick) == ProposingAt(desired, rendered, stale, ProposeLs(rendered)) by {
      hide StepPropose, EnvBranch, StatePath;
    }
    var listing := ProposingAt(desired, rendered, stale, ProposeLs(rendered));
    var fetching := ProposeFetch(rendered, stale);
    assert Do(cfg, listing, tick) == ProposingAt(desired, rendered, stale, fetching) by {
      hide EnvBranch, StatePath;
    }
    var inspected := ProposingAt(desired, rendered, stale, fetching);
    assert Do(cfg, inspected, write) == ProposingAt(desired, rendered, moved, fetching) by {
      hide EnvBranch, StatePath;
    }
    var misled := ProposingAt(desired, rendered, moved, fetching);
    var save := Save(PublishedState(desired, rendered.outputs, stale));
    assert Do(cfg, misled, tick) == ProposingAt(desired, rendered, moved, save) by {
      hide EnvBranch, StatePath, PublishedState;
    }
    hide EnvBranch, StatePath, PublishedState;
  }

  /**
   * The condition is needed. For every slice and render, a crash-free first proposal during which
   * an outsider moves the branch from another tree to the render, between the inspection and the
   * fetch, is recorded as published at a commit that holds no render of the slice.
   */
  lemma UnchangedCanMislead(desired: DesiredSlice, rendered: RenderedWorld, stale: Commit,
                            moved: Commit, runner: PreparedRunner, ch: Choice)
    requires desired.BorrowedEnvironment().None? && desired.components != []
    requires stale.tree != rendered.tree && moved.tree == rendered.tree
    ensures var cfg, e := ConstantConfig(rendered), desired.environment;
            var tick := Tick(e, ch);
            var run := [Write(EnvBranch(e), Some(stale)), Planned(desired, Shown, runner), Start(e),
                        tick, tick, Write(EnvBranch(e), Some(moved)), tick, tick];
            var state := Exec(cfg, INITIAL, run).world.Load(e);
            state.published && state.commit == Some(stale) &&
            state.inputDigest == Some(desired.MaterializationDigest()) &&
            !Supported(cfg, state.inputDigest.value, state.outputs, stale.tree)
  {
    var cfg, e := ConstantConfig(rendered), desired.environment;
    var tick, write := Tick(e, ch), Write(EnvBranch(e), Some(moved));
    var first, planned, start := Write(EnvBranch(e), Some(stale)), Planned(desired, Shown, runner),
                                 Start(e);
    FirstPassStarts(desired, rendered, stale, runner);
    FirstPassIsMisled(desired, rendered, stale, moved, ch);
    var rest: seq<Label> := [tick, tick, write, tick, tick];
    var s := Do(cfg, INITIAL, first);
    var t := Do(cfg, Do(cfg, s, planned), start);
    ExecTwo(cfg, s, planned, start, rest);
    assert ([first] + ([planned, start] + rest))[1..] == [planned, start] + rest;
    ExecTwo(cfg, t, tick, tick, [write] + [tick, tick]);
    var inspected := Do(cfg, Do(cfg, t, tick), tick);
    assert ([write] + [tick, tick])[1..] == [tick, tick];
    ExecTwo(cfg, Do(cfg, inspected, write), tick, tick, []);
    assert [tick, tick] + [] == [tick, tick];
    assert rest == [tick, tick] + ([write] + [tick, tick]);
    var run := [first, planned, start, tick, tick, write, tick, tick];
    assert run == [first] + ([planned, start] + rest);
    hide Do, EnvBranch, StatePath;
  }
}
