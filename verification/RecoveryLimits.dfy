/**
 * Where crash recovery ends: replacing a recorded proposal. A crash after the proposal branch was
 * replaced and before that was recorded leaves a state that no planning and no retirement gets out
 * of, unless the old plan is applied again or somebody else moves the proposal branch back.
 */
module RecoveryLimits {
  import opened Wrappers
  import opened Bytes
  import opened Trees
  import opened Slices
  import opened Lifecycle
  import opened Invariants
  import opened Isolation
  import opened Recovery
  import opened RecoveryPropose

  /** The recorded commit is neither the pull request's head nor the proposal branch. */
  predicate Replaced(world: World, e: string) {
    var state := world.Load(e);
    state.proposal.Some? &&
    var p := state.proposal.value.proposal;
    ProposalOk(world.pulls, e, p) && world.pulls[p.number].head != p.commit &&
    world.Ref(ProposalBranch(e)).Some? && world.Ref(ProposalBranch(e)).value != p.commit
  }

  /** No pass but a retirement that will fail is running for the environment. */
  predicate OnlyRetires(s: State, e: string) {
    s.pc.Running? && s.pc.desired.environment == e ==>
      s.pc.op.Retiring? && s.world.Load(e).proposal.Some? &&
      var p := s.world.Load(e).proposal.value.proposal;
      s.pc.at in {CancelGet(p), CancelClose(p), DropLs(p), DropFetch(p), DropLsProposal(p)}
  }

  predicate Stranded(s: State, e: string) {
    Replaced(s.world, e) && OnlyRetires(s, e)
  }

  /** What could still help: applying a plan made before, or moving the proposal branch. */
  predicate Helps(l: Label, e: string) {
    (l.Start? && l.environment == e) || (l.Write? && l.ref == ProposalBranch(e))
  }

  lemma ReplacedNeedsNoPlan(cfg: Config, world: World, desired: DesiredSlice, shown: MergeIdentity,
                            runner: PreparedRunner)
    requires Replaced(world, desired.environment)
    ensures Observe(world, desired.environment, shown).Err?
    ensures MakePlan(cfg, world, desired, shown, runner).None?
  {
    hide StatePath, EnvBranch, ProposalBranch;
  }

  lemma RetirementFails(cfg: Config, s: State, ch: Choice)
    requires s.pc.Running? && Stranded(s, s.pc.desired.environment)
    ensures Stranded(Step(cfg, s, ch), s.pc.desired.environment)
    ensures Step(cfg, s, ch).world.files == s.world.files
  {
    hide StatePath, EnvBranch, ProposalBranch, ProposalBranchEnvironment, AfterDrop;
  }

  /** The environment's own steps. */
  lemma OwnStepStrands(cfg: Config, s: State, l: Label, e: string)
    requires Stranded(s, e) && Concerns(l, e) && !Helps(l, e) && Enabled(cfg, s, l)
    ensures Stranded(Do(cfg, s, l), e)
    ensures Do(cfg, s, l).world.files == s.world.files
  {
    BranchNamesAreApart(e, e);
    match l
    case Planned(desired, shown, runner) => ReplacedNeedsNoPlan(cfg, s.world, desired, shown, runner);
    case Tick(_, ch) => RetirementFails(cfg, s, ch);
    case _ =>
    hide Step, MakePlan, StatePath, EnvBranch, ProposalBranch, PlanEntry;
  }

  /** Other environments' steps see and change nothing of this one. */
  lemma OtherStepStrands(cfg: Config, s: State, l: Label, e: string)
    requires Inv(cfg, s) && Stranded(s, e) && !Concerns(l, e)
    ensures Stranded(Do(cfg, s, l), e)
    ensures Do(cfg, s, l).world.Load(e) == s.world.Load(e)
  {
    var s' := Do(cfg, s, l);
    OthersLeaveItAlone(cfg, s, l, e);
    ReadsAgree(s.world, e);
    ReadsAgree(s'.world, e);
    PullsOnlyAdvance(cfg, s, l);
    var p := s.world.Load(e).proposal.value.proposal;
    PullAgrees(s.world, e, p.number);
    PullAgrees(s'.world, e, p.number);
    hide Do, RestrictRefs, RestrictPulls, RestrictFiles, RestrictApproved, EnvBranch, ProposalBranch,
         StatePath, Inv, PullsOk;
  }

  /**
   * A crash right after the proposal branch was moved to another commit, with the host showing that
   * commit as the head of the recorded pull request, strands the environment.
   */
  lemma ReplacingCanStrand(cfg: Config, s: State, ch: Choice)
    requires s.pc.Running? && s.pc.op.Applying? && s.pc.op.plan.Propose?
    requires s.pc.at.ProposePush?
    requires s.world.Ref(ProposalBranch(s.pc.desired.environment)) == s.pc.at.lease
    requires var e := s.pc.desired.environment;
             var state := s.world.Load(e);
             state.proposal.Some? &&
             var p := state.proposal.value.proposal;
             ProposalOk(s.world.pulls, e, p) && p.commit != s.pc.at.commit &&
             s.world.pulls[p.number].state.Open?
    ensures var e := s.pc.desired.environment;
            var n := s.world.Load(e).proposal.value.proposal.number;
            var t := Do(cfg, Do(cfg, Do(cfg, s, Tick(e, ch)), Crash(e)), Sync(e, n));
            Stranded(t, e) && t.pc.Idle?
  {
    var e := s.pc.desired.environment;
    var n := s.world.Load(e).proposal.value.proposal.number;
    var t := Do(cfg, s, Tick(e, ch));
    PushingReplaces(cfg, s, ch);
    CrashKeepsWorld(cfg, t, e);
    hide Step, MakePlan, StatePath, EnvBranch, ProposalBranch;
  }

  lemma PushingReplaces(cfg: Config, s: State, ch: Choice)
    requires s.pc.Running? && s.pc.op.Applying? && s.pc.op.plan.Propose? && s.pc.at.ProposePush?
    requires s.world.Ref(ProposalBranch(s.pc.desired.environment)) == s.pc.at.lease
    ensures var e := s.pc.desired.environment;
            var t := Do(cfg, s, Tick(e, ch));
            (t.pc.Running? ==> t.pc.desired == s.pc.desired) && t.world.files == s.world.files &&
            t.world.pulls == s.world.pulls &&
            t.world.Ref(ProposalBranch(e)) == Some(s.pc.at.commit)
  {
    hide StatePath, EnvBranch, ProposalBranch, StepRender, StepPublish, StepPull, StepCancel,
         StepDrop, StepRemove, DraftProjects;
  }

  lemma CrashKeepsWorld(cfg: Config, s: State, e: string)
    requires s.pc.Running? ==> s.pc.desired.environment == e
    ensures Do(cfg, s, Crash(e)) == s.(pc := Idle)
  {
    hide Step, MakePlan, StatePath;
  }

  /**
   * Stranded environments stay stranded. In every run in which nobody applies a plan that was made
   * before, and nobody else moves the proposal branch, the target state never changes again:
   * every observation fails, and every retirement stops before it deletes anything of its own.
   */
  lemma {:induction false} StrandedForever(cfg: Config, s: State, labels: seq<Label>, e: string)
    requires Inv(cfg, s) && Stranded(s, e)
    requires forall l | l in labels :: !Helps(l, e)
    ensures Stranded(Exec(cfg, s, labels), e)
    ensures Exec(cfg, s, labels).world.Load(e) == s.world.Load(e)
    decreases |labels|
  {
    if labels != [] {
      var l := labels[0];
      DoKeeps(cfg, s, l);
      if !Concerns(l, e) {
        OtherStepStrands(cfg, s, l, e);
      } else if Enabled(cfg, s, l) {
        OwnStepStrands(cfg, s, l, e);
      }
      StrandedForever(cfg, Do(cfg, s, l), labels[1..], e);
    }
    hide Do, Stranded, Inv, Concerns;
  }

  /* ---------------------------------------------------------------- A run that strands */

  /** A pass that replaces the pending proposal, at one of its points before the push. */
  function Replacing(s: State, desired: DesiredSlice, rendered: RenderedWorld, at: At): State {
    var e, plan := desired.environment, ProposePlan(rendered);
    State(s.world, s.approved[e := Approved(desired, plan, s.world.Load(e))],
          Running(desired, Applying(plan), at))
  }

  lemma ReplacingStarts(cfg: Config, s: State, desired: DesiredSlice, rendered: RenderedWorld,
                        runner: PreparedRunner)
    requires s.pc.Idle? && ToPropose(cfg, s.world, desired) && RendersAs(cfg, desired, rendered)
    requires Observable(s.world, desired.environment, Shown)
    ensures Do(cfg, Do(cfg, s, Planned(desired, Shown, runner)), Start(desired.environment)) ==
            Replacing(s, desired, rendered, Render)
  {
    PlanProposes(cfg, s.world, desired, rendered, Shown, runner);
    hide MakePlan, StatePath, ToPropose, RendersAs, Observable;
  }

  /** The four actions from rendering to the push read only. */
  lemma ReplacingReachesThePush(cfg: Config, s: State, desired: DesiredSlice,
                                rendered: RenderedWorld, base: Commit, ch: Choice)
    requires RendersAs(cfg, desired, rendered)
    requires s.world.Ref(EnvBranch(desired.environment)) == Some(base)
    requires base.tree != rendered.tree && Readable(cfg, base.tree, rendered.tree)
    ensures var e := desired.environment;
            Exec(cfg, Replacing(s, desired, rendered, Render), Ticks(e, [ch, ch, ch, ch])) ==
            Replacing(s, desired, rendered,
                      ProposePush(rendered, s.world.Ref(ProposalBranch(e)),
                                  CommitOver(rendered, base, ch.stamp)))
  {
    var e, draft := desired.environment, CommitOver(rendered, base, ch.stamp);
    var tick := Tick(e, ch);
    var a := Replacing(s, desired, rendered, Render);
    var b := Replacing(s, desired, rendered, ProposeLs(rendered));
    var c := Replacing(s, desired, rendered, ProposeFetch(rendered, base));
    var d := Replacing(s, desired, rendered, ProposeLsProposal(rendered, draft));
    var push := Replacing(s, desired, rendered,
                          ProposePush(rendered, s.world.Ref(ProposalBranch(e)), draft));
    assert cfg.render(ch.runner, desired) == Some(rendered);
    hide EnvBranch, ProposalBranch, StatePath, Readable, RendersAs;
    assert Do(cfg, a, tick) == b by {
      hide StepPropose;
    }
    assert Do(cfg, b, tick) == c;
    assert Do(cfg, c, tick) == d;
    assert Do(cfg, d, tick) == push;
    hide Do;
    assert Ticks(e, [ch, ch, ch, ch]) == [tick, tick] + ([tick, tick] + []) by {
      TicksOf(e, ch);
    }
    ExecTwo(cfg, a, tick, tick, [tick, tick] + []);
    ExecTwo(cfg, c, tick, tick, []);
  }

  lemma TicksOf(e: string, ch: Choice)
    ensures Ticks(e, [ch, ch, ch, ch]) == [Tick(e, ch), Tick(e, ch), Tick(e, ch), Tick(e, ch)]
  {
    assert [ch, ch, ch, ch][1..] == [ch, ch, ch] && [ch, ch, ch][1..] == [ch, ch];
    assert [ch, ch][1..] == [ch] && [ch][1..] == [];
    assert Ticks(e, [ch]) == [Tick(e, ch)];
    assert Ticks(e, [ch, ch]) == [Tick(e, ch)] + Ticks(e, [ch]);
    assert Ticks(e, [ch, ch, ch]) == [Tick(e, ch)] + Ticks(e, [ch, ch]);
  }

  /** A pass that pushes over a pending proposal, dies, and has its push shown by the host. */
  function StrandingLabels(desired: DesiredSlice, n: nat, runner: PreparedRunner, ch: Choice)
    : seq<Label>
  {
    var e := desired.environment;
    [Planned(desired, Shown, runner), Start(e)] + Ticks(e, [ch, ch, ch, ch]) +
    [Tick(e, ch), Crash(e), Sync(e, n)]
  }

  /**
   * From every world in which a slice can replace an open proposal with another tree, such a run
   * strands the environment.
   */
  lemma ReplacementStrands(cfg: Config, s: State, desired: DesiredSlice, rendered: RenderedWorld,
                           base: Commit, runner: PreparedRunner, ch: Choice)
    requires s.pc.Idle? && ToPropose(cfg, s.world, desired) && RendersAs(cfg, desired, rendered)
    requires Observable(s.world, desired.environment, Shown)
    requires s.world.Ref(EnvBranch(desired.environment)) == Some(base)
    requires base.tree != rendered.tree && Readable(cfg, base.tree, rendered.tree)
    requires var e := desired.environment;
             var state := s.world.Load(e);
             state.proposal.Some? &&
             var p := state.proposal.value.proposal;
             ProposalOk(s.world.pulls, e, p) && p.commit.tree != rendered.tree &&
             s.world.pulls[p.number].state.Open?
    ensures var e := desired.environment;
            var n := s.world.Load(e).proposal.value.proposal.number;
            var t := Exec(cfg, s, StrandingLabels(desired, n, runner, ch));
            Stranded(t, e) && t.pc.Idle? && t.world.Load(e) == s.world.Load(e)
  {
    var e := desired.environment;
    var n := s.world.Load(e).proposal.value.proposal.number;
    var planned, start := Planned(desired, Shown, runner), Start(e);
    var tick, crash, sync := Tick(e, ch), Crash(e), Sync(e, n);
    var ticks := Ticks(e, [ch, ch, ch, ch]);
    ReplacingStarts(cfg, s, desired, rendered, runner);
    ReplacingReachesThePush(cfg, s, desired, rendered, base, ch);
    var a := Replacing(s, desired, rendered, Render);
    var b := Exec(cfg, a, ticks);
    ReplacingCanStrand(cfg, b, ch);
    PushingReplaces(cfg, b, ch);
    hide Do, EnvBranch, ProposalBranch, StatePath, ToPropose, Observable, RendersAs, Stranded;
    var t := Do(cfg, Do(cfg, Do(cfg, b, tick), crash), sync);
    assert t.world.Load(e) == s.world.Load(e) by {
      CrashKeepsWorld(cfg, Do(cfg, b, tick), e);
      SyncKeepsFiles(cfg, Do(cfg, Do(cfg, b, tick), crash), sync);
    }
    var rest := ticks + [tick, crash, sync];
    assert StrandingLabels(desired, n, runner, ch) == [planned, start] + rest;
    ExecTwo(cfg, s, planned, start, rest);
    ExecAppend(cfg, a, ticks, [tick, crash, sync]);
    assert [tick, crash, sync] == [tick, crash] + [sync] && [sync][1..] == [];
    ExecTwo(cfg, b, tick, crash, [sync]);
    assert Exec(cfg, Do(cfg, Do(cfg, b, tick), crash), [sync]) == Exec(cfg, t, []);
  }

  lemma SyncKeepsFiles(cfg: Config, s: State, l: Label)
    requires l.Sync?
    ensures Do(cfg, s, l).world.files == s.world.files
  {
    hide EnvBranch, ProposalBranch;
  }

  /** The first pass leaves an open proposal of the first slice over an empty root. */
  lemma FirstIsProposed(cfg: Config, first: DesiredSlice, render: RenderedWorld,
                        runner: PreparedRunner) returns (t: State, base: Commit)
    requires ToPropose(cfg, INITIAL.world, first) && RendersAs(cfg, first, render)
    requires render.tree != EMPTY_TREE && Reviewable(cfg, EMPTY_TREE, render.tree)
    ensures t == Exec(cfg, INITIAL,
                      RefreshedPass(first, Shown, runner, 0, seq(9, _ => Choice(0, 0, runner))))
    ensures var e := first.environment;
            t.pc.Idle? && base.tree == EMPTY_TREE && t.world.Ref(EnvBranch(e)) == Some(base) &&
            var state := t.world.Load(e);
            !state.published && state.proposal.Some? &&
            state.proposal.value.inputDigest == first.MaterializationDigest() &&
            var p := state.proposal.value.proposal;
            ProposalOk(t.world.pulls, e, p) && p.commit.tree == render.tree &&
            t.world.pulls[p.number].state.Open? && t.world.pulls[p.number].head == p.commit
  {
    var e := first.environment;
    var choices := seq(9, _ => Choice(0, 0, runner));
    t := Exec(cfg, INITIAL, RefreshedPass(first, Shown, runner, 0, choices));
    assert OpenPulls(INITIAL.world.pulls, e) == {};
    assert Exec(cfg, INITIAL, []) == INITIAL;
    var root :=
      ProposeSurvivesCrashes(cfg, INITIAL, first, render, [], Shown, runner, 0, choices);
    base := BaseOf(INITIAL.world, first, root);
    ProposedWorldMeans(cfg, INITIAL.world, first, render, t, root);
    assert t.world.Load(e).proposal.value.proposal.number in OpenPulls(t.world.pulls, e);
    ProposedIsItsOwn(cfg, INITIAL.world, first, render, t, root);
    hide Exec, RendersAs, EnvBranch, ProposalBranch, Readable, Projectable;
  }

  lemma ProposedIsItsOwn(cfg: Config, w0: World, desired: DesiredSlice, rendered: RenderedWorld,
                         s: State, root: nat)
    requires Proposed(cfg, w0, desired, rendered, s, root)
    requires BaseOf(w0, desired, root).tree != rendered.tree
    ensures s.world.Load(desired.environment).proposal.Some?
    ensures ProposalOk(s.world.pulls, desired.environment,
                       s.world.Load(desired.environment).proposal.value.proposal)
  {
    var stamp: nat, n: nat :| Usable(w0.pulls, desired.environment, n) &&
                              s.world == ProposedWorld(w0, desired, rendered, root, stamp, n);
    hide EnvBranch, ProposalBranch, StatePath, BaseOf, Readable, Projectable;
  }

  /** A pending proposal of another digest, whose pull request is open on its commit. */
  lemma CanReplace(cfg: Config, world: World, second: DesiredSlice)
    requires ToPropose(cfg, INITIAL.world, second)
    requires var state := world.Load(second.environment);
             !state.published && state.proposal.Some? &&
             state.proposal.value.inputDigest != second.MaterializationDigest() &&
             var p := state.proposal.value.proposal;
             p.number in world.pulls && world.pulls[p.number].state.Open? &&
             world.pulls[p.number].head == p.commit
    ensures ToPropose(cfg, world, second) && Observable(world, second.environment, Shown)
  {
    hide StatePath;
  }

  lemma StrandedInEveryRun(cfg: Config, s: State, e: string)
    requires Inv(cfg, s) && Stranded(s, e)
    ensures forall labels | (forall l | l in labels :: !Helps(l, e)) ::
              Exec(cfg, s, labels).world.Load(e) == s.world.Load(e)
  {
    forall labels | (forall l | l in labels :: !Helps(l, e))
      ensures Exec(cfg, s, labels).world.Load(e) == s.world.Load(e)
    {
      StrandedForever(cfg, s, labels, e);
    }
    hide Exec, Stranded, Inv, StatePath;
  }

  /**
   * The condition of recovery can fail in a run from the beginning. Take any two slices of one gated
   * environment with different digests and renders. An undisturbed pass proposes the first; a pass
   * of the second dies right after its push, and the host shows the pushed commit. No run brings the
   * environment's target state any further, unless a plan made before is applied again or somebody
   * else moves the proposal branch.
   */
  lemma UpdatingCanStrand(cfg: Config, first: DesiredSlice, second: DesiredSlice,
                          firstRender: RenderedWorld, secondRender: RenderedWorld,
                          runner: PreparedRunner) returns (run: seq<Label>)
    requires first.environment == second.environment
    requires first.MaterializationDigest() != second.MaterializationDigest()
    requires ToPropose(cfg, INITIAL.world, first) && ToPropose(cfg, INITIAL.world, second)
    requires RendersAs(cfg, first, firstRender) && RendersAs(cfg, second, secondRender)
    requires firstRender.tree != EMPTY_TREE && secondRender.tree != EMPTY_TREE
    requires firstRender.tree != secondRender.tree
    requires Reviewable(cfg, EMPTY_TREE, firstRender.tree)
    requires Reviewable(cfg, EMPTY_TREE, secondRender.tree)
    ensures var e, ch := first.environment, Choice(0, 0, runner);
            exists n ::
              run == RefreshedPass(first, Shown, runner, 0, seq(9, _ => ch)) +
                     StrandingLabels(second, n, runner, ch)
    ensures var s, e := Exec(cfg, INITIAL, run), first.environment;
            s.pc.Idle? && Stranded(s, e) &&
            forall labels | (forall l | l in labels :: !Helps(l, e)) ::
              Exec(cfg, s, labels).world.Load(e) == s.world.Load(e)
  {
    var e, ch := first.environment, Choice(0, 0, runner);
    var pass := RefreshedPass(first, Shown, runner, 0, seq(9, _ => ch));
    var t, base := FirstIsProposed(cfg, first, firstRender, runner);
    var n := t.world.Load(e).proposal.value.proposal.number;
    var rest := StrandingLabels(second, n, runner, ch);
    run := pass + rest;
    CanReplace(cfg, t.world, second);
    hide ToPropose, Observable, RendersAs, StrandingLabels, RefreshedPass, EnvBranch, ProposalBranch,
         Readable, Projectable, StatePath, Stranded, Inv, Exec;
    ReplacementStrands(cfg, t, second, secondRender, base, runner, ch);
    ExecAppend(cfg, INITIAL, pass, rest);
    EveryRunIsSound(cfg, run);
    StrandedInEveryRun(cfg, Exec(cfg, INITIAL, run), e);
  }
}
