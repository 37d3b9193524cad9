/**
 * Whole deployments in a quiet world: passes that nobody disturbs take a slice to Ready, directly
 * or through a merged review.
 */
module Deployments {
  import opened Wrappers
  import opened Bytes
  import opened Trees
  import opened Slices
  import opened Lifecycle
  import opened Invariants
  import opened Convergence
  import Recovery
  import RecoveryPropose
  import RecoveryCleanup

  /* ---------------------------------------------------------------- Plans from before */

  /** The same state with no plan at hand for an environment. */
  function Forget(s: State, e: string): State {
    s.(approved := s.approved - {e})
  }

  /** A pass that plans does not depend on what was planned for its environment before. */
  lemma PassForgets(cfg: Config, s: State, desired: DesiredSlice, shown: MergeIdentity,
                    runner: PreparedRunner, rest: seq<Label>)
    requires s.pc.Idle? && MakePlan(cfg, s.world, desired, shown, runner).Some?
    ensures var pass := [Planned(desired, shown, runner), Start(desired.environment)] + rest;
            Exec(cfg, s, pass) == Exec(cfg, Forget(s, desired.environment), pass)
  {
    var e, t := desired.environment, Forget(s, desired.environment);
    var planned, start := Planned(desired, shown, runner), Start(e);
    var a := Approved(desired, MakePlan(cfg, s.world, desired, shown, runner).value, s.world.Load(e));
    assert t.approved[e := a] == s.approved[e := a];
    assert Do(cfg, s, planned) == Do(cfg, t, planned) by {
      hide MakePlan, StatePath;
    }
    ExecTwo(cfg, s, planned, start, rest);
    ExecTwo(cfg, t, planned, start, rest);
    hide Do, Exec, MakePlan, StatePath;
  }

  /* ---------------------------------------------------------------- Direct publication */

  /** The pending proposal, if any, is as the connector left it. */
  predicate Undisturbed(world: World, e: string) {
    var p := RecoveryCleanup.Pending(world, e);
    RecoveryCleanup.Droppable(world, e) &&
    (p.Some? ==> p.value.number in world.pulls && world.pulls[p.value.number].head == p.value.commit)
  }

  predicate Whole(desired: DesiredSlice) {
    desired.BorrowedEnvironment().None? && desired.components != []
  }

  /** One undisturbed pass completes a clean-up that planning asks for. */
  lemma OnePassCleans(cfg: Config, s: State, desired: DesiredSlice, plan: Plan,
                      runner: PreparedRunner, choices: seq<Choice>)
    requires s.pc.Idle? && RecoveryCleanup.PlannedOver(cfg, s.world, desired, plan)
    requires Undisturbed(s.world, desired.environment) && |choices| == 10
    ensures var t := Exec(cfg, s, Pass(desired, Shown, runner, choices));
            t.pc.Idle? && t.world == RecoveryCleanup.CleanedWorld(s.world, desired, Applying(plan))
  {
    var e, op := desired.environment, Applying(plan);
    RecoveryCleanup.PlannedIsToClean(cfg, s.world, desired, plan);
    RecoveryCleanup.NothingDoneYet(s.world, desired, op, s);
    RecoveryCleanup.CleanPlans(cfg, s.world, desired, plan, s.world, Shown, runner);
    PassForgets(cfg, s, desired, Shown, runner, Ticks(e, choices));
    var t := Forget(s, e);
    RecoveryCleanup.CleanupSurvivesCrashes(cfg, t, desired, plan, [], runner, choices);
    assert Exec(cfg, t, []) == t;
    hide Exec, MakePlan, StatePath, RecoveryCleanup.Droppable, RecoveryCleanup.PlannedOver,
         RecoveryCleanup.Cleaning, RecoveryCleanup.CleanedWorld;
  }

  /** Cancelling a pending review is what a direct policy does first. */
  lemma DirectCancels(cfg: Config, s: State, desired: DesiredSlice, runner: PreparedRunner,
                      choices: seq<Choice>) returns (t: State)
    requires Inv(cfg, s) && s.pc.Idle? && Whole(desired)
    requires cfg.policies.ForEnvironment(desired.environment) == Direct
    requires Undisturbed(s.world, desired.environment) && |choices| == 10
    requires s.world.Load(desired.environment).proposal.Some?
    ensures t == Exec(cfg, s, Pass(desired, Shown, runner, choices)) && t.pc.Idle?
    ensures t.world == RecoveryCleanup.CleanedWorld(s.world, desired, Applying(CancelProposal))
    ensures t.world.Load(desired.environment) ==
            s.world.Load(desired.environment).(proposal := None)
  {
    var e := desired.environment;
    assert TargetStateOk(s.world.pulls, e, s.world.Load(e));
    assert RecoveryCleanup.PlannedOver(cfg, s.world, desired, CancelProposal) by {
      hide TargetStateOk, StatePath;
    }
    t := Exec(cfg, s, Pass(desired, Shown, runner, choices));
    OnePassCleans(cfg, s, desired, CancelProposal, runner, choices);
    hide Exec, Inv, MakePlan, TargetStateOk, StatePath, RecoveryCleanup.Droppable,
         RecoveryCleanup.PlannedOver, RecoveryCleanup.Cleaning;
  }

  /** Published, with nothing pending: every later pass is Ready with what was recorded. */
  lemma PublishedIsReady(cfg: Config, world: World, desired: DesiredSlice, shown: MergeIdentity,
                         runner: PreparedRunner, applied: Option<Commit>)
    requires Whole(desired)
    requires var state := world.Load(desired.environment);
             IsPublished(desired, state) && state.proposal.None? && state.commit.Some?
    ensures var state := world.Load(desired.environment);
            ComesTo(cfg, world, desired, shown, runner, applied,
                    Ready(state.outputs, Some(state.commit.value)))
  {
    hide StatePath;
  }

  /** Publishing a slice that nothing is pending for. */
  lemma DirectPublishes(cfg: Config, s: State, desired: DesiredSlice, rendered: RenderedWorld,
                        runner: PreparedRunner, choices: seq<Choice>) returns (t: State)
    requires s.pc.Idle? && Recovery.ToPublish(cfg, s.world, desired, Direct)
    requires Recovery.RendersAs(cfg, desired, rendered) && rendered.tree != EMPTY_TREE
    requires |choices| >= 5
    ensures t == Exec(cfg, s, Pass(desired, Shown, runner, choices)) && t.pc.Idle?
    ensures var state, branch := t.world.Load(desired.environment), EnvBranch(desired.environment);
            IsPublished(desired, state) && state.proposal.None? &&
            state.outputs == rendered.outputs && state.commit.Some? &&
            t.world.Ref(branch) == state.commit && state.commit.value.tree == rendered.tree
  {
    t := Exec(cfg, s, Pass(desired, Shown, runner, choices));
    Recovery.PlanIsThePlan(cfg, s.world, desired, rendered, Shown, runner);
    PassForgets(cfg, s, desired, Shown, runner, Ticks(desired.environment, choices));
    var anew := Forget(s, desired.environment);
    Recovery.PublishSurvivesCrashes(cfg, anew, desired, rendered, [], Shown, runner, choices);
    assert Exec(cfg, anew, []) == anew;
    var stamp :| t.world == Recovery.PublishedWorld(s.world, desired, rendered, stamp);
    Recovery.PublishedWorldMeans(s.world, desired, rendered, stamp);
    hide Exec, StatePath, EnvBranch, Recovery.PublishedWorld, Recovery.ToPublish,
         Recovery.RendersAs, MakePlan;
  }

  /**
   * Direct deployment converges. From any sound idle state whose pending proposal, if any, is
   * undisturbed, at most two undisturbed passes make the slice Ready from then on. Unless it was
   * published already, it is Ready with the render's outputs, and the environment branch is at the
   * recorded commit, which holds exactly the render.
   */
  lemma DirectConverges(cfg: Config, s: State, desired: DesiredSlice, rendered: RenderedWorld,
                        runner: PreparedRunner, choices: seq<Choice>)
    returns (passes: seq<Label>)
    requires Inv(cfg, s) && s.pc.Idle? && Whole(desired)
    requires cfg.policies.ForEnvironment(desired.environment) == Direct
    requires Undisturbed(s.world, desired.environment) && |choices| == 10
    requires Recovery.RendersAs(cfg, desired, rendered) && rendered.tree != EMPTY_TREE
    ensures var pass := Pass(desired, Shown, runner, choices);
            passes == [] || passes == pass || passes == pass + pass
    ensures var t, e := Exec(cfg, s, passes), desired.environment;
            var state := t.world.Load(e);
            t.pc.Idle? && IsPublished(desired, state) && state.proposal.None? &&
            state.commit.Some? &&
            (!IsPublished(desired, s.world.Load(e)) ==>
              state.outputs == rendered.outputs && t.world.Ref(EnvBranch(e)) == state.commit &&
              state.commit.value.tree == rendered.tree) &&
            forall shown, runner, applied ::
              ComesTo(cfg, t.world, desired, shown, runner, applied,
                      Ready(state.outputs, Some(state.commit.value)))
  {
    var e := desired.environment;
    var pass := Pass(desired, Shown, runner, choices);
    passes := [];
    var t := s;
    assert TargetStateOk(s.world.pulls, e, s.world.Load(e));
    if s.world.Load(e).proposal.Some? {
      t := DirectCancels(cfg, s, desired, runner, choices);
      passes := pass;
    }
    if !IsPublished(desired, t.world.Load(e)) {
      assert Recovery.ToPublish(cfg, t.world, desired, Direct) by {
        hide Exec, StatePath, Inv;
      }
      t := DirectPublishes(cfg, t, desired, rendered, runner, choices);
      ExecAppend(cfg, s, passes, pass);
      passes := passes + pass;
    }
    assert t == Exec(cfg, s, passes) by {
      hide Do, StatePath, Inv;
    }
    forall shown, runner, applied
      ensures ComesTo(cfg, t.world, desired, shown, runner, applied,
                      Ready(t.world.Load(e).outputs, Some(t.world.Load(e).commit.value)))
    {
      PublishedIsReady(cfg, t.world, desired, shown, runner, applied);
      hide Exec, Inv, StatePath;
    }
    hide Exec, Do, StatePath, EnvBranch, ComesTo, Recovery.RendersAs, Pass, Undisturbed, Inv,
         RecoveryCleanup.CleanedWorld;
  }

  /* ---------------------------------------------------------------- Reviewed publication */

  /**
   * One undisturbed pass proposes a slice, for the first time or over another pending proposal whose
   * pull request shows the recorded commit: it leads to a pull request to wait for, unless the branch
   * holds the render already.
   */
  lemma GatedProposes(cfg: Config, s: State, desired: DesiredSlice, rendered: RenderedWorld,
                      runner: PreparedRunner, k: nat, choices: seq<Choice>)
    returns (t: State, root: nat)
    requires s.pc.Idle? && RecoveryPropose.ToPropose(cfg, s.world, desired)
    requires Recovery.Observable(s.world, desired.environment, Shown)
    requires Recovery.RendersAs(cfg, desired, rendered)
    requires RecoveryPropose.CanPropose(cfg, s.world, desired, rendered)
    requires RecoveryPropose.AtMostOne(s.world.pulls, desired.environment)
    requires RecoveryPropose.Usable(s.world.pulls, desired.environment, k)
    requires |choices| == 9 && forall ch | ch in choices :: ch.number == k
    ensures t == Exec(cfg, s, RecoveryPropose.RefreshedPass(desired, Shown, runner, k, choices))
    ensures RecoveryPropose.Proposed(cfg, s.world, desired, rendered, t, root)
  {
    var e := desired.environment;
    t := Exec(cfg, s, RecoveryPropose.RefreshedPass(desired, Shown, runner, k, choices));
    RecoveryPropose.PlanProposes(cfg, s.world, desired, rendered, Shown, runner);
    PassForgets(cfg, s, desired, Shown, runner, RecoveryPropose.RefreshedTicks(e, k, choices));
    var anew := Forget(s, e);
    assert Exec(cfg, anew, []) == anew;
    root := RecoveryPropose.ProposeSurvivesCrashes(cfg, anew, desired, rendered, [], Shown, runner,
                                                   k, choices);
    hide Exec, MakePlan, StatePath, RecoveryPropose.Proposed, RecoveryPropose.ToPropose,
         Recovery.Observable, RecoveryPropose.CanPropose, Recovery.RendersAs,
         RecoveryPropose.Usable, RecoveryPropose.AtMostOne;
  }

  /** The branch does not hold the render yet, so that there is something to review. */
  predicate SomethingToReview(world: World, e: string, rendered: RenderedWorld) {
    RecoveryPropose.BaseTree(world, e) != rendered.tree
  }

  /** A merged review, ready to be recorded. */
  predicate AwaitsRecord(s: State, desired: DesiredSlice, rendered: RenderedWorld, merge: Commit) {
    var e := desired.environment;
    var state := s.world.Load(e);
    s.pc.Idle? && state.proposal.Some? && s.world.Ref(EnvBranch(e)) == Some(merge) &&
    state.proposal.value.inputDigest == desired.MaterializationDigest() &&
    state.proposal.value.outputs == rendered.outputs &&
    var p := state.proposal.value.proposal;
    p.number in s.world.pulls && s.world.pulls[p.number].state == Merged(merge) &&
    s.world.pulls[p.number].head == p.commit &&
    s.world.Ref(ProposalBranch(e)) == Some(p.commit)
  }

  /** One undisturbed pass records a merged review and drops its branch. */
  lemma MergeIsRecorded(cfg: Config, s: State, desired: DesiredSlice, rendered: RenderedWorld,
                        merge: Commit, runner: PreparedRunner, choices: seq<Choice>)
    requires Inv(cfg, s) && AwaitsRecord(s, desired, rendered, merge)
    requires Whole(desired) && cfg.policies.ForEnvironment(desired.environment) == PrGated
    requires desired.environment != "" && |choices| == 10
    ensures var f, e := Exec(cfg, s, Pass(desired, Shown, runner, choices)), desired.environment;
            f.pc.Idle? && f.world.Ref(EnvBranch(e)) == Some(merge) &&
            f.world.Ref(ProposalBranch(e)).None? &&
            f.world.Load(e) == TargetState(Some(desired.MaterializationDigest()), rendered.outputs,
                                           Some(merge), true, None)
  {
    var e, plan := desired.environment, RecordMerged(merge);
    assert TargetStateOk(s.world.pulls, e, s.world.Load(e));
    assert RecoveryCleanup.PlannedOver(cfg, s.world, desired, plan) by {
      hide TargetStateOk, StatePath;
    }
    assert Undisturbed(s.world, e) by {
      hide StatePath, EnvBranch, ProposalBranch;
    }
    OnePassCleans(cfg, s, desired, plan, runner, choices);
    BranchNamesAreApart(e, e);
    RecordedMergeMeans(s.world, desired, plan);
    hide Exec, Inv, MakePlan, TargetStateOk, StatePath, RecoveryCleanup.PlannedOver,
         RecoveryCleanup.CleanedWorld, EnvBranch, ProposalBranch;
  }

  lemma RecordedMergeMeans(w0: World, desired: DesiredSlice, plan: Plan)
    requires plan.RecordMerged? && w0.Load(desired.environment).proposal.Some?
    ensures var e, w := desired.environment,
                        RecoveryCleanup.CleanedWorld(w0, desired, Applying(plan));
            var pending := w0.Load(e).proposal.value;
            w.Ref(EnvBranch(e)) == w0.Ref(EnvBranch(e)) && w.Ref(ProposalBranch(e)).None? &&
            w.Load(e) == TargetState(Some(pending.inputDigest), pending.outputs, Some(plan.commit),
                                     true, None)
  {
    BranchNamesAreApart(desired.environment, desired.environment);
    hide EnvBranch, ProposalBranch;
  }

  /** A proposed slice waits for its review, and merging the review makes it recordable. */
  lemma ProposedAwaitsReview(cfg: Config, w0: World, t: State, desired: DesiredSlice,
                             rendered: RenderedWorld, root: nat, merge: Commit,
                             runner: PreparedRunner)
    requires Whole(desired) && cfg.policies.ForEnvironment(desired.environment) == PrGated
    requires RecoveryPropose.Proposed(cfg, w0, desired, rendered, t, root)
    requires RecoveryPropose.BaseOf(w0, desired, root).tree != rendered.tree
    requires merge.tree == rendered.tree
    requires w0.Load(desired.environment).published ==> w0.Load(desired.environment).commit.Some?
    ensures t.world.Load(desired.environment).proposal.Some?
    ensures ComesTo(cfg, t.world, desired, Shown, runner, None, Waiting)
    ensures var n := t.world.Load(desired.environment).proposal.value.proposal.number;
            var merging := Merge(desired.environment, n, merge);
            Enabled(cfg, t, merging) && AwaitsRecord(Do(cfg, t, merging), desired, rendered, merge)
  {
    var e := desired.environment;
    RecoveryPropose.ProposedWorldMeans(cfg, w0, desired, rendered, t, root);
    var pending := t.world.Load(e).proposal.value;
    var n := pending.proposal.number;
    assert n in OpenPulls(t.world.pulls, e);
    BranchNamesAreApart(e, e);
    assert ComesTo(cfg, t.world, desired, Shown, runner, None, Waiting) by {
      hide StatePath, EnvBranch, ProposalBranch, RecoveryPropose.Proposed;
    }
    assert Enabled(cfg, t, Merge(e, n, merge)) by {
      hide StatePath, EnvBranch, ProposalBranch, RecoveryPropose.BaseOf;
    }
    hide StatePath, EnvBranch, ProposalBranch, RecoveryPropose.Proposed, RecoveryPropose.BaseOf,
         ComesTo, OpenPulls;
  }

  /**
   * Gated deployment converges. Take any sound idle state with at most one open pull request, and a
   * difference that can be reviewed. What is pending, if anything, is a proposal for another digest
   * whose pull request shows the recorded commit. An undisturbed pass proposes the slice and waits;
   * once a person merges the pull request, one more undisturbed pass records the merge, and the
   * slice is Ready from then on with the render's outputs and the merge commit, which holds exactly
   * the render.
   */
  lemma GatedConverges(cfg: Config, s: State, desired: DesiredSlice, rendered: RenderedWorld,
                       runner: PreparedRunner, k: nat, first: seq<Choice>, merge: Commit,
                       second: seq<Choice>)
    requires Inv(cfg, s) && s.pc.Idle?
    requires RecoveryPropose.ToPropose(cfg, s.world, desired)
    requires Recovery.Observable(s.world, desired.environment, Shown)
    requires Recovery.RendersAs(cfg, desired, rendered)
    requires RecoveryPropose.AtMostOne(s.world.pulls, desired.environment)
    requires RecoveryPropose.Usable(s.world.pulls, desired.environment, k)
    requires SomethingToReview(s.world, desired.environment, rendered)
    requires Reviewable(cfg, RecoveryPropose.BaseTree(s.world, desired.environment), rendered.tree)
    requires desired.environment != "" && merge.tree == rendered.tree
    requires |first| == 9 && (forall ch | ch in first :: ch.number == k) && |second| == 10
    ensures var e := desired.environment;
            var t := Exec(cfg, s, RecoveryPropose.RefreshedPass(desired, Shown, runner, k, first));
            ComesTo(cfg, t.world, desired, Shown, runner, None, Waiting) &&
            t.world.Load(e).proposal.Some? &&
            var merging := Merge(e, t.world.Load(e).proposal.value.proposal.number, merge);
            Enabled(cfg, t, merging) &&
            var f := Exec(cfg, Do(cfg, t, merging), Pass(desired, Shown, runner, second));
            f.pc.Idle? && f.world.Ref(EnvBranch(e)) == Some(merge) &&
            f.world.Ref(ProposalBranch(e)).None? &&
            ComesTo(cfg, f.world, desired, Shown, runner, None,
                    Ready(rendered.outputs, Some(merge)))
  {
    var e := desired.environment;
    var pass := RecoveryPropose.RefreshedPass(desired, Shown, runner, k, first);
    var t, root := GatedProposes(cfg, s, desired, rendered, runner, k, first);
    RecoveryPropose.BaseHolds(s.world, desired, root);
    assert Whole(desired) && cfg.policies.ForEnvironment(e) == PrGated;
    ProposedAwaitsReview(cfg, s.world, t, desired, rendered, root, merge, runner);
    ExecKeeps(cfg, s, pass);
    var merging := Merge(e, t.world.Load(e).proposal.value.proposal.number, merge);
    DoKeeps(cfg, t, merging);
    var m := Do(cfg, t, merging);
    MergeIsRecorded(cfg, m, desired, rendered, merge, runner, second);
    PublishedIsReady(cfg, Exec(cfg, m, Pass(desired, Shown, runner, second)).world, desired, Shown,
                     runner, None);
    hide Exec, Do, Enabled, Inv, StatePath, EnvBranch, ProposalBranch, ComesTo, AwaitsRecord,
         RecoveryPropose.ToPropose, Recovery.RendersAs, RecoveryPropose.Proposed, Pass,
         RecoveryPropose.AtMostOne, RecoveryPropose.Usable, Recovery.Observable,
         RecoveryPropose.BaseTree, RecoveryPropose.BaseOf, Readable, Projectable;
  }
}
