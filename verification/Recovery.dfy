/**
 * Crash recovery of a direct publication: whatever crashes and restarts occur, a pass that completes
 * leaves the world that an uninterrupted pass leaves.
 */
module Recovery {
  import opened Wrappers
  import opened Bytes
  import opened Trees
  import opened Slices
  import opened Lifecycle
  import opened Invariants

  /** Passes for one slice, with crashes anywhere and nobody else acting. */
  predicate Alone(l: Label, desired: DesiredSlice) {
    match l
    case Planned(d, _, _) => d == desired
    case Start(e) => e == desired.environment
    case Tick(e, _) => e == desired.environment
    case Crash(e) => e == desired.environment
    case _ => false
  }

  predicate AllAlone(labels: seq<Label>, desired: DesiredSlice) {
    forall l | l in labels :: Alone(l, desired)
  }

  /** The renderer gives this world for the slice, whatever the runner. */
  ghost predicate RendersAs(cfg: Config, desired: DesiredSlice, rendered: RenderedWorld) {
    forall runner :: cfg.render(runner, desired) == Some(rendered)
  }

  /** The slice is to be rendered and published, and is not published yet. */
  predicate ToPublish(cfg: Config, world: World, desired: DesiredSlice,
                      policy: PublicationPolicy)
  {
    var state := world.Load(desired.environment);
    desired.BorrowedEnvironment().None? && desired.components != [] &&
    cfg.policies.ForEnvironment(desired.environment) == policy &&
    state.proposal.None? &&
    !(state.published && state.inputDigest == Some(desired.MaterializationDigest())) &&
    (state.published ==> state.commit.Some?)
  }

  /** The pull request of the recorded proposal, if any, shows the recorded commit. */
  predicate Observable(world: World, e: string, shown: MergeIdentity) {
    var state := world.Load(e);
    state.proposal.Some? ==>
      var p := state.proposal.value.proposal;
      p.number in world.pulls && world.pulls[p.number].head == p.commit &&
      !(world.pulls[p.number].state.Merged? && shown.Malformed?)
  }

  /** A plan at hand was made over the target state that stands. */
  predicate CanStart(s: State, e: string) {
    e in s.approved && s.approved[e].over == s.world.Load(e)
  }

  /** A plan at hand that can be applied over this target state is this plan for this slice. */
  predicate PlanOver(s: State, desired: DesiredSlice, over: TargetState, plan: Plan) {
    var e := desired.environment;
    e in s.approved && s.approved[e].over == over ==> s.approved[e] == Approved(desired, plan, over)
  }

  /** The plan at hand is this one, or one that is left over from before and cannot be applied. */
  predicate OnlyPlan(s: State, desired: DesiredSlice, over: TargetState, plan: Plan) {
    var e := desired.environment;
    e in s.approved ==>
      s.approved[e] == Approved(desired, plan, over) ||
      (s.approved[e].over != over && s.pc.Idle? && s.world.Load(e) == over)
  }

  /** A plan for the slice over the initial target state. */
  lemma PlanIsThePlan(cfg: Config, world: World, desired: DesiredSlice, rendered: RenderedWorld,
                      shown: MergeIdentity, runner: PreparedRunner)
    requires RendersAs(cfg, desired, rendered)
    requires ToPublish(cfg, world, desired, cfg.policies.ForEnvironment(desired.environment))
    ensures MakePlan(cfg, world, desired, shown, runner) == Some(
              if cfg.policies.ForEnvironment(desired.environment) == Direct
              then Publish(rendered.treeDigest, rendered.outputs)
              else Propose(rendered.treeDigest, rendered.outputs))
  {
    assert cfg.render(runner, desired) == Some(rendered);
    hide StatePath;
  }

  /** Once the slice is published, planning it again ends without a plan. */
  lemma PublishedNeedsNoPlan(cfg: Config, world: World, desired: DesiredSlice,
                             shown: MergeIdentity, runner: PreparedRunner)
    requires desired.BorrowedEnvironment().None? && desired.components != []
    requires var state := world.Load(desired.environment);
             state.published && state.inputDigest == Some(desired.MaterializationDigest()) &&
             state.proposal.None?
    ensures MakePlan(cfg, world, desired, shown, runner).None?
  {
    hide StatePath;
  }

  /* ---------------------------------------------------------------- The worlds of a publication */

  function PublishHead(world: World, desired: DesiredSlice, rendered: RenderedWorld, stamp: nat)
    : Commit
  {
    match world.Ref(EnvBranch(desired.environment))
    case None => Commit(rendered.tree, [], stamp)
    case Some(head) =>
      if rendered.tree == head.tree then head else CommitOver(rendered, head, stamp)
  }

  function Pushed(world: World, desired: DesiredSlice, head: Commit): World {
    world.(refs := world.refs[EnvBranch(desired.environment) := head])
  }

  function Stored(world: World, desired: DesiredSlice, state: TargetState): World {
    world.(files := world.files[StatePath(desired.environment) := state])
  }

  /** What an uninterrupted publication makes of a world. */
  function PublishedWorld(world: World, desired: DesiredSlice, rendered: RenderedWorld, stamp: nat)
    : World
  {
    var head := PublishHead(world, desired, rendered, stamp);
    Stored(Pushed(world, desired, head), desired,
           PublishedState(desired, rendered.outputs, head))
  }

  predicate PublishPoint(world: World, desired: DesiredSlice, rendered: RenderedWorld, pc: Pc,
                         head: Commit, pushed: bool)
  {
    var plan := Publish(rendered.treeDigest, rendered.outputs);
    var current := world.Ref(EnvBranch(desired.environment));
    pc.Running? ==>
      pc.desired == desired && pc.op == Applying(plan) &&
      match pc.at
      case Render => true
      case PublishLs(w) => w == rendered
      case PublishFetch(w, expected) => w == rendered && current == Some(expected)
      case PublishPush(w, lease, commit) => w == rendered && lease == current && commit == head
      case Save(state) => pushed && state == PublishedState(desired, rendered.outputs, head)
      case _ => false
  }

  /** Before the push, after the push, and after the save, for a given pushed head. */
  predicate PublishPhase(w0: World, desired: DesiredSlice, rendered: RenderedWorld, s: State,
                         stamp: nat)
  {
    var head := PublishHead(w0, desired, rendered, stamp);
    || (s.world == w0 && PublishPoint(w0, desired, rendered, s.pc, head, false))
    || (s.world == Pushed(w0, desired, head) &&
        PublishPoint(s.world, desired, rendered, s.pc, head, true))
    || (s.world == PublishedWorld(w0, desired, rendered, stamp) && s.pc.Idle?)
  }

  ghost predicate PublishShape(w0: World, desired: DesiredSlice, rendered: RenderedWorld, s: State) {
    OnlyPlan(s, desired, w0.Load(desired.environment),
             Publish(rendered.treeDigest, rendered.outputs)) &&
    exists stamp :: PublishPhase(w0, desired, rendered, s, stamp)
  }

  /** The head that a restarted publication makes over its own earlier push is that push. */
  lemma RepublishingIsIdempotent(w0: World, desired: DesiredSlice, rendered: RenderedWorld,
                                 stamp: nat, again: nat)
    ensures var head := PublishHead(w0, desired, rendered, stamp);
            head.tree == rendered.tree &&
            PublishHead(Pushed(w0, desired, head), desired, rendered, again) == head
  {
    hide EnvBranch;
  }

  /**
   * One Git action of a publication: it reads, or it pushes the head made over the world it reads.
   * `made` is the head this action makes, or the one it was about to push.
   */
  lemma PublishAction(cfg: Config, desired: DesiredSlice, rendered: RenderedWorld, s: State,
                      head: Commit, pushed: bool, ch: Choice)
    requires PublishPoint(s.world, desired, rendered, s.pc, head, pushed) && s.pc.Running?
    requires !s.pc.at.Save? && !s.pc.at.Render? && rendered.tree != EMPTY_TREE
    requires pushed ==> PublishHead(s.world, desired, rendered, ch.stamp) == head
    ensures var s' := Step(cfg, s, ch);
            var made := if s.pc.at.PublishPush? then head
                        else PublishHead(s.world, desired, rendered, ch.stamp);
            s'.approved == s.approved && s'.pc.Running? &&
            PublishRank(s'.pc.at) < PublishRank(s.pc.at) &&
            s'.world == (if s.pc.at.PublishPush? then Pushed(s.world, desired, head)
                         else s.world) &&
            PublishPoint(s'.world, desired, rendered, s'.pc, made,
                         pushed || s.pc.at.PublishPush?)
  {
    assert Step(cfg, s, ch) == StepPublish(s, ch);
    hide Step, EnvBranch, StatePath, CommitOver, PublishedState;
  }

  lemma PublishTick(cfg: Config, w0: World, desired: DesiredSlice, rendered: RenderedWorld, s: State,
                    stamp: nat, ch: Choice) returns (stamp': nat)
    requires RendersAs(cfg, desired, rendered) && rendered.tree != EMPTY_TREE
    requires PublishPhase(w0, desired, rendered, s, stamp) && s.pc.Running?
    ensures PublishPhase(w0, desired, rendered, Step(cfg, s, ch), stamp')
    ensures Step(cfg, s, ch).approved == s.approved
    ensures var s' := Step(cfg, s, ch);
            (s.pc.at.Save? && s'.world == PublishedWorld(w0, desired, rendered, stamp')) ||
            (s'.pc.Running? && PublishRank(s'.pc.at) < PublishRank(s.pc.at))
  {
    var head := PublishHead(w0, desired, rendered, stamp);
    RepublishingIsIdempotent(w0, desired, rendered, stamp, ch.stamp);
    stamp' := stamp;
    if s.pc.at.Render? {
      assert cfg.render(ch.runner, desired) == Some(rendered);
      hide StepPublish, StepPropose, StepPull, StepCancel, StepDrop, StepRemove, EnvBranch;
    } else if s.pc.at.Save? {
      hide StepPublish, StepPropose, StepPull, StepCancel, StepDrop, StepRemove, EnvBranch;
    } else if s.world == w0 && PublishPoint(w0, desired, rendered, s.pc, head, false) {
      PublishAction(cfg, desired, rendered, s, head, false, ch);
      if !s.pc.at.PublishPush? {
        stamp' := ch.stamp;
      }
      hide Step, PublishPoint, PublishRank, PublishHead;
    } else {
      PublishAction(cfg, desired, rendered, s, head, true, ch);
      assert Pushed(s.world, desired, head) == s.world;
      hide Step, PublishPoint, PublishRank, PublishHead;
    }
  }

  function PublishRank(at: At): nat {
    match at
    case Render => 4
    case PublishLs(_) => 3
    case PublishFetch(_, _) => 2
    case PublishPush(_, _, _) => 1
    case _ => 0
  }

  lemma PublishShapeStep(cfg: Config, w0: World, desired: DesiredSlice, rendered: RenderedWorld,
                         s: State, l: Label)
    requires RendersAs(cfg, desired, rendered) && rendered.tree != EMPTY_TREE
    requires ToPublish(cfg, w0, desired, Direct)
    requires PublishShape(w0, desired, rendered, s) && Alone(l, desired)
    ensures PublishShape(w0, desired, rendered, Do(cfg, s, l))
  {
    var stamp :| PublishPhase(w0, desired, rendered, s, stamp);
    if Enabled(cfg, s, l) {
      match l
      case Tick(_, ch) =>
        var stamp' := PublishTick(cfg, w0, desired, rendered, s, stamp, ch);
        assert PublishPhase(w0, desired, rendered, Do(cfg, s, l), stamp');
        hide Step, PublishPhase;
      case Planned(_, shown, runner) =>
        PublishPlans(cfg, w0, desired, rendered, s, stamp, shown, runner);
        assert PublishPhase(w0, desired, rendered, Do(cfg, s, l), stamp);
        hide MakePlan, ToPublish, RendersAs;
      case Start(e) =>
        assert s.world != PublishedWorld(w0, desired, rendered, stamp) by {
          hide PublishHead, EnvBranch;
        }
        assert PublishPhase(w0, desired, rendered, Do(cfg, s, l), stamp) by {
          hide PublishHead, EnvBranch, StatePath;
        }
        hide PublishPhase;
      case Crash(e) =>
        assert PublishPhase(w0, desired, rendered, Do(cfg, s, l), stamp) by {
          hide PublishHead, EnvBranch, StatePath;
        }
        hide PublishPhase;
    }
  }

  /** While the state is not saved, every plan is the publication; afterwards there is none. */
  lemma PublishPlans(cfg: Config, w0: World, desired: DesiredSlice, rendered: RenderedWorld,
                     s: State, stamp: nat, shown: MergeIdentity, runner: PreparedRunner)
    requires RendersAs(cfg, desired, rendered) && ToPublish(cfg, w0, desired, Direct)
    requires PublishPhase(w0, desired, rendered, s, stamp)
    ensures MakePlan(cfg, s.world, desired, shown, runner).Some? ==>
              s.world.Load(desired.environment) == w0.Load(desired.environment) &&
              MakePlan(cfg, s.world, desired, shown, runner).value ==
                Publish(rendered.treeDigest, rendered.outputs)
  {
    if s.world == PublishedWorld(w0, desired, rendered, stamp) {
      PublishedNeedsNoPlan(cfg, s.world, desired, shown, runner);
      hide MakePlan;
    } else {
      assert s.world.Load(desired.environment) == w0.Load(desired.environment);
      PlanIsThePlan(cfg, s.world, desired, rendered, shown, runner);
      hide MakePlan, PublishPoint;
    }
  }

  lemma {:induction false} PublishShapeRun(cfg: Config, w0: World, desired: DesiredSlice,
                                           rendered: RenderedWorld, s: State, labels: seq<Label>)
    requires RendersAs(cfg, desired, rendered) && rendered.tree != EMPTY_TREE
    requires ToPublish(cfg, w0, desired, Direct)
    requires PublishShape(w0, desired, rendered, s) && AllAlone(labels, desired)
    ensures PublishShape(w0, desired, rendered, Exec(cfg, s, labels))
    decreases |labels|
  {
    if labels != [] {
      PublishShapeStep(cfg, w0, desired, rendered, s, labels[0]);
      PublishShapeRun(cfg, w0, desired, rendered, Do(cfg, s, labels[0]), labels[1..]);
      hide Do, PublishShape, ToPublish, RendersAs;
    }
  }

  ghost predicate Published(w0: World, desired: DesiredSlice, rendered: RenderedWorld, s: State) {
    s.pc.Idle? && exists stamp :: s.world == PublishedWorld(w0, desired, rendered, stamp)
  }

  /** Enough ticks finish a running publication. */
  lemma {:induction false} TicksPublish(cfg: Config, w0: World, desired: DesiredSlice,
                                        rendered: RenderedWorld, s: State, stamp: nat,
                                        choices: seq<Choice>)
    requires RendersAs(cfg, desired, rendered) && rendered.tree != EMPTY_TREE
    requires PublishPhase(w0, desired, rendered, s, stamp)
    requires Published(w0, desired, rendered, s) ||
             (s.pc.Running? && PublishRank(s.pc.at) < |choices|)
    ensures Published(w0, desired, rendered,
                      Exec(cfg, s, Ticks(desired.environment, choices)))
    decreases |choices|
  {
    if choices != [] {
      var e := desired.environment;
      var l := Tick(e, choices[0]);
      var s' := Do(cfg, s, l);
      assert Ticks(e, choices)[1..] == Ticks(e, choices[1..]);
      assert Exec(cfg, s, Ticks(e, choices)) == Exec(cfg, s', Ticks(e, choices[1..]));
      if s.pc.Idle? {
        assert s' == s;
        TicksPublish(cfg, w0, desired, rendered, s, stamp, choices[1..]);
      } else {
        var stamp' := PublishTick(cfg, w0, desired, rendered, s, stamp, choices[0]);
        TickOfItsOwn(cfg, w0, desired, rendered, s, stamp, l);
        hide Do, Step, PublishPhase, PublishedWorld;
        if s.pc.at.Save? {
          SaveEndsThePass(cfg, s, choices[0]);
        }
        TicksPublish(cfg, w0, desired, rendered, s', stamp', choices[1..]);
      }
    }
    hide Do, Step, PublishPhase, PublishedWorld;
  }

  lemma SaveEndsThePass(cfg: Config, s: State, ch: Choice)
    requires s.pc.Running? && s.pc.at.Save?
    ensures Step(cfg, s, ch).pc.Idle?
  {
  }

  lemma TickOfItsOwn(cfg: Config, w0: World, desired: DesiredSlice, rendered: RenderedWorld,
                     s: State, stamp: nat, l: Label)
    requires PublishPhase(w0, desired, rendered, s, stamp) && s.pc.Running?
    requires l.Tick? && l.environment == desired.environment
    ensures Do(cfg, s, l) == Step(cfg, s, l.choice)
  {
    hide Step, PublishHead, PublishedState;
  }

  /** A pass that starts from idle over the initial target state starts by rendering. */
  lemma PassStartsPublishing(cfg: Config, w0: World, desired: DesiredSlice, rendered: RenderedWorld,
                             s: State, stamp: nat, shown: MergeIdentity, runner: PreparedRunner)
    requires RendersAs(cfg, desired, rendered) && ToPublish(cfg, w0, desired, Direct)
    requires PublishPhase(w0, desired, rendered, s, stamp) && s.pc.Idle?
    requires OnlyPlan(s, desired, w0.Load(desired.environment),
                      Publish(rendered.treeDigest, rendered.outputs))
    ensures var t := Do(cfg, Do(cfg, s, Planned(desired, shown, runner)),
                        Start(desired.environment));
            PublishPhase(w0, desired, rendered, t, stamp) &&
            (Published(w0, desired, rendered, t) || (t.pc.Running? && t.pc.at.Render?))
  {
    var e := desired.environment;
    if s.world == PublishedWorld(w0, desired, rendered, stamp) {
      PublishedNeedsNoPlan(cfg, s.world, desired, shown, runner);
      assert s.world.Load(e) != w0.Load(e);
      hide MakePlan, PublishedWorld, StatePath;
    } else {
      assert s.world.Load(e) == w0.Load(e);
      PlanIsThePlan(cfg, s.world, desired, rendered, shown, runner);
      hide MakePlan, PublishedWorld, PublishHead, StatePath, EnvBranch, RendersAs;
    }
  }

  /**
   * Crash recovery of a direct publication. Take a slice to publish over any world, and any run of
   * plans, starts, actions and crashes for it. As soon as the target state has changed, the world is
   * the one that an uninterrupted publication makes of the initial world, up to the new commit's
   * stamp. And whenever the run is idle, one more uninterrupted pass gets there.
   */
  lemma PublishSurvivesCrashes(cfg: Config, s0: State, desired: DesiredSlice,
                               rendered: RenderedWorld, labels: seq<Label>,
                               shown: MergeIdentity, runner: PreparedRunner, choices: seq<Choice>)
    requires s0.pc.Idle?
    requires PlanOver(s0, desired, s0.world.Load(desired.environment),
                      Publish(rendered.treeDigest, rendered.outputs))
    requires ToPublish(cfg, s0.world, desired, Direct)
    requires RendersAs(cfg, desired, rendered) && rendered.tree != EMPTY_TREE
    requires AllAlone(labels, desired) && |choices| >= 5
    ensures var s := Exec(cfg, s0, labels);
            s.world.Load(desired.environment) != s0.world.Load(desired.environment) ==>
              Published(s0.world, desired, rendered, s)
    ensures var s := Exec(cfg, s0, labels);
            s.pc.Idle? ==>
              Published(s0.world, desired, rendered,
                        Exec(cfg, s, Pass(desired, shown, runner, choices)))
  {
    assert PublishPhase(s0.world, desired, rendered, s0, 0);
    PublishShapeRun(cfg, s0.world, desired, rendered, s0, labels);
    var s := Exec(cfg, s0, labels);
    var stamp :| PublishPhase(s0.world, desired, rendered, s, stamp);
    if s.pc.Idle? {
      PassStartsPublishing(cfg, s0.world, desired, rendered, s, stamp, shown, runner);
      ExecTwo(cfg, s, Planned(desired, shown, runner), Start(desired.environment),
              Ticks(desired.environment, choices));
      var t := Do(cfg, Do(cfg, s, Planned(desired, shown, runner)), Start(desired.environment));
      TicksPublish(cfg, s0.world, desired, rendered, t, stamp, choices);
    }
    hide Do, Exec, ToPublish, RendersAs, PublishHead, PublishPoint;
  }

  /** The published commit holds the render, on top of what was there. */
  lemma PublishedWorldMeans(w0: World, desired: DesiredSlice, rendered: RenderedWorld, stamp: nat)
    ensures var w := PublishedWorld(w0, desired, rendered, stamp);
            var branch, state := EnvBranch(desired.environment), w.Load(desired.environment);
            w.Ref(branch).Some? && w.Ref(branch).value.tree == rendered.tree &&
            state.published && state.commit == w.Ref(branch) &&
            state.outputs == rendered.outputs &&
            state.inputDigest == Some(desired.MaterializationDigest()) && state.proposal.None? &&
            w.pulls == w0.pulls &&
            (forall other :: other != branch ==> w.Ref(other) == w0.Ref(other)) &&
            (w0.Ref(branch).Some? && w0.Ref(branch).value.tree == rendered.tree ==>
               w.refs == w0.refs)
  {
    hide EnvBranch;
  }
}
