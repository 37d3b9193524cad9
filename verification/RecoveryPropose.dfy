/**
 * Crash recovery of a proposal, be it the first one or one that replaces another: whatever crashes
 * and restarts occur, and however often the host refreshes the pull request, a pass that completes
 * leaves one proposal branch, one open pull request on it, and the pending state that an
 * uninterrupted pass leaves. Which passes complete is said exactly.
 */
module RecoveryPropose {
  import opened Wrappers
  import opened Bytes
  import opened Trees
  import opened Slices
  import opened Lifecycle
  import opened Invariants
  import opened Recovery

  /** Passes for one slice and refreshed pull-request heads, with crashes anywhere. */
  predicate AloneOrSync(l: Label, desired: DesiredSlice) {
    Alone(l, desired) || (l.Sync? && l.environment == desired.environment)
  }

  predicate AllAloneOrSync(labels: seq<Label>, desired: DesiredSlice) {
    forall l | l in labels :: AloneOrSync(l, desired)
  }

  function ProposePlan(rendered: RenderedWorld): Plan {
    Propose(rendered.treeDigest, rendered.outputs)
  }

  /** The slice is to be rendered and proposed; a pending proposal, if any, is for another digest. */
  predicate ToPropose(cfg: Config, world: World, desired: DesiredSlice) {
    var state, digest := world.Load(desired.environment), desired.MaterializationDigest();
    desired.BorrowedEnvironment().None? && desired.components != [] &&
    cfg.policies.ForEnvironment(desired.environment) == PrGated &&
    (state.proposal.Some? ==> state.proposal.value.inputDigest != digest) &&
    !(state.published && state.inputDigest == Some(digest)) &&
    (state.published ==> state.commit.Some?)
  }

  /** What the environment branch holds, or the root that is made of it. */
  function BaseTree(world: World, e: string): GitTree {
    var head := world.Ref(EnvBranch(e));
    if head.Some? then head.value.tree else EMPTY_TREE
  }

  /** There is nothing to review, or it can be shown. */
  predicate CanPropose(cfg: Config, world: World, desired: DesiredSlice, rendered: RenderedWorld) {
    var base := BaseTree(world, desired.environment);
    base == rendered.tree || Reviewable(cfg, base, rendered.tree)
  }

  /** Planning proposes exactly if the recorded proposal can be observed. */
  lemma PlanProposes(cfg: Config, world: World, desired: DesiredSlice, rendered: RenderedWorld,
                     shown: MergeIdentity, runner: PreparedRunner)
    requires RendersAs(cfg, desired, rendered) && ToPropose(cfg, world, desired)
    ensures MakePlan(cfg, world, desired, shown, runner) ==
            if Observable(world, desired.environment, shown) then Some(ProposePlan(rendered))
            else None
  {
    assert cfg.render(runner, desired) == Some(rendered);
    hide StatePath;
  }

  /** The commit under review stands on the branch as it was, or on a new empty root. */
  function BaseOf(w0: World, desired: DesiredSlice, root: nat): Commit {
    match w0.Ref(EnvBranch(desired.environment))
    case None => Commit(EMPTY_TREE, [], root)
    case Some(head) => head
  }

  predicate IsDraft(c: Commit, rendered: RenderedWorld, base: Commit) {
    c == CommitOver(rendered, base, c.stamp)
  }

  /** A pass that is about to push this draft over the base. */
  predicate Drafts(cfg: Config, base: Commit, rendered: RenderedWorld, world: RenderedWorld,
                   present: Option<Commit>, c: Commit)
  {
    world == rendered && present == Some(base) && IsDraft(c, rendered, base) &&
    base.tree != rendered.tree && Readable(cfg, base.tree, rendered.tree)
  }

  /** A pass that has pushed this draft, and has projected it. */
  predicate Drafted(cfg: Config, base: Commit, rendered: RenderedWorld, world: RenderedWorld,
                    present: Option<Commit>, draft: Option<Commit>, c: Commit)
  {
    Drafts(cfg, base, rendered, world, present, c) && Projectable(base.tree, rendered.tree) &&
    draft == Some(c)
  }

  /** The pull request a pass may use: the open one, or a new number if none is open. */
  predicate Usable(pulls: map<nat, Pull>, e: string, n: nat) {
    OpenPulls(pulls, e) == {n} || (OpenPulls(pulls, e) == {} && n !in pulls)
  }

  /** The pull requests are as they were, up to an open one numbered `n` and its shown head. */
  predicate PullsForm(w0: World, e: string, pulls: map<nat, Pull>, n: nat) {
    || pulls == w0.pulls
    || (Usable(w0.pulls, e, n) && n in pulls &&
        pulls == w0.pulls[n := Pull(EnvBranch(e), ProposalBranch(e), pulls[n].head, Open)])
  }

  /** The branches during the proposal: the base may have been made, the draft may be pushed. */
  predicate RefsForm(w0: World, desired: DesiredSlice, rendered: RenderedWorld, world: World,
                     root: nat)
  {
    var branch, review := EnvBranch(desired.environment), ProposalBranch(desired.environment);
    var present, draft, base := world.Ref(branch), world.Ref(review), BaseOf(w0, desired, root);
    (present == Some(base) || present == w0.Ref(branch)) &&
    (draft == w0.Ref(review) ||
     (present == Some(base) && draft.Some? && IsDraft(draft.value, rendered, base))) &&
    world.refs == SetRef(SetRef(w0.refs, branch, present), review, draft)
  }

  predicate ProposePoint(cfg: Config, w0: World, desired: DesiredSlice, rendered: RenderedWorld,
                         world: World, pc: Pc, root: nat)
  {
    var e := desired.environment;
    var present, draft := world.Ref(EnvBranch(e)), world.Ref(ProposalBranch(e));
    var base, open := BaseOf(w0, desired, root), OpenPulls(world.pulls, e);
    pc.Running? ==>
      pc.desired == desired && pc.op == Applying(ProposePlan(rendered)) &&
      match pc.at
      case Render => true
      case ProposeLs(w) => w == rendered
      case ProposeFetch(w, expected) => w == rendered && present == Some(expected)
      case ProposeBootstrap(w, made) => w == rendered && present == None && made == base
      case ProposeLsProposal(w, c) => Drafts(cfg, base, rendered, w, present, c)
      case ProposePush(w, lease, c) =>
        Drafts(cfg, base, rendered, w, present, c) && lease == draft
      case ProposeList(w, c) => Drafted(cfg, base, rendered, w, present, draft, c)
      case ProposeUpdate(w, c, n) =>
        Drafted(cfg, base, rendered, w, present, draft, c) && n in open
      case ProposeCreate(w, c) =>
        Drafted(cfg, base, rendered, w, present, draft, c) && open == {}
      case ProposeWait(w, c, n, left) =>
        Drafted(cfg, base, rendered, w, present, draft, c) && n in open && left > 0
      case Save(state) =>
        present == Some(base) &&
        (if base.tree == rendered.tree then
           state == PublishedState(desired, rendered.outputs, base)
         else
           draft.Some? && IsDraft(draft.value, rendered, base) && state.proposal.Some? &&
           Reviewable(cfg, base.tree, rendered.tree) &&
           var n := state.proposal.value.proposal.number;
           n in open && world.pulls[n].head == draft.value &&
           state == PendingState(w0.Load(e), desired, ProposePlan(rendered), n, draft.value))
      case _ => false
  }

  /** What an uninterrupted proposal makes of a world when there is something to propose. */
  function ProposedWorld(w0: World, desired: DesiredSlice, rendered: RenderedWorld, root: nat,
                         stamp: nat, n: nat): World
  {
    var e := desired.environment;
    var base := BaseOf(w0, desired, root);
    var draft := CommitOver(rendered, base, stamp);
    Stored(World(w0.refs[EnvBranch(e) := base][ProposalBranch(e) := draft],
                 w0.pulls[n := Pull(EnvBranch(e), ProposalBranch(e), draft, Open)],
                 w0.files),
           desired, PendingState(w0.Load(e), desired, ProposePlan(rendered), n, draft))
  }

  /** The pass is over: proposed for review, or recorded as unchanged. */
  ghost predicate Proposed(cfg: Config, w0: World, desired: DesiredSlice, rendered: RenderedWorld,
                           s: State, root: nat)
  {
    var e, base := desired.environment, BaseOf(w0, desired, root);
    s.pc.Idle? &&
    if base.tree == rendered.tree then
      s.world.refs == w0.refs[EnvBranch(e) := base] &&
      s.world.files ==
        w0.files[StatePath(e) := PublishedState(desired, rendered.outputs, base)] &&
      s.world.pulls.Keys == w0.pulls.Keys &&
      exists n :: PullsForm(w0, e, s.world.pulls, n)
    else
      Reviewable(cfg, base.tree, rendered.tree) &&
      exists stamp, n ::
        Usable(w0.pulls, e, n) &&
        s.world == ProposedWorld(w0, desired, rendered, root, stamp, n)
  }

  predicate Proposing(cfg: Config, w0: World, desired: DesiredSlice, rendered: RenderedWorld,
                      s: State, root: nat, n: nat)
  {
    s.world.files == w0.files &&
    RefsForm(w0, desired, rendered, s.world, root) &&
    (BaseOf(w0, desired, root).tree == rendered.tree ==>
       s.world.Ref(ProposalBranch(desired.environment)) ==
       w0.Ref(ProposalBranch(desired.environment)) &&
       s.world.pulls.Keys == w0.pulls.Keys) &&
    PullsForm(w0, desired.environment, s.world.pulls, n) &&
    ProposePoint(cfg, w0, desired, rendered, s.world, s.pc, root)
  }

  function ProposeRank(at: At): nat {
    match at
    case Render => 8
    case ProposeLs(_) => 7
    case ProposeFetch(_, _) => 6
    case ProposeBootstrap(_, _) => 6
    case ProposeLsProposal(_, _) => 5
    case ProposePush(_, _, _) => 4
    case ProposeList(_, _) => 3
    case ProposeUpdate(_, _, _) => 2
    case ProposeCreate(_, _) => 2
    case ProposeWait(_, _, _, _) => 1
    case _ => 0
  }

  /** The pass goes on to a later point. */
  predicate MovesOn(s: State, s': State) {
    s.pc.Running? && s'.pc.Running? && ProposeRank(s'.pc.at) < ProposeRank(s.pc.at)
  }

  /* ---------------------------------------------------------------- The Git half of the pass */

  /** The points reached by comparing: nothing to propose, or a draft over the base. */
  lemma CompareLands(cfg: Config, w0: World, desired: DesiredSlice, rendered: RenderedWorld,
                     world: World, root: nat, stamp: nat)
    requires world.Ref(EnvBranch(desired.environment)) == Some(BaseOf(w0, desired, root))
    ensures var base := BaseOf(w0, desired, root);
            var at := Compare(cfg, desired, rendered.outputs, rendered, base, base, stamp);
            (at.Some? ==>
              ProposeRank(at.value) < 6 &&
              ProposePoint(cfg, w0, desired, rendered, world,
                           Running(desired, Applying(ProposePlan(rendered)), at.value), root)) &&
            (CanPropose(cfg, w0, desired, rendered) ==> at.Some?)
  {
    BaseHolds(w0, desired, root);
    hide EnvBranch, ProposalBranch, BaseOf, OpenPulls, Readable, Projectable, BaseTree;
  }

  lemma BaseHolds(w0: World, desired: DesiredSlice, root: nat)
    ensures BaseOf(w0, desired, root).tree == BaseTree(w0, desired.environment)
  {
    hide EnvBranch;
  }

  /** The reads of the Git half move nothing. */
  lemma ProposeReads(cfg: Config, w0: World, desired: DesiredSlice, rendered: RenderedWorld, s: State,
                     root: nat, n: nat, ch: Choice) returns (root': nat)
    requires Proposing(cfg, w0, desired, rendered, s, root, n)
    requires s.pc.Running? &&
             (s.pc.at.ProposeLs? || s.pc.at.ProposeFetch? || s.pc.at.ProposeLsProposal?)
    ensures Proposing(cfg, w0, desired, rendered, StepPropose(cfg, s, ch), root', n)
    ensures StepPropose(cfg, s, ch).approved == s.approved
    ensures CanPropose(cfg, w0, desired, rendered) ==> MovesOn(s, StepPropose(cfg, s, ch))
  {
    var branch := EnvBranch(desired.environment);
    root' := root;
    if s.pc.at.ProposeLs? && s.world.Ref(branch).None? {
      root' := ch.stamp;
    } else if s.pc.at.ProposeFetch? {
      BaseIsPresent(w0, desired, rendered, s.world, root);
      CompareLands(cfg, w0, desired, rendered, s.world, root, ch.stamp);
      hide Compare, PullsForm, EnvBranch, ProposalBranch, OpenPulls, BaseOf, RefsForm, ProposePoint,
           CanPropose;
    }
    hide EnvBranch, ProposalBranch, PullsForm, OpenPulls, CommitOver, PublishedState, Readable,
         Projectable, CanPropose;
  }

  lemma BaseIsPresent(w0: World, desired: DesiredSlice, rendered: RenderedWorld, world: World,
                      root: nat)
    requires RefsForm(w0, desired, rendered, world, root)
    ensures world.Ref(EnvBranch(desired.environment)).Some? ==>
              world.Ref(EnvBranch(desired.environment)) == Some(BaseOf(w0, desired, root))
  {
    hide EnvBranch, ProposalBranch, SetRef;
  }

  /** Pushing either branch keeps the branches in form. */
  lemma PushKeepsForm(w0: World, desired: DesiredSlice, rendered: RenderedWorld, world: World,
                      root: nat, name: string, value: Commit)
    requires RefsForm(w0, desired, rendered, world, root)
    requires var base := BaseOf(w0, desired, root);
             || (name == EnvBranch(desired.environment) && value == base)
             || (name == ProposalBranch(desired.environment) && IsDraft(value, rendered, base) &&
                 world.Ref(EnvBranch(desired.environment)) == Some(base))
    ensures RefsForm(w0, desired, rendered,
                     world.(refs := SetRef(world.refs, name, Some(value))), root)
    ensures var pushed := world.(refs := SetRef(world.refs, name, Some(value)));
            pushed.Ref(name) == Some(value) &&
            (name == EnvBranch(desired.environment) ==>
               pushed.Ref(ProposalBranch(desired.environment)) ==
               world.Ref(ProposalBranch(desired.environment))) &&
            (name == ProposalBranch(desired.environment) ==>
               pushed.Ref(EnvBranch(desired.environment)) ==
               world.Ref(EnvBranch(desired.environment)))
  {
    BranchNamesAreApart(desired.environment, desired.environment);
    hide EnvBranch, ProposalBranch, BaseOf, IsDraft;
  }

  lemma ProposePushes(cfg: Config, w0: World, desired: DesiredSlice, rendered: RenderedWorld,
                      s: State, root: nat, n: nat, ch: Choice)
    requires Proposing(cfg, w0, desired, rendered, s, root, n)
    requires s.pc.Running? && (s.pc.at.ProposeBootstrap? || s.pc.at.ProposePush?)
    ensures Proposing(cfg, w0, desired, rendered, StepPropose(cfg, s, ch), root, n)
    ensures StepPropose(cfg, s, ch).approved == s.approved
    ensures CanPropose(cfg, w0, desired, rendered) ==> MovesOn(s, StepPropose(cfg, s, ch))
  {
    var branch, review := EnvBranch(desired.environment), ProposalBranch(desired.environment);
    BranchNamesAreApart(desired.environment, desired.environment);
    if s.pc.at.ProposeBootstrap? {
      var base := BaseOf(w0, desired, root);
      PushKeepsForm(w0, desired, rendered, s.world, root, branch, base);
      var pushed := s.world.(refs := SetRef(s.world.refs, branch, Some(base)));
      CompareLands(cfg, w0, desired, rendered, pushed, root, ch.stamp);
      hide Compare, PullsForm, EnvBranch, ProposalBranch, OpenPulls, BaseOf, RefsForm, SetRef, Readable,
           CanPropose;
    } else {
      PushKeepsForm(w0, desired, rendered, s.world, root, review, s.pc.at.commit);
      BaseHolds(w0, desired, root);
      hide PullsForm, EnvBranch, ProposalBranch, OpenPulls, BaseOf, RefsForm, SetRef, Readable,
           Projectable, BaseTree;
    }
  }

  /* ---------------------------------------------------------------- The pull-request half */

  /** With no open pull request left, nothing has happened to the pull requests. */
  lemma FormWithNoneOpen(w0: World, e: string, pulls: map<nat, Pull>, n: nat)
    requires PullsForm(w0, e, pulls, n)
    ensures pulls != w0.pulls ==> n in OpenPulls(pulls, e)
  {
    hide EnvBranch, ProposalBranch;
  }

  lemma AwaitPoint(cfg: Config, w0: World, desired: DesiredSlice, rendered: RenderedWorld,
                   world: World, root: nat, c: Commit, n: nat, left: nat)
    requires var e, base := desired.environment, BaseOf(w0, desired, root);
             world.Load(e) == w0.Load(e) &&
             world.Ref(EnvBranch(e)) == Some(base) && world.Ref(ProposalBranch(e)) == Some(c) &&
             IsDraft(c, rendered, base) && base.tree != rendered.tree &&
             Reviewable(cfg, base.tree, rendered.tree) && n in OpenPulls(world.pulls, e)
    ensures var at := AwaitHead(world.Load(desired.environment), desired, ProposePlan(rendered),
                                rendered, c, n, world.pulls[n].head, left);
            (at.Some? ==>
              ProposePoint(cfg, w0, desired, rendered, world,
                           Running(desired, Applying(ProposePlan(rendered)), at.value), root)) &&
            (world.pulls[n].head == c ==> at.Some? && at.value.Save?)
  {
    hide EnvBranch, ProposalBranch, OpenPulls, BaseOf, StatePath, Readable, Projectable;
  }

  /** Every open pull request of the environment shows the proposal branch as its head. */
  predicate Synced(world: World, e: string) {
    forall m | m in OpenPulls(world.pulls, e) ::
      Some(world.pulls[m].head) == world.Ref(ProposalBranch(e))
  }

  predicate Watching(at: At) {
    at.ProposeUpdate? || at.ProposeWait?
  }

  lemma ListAction(cfg: Config, w0: World, desired: DesiredSlice, rendered: RenderedWorld, s: State,
                   root: nat, n: nat, ch: Choice)
    requires Proposing(cfg, w0, desired, rendered, s, root, n)
    requires s.pc.Running? && s.pc.at.ProposeList?
    ensures Proposing(cfg, w0, desired, rendered, StepPull(s, ch), root, n)
    ensures StepPull(s, ch).world == s.world && StepPull(s, ch).approved == s.approved
    ensures Usable(s.world.pulls, desired.environment, ch.number) ==> MovesOn(s, StepPull(s, ch))
  {
    hide AwaitHead, RefsForm, PullsForm, OpenPulls, EnvBranch, ProposalBranch, BaseOf, StatePath,
         IsDraft;
  }

  lemma WatchAction(cfg: Config, w0: World, desired: DesiredSlice, rendered: RenderedWorld, s: State,
                    root: nat, n: nat, ch: Choice)
    requires Proposing(cfg, w0, desired, rendered, s, root, n)
    requires s.pc.Running? && (s.pc.at.ProposeUpdate? || s.pc.at.ProposeWait?)
    ensures Proposing(cfg, w0, desired, rendered, StepPull(s, ch), root, n)
    ensures StepPull(s, ch).world == s.world && StepPull(s, ch).approved == s.approved
    ensures Synced(s.world, desired.environment) ==> MovesOn(s, StepPull(s, ch))
  {
    var e, at := desired.environment, s.pc.at;
    var left := if at.ProposeUpdate? then 3 else at.left - 1;
    assert s.world.Load(e) == w0.Load(e);
    AwaitPoint(cfg, w0, desired, rendered, s.world, root, at.commit, at.number, left);
    var next := AwaitHead(s.world.Load(e), desired, ProposePlan(rendered), rendered, at.commit,
                          at.number, s.world.pulls[at.number].head, left);
    assert StepPull(s, ch) == Goto(s, next) by {
      hide AwaitHead, RefsForm, PullsForm, EnvBranch, ProposalBranch, BaseOf, StatePath, IsDraft,
           Readable, Projectable;
    }
    assert Synced(s.world, e) ==> s.world.pulls[at.number].head == at.commit by {
      hide AwaitHead, RefsForm, PullsForm, EnvBranch, ProposalBranch, BaseOf, StatePath, IsDraft,
           Readable, Projectable;
    }
    hide StepPull, AwaitHead, ProposePoint, RefsForm, PullsForm, EnvBranch, ProposalBranch, BaseOf,
         StatePath, IsDraft, OpenPulls, Synced, Readable, Projectable;
  }

  lemma OpeningKeepsForm(w0: World, e: string, pulls: map<nat, Pull>, n: nat, k: nat, head: Commit)
    requires PullsForm(w0, e, pulls, n) && OpenPulls(pulls, e) == {} && k !in pulls
    ensures var pulls' := pulls[k := Pull(EnvBranch(e), ProposalBranch(e), head, Open)];
            PullsForm(w0, e, pulls', k) && OpenPulls(pulls', e) == {k}
  {
    FormWithNoneOpen(w0, e, pulls, n);
    hide EnvBranch, ProposalBranch;
  }

  lemma CreateAction(cfg: Config, w0: World, desired: DesiredSlice, rendered: RenderedWorld, s: State,
                     root: nat, n: nat, ch: Choice)
    requires Proposing(cfg, w0, desired, rendered, s, root, n)
    requires s.pc.Running? && s.pc.at.ProposeCreate? && ch.number !in s.world.pulls
    ensures var s' := StepPull(s, ch);
            Proposing(cfg, w0, desired, rendered, s', root, ch.number) &&
            OpenPulls(s'.world.pulls, desired.environment) == {ch.number} &&
            s'.approved == s.approved && MovesOn(s, s')
  {
    var e, at := desired.environment, s.pc.at;
    assert OpenPulls(s.world.pulls, e) == {} && s.world.Ref(ProposalBranch(e)) == Some(at.commit) by {
      hide RefsForm, PullsForm, OpenPulls, EnvBranch, ProposalBranch, BaseOf, StatePath, IsDraft;
    }
    OpeningKeepsForm(w0, e, s.world.pulls, n, ch.number, at.commit);
    var pulls :=
      s.world.pulls[ch.number := Pull(EnvBranch(e), ProposalBranch(e), at.commit, Open)];
    var withPull := s.world.(pulls := pulls);
    assert withPull.Load(e) == w0.Load(e);
    AwaitPoint(cfg, w0, desired, rendered, withPull, root, at.commit, ch.number, 3);
    var next := AwaitHead(w0.Load(e), desired, ProposePlan(rendered), rendered, at.commit,
                          ch.number, at.commit, 3);
    assert StepPull(s, ch) == Goto(WithPulls(s, pulls), next) by {
      hide AwaitHead, RefsForm, PullsForm, OpenPulls, BaseOf, IsDraft, StatePath;
    }
    assert RefsForm(w0, desired, rendered, withPull, root) by {
      hide BaseOf, EnvBranch, ProposalBranch, SetRef, IsDraft;
    }
    hide StepPull, AwaitHead, ProposePoint, RefsForm, PullsForm, EnvBranch, ProposalBranch, BaseOf,
         StatePath, IsDraft, OpenPulls;
  }

  /* ---------------------------------------------------------------- One action of the pass */

  predicate AtMostOne(pulls: map<nat, Pull>, e: string) {
    forall n, m | n in OpenPulls(pulls, e) && m in OpenPulls(pulls, e) :: n == m
  }

  lemma TheOpenOneIsUsable(w0: World, e: string, pulls: map<nat, Pull>, n: nat, k: nat)
    requires PullsForm(w0, e, pulls, n) && AtMostOne(w0.pulls, e)
    requires k in OpenPulls(pulls, e)
    ensures OpenPulls(pulls, e) == {k} && Usable(w0.pulls, e, k)
    ensures pulls == w0.pulls[k := Pull(EnvBranch(e), ProposalBranch(e), pulls[k].head, Open)]
  {
    if pulls == w0.pulls {
      assert OpenPulls(pulls, e) == {k};
    } else {
      assert OpenPulls(pulls, e) == {n};
    }
    hide EnvBranch, ProposalBranch;
  }

  /** Saving what is unchanged: the base holds the render, and only it may be new. */
  lemma SavesUnchanged(cfg: Config, w0: World, desired: DesiredSlice, rendered: RenderedWorld,
                       s: State, root: nat, n: nat, ch: Choice)
    requires Proposing(cfg, w0, desired, rendered, s, root, n)
    requires s.pc.Running? && s.pc.at.Save? && BaseOf(w0, desired, root).tree == rendered.tree
    ensures Proposed(cfg, w0, desired, rendered, Step(cfg, s, ch), root)
  {
    var e, base := desired.environment, BaseOf(w0, desired, root);
    BranchNamesAreApart(e, e);
    assert s.world.refs == w0.refs[EnvBranch(e) := base] by {
      hide EnvBranch, ProposalBranch, BaseOf, OpenPulls, IsDraft, PullsForm;
    }
    assert Step(cfg, s, ch).world.pulls == s.world.pulls;
    hide EnvBranch, ProposalBranch, BaseOf, OpenPulls, IsDraft, PullsForm, RefsForm;
  }

  lemma SavesProposal(cfg: Config, w0: World, desired: DesiredSlice, rendered: RenderedWorld,
                      s: State, root: nat, n: nat, ch: Choice)
    requires Proposing(cfg, w0, desired, rendered, s, root, n)
    requires AtMostOne(w0.pulls, desired.environment)
    requires s.pc.Running? && s.pc.at.Save? && BaseOf(w0, desired, root).tree != rendered.tree
    ensures Proposed(cfg, w0, desired, rendered, Step(cfg, s, ch), root)
  {
    var e, base := desired.environment, BaseOf(w0, desired, root);
    var branch, review := EnvBranch(e), ProposalBranch(e);
    var k := s.pc.at.state.proposal.value.proposal.number;
    var draft := s.world.Ref(review).value;
    TheOpenOneIsUsable(w0, e, s.world.pulls, n, k);
    BranchNamesAreApart(e, e);
    assert s.world.refs == w0.refs[branch := base][review := draft] by {
      hide EnvBranch, ProposalBranch, BaseOf, OpenPulls, IsDraft, PullsForm;
    }
    assert Step(cfg, s, ch).world == ProposedWorld(w0, desired, rendered, root, draft.stamp, k) by {
      hide EnvBranch, ProposalBranch, BaseOf, OpenPulls, PullsForm, RefsForm, PendingState;
    }
    hide Step, ProposedWorld, RefsForm, PullsForm, ProposePoint, Usable, BaseOf, EnvBranch,
         ProposalBranch;
  }

  lemma ProposeTick(cfg: Config, w0: World, desired: DesiredSlice, rendered: RenderedWorld, s: State,
                    root: nat, n: nat, ch: Choice) returns (root': nat, n': nat)
    requires RendersAs(cfg, desired, rendered) && AtMostOne(w0.pulls, desired.environment)
    requires Proposing(cfg, w0, desired, rendered, s, root, n) && s.pc.Running?
    requires s.pc.at.ProposeCreate? ==> ch.number !in s.world.pulls
    ensures Step(cfg, s, ch).approved == s.approved
    ensures s.pc.at.Save? ==> Proposed(cfg, w0, desired, rendered, Step(cfg, s, ch), root)
    ensures !s.pc.at.Save? ==> Proposing(cfg, w0, desired, rendered, Step(cfg, s, ch), root', n')
    ensures var s', e := Step(cfg, s, ch), desired.environment;
            !s.pc.at.Save? && CanPropose(cfg, w0, desired, rendered) &&
            Usable(s.world.pulls, e, ch.number) && (Watching(s.pc.at) ==> Synced(s.world, e)) ==>
              MovesOn(s, s') && Usable(s'.world.pulls, e, ch.number)
  {
    root', n' := root, n;
    var at := s.pc.at;
    if at.Save? {
      if BaseOf(w0, desired, root).tree == rendered.tree {
        SavesUnchanged(cfg, w0, desired, rendered, s, root, n, ch);
      } else {
        SavesProposal(cfg, w0, desired, rendered, s, root, n, ch);
      }
      StepPulls(cfg, s, ch);
      hide Step, Proposing, Proposed;
    } else if at.Render? {
      RenderAction(cfg, w0, desired, rendered, s, root, n, ch);
      hide Step, Proposing, RendersAs, Usable, Synced;
    } else if at.ProposeLs? || at.ProposeFetch? || at.ProposeLsProposal? {
      root' := ProposeReads(cfg, w0, desired, rendered, s, root, n, ch);
      GitStepsKeepPulls(cfg, s, ch);
      hide StepPropose, Proposing, RendersAs, Usable, Synced, PullsStep;
    } else if at.ProposeBootstrap? || at.ProposePush? {
      ProposePushes(cfg, w0, desired, rendered, s, root, n, ch);
      GitStepsKeepPulls(cfg, s, ch);
      hide StepPropose, Proposing, RendersAs, Usable, Synced, PullsStep;
    } else if at.ProposeList? {
      ListAction(cfg, w0, desired, rendered, s, root, n, ch);
      hide StepPull, Proposing, RendersAs, Usable, Synced;
    } else if at.ProposeCreate? {
      n' := ch.number;
      CreateAction(cfg, w0, desired, rendered, s, root, n, ch);
      hide StepPull, Proposing, RendersAs, Synced, OpenPulls;
    } else {
      WatchAction(cfg, w0, desired, rendered, s, root, n, ch);
      hide StepPull, Proposing, RendersAs, Usable, Synced;
    }
  }

  lemma RenderAction(cfg: Config, w0: World, desired: DesiredSlice, rendered: RenderedWorld,
                     s: State, root: nat, n: nat, ch: Choice)
    requires RendersAs(cfg, desired, rendered)
    requires Proposing(cfg, w0, desired, rendered, s, root, n) && s.pc.Running? && s.pc.at.Render?
    ensures var s' := Step(cfg, s, ch);
            Proposing(cfg, w0, desired, rendered, s', root, n) && s'.world == s.world &&
            s'.approved == s.approved && MovesOn(s, s')
  {
    assert cfg.render(ch.runner, desired) == Some(rendered);
    hide RefsForm, PullsForm, OpenPulls, EnvBranch, ProposalBranch, BaseOf, IsDraft, RendersAs;
  }

  /* ---------------------------------------------------------------- Runs with refreshed heads */

  /** Not yet recorded, or recorded and over. */
  ghost predicate ProposePhase(cfg: Config, w0: World, desired: DesiredSlice,
                               rendered: RenderedWorld, s: State,
                               root: nat, n: nat)
  {
    Proposing(cfg, w0, desired, rendered, s, root, n) || Proposed(cfg, w0, desired, rendered, s, root)
  }

  ghost predicate ProposeShape(cfg: Config, w0: World, desired: DesiredSlice,
                               rendered: RenderedWorld, s: State) {
    OnlyPlan(s, desired, w0.Load(desired.environment), ProposePlan(rendered)) &&
    exists root, n :: ProposePhase(cfg, w0, desired, rendered, s, root, n)
  }

  /** What the recorded state is, once it is recorded. */
  lemma ProposedFile(cfg: Config, w0: World, desired: DesiredSlice, rendered: RenderedWorld,
                     s: State, root: nat)
    requires Proposed(cfg, w0, desired, rendered, s, root)
    ensures var e, state := desired.environment, s.world.Load(desired.environment);
            || state == PublishedState(desired, rendered.outputs, BaseOf(w0, desired, root))
            || (exists n, draft ::
                  n in s.world.pulls && s.world.pulls[n].head == draft &&
                  s.world.pulls[n].state.Open? &&
                  state == PendingState(w0.Load(e), desired, ProposePlan(rendered), n, draft))
  {
    var e, base := desired.environment, BaseOf(w0, desired, root);
    if base.tree != rendered.tree {
      var stamp, n :| Usable(w0.pulls, e, n) &&
                      s.world == ProposedWorld(w0, desired, rendered, root, stamp, n);
      var draft := CommitOver(rendered, base, stamp);
      assert n in s.world.pulls && s.world.pulls[n].head == draft && s.world.pulls[n].state.Open?;
      assert s.world.Load(e) ==
             PendingState(w0.Load(e), desired, ProposePlan(rendered), n, draft) by {
        hide BaseOf, PendingState, EnvBranch, ProposalBranch;
      }
    }
    hide PendingState, EnvBranch, ProposalBranch, BaseOf, StatePath, Usable, OpenPulls,
         PublishedState, ProposedWorld;
  }

  /** A pull request that is open on the pending commit is waited for. */
  lemma PendingNeedsNoPlan(cfg: Config, world: World, desired: DesiredSlice, over: TargetState,
                           rendered: RenderedWorld, n: nat, draft: Commit, shown: MergeIdentity,
                           runner: PreparedRunner)
    requires desired.BorrowedEnvironment().None? && desired.components != []
    requires cfg.policies.ForEnvironment(desired.environment) == PrGated
    requires n in world.pulls && world.pulls[n].head == draft && world.pulls[n].state.Open?
    requires world.Load(desired.environment) ==
             PendingState(over, desired, ProposePlan(rendered), n, draft)
    ensures MakePlan(cfg, world, desired, shown, runner).None?
  {
    hide StatePath, EnvBranch, ProposalBranch;
  }

  lemma ProposePlans(cfg: Config, w0: World, desired: DesiredSlice, rendered: RenderedWorld,
                     s: State, root: nat, n: nat, shown: MergeIdentity, runner: PreparedRunner)
    requires RendersAs(cfg, desired, rendered) && ToPropose(cfg, w0, desired)
    requires ProposePhase(cfg, w0, desired, rendered, s, root, n)
    ensures var plan, e := MakePlan(cfg, s.world, desired, shown, runner), desired.environment;
            plan == if s.world.Load(e) == w0.Load(e) && Observable(s.world, e, shown)
                    then Some(ProposePlan(rendered)) else None
    ensures s.world.Load(desired.environment) == w0.Load(desired.environment) <==>
            !Proposed(cfg, w0, desired, rendered, s, root)
    ensures s.world.Load(desired.environment) == w0.Load(desired.environment) ==>
            Proposing(cfg, w0, desired, rendered, s, root, n)
  {
    var e := desired.environment;
    if Proposed(cfg, w0, desired, rendered, s, root) {
      ProposedFile(cfg, w0, desired, rendered, s, root);
      var state := s.world.Load(e);
      if state == PublishedState(desired, rendered.outputs, BaseOf(w0, desired, root)) {
        PublishedNeedsNoPlan(cfg, s.world, desired, shown, runner);
      } else {
        var k, draft :| k in s.world.pulls && s.world.pulls[k].head == draft &&
                        s.world.pulls[k].state.Open? &&
                        state == PendingState(w0.Load(e), desired, ProposePlan(rendered), k, draft);
        PendingNeedsNoPlan(cfg, s.world, desired, w0.Load(e), rendered, k, draft, shown, runner);
      }
      hide MakePlan, Proposed, Proposing, BaseOf, StatePath;
    } else {
      assert s.world.Load(e) == w0.Load(e);
      PlanProposes(cfg, s.world, desired, rendered, shown, runner);
      hide MakePlan, Proposed, Proposing, StatePath, Observable;
    }
  }

  /** A refreshed head keeps the form; what is recorded is fresh already. */
  lemma SyncKeeps(cfg: Config, w0: World, desired: DesiredSlice, rendered: RenderedWorld, s: State,
                  root: nat, n: nat, k: nat) returns (n': nat)
    requires AtMostOne(w0.pulls, desired.environment)
    requires Proposing(cfg, w0, desired, rendered, s, root, n)
    requires k in OpenPulls(s.world.pulls, desired.environment)
    requires ProposalBranch(desired.environment) in s.world.refs
    ensures var e := desired.environment;
            var head := s.world.refs[ProposalBranch(e)];
            var s' := WithPulls(s, s.world.pulls[k := s.world.pulls[k].(head := head)]);
            Proposing(cfg, w0, desired, rendered, s', root, n') &&
            OpenPulls(s'.world.pulls, e) == OpenPulls(s.world.pulls, e) && Synced(s'.world, e)
  {
    var e := desired.environment;
    n' := k;
    var head := s.world.refs[ProposalBranch(e)];
    var pulls := s.world.pulls[k := s.world.pulls[k].(head := head)];
    var s' := WithPulls(s, pulls);
    TheOpenOneIsUsable(w0, e, s.world.pulls, n, k);
    assert OpenPulls(pulls, e) == OpenPulls(s.world.pulls, e) by {
      hide EnvBranch, ProposalBranch;
    }
    assert PullsForm(w0, e, pulls, k) by {
      hide EnvBranch, ProposalBranch, OpenPulls;
    }
    assert RefsForm(w0, desired, rendered, s'.world, root) by {
      hide BaseOf, EnvBranch, ProposalBranch, SetRef, IsDraft;
    }
    assert ProposePoint(cfg, w0, desired, rendered, s'.world, s'.pc, root) by {
      hide RefsForm, PullsForm, EnvBranch, ProposalBranch, BaseOf, IsDraft, StatePath, OpenPulls;
    }
    hide ProposePoint, RefsForm, PullsForm, EnvBranch, ProposalBranch, BaseOf, OpenPulls;
  }

  lemma SyncKeepsPulls(w0: World, e: string, pulls: map<nat, Pull>, n: nat, k: nat, head: Commit)
    requires PullsForm(w0, e, pulls, n) && AtMostOne(w0.pulls, e) && k in OpenPulls(pulls, e)
    ensures PullsForm(w0, e, pulls[k := pulls[k].(head := head)], k)
  {
    TheOpenOneIsUsable(w0, e, pulls, n, k);
    hide EnvBranch, ProposalBranch, OpenPulls;
  }

  lemma OnlyOneOpens(w0: World, e: string, n: nat, head: Commit, k: nat)
    requires Usable(w0.pulls, e, n)
    requires k in OpenPulls(w0.pulls[n := Pull(EnvBranch(e), ProposalBranch(e), head, Open)], e)
    ensures k == n
  {
    assert k == n || k in OpenPulls(w0.pulls, e);
    hide EnvBranch, ProposalBranch;
  }

  lemma RecordedIsSynced(w0: World, desired: DesiredSlice, rendered: RenderedWorld, world: World,
                         root: nat, stamp: nat, n: nat, k: nat)
    requires Usable(w0.pulls, desired.environment, n)
    requires world == ProposedWorld(w0, desired, rendered, root, stamp, n)
    requires k in OpenPulls(world.pulls, desired.environment)
    ensures Some(world.pulls[k].head) == world.Ref(ProposalBranch(desired.environment))
  {
    OnlyOneOpens(w0, desired.environment, n,
                 CommitOver(rendered, BaseOf(w0, desired, root), stamp), k);
    hide BaseOf, EnvBranch, ProposalBranch, PendingState, StatePath, Usable, OpenPulls, CommitOver;
  }

  lemma SyncKeepsUnchanged(cfg: Config, w0: World, desired: DesiredSlice, rendered: RenderedWorld,
                           s: State, root: nat, k: nat, head: Commit)
    requires AtMostOne(w0.pulls, desired.environment)
    requires Proposed(cfg, w0, desired, rendered, s, root)
    requires BaseOf(w0, desired, root).tree == rendered.tree
    requires k in OpenPulls(s.world.pulls, desired.environment)
    ensures Proposed(cfg, w0, desired, rendered,
                     WithPulls(s, s.world.pulls[k := s.world.pulls[k].(head := head)]), root)
  {
    var n :| PullsForm(w0, desired.environment, s.world.pulls, n);
    SyncKeepsPulls(w0, desired.environment, s.world.pulls, n, k, head);
    hide PullsForm, OpenPulls, BaseOf, EnvBranch, ProposalBranch, AtMostOne, ProposedWorld, Usable,
         StatePath, Readable, Projectable, PublishedState;
  }

  lemma RecordedIsFresh(cfg: Config, w0: World, desired: DesiredSlice, rendered: RenderedWorld,
                        s: State, root: nat, k: nat)
    requires Proposed(cfg, w0, desired, rendered, s, root)
    requires BaseOf(w0, desired, root).tree != rendered.tree
    requires k in OpenPulls(s.world.pulls, desired.environment)
    ensures Some(s.world.pulls[k].head) == s.world.Ref(ProposalBranch(desired.environment))
  {
    var stamp, n :| Usable(w0.pulls, desired.environment, n) &&
                    s.world == ProposedWorld(w0, desired, rendered, root, stamp, n);
    RecordedIsSynced(w0, desired, rendered, s.world, root, stamp, n, k);
    hide *;
  }

  lemma SyncKeepsRecorded(cfg: Config, w0: World, desired: DesiredSlice, rendered: RenderedWorld,
                          s: State, root: nat, k: nat)
    requires AtMostOne(w0.pulls, desired.environment)
    requires Proposed(cfg, w0, desired, rendered, s, root)
    requires k in OpenPulls(s.world.pulls, desired.environment)
    requires ProposalBranch(desired.environment) in s.world.refs
    ensures var head := s.world.refs[ProposalBranch(desired.environment)];
            Proposed(cfg, w0, desired, rendered,
                     WithPulls(s, s.world.pulls[k := s.world.pulls[k].(head := head)]), root)
  {
    var head := s.world.refs[ProposalBranch(desired.environment)];
    hide Proposed, OpenPulls, AtMostOne, BaseOf, EnvBranch, ProposalBranch;
    if BaseOf(w0, desired, root).tree == rendered.tree {
      SyncKeepsUnchanged(cfg, w0, desired, rendered, s, root, k, head);
    } else {
      RecordedIsFresh(cfg, w0, desired, rendered, s, root, k);
      assert s.world.pulls[k := s.world.pulls[k].(head := head)] == s.world.pulls;
      assert WithPulls(s, s.world.pulls[k := s.world.pulls[k].(head := head)]) == s;
    }
  }

  /** A crash ends the pass; a start begins one over the initial target state. */
  lemma CrashOrStart(cfg: Config, w0: World, desired: DesiredSlice, rendered: RenderedWorld,
                     s: State, root: nat, n: nat)
    requires Proposing(cfg, w0, desired, rendered, s, root, n)
    ensures Proposing(cfg, w0, desired, rendered, s.(pc := Idle), root, n)
    ensures Proposing(cfg, w0, desired, rendered,
                      s.(pc := Running(desired, Applying(ProposePlan(rendered)), Render)), root, n)
  {
    hide RefsForm, PullsForm, EnvBranch, ProposalBranch, BaseOf, OpenPulls, IsDraft;
  }

  lemma ProposePhaseStep(cfg: Config, w0: World, desired: DesiredSlice, rendered: RenderedWorld,
                         s: State, root: nat, n: nat, l: Label)
    returns (root': nat, n': nat)
    requires RendersAs(cfg, desired, rendered) && ToPropose(cfg, w0, desired)
    requires AtMostOne(w0.pulls, desired.environment)
    requires OnlyPlan(s, desired, w0.Load(desired.environment), ProposePlan(rendered))
    requires ProposePhase(cfg, w0, desired, rendered, s, root, n) && AloneOrSync(l, desired)
    ensures ProposePhase(cfg, w0, desired, rendered, Do(cfg, s, l), root', n')
    ensures OnlyPlan(Do(cfg, s, l), desired, w0.Load(desired.environment), ProposePlan(rendered))
  {
    root', n' := root, n;
    var e := desired.environment;
    if Enabled(cfg, s, l) {
      match l
      case Tick(_, ch) =>
        assert !Proposed(cfg, w0, desired, rendered, s, root);
        root', n' := ProposeTick(cfg, w0, desired, rendered, s, root, n, ch);
        if s.pc.at.Save? {
          root' := root;
        }
        hide Step, Proposing, Proposed, RendersAs, ToPropose, AtMostOne, OpenPulls, Usable;
      case Planned(_, shown, runner) =>
        ProposePlans(cfg, w0, desired, rendered, s, root, n, shown, runner);
        hide MakePlan, ToPropose, RendersAs, StatePath;
      case Start(_) =>
        ProposePlans(cfg, w0, desired, rendered, s, root, n, Shown, SOME_RUNNER);
        CrashOrStart(cfg, w0, desired, rendered, s, root, n);
        hide MakePlan, ToPropose, RendersAs, StatePath, Proposing, Proposed;
      case Crash(_) =>
        assert !Proposed(cfg, w0, desired, rendered, s, root);
        CrashOrStart(cfg, w0, desired, rendered, s, root, n);
        hide ToPropose, RendersAs, StatePath, Proposing, Proposed;
      case Sync(_, k) =>
        assert k in OpenPulls(s.world.pulls, e);
        if Proposed(cfg, w0, desired, rendered, s, root) {
          SyncKeepsRecorded(cfg, w0, desired, rendered, s, root, k);
        } else {
          n' := SyncKeeps(cfg, w0, desired, rendered, s, root, n, k);
        }
        hide ToPropose, RendersAs, StatePath, Proposing, Proposed, OpenPulls, AtMostOne;
    }
  }

  lemma {:induction false} ProposeShapeRun(cfg: Config, w0: World, desired: DesiredSlice,
                                           rendered: RenderedWorld, s: State, labels: seq<Label>)
    requires RendersAs(cfg, desired, rendered) && ToPropose(cfg, w0, desired)
    requires AtMostOne(w0.pulls, desired.environment)
    requires ProposeShape(cfg, w0, desired, rendered, s) && AllAloneOrSync(labels, desired)
    ensures ProposeShape(cfg, w0, desired, rendered, Exec(cfg, s, labels))
    decreases |labels|
  {
    if labels != [] {
      var root, n :| ProposePhase(cfg, w0, desired, rendered, s, root, n);
      var root', n' := ProposePhaseStep(cfg, w0, desired, rendered, s, root, n, labels[0]);
      ProposeShapeRun(cfg, w0, desired, rendered, Do(cfg, s, labels[0]), labels[1..]);
    }
    hide Do, ToPropose, RendersAs, ProposePhase, AtMostOne;
  }

  /* ---------------------------------------------------------------- Finishing */

  /** The actions of a pass that uses pull request `k`, its head refreshed before each. */
  function RefreshedTicks(e: string, k: nat, choices: seq<Choice>): (labels: seq<Label>)
    ensures |labels| == 2 * |choices|
  {
    if choices == [] then []
    else [Sync(e, k), Tick(e, choices[0])] + RefreshedTicks(e, k, choices[1..])
  }

  /** The pass is over, or can be finished with pull request `k` in this many actions. */
  ghost predicate Finishing(cfg: Config, w0: World, desired: DesiredSlice, rendered: RenderedWorld,
                            s: State, root: nat, n: nat, k: nat, left: nat)
  {
    || Proposed(cfg, w0, desired, rendered, s, root)
    || (Proposing(cfg, w0, desired, rendered, s, root, n) &&
        s.pc.Running? && ProposeRank(s.pc.at) < left && Usable(s.world.pulls, desired.environment, k))
  }

  /** A refresh, if it is enabled, leaves the heads fresh where a pass watches them. */
  lemma RefreshFirst(cfg: Config, w0: World, desired: DesiredSlice, rendered: RenderedWorld,
                     s: State, root: nat, n: nat, k: nat) returns (n': nat)
    requires AtMostOne(w0.pulls, desired.environment)
    requires Proposing(cfg, w0, desired, rendered, s, root, n) && s.pc.Running?
    requires Usable(s.world.pulls, desired.environment, k)
    ensures var e := desired.environment;
            var t := Do(cfg, s, Sync(e, k));
            Proposing(cfg, w0, desired, rendered, t, root, n') && t.pc == s.pc &&
            Usable(t.world.pulls, e, k) && (Watching(t.pc.at) ==> Synced(t.world, e))
  {
    n' := n;
    var e := desired.environment;
    var sync := Sync(e, k);
    WatchedIsUsable(cfg, w0, desired, rendered, s, root, n, k);
    if Enabled(cfg, s, sync) {
      n' := SyncKeeps(cfg, w0, desired, rendered, s, root, n, k);
      assert OpenPulls(s.world.pulls, e) == {k};
    }
    hide Proposing, OpenPulls, EnvBranch, ProposalBranch, Synced;
  }

  lemma WatchedIsUsable(cfg: Config, w0: World, desired: DesiredSlice, rendered: RenderedWorld,
                        s: State, root: nat, n: nat, k: nat)
    requires Proposing(cfg, w0, desired, rendered, s, root, n) && s.pc.Running?
    requires Usable(s.world.pulls, desired.environment, k)
    ensures Watching(s.pc.at) ==>
              k in OpenPulls(s.world.pulls, desired.environment) &&
              ProposalBranch(desired.environment) in s.world.refs
  {
    hide RefsForm, PullsForm, EnvBranch, ProposalBranch, BaseOf, OpenPulls, IsDraft, StatePath;
  }

  lemma RefreshThenTick(cfg: Config, w0: World, desired: DesiredSlice, rendered: RenderedWorld,
                        s: State, root: nat, n: nat, k: nat, ch: Choice, left: nat)
    returns (root': nat, n': nat)
    requires RendersAs(cfg, desired, rendered) && AtMostOne(w0.pulls, desired.environment)
    requires CanPropose(cfg, w0, desired, rendered)
    requires Finishing(cfg, w0, desired, rendered, s, root, n, k, left) && ch.number == k && left > 0
    ensures Finishing(cfg, w0, desired, rendered,
                      Do(cfg, Do(cfg, s, Sync(desired.environment, k)),
                         Tick(desired.environment, ch)),
                      root', n', k, left - 1)
  {
    root', n' := root, n;
    var e := desired.environment;
    var sync, tick := Sync(e, k), Tick(e, ch);
    var t := Do(cfg, s, sync);
    if Proposed(cfg, w0, desired, rendered, s, root) {
      if Enabled(cfg, s, sync) {
        assert k in OpenPulls(s.world.pulls, e);
        SyncKeepsRecorded(cfg, w0, desired, rendered, s, root, k);
        hide Proposed, Proposing, EnvBranch, ProposalBranch;
      } else {
        hide Proposed, Proposing, EnvBranch, ProposalBranch;
      }
      assert Proposed(cfg, w0, desired, rendered, t, root);
      IdleDoesNotTick(cfg, t, tick);
    } else {
      var m := RefreshFirst(cfg, w0, desired, rendered, s, root, n, k);
      EnabledTick(cfg, w0, desired, rendered, t, root, m, tick);
      root', n' := ProposeTick(cfg, w0, desired, rendered, t, root, m, ch);
      if t.pc.at.Save? {
        root' := root;
      }
    }
    hide Do, Step, Proposed, Proposing, Usable, Synced;
  }

  lemma IdleDoesNotTick(cfg: Config, s: State, tick: Label)
    requires tick.Tick? && s.pc.Idle?
    ensures Do(cfg, s, tick) == s
  {
  }

  /** A pass that may use pull request `k` is never held up: opening it is enabled. */
  lemma EnabledTick(cfg: Config, w0: World, desired: DesiredSlice, rendered: RenderedWorld, s: State,
                    root: nat, n: nat, tick: Label)
    requires Proposing(cfg, w0, desired, rendered, s, root, n) && s.pc.Running?
    requires tick.Tick? && tick.environment == desired.environment
    requires Usable(s.world.pulls, desired.environment, tick.choice.number)
    ensures Do(cfg, s, tick) == Step(cfg, s, tick.choice)
    ensures s.pc.at.ProposeCreate? ==> tick.choice.number !in s.world.pulls
  {
    hide Step, RefsForm, PullsForm, EnvBranch, ProposalBranch, BaseOf, OpenPulls, IsDraft,
         StatePath;
  }

  lemma {:induction false} RefreshedTicksFinish(cfg: Config, w0: World, desired: DesiredSlice,
                                                rendered: RenderedWorld, s: State, root: nat,
                                                n: nat, k: nat, choices: seq<Choice>)
    returns (root': nat)
    requires RendersAs(cfg, desired, rendered) && AtMostOne(w0.pulls, desired.environment)
    requires CanPropose(cfg, w0, desired, rendered)
    requires Finishing(cfg, w0, desired, rendered, s, root, n, k, |choices|)
    requires forall ch | ch in choices :: ch.number == k
    ensures Proposed(cfg, w0, desired, rendered,
                     Exec(cfg, s, RefreshedTicks(desired.environment, k, choices)), root')
    decreases |choices|
  {
    var e := desired.environment;
    root' := root;
    if choices != [] {
      var sync, tick := Sync(e, k), Tick(e, choices[0]);
      var t := Do(cfg, Do(cfg, s, sync), tick);
      var rest := RefreshedTicks(e, k, choices[1..]);
      var root1, n1 :=
        RefreshThenTick(cfg, w0, desired, rendered, s, root, n, k, choices[0], |choices|);
      root' := RefreshedTicksFinish(cfg, w0, desired, rendered, t, root1, n1, k, choices[1..]);
      ExecTwo(cfg, s, sync, tick, rest);
    }
    hide Do, Proposed, Proposing, Usable, RendersAs, AtMostOne;
  }

  /* ---------------------------------------------------------------- Main results */

  /** A pass that uses pull request `k` and finds its head refreshed. */
  function RefreshedPass(desired: DesiredSlice, shown: MergeIdentity, runner: PreparedRunner,
                         k: nat, choices: seq<Choice>): seq<Label>
  {
    [Planned(desired, shown, runner), Start(desired.environment)]
    + RefreshedTicks(desired.environment, k, choices)
  }

  /** A pass from idle over the initial target state begins by rendering, or does nothing. */
  lemma PassStartsProposing(cfg: Config, w0: World, desired: DesiredSlice, rendered: RenderedWorld,
                            s: State, root: nat, n: nat, k: nat, shown: MergeIdentity,
                            runner: PreparedRunner)
    requires RendersAs(cfg, desired, rendered) && ToPropose(cfg, w0, desired)
    requires OnlyPlan(s, desired, w0.Load(desired.environment), ProposePlan(rendered))
    requires ProposePhase(cfg, w0, desired, rendered, s, root, n) && s.pc.Idle?
    requires s.world.Load(desired.environment) == w0.Load(desired.environment)
    requires Usable(s.world.pulls, desired.environment, k)
    ensures var e := desired.environment;
            var t := Do(cfg, Do(cfg, s, Planned(desired, shown, runner)), Start(e));
            if Observable(s.world, e, shown) || CanStart(s, e) then
              Finishing(cfg, w0, desired, rendered, t, root, n, k, 9)
            else t == s
  {
    ProposePlans(cfg, w0, desired, rendered, s, root, n, shown, runner);
    CrashOrStart(cfg, w0, desired, rendered, s, root, n);
    hide MakePlan, ToPropose, RendersAs, StatePath, Proposing, Proposed, Usable, AtMostOne, Observable;
  }

  /** Without a running pass, refreshed heads and ticks record nothing. */
  lemma {:induction false} IdleRecordsNothing(cfg: Config, s: State, e: string, k: nat,
                                              choices: seq<Choice>)
    requires s.pc.Idle?
    ensures Exec(cfg, s, RefreshedTicks(e, k, choices)).world.files == s.world.files
    decreases |choices|
  {
    if choices != [] {
      var sync, tick := Sync(e, k), Tick(e, choices[0]);
      ExecTwo(cfg, s, sync, tick, RefreshedTicks(e, k, choices[1..]));
      IdleDoesNotTick(cfg, Do(cfg, s, sync), tick);
      IdleRecordsNothing(cfg, Do(cfg, s, sync), e, k, choices[1..]);
    }
    hide EnvBranch, ProposalBranch;
  }

  lemma RefreshedTicksAreAlone(desired: DesiredSlice, k: nat, choices: seq<Choice>)
    ensures AllAloneOrSync(RefreshedTicks(desired.environment, k, choices), desired)
  {
    if choices != [] {
      RefreshedTicksAreAlone(desired, k, choices[1..]);
    }
  }

  /** A pass over what cannot be reviewed records nothing. */
  lemma UnreviewableRecordsNothing(cfg: Config, w0: World, desired: DesiredSlice,
                                   rendered: RenderedWorld, s: State, k: nat,
                                   shown: MergeIdentity, runner: PreparedRunner,
                                   choices: seq<Choice>)
    requires RendersAs(cfg, desired, rendered) && ToPropose(cfg, w0, desired)
    requires AtMostOne(w0.pulls, desired.environment)
    requires ProposeShape(cfg, w0, desired, rendered, s)
    requires !CanPropose(cfg, w0, desired, rendered)
    ensures Exec(cfg, s, RefreshedPass(desired, shown, runner, k, choices))
              .world.Load(desired.environment) == w0.Load(desired.environment)
  {
    var pass := RefreshedPass(desired, shown, runner, k, choices);
    RefreshedTicksAreAlone(desired, k, choices);
    ProposeShapeRun(cfg, w0, desired, rendered, s, pass);
    var t := Exec(cfg, s, pass);
    var root, n :| ProposePhase(cfg, w0, desired, rendered, t, root, n);
    BaseHolds(w0, desired, root);
    ProposePlans(cfg, w0, desired, rendered, t, root, n, shown, runner);
    assert !Proposed(cfg, w0, desired, rendered, t, root) by {
      hide BaseOf, EnvBranch, ProposalBranch, BaseTree, PullsForm, Usable, ProposedWorld, Readable,
           Projectable, StatePath;
    }
    hide Exec, ToPropose, RendersAs, Proposing, Proposed, AtMostOne, MakePlan, CanPropose,
         Observable;
  }

  /**
   * During an interrupted proposal, planning again proposes while nothing is recorded and the recorded
   * proposal can be observed; otherwise it has no plan.
   */
  lemma ReplanningProposes(cfg: Config, s0: State, desired: DesiredSlice, rendered: RenderedWorld,
                           labels: seq<Label>, shown: MergeIdentity, runner: PreparedRunner)
    requires s0.pc.Idle? && ToPropose(cfg, s0.world, desired)
    requires PlanOver(s0, desired, s0.world.Load(desired.environment), ProposePlan(rendered))
    requires RendersAs(cfg, desired, rendered) && AtMostOne(s0.world.pulls, desired.environment)
    requires AllAloneOrSync(labels, desired)
    ensures var s, e := Exec(cfg, s0, labels), desired.environment;
            MakePlan(cfg, s.world, desired, shown, runner) ==
            if s.world.Load(e) == s0.world.Load(e) && Observable(s.world, e, shown)
            then Some(ProposePlan(rendered)) else None
  {
    StartsInShape(cfg, s0.world, desired, rendered, s0);
    ProposeShapeRun(cfg, s0.world, desired, rendered, s0, labels);
    var s := Exec(cfg, s0, labels);
    var root, n :| ProposePhase(cfg, s0.world, desired, rendered, s, root, n);
    ProposePlans(cfg, s0.world, desired, rendered, s, root, n, shown, runner);
    hide Do, Exec, ToPropose, RendersAs, Proposing, Proposed, AtMostOne, MakePlan, Observable;
  }

  /**
   * Crash recovery of a proposal. Take a slice to propose, for the first time or over another pending
   * proposal, over any world with at most one open pull request, and any run of plans, starts,
   * actions, crashes and refreshed heads for it. As soon as the target state has changed, the world
   * is the one that an uninterrupted proposal makes of the initial world, up to the new commits'
   * stamps and the pull request's number. And whenever the run is idle with nothing recorded, one
   * more uninterrupted pass gets there if and only if the difference can be reviewed and the pass
   * can begin: the pull request of the recorded proposal, if any, shows the recorded commit, or a
   * plan at hand can still be started.
   */
  lemma ProposeSurvivesCrashes(cfg: Config, s0: State, desired: DesiredSlice,
                               rendered: RenderedWorld, labels: seq<Label>, shown: MergeIdentity,
                               runner: PreparedRunner, k: nat, choices: seq<Choice>)
    returns (root: nat)
    requires s0.pc.Idle? && ToPropose(cfg, s0.world, desired)
    requires PlanOver(s0, desired, s0.world.Load(desired.environment), ProposePlan(rendered))
    requires RendersAs(cfg, desired, rendered) && AtMostOne(s0.world.pulls, desired.environment)
    requires AllAloneOrSync(labels, desired)
    requires |choices| == 9 && forall ch | ch in choices :: ch.number == k
    ensures var s := Exec(cfg, s0, labels);
            s.world.Load(desired.environment) != s0.world.Load(desired.environment) ==>
              Proposed(cfg, s0.world, desired, rendered, s, root)
    ensures var s, e := Exec(cfg, s0, labels), desired.environment;
            var t := Exec(cfg, s, RefreshedPass(desired, shown, runner, k, choices));
            s.pc.Idle? && Usable(s.world.pulls, e, k) && s.world.Load(e) == s0.world.Load(e) ==>
              if CanPropose(cfg, s0.world, desired, rendered) &&
                 (Observable(s.world, e, shown) || CanStart(s, e))
              then Proposed(cfg, s0.world, desired, rendered, t, root)
              else t.world.Load(e) == s0.world.Load(e)
  {
    var e, w0 := desired.environment, s0.world;
    StartsInShape(cfg, w0, desired, rendered, s0);
    ProposeShapeRun(cfg, w0, desired, rendered, s0, labels);
    var s := Exec(cfg, s0, labels);
    var root0, n :| ProposePhase(cfg, w0, desired, rendered, s, root0, n);
    root := root0;
    ProposePlans(cfg, w0, desired, rendered, s, root, n, shown, runner);
    if s.pc.Idle? && Usable(s.world.pulls, e, k) && s.world.Load(e) == w0.Load(e) {
      root := OneMorePass(cfg, w0, desired, rendered, s, root, n, shown, runner, k, choices);
    }
    hide Do, Exec, ToPropose, RendersAs, Proposing, Proposed, Usable, AtMostOne, MakePlan,
         Observable, CanPropose, CanStart;
  }

  lemma OneMorePass(cfg: Config, w0: World, desired: DesiredSlice, rendered: RenderedWorld,
                    s: State, root0: nat, n: nat, shown: MergeIdentity, runner: PreparedRunner,
                    k: nat, choices: seq<Choice>)
    returns (root: nat)
    requires RendersAs(cfg, desired, rendered) && ToPropose(cfg, w0, desired)
    requires AtMostOne(w0.pulls, desired.environment)
    requires OnlyPlan(s, desired, w0.Load(desired.environment), ProposePlan(rendered))
    requires ProposePhase(cfg, w0, desired, rendered, s, root0, n) && s.pc.Idle?
    requires s.world.Load(desired.environment) == w0.Load(desired.environment)
    requires Usable(s.world.pulls, desired.environment, k)
    requires |choices| == 9 && forall ch | ch in choices :: ch.number == k
    ensures var e := desired.environment;
            var t := Exec(cfg, s, RefreshedPass(desired, shown, runner, k, choices));
            if CanPropose(cfg, w0, desired, rendered) &&
               (Observable(s.world, e, shown) || CanStart(s, e))
            then Proposed(cfg, w0, desired, rendered, t, root)
            else t.world.Load(e) == w0.Load(e)
  {
    var e := desired.environment;
    root := root0;
    if !CanPropose(cfg, w0, desired, rendered) {
      UnreviewableRecordsNothing(cfg, w0, desired, rendered, s, k, shown, runner, choices);
    } else {
      PassStartsProposing(cfg, w0, desired, rendered, s, root, n, k, shown, runner);
      var plan, start := Planned(desired, shown, runner), Start(e);
      ExecTwo(cfg, s, plan, start, RefreshedTicks(e, k, choices));
      if Observable(s.world, e, shown) || CanStart(s, e) {
        root := RefreshedTicksFinish(cfg, w0, desired, rendered, Do(cfg, Do(cfg, s, plan), start),
                                     root, n, k, choices);
      } else {
        IdleRecordsNothing(cfg, s, e, k, choices);
      }
    }
    hide Do, Exec, ToPropose, RendersAs, Proposing, Proposed, Usable, AtMostOne, MakePlan,
         Observable, CanPropose, CanStart;
  }

  lemma StartsInShape(cfg: Config, w0: World, desired: DesiredSlice, rendered: RenderedWorld,
                      s: State)
    requires s.pc.Idle? && s.world == w0
    requires PlanOver(s, desired, w0.Load(desired.environment), ProposePlan(rendered))
    ensures ProposeShape(cfg, w0, desired, rendered, s)
  {
    assert RefsForm(w0, desired, rendered, w0, 0) by {
      hide EnvBranch, ProposalBranch;
    }
    assert Proposing(cfg, w0, desired, rendered, s, 0, 0) by {
      hide RefsForm, EnvBranch, ProposalBranch;
    }
    assert ProposePhase(cfg, w0, desired, rendered, s, 0, 0);
    hide Proposing, Proposed;
  }

  /** What a finished proposal with something to propose leaves. */
  lemma ProposedWorldMeans(cfg: Config, w0: World, desired: DesiredSlice, rendered: RenderedWorld,
                           s: State, root: nat)
    requires Proposed(cfg, w0, desired, rendered, s, root)
    requires BaseOf(w0, desired, root).tree != rendered.tree
    ensures var e, w := desired.environment, s.world;
            var branch, review, state := EnvBranch(e), ProposalBranch(e), w.Load(e);
            w.Ref(branch) == Some(BaseOf(w0, desired, root)) &&
            (w0.Ref(branch).Some? ==> w.Ref(branch) == w0.Ref(branch)) &&
            w.Ref(review).Some? && w.Ref(review).value.tree == rendered.tree &&
            w.Ref(review).value.parents == [w.Ref(branch).value] &&
            (forall other :: other != branch && other != review ==> w.Ref(other) == w0.Ref(other)) &&
            state.proposal.Some? &&
            state == w0.Load(e).(proposal := state.proposal) &&
            var pending := state.proposal.value;
            pending.inputDigest == desired.MaterializationDigest() &&
            pending.outputs == rendered.outputs && pending.treeDigest == rendered.treeDigest &&
            OpenPulls(w.pulls, e) == {pending.proposal.number} &&
            Some(pending.proposal.commit) == w.Ref(review) &&
            Some(w.pulls[pending.proposal.number].head) == w.Ref(review)
  {
    var e, base := desired.environment, BaseOf(w0, desired, root);
    var stamp: nat, n: nat :| Usable(w0.pulls, e, n) &&
                              s.world == ProposedWorld(w0, desired, rendered, root, stamp, n);
    BranchNamesAreApart(e, e);
    assert OpenPulls(s.world.pulls, e) == {n} by {
      forall k | k in OpenPulls(s.world.pulls, e)
        ensures k == n
      {
        OnlyOneOpens(w0, e, n, CommitOver(rendered, base, stamp), k);
      }
      assert n in OpenPulls(s.world.pulls, e);
      hide EnvBranch, ProposalBranch, BaseOf, PendingState, CommitOver, Usable;
    }
    hide EnvBranch, ProposalBranch, OpenPulls, Usable;
  }

  /** Replacing a proposal whose pull request is open updates that pull request. */
  lemma ReplacementReusesThePull(cfg: Config, w0: World, desired: DesiredSlice,
                                 rendered: RenderedWorld, s: State, root: nat)
    requires Proposed(cfg, w0, desired, rendered, s, root)
    requires BaseOf(w0, desired, root).tree != rendered.tree
    requires w0.Load(desired.environment).proposal.Some?
    requires w0.Load(desired.environment).proposal.value.proposal.number in
             OpenPulls(w0.pulls, desired.environment)
    ensures var e := desired.environment;
            var before, after := w0.Load(e).proposal.value, s.world.Load(e).proposal;
            after.Some? && after.value.proposal.number == before.proposal.number &&
            after.value.inputDigest == desired.MaterializationDigest() &&
            s.world.pulls.Keys == w0.pulls.Keys &&
            s.world.pulls[before.proposal.number].state.Open? &&
            s.world.pulls[before.proposal.number].head == after.value.proposal.commit
  {
    ProposedWorldMeans(cfg, w0, desired, rendered, s, root);
    var stamp: nat, n: nat :| Usable(w0.pulls, desired.environment, n) &&
                              s.world == ProposedWorld(w0, desired, rendered, root, stamp, n);
    hide EnvBranch, ProposalBranch, StatePath, BaseOf, Readable, Projectable;
  }

  /**
   * A merge in the window. The connector opened or updated the pull request and crashed before
   * recording it; a person merged it. Whatever further crashes occur, one more pass records the
   * merge as published, and touches neither branches nor pull requests, if and only if it can begin:
   * the merged proposal's branch stays behind.
   */
  lemma MergedInTheWindow(cfg: Config, s0: State, desired: DesiredSlice, rendered: RenderedWorld,
                          before: seq<Label>, s: State, number: nat, merge: Commit, m: State,
                          after: seq<Label>, t: State, shown: MergeIdentity,
                          runner: PreparedRunner, k: nat, choices: seq<Choice>)
    requires s0.pc.Idle? && ToPropose(cfg, s0.world, desired)
    requires PlanOver(s0, desired, s0.world.Load(desired.environment), ProposePlan(rendered))
    requires RendersAs(cfg, desired, rendered) && AtMostOne(s0.world.pulls, desired.environment)
    requires AllAloneOrSync(before, desired) && AllAloneOrSync(after, desired)
    requires s == Exec(cfg, s0, before) && s.pc.Idle?
    requires s.world.Load(desired.environment) == s0.world.Load(desired.environment)
    requires Enabled(cfg, s, Merge(desired.environment, number, merge))
    requires s.world.pulls[number].head.tree == rendered.tree
    requires m == Do(cfg, s, Merge(desired.environment, number, merge))
    requires t == Exec(cfg, m, after) && t.pc.Idle?
    requires t.world.Load(desired.environment) == m.world.Load(desired.environment)
    requires Usable(t.world.pulls, desired.environment, k)
    requires |choices| == 9 && forall ch | ch in choices :: ch.number == k
    ensures var f := Exec(cfg, t, RefreshedPass(desired, shown, runner, k, choices));
            if Observable(t.world, desired.environment, shown) || CanStart(t, desired.environment) then
              f.pc.Idle? &&
              f.world == Stored(m.world, desired, PublishedState(desired, rendered.outputs, merge))
            else f.world.Load(desired.environment) == m.world.Load(desired.environment)
  {
    StartsInShape(cfg, s0.world, desired, rendered, s0);
    ProposeShapeRun(cfg, s0.world, desired, rendered, s0, before);
    var root0, n :| ProposePhase(cfg, s0.world, desired, rendered, s, root0, n);
    ProposePlans(cfg, s0.world, desired, rendered, s, root0, n, shown, runner);
    NoneOpenAfterMerge(cfg, s0.world, desired, rendered, s, root0, n, number, merge);
    var root := ProposeSurvivesCrashes(cfg, m, desired, rendered, after, shown, runner, k, choices);
    var f := Exec(cfg, t, RefreshedPass(desired, shown, runner, k, choices));
    assert CanPropose(cfg, m.world, desired, rendered);
    if Proposed(cfg, m.world, desired, rendered, f, root) {
      AbsorbedWorld(cfg, m.world, desired, rendered, f, root, merge);
    }
    hide Do, Exec, RendersAs, Proposing, Proposed, Usable, AtMostOne, MakePlan, OpenPulls,
         PublishedState, Observable, CanStart;
  }

  lemma MergeLeavesTheOthers(pulls: map<nat, Pull>, e: string, number: nat, merge: Commit)
    requires number in pulls
    ensures OpenPulls(pulls[number := pulls[number].(state := Merged(merge))], e) ==
            OpenPulls(pulls, e) - {number}
  {
    hide EnvBranch, ProposalBranch;
  }

  lemma NoneOpenAfterMerge(cfg: Config, w0: World, desired: DesiredSlice, rendered: RenderedWorld,
                           s: State, root: nat, n: nat, number: nat, merge: Commit)
    requires AtMostOne(w0.pulls, desired.environment)
    requires Proposing(cfg, w0, desired, rendered, s, root, n)
    requires Enabled(cfg, s, Merge(desired.environment, number, merge))
    ensures var e := desired.environment;
            var m := Do(cfg, s, Merge(e, number, merge));
            OpenPulls(m.world.pulls, e) == {} && AtMostOne(m.world.pulls, e) &&
            m.world.Ref(EnvBranch(e)) == Some(merge) && m.world.files == s.world.files &&
            m.approved == s.approved && m.pc == s.pc && merge.tree == s.world.pulls[number].head.tree
  {
    var e := desired.environment;
    assert number in OpenPulls(s.world.pulls, e);
    TheOpenOneIsUsable(w0, e, s.world.pulls, n, number);
    MergeLeavesTheOthers(s.world.pulls, e, number, merge);
    hide Proposing, EnvBranch, ProposalBranch, OpenPulls;
  }

  lemma AbsorbedWorld(cfg: Config, w0: World, desired: DesiredSlice, rendered: RenderedWorld,
                      f: State,
                      root: nat, merge: Commit)
    requires Proposed(cfg, w0, desired, rendered, f, root)
    requires w0.Ref(EnvBranch(desired.environment)) == Some(merge) && merge.tree == rendered.tree
    requires OpenPulls(w0.pulls, desired.environment) == {}
    ensures f.pc.Idle? &&
            f.world == Stored(w0, desired, PublishedState(desired, rendered.outputs, merge))
  {
    var e := desired.environment;
    assert BaseOf(w0, desired, root) == merge;
    var n :| PullsForm(w0, e, f.world.pulls, n);
    assert f.world.pulls == w0.pulls by {
      hide EnvBranch, ProposalBranch, OpenPulls;
    }
    assert w0.refs[EnvBranch(e) := merge] == w0.refs;
    hide EnvBranch, ProposalBranch, OpenPulls, PullsForm, BaseOf;
  }
}
