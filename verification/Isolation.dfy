/**
 * Environments do not interfere: what belongs to one environment changes only by the steps that
 * concern it, and those steps read nothing else.
 */
module Isolation {
  import opened Wrappers
  import opened Bytes
  import opened Trees
  import opened Slices
  import opened Decoding
  import opened Lifecycle
  import opened Invariants

  /** The two branches of an environment. */
  predicate Mine(e: string, ref: string) {
    ref == EnvBranch(e) || ref == ProposalBranch(e)
  }

  function RestrictRefs(refs: map<string, Commit>, e: string): map<string, Commit> {
    map r | r in refs && Mine(e, r) :: refs[r]
  }

  function RestrictPulls(pulls: map<nat, Pull>, e: string): map<nat, Pull> {
    map n | n in pulls && PullOf(pulls[n], e) :: pulls[n]
  }

  function RestrictFiles(files: map<string, TargetState>, e: string): map<string, TargetState> {
    map f | f in files && f == StatePath(e) :: files[f]
  }

  function RestrictApproved(approved: map<string, Approved>, e: string): map<string, Approved> {
    map k | k in approved && k == e :: approved[k]
  }

  function RestrictWorld(world: World, e: string): World {
    World(RestrictRefs(world.refs, e), RestrictPulls(world.pulls, e),
          RestrictFiles(world.files, e))
  }

  function RestrictPc(pc: Pc, e: string): Pc {
    if pc.Running? && pc.desired.environment == e then pc else Idle
  }

  /** The part of a state that belongs to one environment, as a state of its own. */
  function Restrict(s: State, e: string): State {
    State(RestrictWorld(s.world, e), RestrictApproved(s.approved, e), RestrictPc(s.pc, e))
  }

  /** The steps that are about an environment. */
  predicate Concerns(l: Label, e: string) {
    match l
    case Planned(desired, _, _) => desired.environment == e
    case Start(environment) => environment == e
    case Retire(desired) => desired.environment == e
    case Tick(environment, _) => environment == e
    case Crash(environment) => environment == e
    case Merge(environment, _, _) => environment == e
    case Close(environment, _) => environment == e
    case Sync(environment, _) => environment == e
    case Write(ref, _) => Mine(e, ref)
  }

  function Project(labels: seq<Label>, e: string): seq<Label> {
    if labels == [] then []
    else if Concerns(labels[0], e) then [labels[0]] + Project(labels[1..], e)
    else Project(labels[1..], e)
  }

  /** Every step of the run was enabled when it was taken. */
  predicate Legal(cfg: Config, s: State, labels: seq<Label>)
    decreases |labels|
  {
    labels == [] || (Enabled(cfg, s, labels[0]) && Legal(cfg, Do(cfg, s, labels[0]), labels[1..]))
  }

  /* ---------------------------------------------------------------- Reads and writes */

  lemma ReadsAgree(world: World, e: string)
    ensures var own := RestrictWorld(world, e);
            own.Ref(EnvBranch(e)) == world.Ref(EnvBranch(e)) &&
            own.Ref(ProposalBranch(e)) == world.Ref(ProposalBranch(e)) &&
            own.Load(e) == world.Load(e) &&
            OpenPulls(own.pulls, e) == OpenPulls(world.pulls, e)
  {
  }

  lemma PullAgrees(world: World, e: string, n: nat)
    requires n in world.pulls && PullOf(world.pulls[n], e)
    ensures n in RestrictPulls(world.pulls, e)
    ensures RestrictPulls(world.pulls, e)[n] == world.pulls[n]
  {
  }

  lemma RestrictSetRef(refs: map<string, Commit>, e: string, name: string, value: Option<Commit>)
    ensures RestrictRefs(SetRef(refs, name, value), e) ==
            if Mine(e, name) then SetRef(RestrictRefs(refs, e), name, value)
            else RestrictRefs(refs, e)
  {
  }

  lemma RestrictSetPull(pulls: map<nat, Pull>, e: string, n: nat, pull: Pull)
    requires n in pulls ==> pulls[n].base == pull.base && pulls[n].branch == pull.branch
    ensures RestrictPulls(pulls[n := pull], e) ==
            if PullOf(pull, e) then RestrictPulls(pulls, e)[n := pull]
            else RestrictPulls(pulls, e)
  {
  }

  lemma RestrictSave(files: map<string, TargetState>, e: string, d: string, state: TargetState)
    ensures RestrictFiles(files[StatePath(d) := state], e) ==
            if d == e then RestrictFiles(files, e)[StatePath(d) := state]
            else RestrictFiles(files, e)
  {
    if StatePath(d) == StatePath(e) {
      StatePathIsInjective(d, e);
    }
  }

  /* ---------------------------------------------------------------- Steps of others */

  /** The pull requests of one environment are not those of another. */
  lemma PullsAreApart(pull: Pull, a: string, b: string)
    requires PullOf(pull, a) && a != b
    ensures !PullOf(pull, b)
  {
    BranchNamesAreApart(a, b);
  }

  lemma OtherTicks(cfg: Config, s: State, ch: Choice, e: string)
    requires Inv(cfg, s) && s.pc.Running? && s.pc.desired.environment != e
    requires s.pc.at.ProposeCreate? ==> ch.number !in s.world.pulls
    ensures Restrict(Step(cfg, s, ch), e) == Restrict(s, e)
  {
    var s', d, at := Step(cfg, s, ch), s.pc.desired.environment, s.pc.at;
    StepRefs(cfg, s, ch);
    StepPulls(cfg, s, ch);
    StepStaysInPass(cfg, s, ch);
    BranchNamesAreApart(d, e);
    BranchNamesAreApart(e, d);
    OtherRefs(s, s'.world.refs, e);
    OtherPulls(s, ch, s'.world.pulls, e);
    if at.Save? {
      RestrictSave(s.world.files, e, d, at.state);
      SaveOnlyWrites(cfg, s, ch);
    }
    hide Step, RefsStep, PullsStep, RestrictRefs, RestrictPulls, RestrictFiles, Inv, EnvBranch,
         ProposalBranch;
  }

  lemma SaveOnlyWrites(cfg: Config, s: State, ch: Choice)
    requires s.pc.Running? && s.pc.at.Save?
    ensures Step(cfg, s, ch).world.files ==
            s.world.files[StatePath(s.pc.desired.environment) := s.pc.at.state]
  {
  }

  lemma OtherRefs(s: State, refs: map<string, Commit>, e: string)
    requires s.pc.Running? && s.pc.desired.environment != e && RefsStep(s, refs)
    requires s.pc.at.DropPush? ==>
             s.pc.at.proposal.proposalBranch == ProposalBranch(s.pc.desired.environment)
    ensures RestrictRefs(refs, e) == RestrictRefs(s.world.refs, e)
  {
    var d, at := s.pc.desired.environment, s.pc.at;
    BranchNamesAreApart(d, e);
    BranchNamesAreApart(e, d);
    if at.PublishPush? || at.ProposePush? {
      RestrictSetRef(s.world.refs, e, EnvBranch(d), Some(at.commit));
      RestrictSetRef(s.world.refs, e, ProposalBranch(d), Some(at.commit));
    } else if at.ProposeBootstrap? {
      RestrictSetRef(s.world.refs, e, EnvBranch(d), Some(at.root));
    } else {
      RestrictSetRef(s.world.refs, e, ProposalBranch(d), None);
      RestrictSetRef(s.world.refs, e, EnvBranch(d), None);
    }
    hide RestrictRefs, EnvBranch, ProposalBranch, SetRef;
  }

  lemma OtherPulls(s: State, ch: Choice, pulls: map<nat, Pull>, e: string)
    requires s.pc.Running? && s.pc.desired.environment != e && PullsStep(s, ch, pulls)
    requires s.pc.at.ProposeCreate? ==> ch.number !in s.world.pulls
    requires s.pc.at.CancelClose? && s.pc.at.proposal.number in s.world.pulls ==>
             PullOf(s.world.pulls[s.pc.at.proposal.number], s.pc.desired.environment)
    ensures RestrictPulls(pulls, e) == RestrictPulls(s.world.pulls, e)
  {
    var d, at := s.pc.desired.environment, s.pc.at;
    if pulls == s.world.pulls {
    } else if at.ProposeCreate? {
      var pull := pulls[ch.number];
      RestrictSetPull(s.world.pulls, e, ch.number, pull);
      PullsAreApart(pull, d, e);
    } else {
      var n := at.proposal.number;
      RestrictSetPull(s.world.pulls, e, n, pulls[n]);
      PullsAreApart(pulls[n], d, e);
    }
    hide RestrictPulls, EnvBranch, ProposalBranch;
  }

  /** A step that is not about an environment leaves everything of it alone. */
  lemma OthersLeaveItAlone(cfg: Config, s: State, l: Label, e: string)
    requires Inv(cfg, s) && !Concerns(l, e)
    ensures Restrict(Do(cfg, s, l), e) == Restrict(s, e)
  {
    if !Enabled(cfg, s, l) {
    } else {
      match l
      case Tick(_, choice) => OtherTicks(cfg, s, choice, e);
      case Merge(d, n, merge) =>
        BranchNamesAreApart(d, e);
        BranchNamesAreApart(e, d);
        PullsAreApart(s.world.pulls[n], d, e);
        RestrictSetRef(s.world.refs, e, EnvBranch(d), Some(merge));
        RestrictSetPull(s.world.pulls, e, n, s.world.pulls[n].(state := Merged(merge)));
      case Close(d, n) =>
        PullsAreApart(s.world.pulls[n], d, e);
        RestrictSetPull(s.world.pulls, e, n, s.world.pulls[n].(state := Closed));
      case Sync(d, n) =>
        PullsAreApart(s.world.pulls[n], d, e);
        RestrictSetPull(s.world.pulls, e, n,
                        s.world.pulls[n].(head := s.world.refs[ProposalBranch(d)]));
      case Write(ref, value) => RestrictSetRef(s.world.refs, e, ref, value);
      case _ =>
      hide Step, MakePlan, RestrictRefs, RestrictPulls, Inv, EnvBranch, ProposalBranch, StatePath,
           PlanEntry, RetireEntry, SetRef;
    }
  }

  /* ---------------------------------------------------------------- Steps of its own */

  /** What a pass of an environment sees of the state, in the part that is its own. */
  lemma OwnView(s: State, e: string)
    requires s.pc.Running? && s.pc.desired.environment == e
    ensures var own := Restrict(s, e);
            own.pc == s.pc && own.world == RestrictWorld(s.world, e) &&
            own.world.Ref(EnvBranch(e)) == s.world.Ref(EnvBranch(e)) &&
            own.world.Ref(ProposalBranch(e)) == s.world.Ref(ProposalBranch(e)) &&
            own.world.Load(e) == s.world.Load(e) &&
            own.world.pulls == RestrictPulls(s.world.pulls, e) &&
            OpenPulls(own.world.pulls, e) == OpenPulls(s.world.pulls, e)
    ensures forall at :: Goto(Restrict(s, e), at) == Restrict(Goto(s, at), e)
  {
    ReadsAgree(s.world, e);
    hide RestrictRefs, RestrictPulls, RestrictFiles, RestrictApproved, EnvBranch, ProposalBranch;
  }

  lemma OwnPush(s: State, e: string, name: string)
    requires s.pc.Running? && s.pc.desired.environment == e && Mine(e, name)
    ensures forall lease, value, next ::
              PushWithLease(Restrict(s, e), name, lease, value, next) ==
              Restrict(PushWithLease(s, name, lease, value, next), e)
  {
    ReadsAgree(s.world, e);
    forall lease, value, next
      ensures PushWithLease(Restrict(s, e), name, lease, value, next) ==
              Restrict(PushWithLease(s, name, lease, value, next), e)
    {
      RestrictSetRef(s.world.refs, e, name, value);
      hide RestrictRefs, RestrictPulls, RestrictFiles, RestrictApproved, SetRef;
    }
  }

  lemma OwnWithPulls(s: State, e: string, n: nat, pull: Pull, at: Option<At>)
    requires s.pc.Running? && s.pc.desired.environment == e && PullOf(pull, e)
    requires n in s.world.pulls ==> PullOf(s.world.pulls[n], e)
    ensures Goto(WithPulls(Restrict(s, e), RestrictPulls(s.world.pulls, e)[n := pull]), at) ==
            Restrict(Goto(WithPulls(s, s.world.pulls[n := pull]), at), e)
  {
    RestrictSetPull(s.world.pulls, e, n, pull);
    hide RestrictRefs, RestrictPulls, RestrictFiles, RestrictApproved;
  }

  lemma OwnPublish(s: State, ch: Choice, e: string)
    requires s.pc.Running? && s.pc.desired.environment == e
    requires s.pc.op.Applying? && s.pc.op.plan.Publish?
    ensures StepPublish(Restrict(s, e), ch) == Restrict(StepPublish(s, ch), e)
  {
    OwnView(s, e);
    OwnPush(s, e, EnvBranch(e));
    hide Restrict, Goto, PushWithLease, EnvBranch, ProposalBranch, PublishedState, CommitOver;
  }

  lemma OwnPropose(cfg: Config, s: State, ch: Choice, e: string)
    requires s.pc.Running? && s.pc.desired.environment == e
    requires s.pc.op.Applying? && s.pc.op.plan.Propose?
    ensures StepPropose(cfg, Restrict(s, e), ch) == Restrict(StepPropose(cfg, s, ch), e)
  {
    OwnView(s, e);
    OwnPush(s, e, EnvBranch(e));
    OwnPush(s, e, ProposalBranch(e));
    hide Restrict, Goto, PushWithLease, EnvBranch, ProposalBranch, Compare, CommitOver;
  }

  lemma OwnPull(s: State, ch: Choice, e: string)
    requires s.pc.Running? && s.pc.desired.environment == e
    requires s.pc.op.Applying? && s.pc.op.plan.Propose? && Lands(s)
    requires s.pc.at.ProposeCreate? ==> ch.number !in s.world.pulls
    ensures StepPull(Restrict(s, e), ch) == Restrict(StepPull(s, ch), e)
  {
    OwnView(s, e);
    var at := s.pc.at;
    if at.ProposeUpdate? || at.ProposeWait? {
      PullAgrees(s.world, e, at.number);
    } else if at.ProposeCreate? && s.world.Ref(ProposalBranch(e)).Some? {
      var head := s.world.Ref(ProposalBranch(e)).value;
      OwnWithPulls(s, e, ch.number, Pull(EnvBranch(e), ProposalBranch(e), head, Open),
        AwaitHead(s.world.Load(e), s.pc.desired, s.pc.op.plan, at.world, at.commit, ch.number,
                  head, 3));
    }
    hide Restrict, Goto, WithPulls, EnvBranch, ProposalBranch, AwaitHead, OpenPulls, StatePath,
         AtOk;
  }

  lemma OwnCancel(s: State, e: string)
    requires s.pc.Running? && s.pc.desired.environment == e
    requires s.pc.at.CancelGet? || s.pc.at.CancelClose?
    requires ProposalOk(s.world.pulls, e, s.pc.at.proposal)
    ensures StepCancel(Restrict(s, e)) == Restrict(StepCancel(s), e)
  {
    var p := s.pc.at.proposal;
    OwnView(s, e);
    PullAgrees(s.world, e, p.number);
    OwnWithPulls(s, e, p.number, s.world.pulls[p.number].(state := Closed), Some(DropLs(p)));
    hide Restrict, Goto, WithPulls, EnvBranch, ProposalBranch, RestrictPulls;
  }

  lemma OwnDrop(s: State, e: string)
    requires s.pc.Running? && s.pc.desired.environment == e
    requires s.pc.at.DropLs? || s.pc.at.DropFetch? || s.pc.at.DropLsProposal? || s.pc.at.DropPush?
    requires ProposalOk(s.world.pulls, e, s.pc.at.proposal)
    ensures StepDrop(Restrict(s, e)) == Restrict(StepDrop(s), e)
  {
    OwnView(s, e);
    ProposalBranchRoundTrip(e);
    OwnPush(s, e, ProposalBranch(e));
    hide Restrict, Goto, PushWithLease, EnvBranch, ProposalBranch, ProposalBranchEnvironment,
         AfterDrop, StatePath;
  }

  lemma OwnRemove(s: State, e: string)
    requires s.pc.Running? && s.pc.desired.environment == e
    requires s.pc.at.RemoveLs? || s.pc.at.RemoveFetch? || s.pc.at.RemovePush?
    ensures StepRemove(Restrict(s, e)) == Restrict(StepRemove(s), e)
  {
    OwnView(s, e);
    OwnPush(s, e, EnvBranch(e));
    hide Restrict, Goto, PushWithLease, EnvBranch, ProposalBranch, StatePath;
  }

  lemma OwnRender(cfg: Config, s: State, ch: Choice, e: string)
    requires s.pc.Running? && s.pc.desired.environment == e
    ensures StepRender(cfg, Restrict(s, e), ch) == Restrict(StepRender(cfg, s, ch), e)
  {
    OwnView(s, e);
    hide Restrict, Goto;
  }

  predicate Cleaning(at: At) {
    at.CancelGet? || at.CancelClose? || at.DropLs? || at.DropFetch? || at.DropLsProposal? ||
    at.DropPush?
  }

  lemma CleanedProposalIsOwn(cfg: Config, s: State)
    requires Inv(cfg, s) && s.pc.Running? && Cleaning(s.pc.at)
    ensures ProposalOk(s.world.pulls, s.pc.desired.environment, s.pc.at.proposal)
  {
    var e := s.pc.desired.environment;
    assert TargetStateOk(s.world.pulls, e, s.world.Load(e));
    hide ProposalOk, Fits;
  }

  lemma OwnTicks(cfg: Config, s: State, ch: Choice, e: string)
    requires s.pc.Running? && s.pc.desired.environment == e && Lands(s)
    requires Cleaning(s.pc.at) ==> ProposalOk(s.world.pulls, e, s.pc.at.proposal)
    requires s.pc.at.ProposeCreate? ==> ch.number !in s.world.pulls
    ensures Step(cfg, Restrict(s, e), ch) == Restrict(Step(cfg, s, ch), e)
  {
    match s.pc.at
    case Render => OwnRender(cfg, s, ch, e);
    case PublishLs(_) | PublishFetch(_, _) | PublishPush(_, _, _) => OwnPublish(s, ch, e);
    case ProposeLs(_) | ProposeFetch(_, _) | ProposeBootstrap(_, _) | ProposeLsProposal(_, _)
       | ProposePush(_, _, _) => OwnPropose(cfg, s, ch, e);
    case ProposeList(_, _) | ProposeUpdate(_, _, _) | ProposeCreate(_, _)
       | ProposeWait(_, _, _, _) => OwnPull(s, ch, e);
    case CancelGet(_) | CancelClose(_) => OwnCancel(s, e);
    case DropLs(_) | DropFetch(_) | DropLsProposal(_) | DropPush(_) => OwnDrop(s, e);
    case RemoveLs | RemoveFetch(_) | RemovePush(_) => OwnRemove(s, e);
    case Save(state) => OwnSave(cfg, s, ch, e);
    OwnView(s, e);
    hide StepRender, StepPublish, StepPropose, StepPull, StepCancel, StepDrop, StepRemove,
         Restrict, ProposalOk, EnvBranch, ProposalBranch, AtOk;
  }

  lemma OwnSave(cfg: Config, s: State, ch: Choice, e: string)
    requires s.pc.Running? && s.pc.desired.environment == e && s.pc.at.Save?
    ensures Step(cfg, Restrict(s, e), ch) == Restrict(Step(cfg, s, ch), e)
  {
    RestrictSave(s.world.files, e, e, s.pc.at.state);
    hide StepRender, StepPublish, StepPropose, StepPull, StepCancel, StepDrop, StepRemove,
         RestrictRefs, RestrictPulls, RestrictFiles, RestrictApproved, StatePath;
  }

  lemma OwnPlan(cfg: Config, s: State, desired: DesiredSlice, shown: MergeIdentity,
                runner: PreparedRunner, e: string)
    requires FilesOk(s.world) && desired.environment == e
    ensures MakePlan(cfg, RestrictWorld(s.world, e), desired, shown, runner) ==
            MakePlan(cfg, s.world, desired, shown, runner)
  {
    ReadsAgree(s.world, e);
    var state := s.world.Load(e);
    assert TargetStateOk(s.world.pulls, e, state);
    if state.proposal.Some? {
      PullAgrees(s.world, e, state.proposal.value.proposal.number);
    }
    hide RestrictRefs, RestrictPulls, RestrictFiles, EnvBranch, ProposalBranch, Decide, Classify,
         StatePath, OpenPulls;
  }

  /**
   * A step about an environment does to its part what it does to the whole, and was possible on
   * that part alone.
   */
  lemma OwnSteps(cfg: Config, s: State, l: Label, e: string)
    requires Inv(cfg, s) && Concerns(l, e) && Enabled(cfg, s, l)
    ensures Enabled(cfg, Restrict(s, e), l)
    ensures Do(cfg, Restrict(s, e), l) == Restrict(Do(cfg, s, l), e)
  {
    if l.Tick? {
      if Cleaning(s.pc.at) {
        CleanedProposalIsOwn(cfg, s);
      }
      OwnTicks(cfg, s, l.choice, e);
      OwnView(s, e);
      TickIsOwn(cfg, s, l, e);
    } else if l.Planned? || l.Start? || l.Retire? || l.Crash? {
      OwnStarts(cfg, s, l, e);
    } else {
      OwnReviews(cfg, s, l, e);
    }
    hide Do, Enabled, Restrict, Inv;
  }

  lemma TickIsOwn(cfg: Config, s: State, l: Label, e: string)
    requires l.Tick? && Concerns(l, e) && Enabled(cfg, s, l)
    requires Step(cfg, Restrict(s, e), l.choice) == Restrict(Step(cfg, s, l.choice), e)
    ensures Enabled(cfg, Restrict(s, e), l)
    ensures Do(cfg, Restrict(s, e), l) == Restrict(Do(cfg, s, l), e)
  {
    OwnView(s, e);
    hide Step, EnvBranch, ProposalBranch, StatePath, OpenPulls;
  }

  lemma RestrictApproval(approved: map<string, Approved>, e: string, a: Approved)
    ensures e in RestrictApproved(approved, e) <==> e in approved
    ensures e in approved ==> RestrictApproved(approved, e)[e] == approved[e]
    ensures RestrictApproved(approved[e := a], e) == RestrictApproved(approved, e)[e := a]
  {
  }

  lemma OwnStarts(cfg: Config, s: State, l: Label, e: string)
    requires Inv(cfg, s) && Concerns(l, e) && Enabled(cfg, s, l)
    requires l.Planned? || l.Start? || l.Retire? || l.Crash?
    ensures Enabled(cfg, Restrict(s, e), l)
    ensures Do(cfg, Restrict(s, e), l) == Restrict(Do(cfg, s, l), e)
  {
    ReadsAgree(s.world, e);
    if l.Planned? {
      OwnPlan(cfg, s, l.desired, l.shown, l.runner, e);
      RestrictApproval(s.approved, e,
                       Approved(l.desired, MakePlan(cfg, s.world, l.desired, l.shown,
                                                    l.runner).value, s.world.Load(e)));
    } else if l.Start? {
      RestrictApproval(s.approved, e, s.approved[e]);
    }
    hide RestrictApproved, Step, MakePlan, RestrictRefs, RestrictPulls, RestrictFiles, Inv, EnvBranch,
         ProposalBranch, StatePath, PlanEntry, RetireEntry, OpenPulls;
  }

  /** Merges, closes, refreshed heads and outside writes. */
  lemma OwnReviews(cfg: Config, s: State, l: Label, e: string)
    requires Concerns(l, e) && Enabled(cfg, s, l)
    requires l.Merge? || l.Close? || l.Sync? || l.Write?
    ensures Enabled(cfg, Restrict(s, e), l)
    ensures Do(cfg, Restrict(s, e), l) == Restrict(Do(cfg, s, l), e)
  {
    ReadsAgree(s.world, e);
    match l
    case Merge(_, n, merge) =>
      PullAgrees(s.world, e, n);
      RestrictSetRef(s.world.refs, e, EnvBranch(e), Some(merge));
      RestrictSetPull(s.world.pulls, e, n, s.world.pulls[n].(state := Merged(merge)));
    case Close(_, n) =>
      PullAgrees(s.world, e, n);
      RestrictSetPull(s.world.pulls, e, n, s.world.pulls[n].(state := Closed));
    case Sync(_, n) =>
      PullAgrees(s.world, e, n);
      RestrictSetPull(s.world.pulls, e, n,
                      s.world.pulls[n].(head := s.world.refs[ProposalBranch(e)]));
    case Write(ref, value) => RestrictSetRef(s.world.refs, e, ref, value);
    hide RestrictRefs, RestrictPulls, RestrictFiles, RestrictApproved, EnvBranch, ProposalBranch,
         StatePath, OpenPulls;
  }

  /**
   * Isolation: projecting any legal run of any number of environments to one of them gives a legal
   * run of that environment alone, which ends in exactly its part of the final state.
   */
  lemma {:induction false} RunsProject(cfg: Config, s: State, labels: seq<Label>, e: string)
    requires Inv(cfg, s) && Legal(cfg, s, labels)
    ensures Legal(cfg, Restrict(s, e), Project(labels, e))
    ensures Exec(cfg, Restrict(s, e), Project(labels, e)) == Restrict(Exec(cfg, s, labels), e)
    decreases |labels|
  {
    if labels != [] {
      var l := labels[0];
      DoKeeps(cfg, s, l);
      RunsProject(cfg, Do(cfg, s, l), labels[1..], e);
      if Concerns(l, e) {
        OwnSteps(cfg, s, l, e);
        assert ([l] + Project(labels[1..], e))[1..] == Project(labels[1..], e);
      } else {
        OthersLeaveItAlone(cfg, s, l, e);
      }
      hide Do, Enabled, Restrict, Inv, Concerns;
    }
  }

  /** The same for runs from the beginning. */
  lemma WholeRunsProject(cfg: Config, labels: seq<Label>, e: string)
    requires Legal(cfg, INITIAL, labels)
    ensures Legal(cfg, INITIAL, Project(labels, e))
    ensures Exec(cfg, INITIAL, Project(labels, e)) == Restrict(Exec(cfg, INITIAL, labels), e)
  {
    assert Restrict(INITIAL, e) == INITIAL;
    RunsProject(cfg, INITIAL, labels, e);
    hide Exec, Legal, Restrict;
  }

  /**
   * A slice that borrows an environment never writes to it: no step of its passes or retirement
   * changes anything that belongs to the borrowed environment.
   */
  lemma BorrowerNeverWrites(cfg: Config, s: State, l: Label, slice: TargetSlice,
                            desired: DesiredSlice)
    requires Inv(cfg, s) && Decodes(slice, Result.Ok(desired))
    requires desired.BorrowedEnvironment().Some?
    requires Concerns(l, desired.environment) && !l.Write?
    ensures Restrict(Do(cfg, s, l), desired.BorrowedEnvironment().value) ==
            Restrict(s, desired.BorrowedEnvironment().value)
  {
    BorrowedIsNotOwn(slice, desired);
    OthersLeaveItAlone(cfg, s, l, desired.BorrowedEnvironment().value);
  }
}
