/**
 * No lost update: a push replaces exactly the branch value that its pass inspected, and, as long as
 * branch values do not recur, builds on it, whoever else writes in between.
 */
module LostUpdates {
  import opened Wrappers
  import opened Bytes
  import opened Trees
  import opened Slices
  import opened Lifecycle
  import opened Invariants

  function StateAt(cfg: Config, labels: seq<Label>, i: nat): State
    requires i <= |labels|
  {
    Exec(cfg, INITIAL, labels[..i])
  }

  /** A branch's value after the first `i` steps of a run. */
  function RefAt(cfg: Config, labels: seq<Label>, i: nat, name: string): Option<Commit>
    requires i <= |labels|
  {
    StateAt(cfg, labels, i).world.Ref(name)
  }

  /** The pass that is running now was already running after the first `i` steps. */
  ghost predicate SamePass(cfg: Config, labels: seq<Label>, i: nat) {
    i <= |labels| && forall k | i <= k <= |labels| :: StateAt(cfg, labels, k).pc.Running?
  }

  /** The running pass saw this value on the branch. */
  ghost predicate Saw(cfg: Config, labels: seq<Label>, name: string, value: Option<Commit>) {
    exists i :: 0 <= i <= |labels| && SamePass(cfg, labels, i) &&
                RefAt(cfg, labels, i, name) == value
  }

  /** The running pass saw the lease first and then the head that the commit stands on. */
  ghost predicate SawBoth(cfg: Config, labels: seq<Label>, name: string, lease: Commit,
                          commit: Commit)
  {
    exists i, j :: 0 <= i <= j <= |labels| && SamePass(cfg, labels, i) &&
                   RefAt(cfg, labels, i, name) == Some(lease) &&
                   StandsOn(commit, RefAt(cfg, labels, j, name))
  }

  predicate StandsOn(commit: Commit, head: Option<Commit>) {
    head.Some? && (commit == head.value || commit.parents == [head.value])
  }

  /** A pass at this point has seen the values that its local variables hold. */
  ghost predicate Justified(cfg: Config, labels: seq<Label>, pc: Pc) {
    pc.Running? ==>
      var branch := EnvBranch(pc.desired.environment);
      var review := ProposalBranch(pc.desired.environment);
      match pc.at
      case PublishFetch(_, expected) => Saw(cfg, labels, branch, Some(expected))
      case PublishPush(_, lease, commit) =>
        if lease.Some? then SawBoth(cfg, labels, branch, lease.value, commit)
        else Saw(cfg, labels, branch, None) && commit.parents == []
      case ProposeBootstrap(_, _) => Saw(cfg, labels, branch, None)
      case ProposePush(_, lease, _) => Saw(cfg, labels, review, lease)
      case DropPush(p) =>
        p.proposalBranch == review ==> Saw(cfg, labels, review, Some(p.commit))
      case RemoveFetch(expected) => Saw(cfg, labels, branch, Some(expected))
      case RemovePush(expected) => Saw(cfg, labels, branch, Some(expected))
      case _ => true
  }

  ghost predicate Remembers(cfg: Config, labels: seq<Label>) {
    Justified(cfg, labels, Exec(cfg, INITIAL, labels).pc)
  }

  /* ---------------------------------------------------------------- Extending a run */

  lemma PrefixesStay(cfg: Config, labels: seq<Label>, l: Label)
    ensures forall i | 0 <= i <= |labels| ::
              StateAt(cfg, labels + [l], i) == StateAt(cfg, labels, i)
    ensures StateAt(cfg, labels, |labels|) == Exec(cfg, INITIAL, labels)
    ensures StateAt(cfg, labels + [l], |labels| + 1) == Do(cfg, Exec(cfg, INITIAL, labels), l)
  {
    forall i | 0 <= i <= |labels|
      ensures StateAt(cfg, labels + [l], i) == StateAt(cfg, labels, i)
    {
      assert (labels + [l])[..i] == labels[..i];
    }
    assert labels[..|labels|] == labels && (labels + [l])[..|labels| + 1] == labels + [l];
    ExecSnoc(cfg, INITIAL, labels, l);
    hide Do, Exec;
  }

  lemma SawCarries(cfg: Config, labels: seq<Label>, l: Label, name: string, value: Option<Commit>)
    requires Saw(cfg, labels, name, value)
    requires Exec(cfg, INITIAL, labels + [l]).pc.Running?
    ensures Saw(cfg, labels + [l], name, value)
  {
    PrefixesStay(cfg, labels, l);
    var i :| 0 <= i <= |labels| && SamePass(cfg, labels, i) &&
             RefAt(cfg, labels, i, name) == value;
    ExecSnoc(cfg, INITIAL, labels, l);
    hide StateAt, Exec, Do;
    assert SamePass(cfg, labels + [l], i);
    assert RefAt(cfg, labels + [l], i, name) == value;
  }

  lemma SawBothCarries(cfg: Config, labels: seq<Label>, l: Label, name: string, lease: Commit,
                       commit: Commit)
    requires SawBoth(cfg, labels, name, lease, commit)
    requires Exec(cfg, INITIAL, labels + [l]).pc.Running?
    ensures SawBoth(cfg, labels + [l], name, lease, commit)
  {
    PrefixesStay(cfg, labels, l);
    var i, j :| 0 <= i <= j <= |labels| && SamePass(cfg, labels, i) &&
                RefAt(cfg, labels, i, name) == Some(lease) &&
                StandsOn(commit, RefAt(cfg, labels, j, name));
    ExecSnoc(cfg, INITIAL, labels, l);
    hide StateAt, Exec, Do;
    assert SamePass(cfg, labels + [l], i);
    assert RefAt(cfg, labels + [l], i, name) == Some(lease);
    assert StandsOn(commit, RefAt(cfg, labels + [l], j, name));
  }

  /** What a pass reads now, it saw. */
  lemma SeesNow(cfg: Config, labels: seq<Label>, name: string)
    requires Exec(cfg, INITIAL, labels).pc.Running?
    ensures Saw(cfg, labels, name, Exec(cfg, INITIAL, labels).world.Ref(name))
  {
    assert labels[..|labels|] == labels;
    hide Exec;
    assert SamePass(cfg, labels, |labels|);
    assert RefAt(cfg, labels, |labels|, name) == Exec(cfg, INITIAL, labels).world.Ref(name);
  }

  /** A fetch after an inspection: the commit stands on what is there now. */
  lemma SeesBothNow(cfg: Config, labels: seq<Label>, name: string, lease: Commit, commit: Commit)
    requires Saw(cfg, labels, name, Some(lease))
    requires StandsOn(commit, Exec(cfg, INITIAL, labels).world.Ref(name))
    ensures SawBoth(cfg, labels, name, lease, commit)
  {
    assert labels[..|labels|] == labels;
    hide Exec;
    var i :| 0 <= i <= |labels| && SamePass(cfg, labels, i) &&
             RefAt(cfg, labels, i, name) == Some(lease);
    assert StandsOn(commit, RefAt(cfg, labels, |labels|, name));
  }

  /* ---------------------------------------------------------------- One more step */

  /** The reads that lead to a program point with an inspected value. */
  predicate CameFrom(s: State, at': At)
    requires s.pc.Running?
  {
    var world, at := s.world, s.pc.at;
    var branch := EnvBranch(s.pc.desired.environment);
    var review := ProposalBranch(s.pc.desired.environment);
    match at'
    case PublishFetch(_, expected) => world.Ref(branch) == Some(expected)
    case PublishPush(_, lease, commit) =>
      || (lease.None? && world.Ref(branch) == None && commit.parents == [])
      || (at.PublishFetch? && lease == Some(at.expected) && StandsOn(commit, world.Ref(branch)))
    case ProposeBootstrap(_, _) => world.Ref(branch) == None
    case ProposePush(_, lease, _) => world.Ref(review) == lease
    case DropPush(p) => world.Ref(p.proposalBranch) == Some(p.commit)
    case RemoveFetch(expected) => world.Ref(branch) == Some(expected)
    case RemovePush(expected) => at == RemoveFetch(expected)
    case _ => true
  }

  lemma StepCameFrom(cfg: Config, s: State, ch: Choice)
    requires s.pc.Running?
    ensures Step(cfg, s, ch).pc.Running? ==> CameFrom(s, Step(cfg, s, ch).pc.at)
  {
    match s.pc.at
    case PublishLs(_) | PublishFetch(_, _) | PublishPush(_, _, _) => PublishCameFrom(s, ch);
    case ProposeLs(_) | ProposeFetch(_, _) | ProposeBootstrap(_, _) | ProposeLsProposal(_, _)
       | ProposePush(_, _, _) => ProposeCameFrom(cfg, s, ch);
    case DropLs(_) | DropFetch(_) | DropLsProposal(_) | DropPush(_) => DropCameFrom(s);
    case _ => RestCameFrom(cfg, s, ch);
    hide StepRender, StepPublish, StepPropose, StepPull, StepCancel, StepDrop, StepRemove, CameFrom;
  }

  lemma PublishCameFrom(s: State, ch: Choice)
    requires s.pc.Running?
    ensures s.pc.op.Applying? && s.pc.op.plan.Publish? && StepPublish(s, ch).pc.Running? ==>
              CameFrom(s, StepPublish(s, ch).pc.at)
  {
    hide EnvBranch, ProposalBranch, PublishedState;
  }

  lemma ProposeCameFrom(cfg: Config, s: State, ch: Choice)
    requires s.pc.Running?
    ensures s.pc.op.Applying? && s.pc.op.plan.Propose? && StepPropose(cfg, s, ch).pc.Running? ==>
              CameFrom(s, StepPropose(cfg, s, ch).pc.at)
  {
    hide EnvBranch, ProposalBranch, PublishedState;
  }

  lemma DropCameFrom(s: State)
    requires s.pc.Running?
    ensures StepDrop(s).pc.Running? ==> CameFrom(s, StepDrop(s).pc.at)
  {
    AfterDropCameFrom(s);
    hide EnvBranch, ProposalBranch, AfterDrop, ProposalBranchEnvironment, StatePath;
  }

  lemma AfterDropCameFrom(s: State)
    requires s.pc.Running?
    ensures var at := AfterDrop(s.world.Load(s.pc.desired.environment), s.pc.desired, s.pc.op);
            at.Some? ==> CameFrom(s, at.value)
  {
  }

  lemma PullCameFrom(s: State, ch: Choice)
    requires s.pc.Running? && s.pc.op.Applying? && s.pc.op.plan.Propose?
    ensures StepPull(s, ch).pc.Running? ==> CameFrom(s, StepPull(s, ch).pc.at)
  {
    hide EnvBranch, ProposalBranch, OpenPulls, PendingState, StatePath;
  }

  lemma RestCameFrom(cfg: Config, s: State, ch: Choice)
    requires s.pc.Running?
    ensures StepRender(cfg, s, ch).pc.Running? ==> CameFrom(s, StepRender(cfg, s, ch).pc.at)
    ensures s.pc.op.Applying? && s.pc.op.plan.Propose? && StepPull(s, ch).pc.Running? ==>
              CameFrom(s, StepPull(s, ch).pc.at)
    ensures StepCancel(s).pc.Running? ==> CameFrom(s, StepCancel(s).pc.at)
    ensures StepRemove(s).pc.Running? ==> CameFrom(s, StepRemove(s).pc.at)
  {
    if s.pc.op.Applying? && s.pc.op.plan.Propose? {
      PullCameFrom(s, ch);
    }
    hide EnvBranch, ProposalBranch, OpenPulls, PendingState, StatePath, StepPull;
  }

  lemma SightsCarry(cfg: Config, labels: seq<Label>, l: Label)
    requires Exec(cfg, INITIAL, labels + [l]).pc.Running?
    ensures forall name, value | Saw(cfg, labels, name, value) ::
              Saw(cfg, labels + [l], name, value)
    ensures forall name, lease, commit | SawBoth(cfg, labels, name, lease, commit) ::
              SawBoth(cfg, labels + [l], name, lease, commit)
  {
    hide Exec, Saw, SawBoth;
    forall name, value | Saw(cfg, labels, name, value)
      ensures Saw(cfg, labels + [l], name, value)
    {
      SawCarries(cfg, labels, l, name, value);
    }
    forall name, lease, commit | SawBoth(cfg, labels, name, lease, commit)
      ensures SawBoth(cfg, labels + [l], name, lease, commit)
    {
      SawBothCarries(cfg, labels, l, name, lease, commit);
    }
  }

  /** What a pass saw stays seen while it runs. */
  lemma JustifiedCarries(cfg: Config, labels: seq<Label>, l: Label, pc: Pc)
    requires Justified(cfg, labels, pc)
    requires Exec(cfg, INITIAL, labels + [l]).pc.Running?
    ensures Justified(cfg, labels + [l], pc)
  {
    SightsCarry(cfg, labels, l);
    hide Exec, EnvBranch, ProposalBranch, Saw, SawBoth;
  }

  /** The next point of a pass is justified by what the pass sees now. */
  lemma NextIsJustified(cfg: Config, labels: seq<Label>, at': At)
    requires Remembers(cfg, labels)
    requires Exec(cfg, INITIAL, labels).pc.Running?
    requires CameFrom(Exec(cfg, INITIAL, labels), at')
    ensures Justified(cfg, labels, Exec(cfg, INITIAL, labels).pc.(at := at'))
  {
    var s := Exec(cfg, INITIAL, labels);
    var branch := EnvBranch(s.pc.desired.environment);
    SeesNow(cfg, labels, branch);
    SeesNow(cfg, labels, ProposalBranch(s.pc.desired.environment));
    if at'.PublishPush? && s.pc.at.PublishFetch? && at'.lease == Some(s.pc.at.expected) {
      if StandsOn(at'.commit, s.world.Ref(branch)) {
        SeesBothNow(cfg, labels, branch, s.pc.at.expected, at'.commit);
      }
    }
    hide Exec, EnvBranch, ProposalBranch, Saw, SawBoth, StandsOn;
  }

  lemma TickRemembers(cfg: Config, labels: seq<Label>, l: Label)
    requires Remembers(cfg, labels)
    requires var s := Exec(cfg, INITIAL, labels); l.Tick? && Enabled(cfg, s, l)
    ensures Remembers(cfg, labels + [l])
  {
    var s := Exec(cfg, INITIAL, labels);
    ExecSnoc(cfg, INITIAL, labels, l);
    StepCameFrom(cfg, s, l.choice);
    StepStaysInPass(cfg, s, l.choice);
    var s' := Step(cfg, s, l.choice);
    if s'.pc.Running? {
      NextIsJustified(cfg, labels, s'.pc.at);
      hide Step, Exec, CameFrom, Enabled;
      assert s'.pc == s.pc.(at := s'.pc.at);
      JustifiedCarries(cfg, labels, l, s'.pc);
    }
    hide Step, Exec, CameFrom, Enabled;
  }

  /** A step that is not the pass's own keeps the pass where it is, ends it, or starts one. */
  lemma OthersKeepThePass(cfg: Config, s: State, l: Label)
    requires !(l.Tick? && Enabled(cfg, s, l))
    ensures var s' := Do(cfg, s, l);
            s'.pc == s.pc || s'.pc.Idle? ||
            s'.pc.at.Render? || s'.pc.at.DropLs? || s'.pc.at.CancelGet? || s'.pc.at.RemoveLs? ||
            s'.pc.at.Save?
  {
    hide Step, MakePlan, EnvBranch, ProposalBranch, StatePath;
  }

  lemma OthersRemember(cfg: Config, labels: seq<Label>, l: Label)
    requires Remembers(cfg, labels)
    requires var s := Exec(cfg, INITIAL, labels); !(l.Tick? && Enabled(cfg, s, l))
    ensures Remembers(cfg, labels + [l])
  {
    var s := Exec(cfg, INITIAL, labels);
    ExecSnoc(cfg, INITIAL, labels, l);
    OthersKeepThePass(cfg, s, l);
    hide Do, Exec, Enabled, Saw, SawBoth, EnvBranch, ProposalBranch;
    if s.pc.Running? && Do(cfg, s, l).pc == s.pc {
      JustifiedCarries(cfg, labels, l, s.pc);
    }
  }

  lemma {:induction false} EveryRunRemembers(cfg: Config, labels: seq<Label>)
    ensures Remembers(cfg, labels)
    decreases |labels|
  {
    if labels == [] {
    } else {
      var front, l := labels[..|labels| - 1], labels[|labels| - 1];
      assert labels == front + [l];
      EveryRunRemembers(cfg, front);
      if l.Tick? && Enabled(cfg, Exec(cfg, INITIAL, front), l) {
        TickRemembers(cfg, front, l);
      } else {
        OthersRemember(cfg, front, l);
      }
      hide Remembers, Enabled, Exec;
    }
  }

  /* ---------------------------------------------------------------- The theorem */

  /** Since the run first had the branch's present value, the branch has not left it. */
  ghost predicate PresentNeverLeft(cfg: Config, labels: seq<Label>, name: string) {
    forall i, j | 0 <= i <= j <= |labels| ::
      RefAt(cfg, labels, i, name) == RefAt(cfg, labels, |labels|, name) ==>
        RefAt(cfg, labels, j, name) == RefAt(cfg, labels, |labels|, name)
  }

  /** The branch that the next action of a pass would push to, and its lease. */
  function PushTarget(pc: Pc): Option<(string, Option<Commit>)> {
    if pc.Idle? then None
    else
      var e := pc.desired.environment;
      match pc.at
      case PublishPush(_, lease, _) => Some((EnvBranch(e), lease))
      case ProposeBootstrap(_, _) => Some((EnvBranch(e), None))
      case ProposePush(_, lease, _) => Some((ProposalBranch(e), lease))
      case DropPush(p) => Some((ProposalBranch(e), Some(p.commit)))
      case RemovePush(expected) => Some((EnvBranch(e), Some(expected)))
      case _ => None
  }

  /**
   * In every run, a connector step that changes a branch changes only the branch its pass is about
   * to push to, from exactly the leased value, and that pass saw this value on the branch.
   */
  lemma PushesReplaceWhatTheySaw(cfg: Config, labels: seq<Label>, l: Label, name: string)
    requires l.Tick?
    requires var s := Exec(cfg, INITIAL, labels);
             Do(cfg, s, l).world.Ref(name) != s.world.Ref(name)
    ensures var s := Exec(cfg, INITIAL, labels);
            PushTarget(s.pc) == Some((name, s.world.Ref(name))) &&
            Saw(cfg, labels, name, s.world.Ref(name))
  {
    EveryRunIsSound(cfg, labels);
    EveryRunRemembers(cfg, labels);
    var s := Exec(cfg, INITIAL, labels);
    StepRefs(cfg, s, l.choice);
    PushChangesItsTarget(cfg, s, l, name);
    SawBothIsSaw(cfg, labels);
    hide Exec, Do, Step, Inv, EnvBranch, ProposalBranch, Saw, SawBoth;
  }

  lemma SawBothIsSaw(cfg: Config, labels: seq<Label>)
    ensures forall name, lease, commit ::
              SawBoth(cfg, labels, name, lease, commit) ==> Saw(cfg, labels, name, Some(lease))
  {
    hide Exec;
  }

  lemma PushChangesItsTarget(cfg: Config, s: State, l: Label, name: string)
    requires Inv(cfg, s) && l.Tick? && Do(cfg, s, l).world.Ref(name) != s.world.Ref(name)
    ensures PushTarget(s.pc) == Some((name, s.world.Ref(name)))
  {
    StepRefs(cfg, s, l.choice);
    if s.pc.at.DropPush? {
      var e := s.pc.desired.environment;
      assert TargetStateOk(s.world.pulls, e, s.world.Load(e));
      assert s.pc.at.proposal.proposalBranch == ProposalBranch(e);
    }
    hide Step, EnvBranch, ProposalBranch, Inv;
  }

  /**
   * If the replaced value has not recurred, a publication stands on it: it is the same commit, or
   * its only parent is the replaced commit. A publication onto an absent branch has no parent.
   */
  lemma PublicationsBuildOnWhatTheyReplace(cfg: Config, labels: seq<Label>, l: Label)
    requires l.Tick?
    requires var s := Exec(cfg, INITIAL, labels);
             Enabled(cfg, s, l) && s.pc.at.PublishPush? && s.pc.op.Applying? &&
             s.pc.op.plan.Publish? && Do(cfg, s, l).pc.Running? &&
             PresentNeverLeft(cfg, labels, EnvBranch(s.pc.desired.environment))
    ensures var s := Exec(cfg, INITIAL, labels);
            var branch := EnvBranch(s.pc.desired.environment);
            Do(cfg, s, l).world.Ref(branch) == Some(s.pc.at.commit) &&
            match s.world.Ref(branch)
            case None => s.pc.at.commit.parents == []
            case Some(replaced) => StandsOn(s.pc.at.commit, Some(replaced))
  {
    EveryRunRemembers(cfg, labels);
    var s := Exec(cfg, INITIAL, labels);
    var branch, commit := EnvBranch(s.pc.desired.environment), s.pc.at.commit;
    PublishReplaces(cfg, s, l);
    assert labels[..|labels|] == labels;
    assert RefAt(cfg, labels, |labels|, branch) == s.world.Ref(branch);
    if s.world.Ref(branch).Some? {
      var lease := s.pc.at.lease.value;
      hide Exec, Do, EnvBranch;
      var i, j :| 0 <= i <= j <= |labels| && SamePass(cfg, labels, i) &&
                  RefAt(cfg, labels, i, branch) == Some(lease) &&
                  StandsOn(commit, RefAt(cfg, labels, j, branch));
      assert RefAt(cfg, labels, j, branch) == RefAt(cfg, labels, |labels|, branch);
    }
    hide Do, EnvBranch, Exec;
  }

  lemma PublishReplaces(cfg: Config, s: State, l: Label)
    requires l.Tick? && Enabled(cfg, s, l) && s.pc.at.PublishPush?
    requires s.pc.op.Applying? && s.pc.op.plan.Publish? && Do(cfg, s, l).pc.Running?
    ensures var branch := EnvBranch(s.pc.desired.environment);
            s.world.Ref(branch) == s.pc.at.lease &&
            Do(cfg, s, l).world.Ref(branch) == Some(s.pc.at.commit)
  {
    hide EnvBranch, PublishedState, StepRender, StepPropose, StepPull, StepCancel, StepDrop,
         StepRemove;
  }
}
