/**
 * The connector as it runs: an object whose methods read and change the deploy repository, the pull
 * requests and the target-state files one remote interaction at a time. Around each interaction
 * people and outsiders may act, and each interaction may fail. A ghost log records what happened;
 * the object's state is always what the lifecycle machine reaches by that log, so that every result
 * about the machine's runs is one about this object.
 */
module Engine {
  import opened Wrappers
  import opened Bytes
  import opened Trees
  import opened Slices
  import opened Lifecycle
  import opened Invariants
  import opened Convergence

  predicate IsOutside(l: Label) {
    l.Merge? || l.Close? || l.Sync? || l.Write?
  }

  /** An interaction works, fails, or takes effect although it reports a failure. */
  datatype Failure = Never | AtOnce | Late

  /** One remote interaction: what others did before it, whether it fails, and its free choices. */
  datatype Event = Event(outside: seq<Label>, failure: Failure, choice: Choice)

  const QUIET := Event([], Never, Choice(0, 0, SOME_RUNNER))

  /** Nobody acts before the interaction, and it works. */
  predicate IsQuiet(event: Event) {
    event.outside == [] && event.failure.Never?
  }

  datatype ApplyOutcome = Progressed | Stale | AwaitsRetry | ApplyFailed(code: string)

  datatype Staged = Same(expected: Commit) | Drafted(draft: Commit)

  datatype ProposalPublication = Unchanged(commit: Commit) | Awaiting(proposal: Proposal)

  datatype RetireOutcome = Absent | Blocked(code: string)

  /** The commit stands on the head that was there, and is that head if nothing differs. */
  predicate StandsOn(commit: Commit, head: Option<Commit>, world: RenderedWorld) {
    commit.tree == world.tree &&
    if head.None? then commit.parents == []
    else if head.value.tree == world.tree then commit == head.value
    else commit.parents == [head.value]
  }

  /** People and outsiders touch neither files, nor plans, nor the running pass. */
  lemma OutsideKeeps(cfg: Config, s: State, l: Label)
    requires IsOutside(l)
    ensures var t := Do(cfg, s, l);
            t.pc == s.pc && t.world.files == s.world.files && t.approved == s.approved
  {
    hide Step, MakePlan, StatePath;
  }

  /** Outsiders neither see nor touch the approved plans. */
  lemma {:induction false} OutsideIgnoresPlans(cfg: Config, s: State, t: State, labels: seq<Label>)
    requires forall l | l in labels :: IsOutside(l)
    requires t == s.(approved := t.approved)
    ensures Exec(cfg, t, labels) == Exec(cfg, s, labels).(approved := t.approved)
    decreases |labels|
  {
    if labels != [] {
      OutsideKeeps(cfg, t, labels[0]);
      assert Do(cfg, t, labels[0]) == Do(cfg, s, labels[0]).(approved := t.approved) by {
        hide Step, MakePlan, StatePath, EnvBranch, ProposalBranch;
      }
      OutsideIgnoresPlans(cfg, Do(cfg, s, labels[0]), Do(cfg, t, labels[0]), labels[1..]);
    }
    hide Do;
  }

  lemma AdvancesCompose(a: map<nat, Pull>, b: map<nat, Pull>, c: map<nat, Pull>)
    requires PullsAdvance(a, b) && PullsAdvance(b, c)
    ensures PullsAdvance(a, c)
  {
  }

  class Connector {
    const cfg: Config
    var refs: map<string, Commit>
    var pulls: map<nat, Pull>
    var files: map<string, TargetState>
    var approved: map<string, Approved>
    /** What is going to happen around the next remote interactions. */
    var ahead: seq<Event>
    ghost var pc: Pc
    ghost var log: seq<Label>

    ghost function Snapshot(): State
      reads this
    {
      State(World(refs, pulls, files), approved, pc)
    }

    /** The next remote interaction; past the foreseen ones nothing special happens. */
    function Next(): Event
      reads this
    {
      if ahead == [] then QUIET else ahead[0]
    }

    /** Nothing is going to disturb the next interactions. */
    ghost predicate Calm()
      reads this
    {
      forall event | event in ahead :: IsQuiet(event)
    }

    /** Calm before and after, with the repository and the pull requests as they were. */
    twostate predicate StaysCalm()
      reads this
    {
      Calm() && refs == old(refs) && pulls == old(pulls)
    }

    /** The object is where its log leads the machine. */
    ghost predicate Valid()
      reads this
    {
      Snapshot() == Exec(cfg, INITIAL, log)
    }

    constructor (cfg: Config, ahead: seq<Event>)
      ensures Valid() && Snapshot() == INITIAL
      ensures this.cfg == cfg && this.ahead == ahead
    {
      this.cfg := cfg;
      this.ahead := ahead;
      refs, pulls, files, approved := map[], map[], map[], map[];
      pc, log := Idle, [];
    }

    function Load(environment: string): TargetState
      reads this
    {
      if StatePath(environment) in files then files[StatePath(environment)] else DEFAULT_STATE
    }

    /* -------------------------------------------------------------- Other actors */

    /** One step of a person, the host or an outsider, on the repository and the pull requests. */
    method Outside(l: Label)
      requires Valid() && IsOutside(l)
      modifies this`refs, this`pulls, this`log
      ensures Valid() && log == old(log) + [l]
      ensures Snapshot() == Do(cfg, old(Snapshot()), l)
    {
      ExecSnoc(cfg, INITIAL, log, l);
      log := log + [l];
      match l
      case Merge(environment, number, merge) =>
        if number in pulls && PullOf(pulls[number], environment) && pulls[number].state.Open? &&
           EnvBranch(environment) in refs && merge.tree == pulls[number].head.tree
        {
          refs := refs[EnvBranch(environment) := merge];
          pulls := pulls[number := pulls[number].(state := Merged(merge))];
        }
      case Close(environment, number) =>
        if number in pulls && PullOf(pulls[number], environment) && pulls[number].state.Open? {
          pulls := pulls[number := pulls[number].(state := Closed)];
        }
      case Sync(environment, number) =>
        if number in pulls && PullOf(pulls[number], environment) && pulls[number].state.Open? &&
           ProposalBranch(environment) in refs
        {
          pulls := pulls[number := pulls[number].(head := refs[ProposalBranch(environment)])];
        }
      case Write(ref, value) =>
        refs := SetRef(refs, ref, value);
      hide Exec, Step, MakePlan;
    }

    /** The next remote interaction: others act first, in their order. */
    method Await() returns (event: Event)
      requires Valid()
      modifies this`refs, this`pulls, this`log, this`ahead
      ensures Valid() && pc == old(pc) && files == old(files) && approved == old(approved)
      ensures ahead == if old(ahead) == [] then [] else old(ahead)[1..]
      ensures event == old(Next())
      ensures old(log) <= log && forall l | l in log[|old(log)|..] :: IsOutside(l)
      ensures PullsAdvance(old(pulls), pulls)
      ensures old(Calm()) ==> StaysCalm() && IsQuiet(event)
    {
      event := Next();
      assert Calm() ==> IsQuiet(event);
      if ahead != [] { ahead := ahead[1..]; }
      var i := 0;
      EveryRunIsSound(cfg, log);
      while i < |event.outside|
        invariant 0 <= i <= |event.outside|
        invariant Valid() && pc == old(pc) && files == old(files) && approved == old(approved)
        invariant PullsOk(pulls) && PullsAdvance(old(pulls), pulls)
        invariant ahead == if old(ahead) == [] then [] else old(ahead)[1..]
        invariant old(log) <= log && forall l | l in log[|old(log)|..] :: IsOutside(l)
        invariant i == 0 ==> refs == old(refs) && pulls == old(pulls)
      {
        var l := event.outside[i];
        if IsOutside(l) {
          ghost var before := Snapshot();
          ghost var others := log[|old(log)|..];
          Outside(l);
          assert log[|old(log)|..] == others + [l];
          PullsOnlyAdvance(cfg, before, l);
          OutsideKeeps(cfg, before, l);
          AdvancesCompose(old(pulls), before.world.pulls, pulls);
        }
        i := i + 1;
      }
      hide Exec, Do, Inv, PullsOk, PullsAdvance;
    }

    /* -------------------------------------------------------------- The ghost log */

    /** Logging an action that has just been taken from `before`. */
    ghost method Record(before: State, choice: Choice)
      requires before == Exec(cfg, INITIAL, log) && before.pc.Running?
      requires before.pc.at.ProposeCreate? ==> choice.number !in before.world.pulls
      requires var after := Step(cfg, before, choice);
               after.world == World(refs, pulls, files) && after.approved == approved
      modifies this`pc, this`log
      ensures Valid() && Snapshot() == Step(cfg, before, choice)
    {
      var l := Tick(before.pc.desired.environment, choice);
      ExecSnoc(cfg, INITIAL, log, l);
      pc := Step(cfg, before, choice).pc;
      log := log + [l];
      hide Exec, Step;
    }

    /** The interaction failed: the pass is over. */
    ghost method Abandon()
      requires Valid() && pc.Running?
      modifies this`pc, this`log
      ensures Valid() && pc.Idle?
    {
      var l := Crash(pc.desired.environment);
      ExecSnoc(cfg, INITIAL, log, l);
      pc := Idle;
      log := log + [l];
      hide Exec, Step;
    }

    /** Still the same pass over the same files and plans, or over. */
    twostate predicate SamePass()
      reads this
    {
      files == old(files) && approved == old(approved)
    }

    /**
     * One remote interaction of the running pass; if it fails at once, the pass is over. If it
     * fails late, the caller takes the effect first.
     */
    method Interact() returns (choice: Option<Choice>, late: bool)
      requires Valid() && pc.Running?
      modifies this`refs, this`pulls, this`log, this`ahead, this`pc
      ensures Valid() && SamePass()
      ensures choice.Some? ==> pc == old(pc)
      ensures choice.None? ==> pc.Idle?
      ensures var next := old(Next());
              choice == (if next.failure.AtOnce? then None else Some(next.choice)) &&
              late == next.failure.Late?
      ensures old(Calm()) ==> StaysCalm() && choice.Some? && !late
    {
      var event := Await();
      if event.failure.AtOnce? {
        Abandon();
        return None, false;
      }
      return Some(event.choice), event.failure.Late?;
    }

    /** An interaction that only reads; failing late is failing. */
    method Inquire() returns (choice: Option<Choice>)
      requires Valid() && pc.Running?
      modifies this`refs, this`pulls, this`log, this`ahead, this`pc
      ensures Valid() && SamePass()
      ensures choice.Some? ==> pc == old(pc)
      ensures choice.None? ==> pc.Idle?
      ensures var next := old(Next());
              choice == if next.failure.Never? then Some(next.choice) else None
      ensures old(Calm()) ==> StaysCalm() && choice.Some?
    {
      var late;
      choice, late := Interact();
      if choice.Some? && late {
        Abandon();
        choice := None;
      }
    }

    /* -------------------------------------------------------------- Engine */

    /** Inspect and fetch the branch, and commit the render over it. */
    method CommitRender(desired: DesiredSlice, world: RenderedWorld, ghost plan: Plan)
      returns (r: Option<(Option<Commit>, Commit)>)
      requires Valid() && plan.Publish? && pc == Running(desired, Applying(plan), PublishLs(world))
      modifies this`refs, this`pulls, this`log, this`ahead, this`pc
      ensures Valid() && SamePass()
      ensures r.None? ==> pc.Idle?
      ensures r.Some? ==>
                pc == Running(desired, Applying(plan), PublishPush(world, r.value.0, r.value.1)) &&
                r.value.1.tree == world.tree
      ensures old(Calm()) ==>
                var head := Get(old(refs), EnvBranch(desired.environment));
                StaysCalm() && (r.Some? <==> head.Some? || world.tree != EMPTY_TREE) &&
                (r.Some? ==> r.value.0 == head && StandsOn(r.value.1, head, world))
    {
      hide Exec, Step, EnvBranch, PublishedState;
      var branch := EnvBranch(desired.environment);
      var choice := Inquire();
      if choice.None? { return None; }
      var existing := Get(refs, branch);
      PublishActs(cfg, Snapshot(), choice.value);
      Record(Snapshot(), choice.value);
      if existing.None? {
        if world.tree == EMPTY_TREE { return None; }
        return Some((None, Commit(world.tree, [], choice.value.stamp)));
      }
      choice := Inquire();
      if choice.None? { return None; }
      var head := Get(refs, branch);
      PublishActs(cfg, Snapshot(), choice.value);
      Record(Snapshot(), choice.value);
      if head.None? { return None; }
      r := Some((existing, if world.tree == head.value.tree then head.value
                           else CommitOver(world, head.value, choice.value.stamp)));
    }

    /** Replace the environment branch with one complete render. */
    method Publish(desired: DesiredSlice, world: RenderedWorld, ghost plan: Plan)
      returns (r: Result<Commit, string>)
      requires Valid() && plan.Publish? && pc == Running(desired, Applying(plan), PublishLs(world))
      modifies this`refs, this`pulls, this`log, this`ahead, this`pc
      ensures Valid() && SamePass()
      ensures r.Err? ==> pc.Idle?
      ensures r.Ok? ==>
                pc == Running(desired, Applying(plan),
                              Save(PublishedState(desired, plan.outputs, r.value))) &&
                Get(refs, EnvBranch(desired.environment)) == Some(r.value) &&
                r.value.tree == world.tree
      ensures old(Calm()) ==>
                var branch := EnvBranch(desired.environment);
                var head := Get(old(refs), branch);
                Calm() && pulls == old(pulls) &&
                (r.Ok? <==> head.Some? || world.tree != EMPTY_TREE) &&
                (r.Ok? ==>
                  refs == old(refs)[branch := r.value] && StandsOn(r.value, head, world))
    {
      hide Exec, Step, EnvBranch, PublishedState, StandsOn;
      var branch := EnvBranch(desired.environment);
      var made := CommitRender(desired, world, plan);
      if made.None? { return Err("k8s.publisher.git"); }
      var (lease, commit) := made.value;
      var choice, late := Interact();
      if choice.None? { return Err("k8s.publisher.git"); }
      ghost var before := Snapshot();
      PublishActs(cfg, before, choice.value);
      if Get(refs, branch) != lease {
        Record(before, choice.value);
        return Err("k8s.publisher.git");
      }
      refs := refs[branch := commit];
      Record(before, choice.value);
      if late {
        Abandon();
        return Err("k8s.publisher.git");
      }
      r := Ok(commit);
    }

    /** Inspect the branch and fetch it, or create it as an empty root: both heads, and a stamp. */
    method InspectBase(desired: DesiredSlice, world: RenderedWorld, ghost plan: Plan)
      returns (r: Option<(Commit, Commit, nat)>)
      requires Valid() && plan.Propose? && pc == Running(desired, Applying(plan), ProposeLs(world))
      modifies this`refs, this`pulls, this`log, this`ahead, this`pc
      ensures Valid() && SamePass()
      ensures r.None? ==> pc.Idle?
      ensures r.Some? ==>
                var (expected, head, stamp) := r.value;
                var next := Compare(cfg, desired, plan.outputs, world, expected, head, stamp);
                pc == if next.Some? then Running(desired, Applying(plan), next.value) else Idle
      ensures old(Calm()) ==>
                var branch := EnvBranch(desired.environment);
                var head := Get(old(refs), branch);
                Calm() && pulls == old(pulls) && r.Some? &&
                refs == old(refs)[branch := r.value.0] && r.value.0 == r.value.1 &&
                if head.Some? then r.value.0 == head.value
                else r.value.0.tree == EMPTY_TREE && r.value.0.parents == []
    {
      hide Exec, Step, EnvBranch, ProposalBranch, Compare;
      var branch := EnvBranch(desired.environment);
      var choice := Inquire();
      if choice.None? { return None; }
      var existing := Get(refs, branch);
      ProposeActs(cfg, Snapshot(), choice.value);
      Record(Snapshot(), choice.value);
      if existing.Some? {
        choice := Inquire();
        if choice.None? { return None; }
        var fetched := Get(refs, branch);
        ProposeActs(cfg, Snapshot(), choice.value);
        Record(Snapshot(), choice.value);
        if fetched.None? { return None; }
        return Some((existing.value, fetched.value, choice.value.stamp));
      }
      var root := Commit(EMPTY_TREE, [], choice.value.stamp);
      var late;
      choice, late := Interact();
      if choice.None? { return None; }
      ghost var before := Snapshot();
      ProposeActs(cfg, before, choice.value);
      if branch in refs {
        Record(before, choice.value);
        return None;
      }
      refs := refs[branch := root];
      Record(before, choice.value);
      if late {
        if pc.Running? { Abandon(); }
        return None;
      }
      r := Some((root, root, choice.value.stamp));
    }

    /**
     * Stage the render over the environment branch, creating an empty branch if there is none, and
     * read the patch of what is staged.
     */
    method Stage(desired: DesiredSlice, world: RenderedWorld, ghost plan: Plan)
      returns (r: Result<Staged, string>)
      requires Valid() && plan.Propose? && pc == Running(desired, Applying(plan), ProposeLs(world))
      modifies this`refs, this`pulls, this`log, this`ahead, this`pc
      ensures Valid() && SamePass()
      ensures r.Err? ==> pc.Idle?
      ensures r.Ok? && r.value.Same? ==>
                pc == Running(desired, Applying(plan),
                              Save(PublishedState(desired, plan.outputs, r.value.expected)))
      ensures r.Ok? && r.value.Drafted? ==>
                var draft := r.value.draft;
                pc == Running(desired, Applying(plan), ProposeLsProposal(world, draft)) &&
                draft.tree == world.tree && |draft.parents| == 1 &&
                draft.parents[0].tree != world.tree &&
                Readable(cfg, draft.parents[0].tree, world.tree)
      ensures old(Calm()) ==>
                var branch := EnvBranch(desired.environment);
                var head := Get(old(refs), branch);
                var base := if head.Some? then head.value.tree else EMPTY_TREE;
                Calm() && pulls == old(pulls) && branch in refs &&
                refs == old(refs)[branch := refs[branch]] && refs[branch].tree == base &&
                (head.Some? ==> refs[branch] == head.value) &&
                (r.Ok? <==> base == world.tree || Readable(cfg, base, world.tree)) &&
                (r.Ok? ==> (r.value.Same? <==> base == world.tree)) &&
                (r.Ok? && r.value.Drafted? ==> r.value.draft.parents == [refs[branch]])
    {
      hide Exec, Step, EnvBranch, ProposalBranch, PublishedState, Readable;
      var base := InspectBase(desired, world, plan);
      if base.None? { return Err("k8s.publisher.git"); }
      var (expected, head, stamp) := base.value;
      if world.tree == head.tree { return Ok(Same(expected)); }
      if !Readable(cfg, head.tree, world.tree) { return Err("k8s.publisher.git"); }
      r := Ok(Drafted(CommitOver(world, head, stamp)));
    }

    /**
     * Move the proposal branch to the draft, from whatever it is, and project the difference. A
     * difference that cannot be projected fails the pass after the push.
     */
    method PushProposal(desired: DesiredSlice, world: RenderedWorld, draft: Commit, ghost plan: Plan)
      returns (error: Option<string>)
      requires Valid() && plan.Propose?
      requires pc == Running(desired, Applying(plan), ProposeLsProposal(world, draft))
      modifies this`refs, this`pulls, this`log, this`ahead, this`pc
      ensures Valid() && SamePass()
      ensures error.Some? ==> pc.Idle?
      ensures error.None? ==>
                pc == Running(desired, Applying(plan), ProposeList(world, draft)) &&
                Get(refs, ProposalBranch(desired.environment)) == Some(draft) &&
                DraftProjects(draft)
      ensures error == Some("k8s.review.projection") ==>
                Get(refs, ProposalBranch(desired.environment)) == Some(draft) &&
                !DraftProjects(draft)
      ensures old(Calm()) ==>
                Calm() && pulls == old(pulls) &&
                refs == old(refs)[ProposalBranch(desired.environment) := draft] &&
                error == if DraftProjects(draft) then None else Some("k8s.review.projection")
    {
      hide Exec, Step, EnvBranch, ProposalBranch, StepRender, StepPublish, StepPull, StepCancel,
           StepDrop, StepRemove, DraftProjects;
      var review := ProposalBranch(desired.environment);
      var choice := Inquire();
      if choice.None? { return Some("k8s.publisher.git"); }
      var lease := Get(refs, review);
      ProposeActs(cfg, Snapshot(), choice.value);
      Record(Snapshot(), choice.value);
      var late;
      choice, late := Interact();
      if choice.None? { return Some("k8s.publisher.git"); }
      ghost var before := Snapshot();
      if Get(refs, review) != lease {
        ProposeActs(cfg, before, choice.value);
        Record(before, choice.value);
        return Some("k8s.publisher.git");
      }
      refs := refs[review := draft];
      ProposeActs(cfg, before, choice.value);
      Record(before, choice.value);
      if late {
        if pc.Running? { Abandon(); }
        return Some("k8s.publisher.git");
      }
      error := if DraftProjects(draft) then None else Some("k8s.review.projection");
    }

    /** Where one look at a pull request's head leads a proposing pass. */
    ghost function Awaited(desired: DesiredSlice, plan: Plan, world: RenderedWorld, draft: Commit,
                           number: nat, seen: Commit, left: nat): Pc
      requires plan.Propose?
      reads this
    {
      var at := AwaitHead(Load(desired.environment), desired, plan, world, draft, number, seen, left);
      if at.Some? then Running(desired, Applying(plan), at.value) else Idle
    }

    /** A number that no pull request has. */
    method FreshNumber(first: nat) returns (number: nat)
      ensures number !in pulls
    {
      number := first;
      ghost var left := pulls.Keys;
      while number in pulls
        invariant left <= pulls.Keys && forall n | n in pulls && n >= number :: n in left
        decreases |left|
      {
        left := left - {number};
        number := number + 1;
      }
    }

    /** The one open pull request, or none; more than one is an error. */
    method FindPull(desired: DesiredSlice, world: RenderedWorld, draft: Commit, ghost plan: Plan)
      returns (r: Result<Option<nat>, string>)
      requires Valid() && plan.Propose?
      requires pc == Running(desired, Applying(plan), ProposeList(world, draft))
      modifies this`refs, this`pulls, this`log, this`ahead, this`pc
      ensures Valid() && SamePass()
      ensures r.Err? ==> pc.Idle?
      ensures r.Ok? ==>
                pc == Running(desired, Applying(plan),
                              if r.value.Some? then ProposeUpdate(world, draft, r.value.value)
                              else ProposeCreate(world, draft))
      ensures r.Ok? ==>
                OpenPulls(pulls, desired.environment) ==
                if r.value.Some? then {r.value.value} else {}
      ensures old(Calm()) ==>
                StaysCalm() && (r.Ok? <==> |OpenPulls(old(pulls), desired.environment)| <= 1)
    {
      hide Exec, Step, EnvBranch, ProposalBranch, OpenPulls, StatePath;
      var e := desired.environment;
      var choice := Inquire();
      if choice.None? { return Err("k8s.github.api"); }
      var open := OpenPulls(pulls, e);
      if |open| > 1 {
        MoreThanOne(open, choice.value.number);
        PullActs(cfg, Snapshot(), choice.value);
        Record(Snapshot(), choice.value);
        return Err("k8s.github.pr");
      }
      if open == {} {
        PullActs(cfg, Snapshot(), choice.value);
        Record(Snapshot(), choice.value);
        return Ok(None);
      }
      var number :| number in open;
      Sole(open, number);
      choice := Some(choice.value.(number := number));
      PullActs(cfg, Snapshot(), choice.value);
      Record(Snapshot(), choice.value);
      r := Ok(Some(number));
    }

    /** Open a pull request on the proposal branch. */
    method OpenPull(desired: DesiredSlice, world: RenderedWorld, draft: Commit, ghost plan: Plan)
      returns (r: Result<(nat, Commit), string>)
      requires Valid() && plan.Propose?
      requires pc == Running(desired, Applying(plan), ProposeCreate(world, draft))
      modifies this`refs, this`pulls, this`log, this`ahead, this`pc
      ensures Valid() && SamePass()
      ensures r.Err? ==> pc.Idle?
      ensures r.Ok? ==>
                r.value.0 in pulls && pulls[r.value.0].head == r.value.1 &&
                pc == Awaited(desired, plan, world, draft, r.value.0, r.value.1, 3)
      ensures old(Calm()) ==>
                var e := desired.environment;
                Calm() && refs == old(refs) &&
                (r.Ok? <==> ProposalBranch(e) in refs && EnvBranch(e) in refs) &&
                (r.Ok? ==> Opened(old(pulls), e, r.value.0, r.value.1))
    {
      hide Exec, Step, EnvBranch, ProposalBranch, OpenPulls, StatePath, PendingState;
      var e := desired.environment;
      var choice, late := Interact();
      if choice.None? { return Err("k8s.github.api"); }
      var number := FreshNumber(choice.value.number);
      choice := Some(choice.value.(number := number));
      ghost var before := Snapshot();
      PullActs(cfg, before, choice.value);
      if ProposalBranch(e) !in refs || EnvBranch(e) !in refs {
        Record(before, choice.value);
        return Err("k8s.github.api");
      }
      var head := refs[ProposalBranch(e)];
      pulls := pulls[number := Pull(EnvBranch(e), ProposalBranch(e), head, Open)];
      Record(before, choice.value);
      if late {
        if pc.Running? { Abandon(); }
        return Err("k8s.github.api");
      }
      r := Ok((number, head));
    }

    /** A new pull request on the proposal branch as it is. */
    ghost predicate Opened(before: map<nat, Pull>, e: string, number: nat, head: Commit)
      reads this
    {
      number !in before && Get(refs, ProposalBranch(e)) == Some(head) &&
      pulls == before[number := Pull(EnvBranch(e), ProposalBranch(e), head, Open)]
    }

    /**
     * Update the one open pull request, or open one. The head it shows is the first look of the
     * wait that follows.
     */
    method UpsertPull(desired: DesiredSlice, world: RenderedWorld, draft: Commit, ghost plan: Plan)
      returns (r: Result<(nat, Commit), string>)
      requires Valid() && plan.Propose?
      requires pc == Running(desired, Applying(plan), ProposeList(world, draft))
      modifies this`refs, this`pulls, this`log, this`ahead, this`pc
      ensures Valid() && SamePass()
      ensures r.Err? ==> pc.Idle?
      ensures r.Ok? ==>
                r.value.0 in pulls && pulls[r.value.0].head == r.value.1 &&
                pc == Awaited(desired, plan, world, draft, r.value.0, r.value.1, 3)
      ensures old(Calm()) ==>
                var e := desired.environment;
                var open := OpenPulls(old(pulls), e);
                Calm() && refs == old(refs) &&
                (r.Ok? <==>
                  |open| == 1 ||
                  (open == {} && ProposalBranch(e) in refs && EnvBranch(e) in refs)) &&
                (r.Ok? ==>
                  if open == {} then Opened(old(pulls), e, r.value.0, r.value.1)
                  else open == {r.value.0} && pulls == old(pulls))
    {
      hide Exec, Step, EnvBranch, ProposalBranch, StatePath, PendingState, Opened;
      var found := FindPull(desired, world, draft, plan);
      if found.Err? { return Err(found.error); }
      if found.value.None? {
        r := OpenPull(desired, world, draft, plan);
        return;
      }
      var number := found.value.value;
      assert number in OpenPulls(pulls, desired.environment);
      hide OpenPulls;
      var choice := Inquire();
      if choice.None? { return Err("k8s.github.api"); }
      PullActs(cfg, Snapshot(), choice.value);
      Record(Snapshot(), choice.value);
      if number !in pulls { return Err("k8s.github.api"); }
      r := Ok((number, pulls[number].head));
    }

    /** Look up to three more times for the pull request's head to be the draft. */
    method WaitForPullHead(desired: DesiredSlice, world: RenderedWorld, draft: Commit,
                           number: nat, first: Commit, ghost plan: Plan)
      returns (ok: bool)
      requires Valid() && plan.Propose?
      requires pc == Awaited(desired, plan, world, draft, number, first, 3)
      requires number in pulls && pulls[number].head == first
      modifies this`refs, this`pulls, this`log, this`ahead, this`pc
      ensures Valid() && SamePass()
      ensures !ok ==> pc.Idle?
      ensures ok ==>
                number in pulls && pulls[number].head == draft &&
                pc == Running(desired, Applying(plan),
                              Save(PendingState(Load(desired.environment), desired, plan, number,
                                                draft)))
      ensures old(Calm()) ==> StaysCalm() && (ok <==> first == draft)
    {
      hide Exec, Step, EnvBranch, ProposalBranch, OpenPulls, StepRender, StepPublish, StepPropose,
           StepCancel, StepDrop, StepRemove, StatePath, PendingState;
      var seen, left := first, 3;
      while seen != draft && left > 0
        invariant 0 <= left <= 3 && Valid() && SamePass()
        invariant pc == Awaited(desired, plan, world, draft, number, seen, left)
        invariant seen == draft ==> number in pulls && pulls[number].head == draft
        invariant old(Calm()) ==> StaysCalm() && seen == first
        decreases left
      {
        var choice := Inquire();
        if choice.None? { return false; }
        if number !in pulls {
          PullActs(cfg, Snapshot(), choice.value);
          Record(Snapshot(), choice.value);
          return false;
        }
        seen, left := pulls[number].head, left - 1;
        PullActs(cfg, Snapshot(), choice.value);
        Record(Snapshot(), choice.value);
      }
      ok := seen == draft;
    }

    /** Nothing was open, or one pull request, which shows what the proposal branch now is. */
    ghost predicate Follows(before: map<nat, Pull>, e: string)
      reads this
    {
      var open := OpenPulls(before, e);
      open == {} ||
      exists n :: open == {n} && Get(refs, ProposalBranch(e)) == Some(before[n].head)
    }

    /** Push the render for review, unless the environment branch holds it already. */
    method Propose(desired: DesiredSlice, world: RenderedWorld, ghost plan: Plan)
      returns (r: Result<ProposalPublication, string>)
      requires Valid() && plan.Propose? && pc == Running(desired, Applying(plan), ProposeLs(world))
      modifies this`refs, this`pulls, this`log, this`ahead, this`pc
      ensures Valid() && SamePass()
      ensures r.Err? ==> pc.Idle?
      ensures r.Ok? && r.value.Unchanged? ==>
                pc == Running(desired, Applying(plan),
                              Save(PublishedState(desired, plan.outputs, r.value.commit)))
      ensures r.Ok? && r.value.Awaiting? ==>
                var p := r.value.proposal;
                p.targetBranch == EnvBranch(desired.environment) &&
                p.proposalBranch == ProposalBranch(desired.environment) &&
                p.number in pulls && pulls[p.number].head == p.commit && p.commit.tree == world.tree &&
                |p.commit.parents| == 1 && p.commit.parents[0].tree != world.tree &&
                Reviewable(cfg, p.commit.parents[0].tree, world.tree) &&
                pc == Running(desired, Applying(plan),
                              Save(PendingState(Load(desired.environment), desired, plan, p.number,
                                                p.commit)))
      ensures old(Calm()) ==>
                var head := Get(old(refs), EnvBranch(desired.environment));
                var base := if head.Some? then head.value.tree else EMPTY_TREE;
                Calm() &&
                (r.Ok? <==>
                  base == world.tree ||
                  (Reviewable(cfg, base, world.tree) && Follows(old(pulls), desired.environment))) &&
                (r.Ok? ==> (r.value.Unchanged? <==> base == world.tree))
    {
      hide Exec, Step, EnvBranch, ProposalBranch, PendingState, PublishedState, StatePath, Readable,
           Projectable;
      var staged := Stage(desired, world, plan);
      if staged.Err? { return Err(staged.error); }
      if staged.value.Same? { return Ok(Unchanged(staged.value.expected)); }
      var draft := staged.value.draft;
      var unpushed := PushProposal(desired, world, draft, plan);
      if unpushed.Some? { return Err(unpushed.value); }
      var pull := UpsertPull(desired, world, draft, plan);
      if pull.Err? { return Err(pull.error); }
      var shown := WaitForPullHead(desired, world, draft, pull.value.0, pull.value.1, plan);
      if !shown { return Err("k8s.review.proposal_changed"); }
      r := Ok(Awaiting(Proposal(pull.value.0, draft, EnvBranch(desired.environment),
                                ProposalBranch(desired.environment))));
    }

    /** Close an unmerged proposal; its branch is next. */
    method ClosePull(desired: DesiredSlice, p: Proposal, ghost op: Operation) returns (ok: bool)
      requires Valid() && pc == Running(desired, op, CancelGet(p))
      modifies this`refs, this`pulls, this`log, this`ahead, this`pc
      ensures Valid() && SamePass()
      ensures !ok ==> pc.Idle?
      ensures ok ==>
                pc == Running(desired, op, DropLs(p)) &&
                p.number in pulls && !pulls[p.number].state.Open?
      ensures old(Calm()) ==>
                Calm() && refs == old(refs) && (ok <==> p.number in old(pulls)) &&
                (ok ==>
                  pulls == if old(pulls)[p.number].state.Open?
                           then old(pulls)[p.number := old(pulls)[p.number].(state := Closed)]
                           else old(pulls))
    {
      hide Exec, Step, StepRender, StepPublish, StepPropose, StepPull, StepDrop, StepRemove;
      var choice := Inquire();
      if choice.None? { return false; }
      CancelActs(cfg, Snapshot(), choice.value);
      Record(Snapshot(), choice.value);
      if p.number !in pulls { return false; }
      if !pulls[p.number].state.Open? { return true; }
      var late;
      choice, late := Interact();
      if choice.None? { return false; }
      ghost var before := Snapshot();
      if p.number in pulls && pulls[p.number].state.Open? {
        pulls := pulls[p.number := pulls[p.number].(state := Closed)];
      }
      CancelActs(cfg, before, choice.value);
      Record(before, choice.value);
      ok := p.number in pulls && !late;
      if p.number in pulls && late { Abandon(); }
    }

    /** Inspect and fetch the environment branch that a proposal branch belongs to. */
    method InspectBeside(desired: DesiredSlice, p: Proposal, ghost op: Operation) returns (ok: bool)
      requires Valid() && pc == Running(desired, op, DropLs(p))
      modifies this`refs, this`pulls, this`log, this`ahead, this`pc
      ensures Valid() && SamePass()
      ensures !ok ==> pc.Idle?
      ensures ok ==> pc == Running(desired, op, DropLsProposal(p))
      ensures old(Calm()) ==>
                StaysCalm() && (ok <==> ProposalBranchEnvironment(p.proposalBranch).Some?)
    {
      hide Exec, Step, EnvBranch, StepRender, StepPublish, StepPropose, StepPull, StepCancel,
           StepRemove, AfterDrop, StatePath, ProposalBranchEnvironment;
      var choice := Inquire();
      if choice.None? { return false; }
      var environment := ProposalBranchEnvironment(p.proposalBranch);
      DropActs(cfg, Snapshot(), choice.value);
      Record(Snapshot(), choice.value);
      if environment.None? { return false; }
      if EnvBranch(environment.value) !in refs { return true; }
      choice := Inquire();
      if choice.None? { return false; }
      ok := EnvBranch(environment.value) in refs;
      DropActs(cfg, Snapshot(), choice.value);
      Record(Snapshot(), choice.value);
    }

    /** The proposal branch can be told and holds the proposed commit, if it exists. */
    ghost predicate CanDrop(p: Proposal)
      reads this
    {
      ProposalBranchEnvironment(p.proposalBranch).Some? &&
      (p.proposalBranch in refs ==> refs[p.proposalBranch] == p.commit)
    }

    /** Delete a proposal branch that has just been seen to hold the proposed commit. */
    method DropBranch(desired: DesiredSlice, p: Proposal, ghost op: Operation) returns (ok: bool)
      requires Valid() && pc == Running(desired, op, DropPush(p))
      modifies this`refs, this`pulls, this`log, this`ahead, this`pc
      ensures Valid() && SamePass()
      ensures !ok ==> pc.Idle?
      ensures ok ==>
                p.proposalBranch !in refs &&
                var next := AfterDrop(Load(desired.environment), desired, op);
                pc == if next.Some? then Running(desired, op, next.value) else Idle
      ensures old(Calm()) ==>
                Calm() && pulls == old(pulls) &&
                (ok <==> Get(old(refs), p.proposalBranch) == Some(p.commit)) &&
                (ok ==> refs == old(refs) - {p.proposalBranch})
    {
      hide Exec, Step, EnvBranch, AfterDrop, StatePath, ProposalBranchEnvironment;
      var choice, late := Interact();
      if choice.None? { return false; }
      ghost var before := Snapshot();
      DropActs(cfg, before, choice.value);
      if Get(refs, p.proposalBranch) != Some(p.commit) {
        Record(before, choice.value);
        return false;
      }
      refs := refs - {p.proposalBranch};
      Record(before, choice.value);
      if late && pc.Running? { Abandon(); }
      ok := !late;
    }

    /** Remove a proposal branch that still holds the proposed commit. */
    method RemoveProposalBranch(desired: DesiredSlice, p: Proposal, ghost op: Operation)
      returns (ok: bool)
      requires Valid() && pc == Running(desired, op, DropLs(p))
      modifies this`refs, this`pulls, this`log, this`ahead, this`pc
      ensures Valid() && SamePass()
      ensures !ok ==> pc.Idle?
      ensures ok ==>
                p.proposalBranch !in refs &&
                var next := AfterDrop(Load(desired.environment), desired, op);
                pc == if next.Some? then Running(desired, op, next.value) else Idle
      ensures old(Calm()) ==>
                Calm() && pulls == old(pulls) && (ok <==> old(CanDrop(p))) &&
                (ok ==> refs == old(refs) - {p.proposalBranch})
    {
      hide Exec, Step, EnvBranch, AfterDrop, StatePath, ProposalBranchEnvironment;
      var inspected := InspectBeside(desired, p, op);
      if !inspected { return false; }
      var choice := Inquire();
      if choice.None? { return false; }
      var current := Get(refs, p.proposalBranch);
      DropActs(cfg, Snapshot(), choice.value);
      Record(Snapshot(), choice.value);
      if current.None? { return true; }
      if current.value != p.commit { return false; }
      ok := DropBranch(desired, p, op);
    }

    /** Inspect and fetch the environment branch before deleting it. */
    method InspectToRemove(desired: DesiredSlice, ghost op: Operation)
      returns (ok: bool, expected: Option<Commit>)
      requires Valid() && pc == Running(desired, op, RemoveLs)
      modifies this`refs, this`pulls, this`log, this`ahead, this`pc
      ensures Valid() && SamePass()
      ensures !ok ==> pc.Idle?
      ensures ok && expected.None? ==>
                pc == Running(desired, op, Save(DEFAULT_STATE)) &&
                EnvBranch(desired.environment) !in refs
      ensures ok && expected.Some? ==> pc == Running(desired, op, RemovePush(expected.value))
      ensures old(Calm()) ==>
                StaysCalm() && ok && expected == Get(old(refs), EnvBranch(desired.environment))
    {
      hide Exec, EnvBranch, StepRender, StepPublish, StepPropose, StepPull, StepCancel, StepDrop;
      var branch := EnvBranch(desired.environment);
      expected := None;
      var choice := Inquire();
      if choice.None? { return false, None; }
      expected := Get(refs, branch);
      Record(Snapshot(), choice.value);
      if expected.None? { return true, None; }
      choice := Inquire();
      if choice.None? { return false, None; }
      ok := branch in refs;
      Record(Snapshot(), choice.value);
    }

    /** Delete the environment branch if it exists. */
    method Remove(desired: DesiredSlice, ghost op: Operation) returns (ok: bool)
      requires Valid() && pc == Running(desired, op, RemoveLs)
      modifies this`refs, this`pulls, this`log, this`ahead, this`pc
      ensures Valid() && SamePass()
      ensures !ok ==> pc.Idle?
      ensures ok ==>
                pc == Running(desired, op, Save(DEFAULT_STATE)) &&
                EnvBranch(desired.environment) !in refs
      ensures old(Calm()) ==>
                Calm() && ok && pulls == old(pulls) &&
                refs == old(refs) - {EnvBranch(desired.environment)}
    {
      hide Exec, EnvBranch, StepRender, StepPublish, StepPropose, StepPull, StepCancel, StepDrop;
      var branch := EnvBranch(desired.environment);
      var inspected, expected := InspectToRemove(desired, op);
      if !inspected { return false; }
      if expected.None? { return true; }
      var choice, late := Interact();
      if choice.None? { return false; }
      ghost var before := Snapshot();
      if Get(refs, branch) != expected {
        Record(before, choice.value);
        return false;
      }
      refs := refs - {branch};
      Record(before, choice.value);
      if late { Abandon(); }
      ok := !late;
    }

    /* -------------------------------------------------------------- Reconciler */

    /**
     * Replace the target-state file. Only the disk can fail here: at once, or late, when the file is
     * replaced but the directory cannot be synced.
     */
    method SaveState(desired: DesiredSlice, state: TargetState, ghost op: Operation)
      returns (ok: bool)
      requires Valid() && pc == Running(desired, op, Save(state))
      modifies this`files, this`log, this`ahead, this`pc
      ensures Valid() && pc.Idle?
      ensures ok ==> files == old(files)[StatePath(desired.environment) := state]
      ensures files == old(files) || files == old(files)[StatePath(desired.environment) := state]
      ensures ok <==> old(Next()).failure.Never?
      ensures old(Calm()) ==> Calm() && ok
    {
      hide Exec, StepRender, StepPublish, StepPropose, StepPull, StepCancel, StepDrop, StepRemove,
           StatePath;
      var event := Next();
      assert Calm() ==> IsQuiet(event);
      if ahead != [] { ahead := ahead[1..]; }
      if event.failure.AtOnce? {
        Abandon();
        return false;
      }
      ghost var before := Snapshot();
      files := files[StatePath(desired.environment) := state];
      Record(before, event.choice);
      ok := event.failure.Never?;
    }

    /** The render is the one that the plan was approved for. */
    predicate Matches(world: RenderedWorld, plan: Plan)
      requires plan.Publish? || plan.Propose?
    {
      world.treeDigest == plan.treeDigest && world.outputs == plan.outputs
    }

    /** Rendering again is going to work, and to give something else than was approved. */
    ghost predicate WillDiffer(desired: DesiredSlice, plan: Plan)
      reads this
    {
      (plan.Publish? || plan.Propose?) && Next().failure.Never? &&
      var again := cfg.render(Next().choice.runner, desired);
      again.Some? && !Matches(again.value, plan)
    }

    /** Rendering again is going to work, and to give what was approved. */
    ghost predicate WillMatch(desired: DesiredSlice, plan: Plan)
      reads this
    {
      (plan.Publish? || plan.Propose?) && Next().failure.Never? &&
      var again := cfg.render(Next().choice.runner, desired);
      again.Some? && Matches(again.value, plan)
    }

    /** The tree that is going to be rendered again. */
    ghost function NextTree(desired: DesiredSlice): GitTree
      reads this
    {
      var again := cfg.render(Next().choice.runner, desired);
      if again.Some? then again.value.tree else EMPTY_TREE
    }

    /**
     * Render again, and compare with what the plan was approved for: a render that fails is an
     * ordinary failure, one that differs makes the plan stale.
     */
    method RenderVerified(desired: DesiredSlice, plan: Plan)
      returns (r: Result<RenderedWorld, ApplyOutcome>)
      requires Valid() && (plan.Publish? || plan.Propose?)
      requires pc == Running(desired, Applying(plan), Render)
      modifies this`refs, this`pulls, this`log, this`ahead, this`pc
      ensures Valid() && SamePass()
      ensures r.Err? ==> pc.Idle?
      ensures r.Err? ==> r.error == if old(WillDiffer(desired, plan)) then Stale
                                    else ApplyFailed("k8s.renderer.execute")
      ensures old(WillDiffer(desired, plan)) ==> r.Err?
      ensures r.Ok? ==>
                Matches(r.value, plan) &&
                pc == Running(desired, Applying(plan),
                              if plan.Publish? then PublishLs(r.value) else ProposeLs(r.value))
      ensures old(Calm()) ==> StaysCalm() && (r.Ok? <==> old(WillMatch(desired, plan)))
      ensures r.Ok? ==> r.value.tree == old(NextTree(desired))
    {
      hide Exec, StepPublish, StepPropose, StepPull, StepCancel, StepDrop, StepRemove;
      var choice := Inquire();
      if choice.None? { return Err(ApplyFailed("k8s.renderer.execute")); }
      var rendered := cfg.render(choice.value.runner, desired);
      Record(Snapshot(), choice.value);
      if rendered.None? { return Err(ApplyFailed("k8s.renderer.execute")); }
      if !Matches(rendered.value, plan) { return Err(Stale); }
      r := Ok(rendered.value);
    }

    /* -------------------------------------------------------------- Observing and planning */

    /** The world at one moment since the log had this length. */
    ghost predicate Since(start: nat, world: World)
      reads this
    {
      exists k :: start <= k <= |log| && world == Exec(cfg, INITIAL, log[..k]).world
    }

    /**
     * Log a plan at the moment of its observation, of which the log so far was `prefix`. Since then
     * only others have acted.
     */
    ghost method RecordPlan(prefix: seq<Label>, before: State, desired: DesiredSlice,
                            shown: MergeIdentity, runner: PreparedRunner)
      requires before == Exec(cfg, INITIAL, prefix) && before.pc.Idle?
      requires prefix <= log && forall l | l in log[|prefix|..] :: IsOutside(l)
      requires MakePlan(cfg, before.world, desired, shown, runner).Some?
      requires Snapshot() == Exec(cfg, INITIAL, log).(approved :=
                 Do(cfg, before, Planned(desired, shown, runner)).approved)
      modifies this`log
      ensures Valid() && log == prefix + [Planned(desired, shown, runner)] + old(log)[|prefix|..]
    {
      var l, others := Planned(desired, shown, runner), log[|prefix|..];
      assert log == prefix + others;
      ExecAppend(cfg, INITIAL, prefix, others);
      ExecSnoc(cfg, INITIAL, prefix, l);
      assert Do(cfg, before, l) == before.(approved := Do(cfg, before, l).approved);
      OutsideIgnoresPlans(cfg, before, Do(cfg, before, l), others);
      ExecAppend(cfg, INITIAL, prefix + [l], others);
      log := prefix + [l] + others;
      hide Exec, Do;
    }

    /** Load the state, and look at the pending pull request, if there is one. */
    method ObservePass(desired: DesiredSlice, shown: MergeIdentity)
      returns (r: Result<Observation, string>)
      requires Valid() && pc.Idle?
      modifies this`refs, this`pulls, this`log, this`ahead
      ensures Valid() && files == old(files) && approved == old(approved) && pc.Idle?
      ensures old(log) <= log
      ensures r.Ok? ==> Observe(World(refs, pulls, files), desired.environment, shown) == r
      ensures Load(desired.environment).proposal.None? ==>
                r.Ok? && log == old(log) && ahead == old(ahead)
      ensures old(Calm()) ==>
                StaysCalm() && r == Observe(World(refs, pulls, files), desired.environment, shown)
    {
      hide Exec, Classify, StatePath;
      var state := Load(desired.environment);
      if state.proposal.None? { return Ok(Observation(state, None)); }
      var event := Await();
      if !event.failure.Never? { return Err("k8s.github.api"); }
      r := Observe(World(refs, pulls, files), desired.environment, shown);
    }

    /** Inspect the branch of a borrowed environment. */
    method AppliedRevision(environment: string) returns (r: Result<Commit, string>)
      requires Valid() && pc.Idle?
      modifies this`refs, this`pulls, this`log, this`ahead
      ensures Valid() && files == old(files) && approved == old(approved) && pc.Idle?
      ensures old(log) <= log
      ensures r.Ok? ==> exists world ::
                Since(|old(log)|, world) && world.Ref(EnvBranch(environment)) == Some(r.value)
      ensures old(Calm()) ==>
                StaysCalm() && (r.Ok? <==> EnvBranch(environment) in refs) &&
                (r.Ok? ==> r.value == refs[EnvBranch(environment)])
    {
      hide Exec, EnvBranch;
      var event := Await();
      var branch := EnvBranch(environment);
      if !event.failure.Never? || branch !in refs { return Err("k8s.publisher.git"); }
      var applied := refs[branch];
      ghost var world, k := World(refs, pulls, files), |log|;
      assert log[..k] == log;
      ghost var inspected := log;
      event := Await();
      assert log[..k] == inspected;
      assert Since(|old(log)|, world);
      if !event.failure.Never? || branch !in refs { return Err("k8s.publisher.git"); }
      r := Ok(applied);
    }

    /** The answers of the renderer and of the borrowed branch, as far as planning asks for them. */
    method GatherAnswers(desired: DesiredSlice, state: TargetState)
      returns (r: Result<(PreparedRunner, Option<RenderedWorld>, Option<Commit>), string>)
      requires Valid() && pc.Idle?
      modifies this`refs, this`pulls, this`log, this`ahead
      ensures Valid() && files == old(files) && approved == old(approved) && pc.Idle?
      ensures old(log) <= log
      ensures r.Ok? ==>
                var (runner, rendered, applied) := r.value;
                var asks := Asks(desired, state);
                rendered == (if asks then cfg.render(runner, desired) else None) &&
                (applied.Some? <==>
                  asks && rendered.Some? && desired.BorrowedEnvironment().Some?) &&
                (applied.Some? ==>
                  exists world ::
                    Since(|old(log)|, world) &&
                    world.Ref(EnvBranch(desired.BorrowedEnvironment().value)) == applied) &&
                (!asks ==> log == old(log)) &&
                (desired.BorrowedEnvironment().None? ==>
                  forall l | l in log[|old(log)|..] :: IsOutside(l))
      ensures old(Calm()) ==>
                var borrowed := desired.BorrowedEnvironment();
                StaysCalm() && ((borrowed.Some? ==> EnvBranch(borrowed.value) in refs) ==> r.Ok?)
    {
      hide Exec, EnvBranch, AsksForRender;
      if !Asks(desired, state) { return Ok((SOME_RUNNER, None, None)); }
      var event := Await();
      if !event.failure.Never? { return Err("k8s.renderer.execute"); }
      var runner := event.choice.runner;
      var rendered := cfg.render(runner, desired);
      var borrowed := desired.BorrowedEnvironment();
      if borrowed.None? || rendered.None? { return Ok((runner, rendered, None)); }
      var revision := AppliedRevision(borrowed.value);
      if revision.Err? { return Err(revision.error); }
      r := Ok((runner, rendered, Some(revision.value)));
    }

    predicate Asks(desired: DesiredSlice, state: TargetState) {
      AsksForRender(cfg.policies.ForEnvironment(desired.environment), desired, state)
    }

    /**
     * Observe and decide. The outcome is the decision over the world at one moment of the pass, with
     * a render by some runner and a value that the borrowed branch had at some moment, if they are
     * asked for.
     */
    method PlanPass(desired: DesiredSlice, shown: MergeIdentity)
      returns (r: Result<PlanOutcome, string>)
      requires Valid() && pc.Idle?
      modifies this`refs, this`pulls, this`log, this`ahead, this`approved
      ensures Valid() && files == old(files) && pc.Idle?
      ensures r.Ok? ==>
                exists seen, runner, applied ::
                  Since(|old(log)|, seen) && seen.files == files &&
                  ComesTo(cfg, seen, desired, shown, runner, applied, r.value) &&
                  Settled(cfg, seen, desired, shown, runner, applied, r.value)
      ensures r.Ok? && r.value.Ready? && desired.BorrowedEnvironment().Some? ==>
                exists seen ::
                  Since(|old(log)|, seen) && r.value.publication.Some? &&
                  seen.Ref(EnvBranch(desired.BorrowedEnvironment().value)) == r.value.publication
      ensures r.Ok? && r.value.Apply? ==>
                approved == old(approved)[desired.environment :=
                  Approved(desired, r.value.plan, Load(desired.environment))]
      ensures r.Err? || !r.value.Apply? ==> approved == old(approved)
      ensures old(Calm()) ==>
                var observed := Observe(World(refs, pulls, files), desired.environment, shown);
                var borrowed := desired.BorrowedEnvironment();
                StaysCalm() && (observed.Err? ==> r == Err(observed.error)) &&
                (observed.Ok? && (borrowed.Some? ==> EnvBranch(borrowed.value) in refs) ==> r.Ok?)
    {
      hide Exec, Inv, Decide, EnvBranch, StatePath, Step, Observe, AsksForRender, ComesTo,
           MakePlan, Settled;
      var e := desired.environment;
      var observed := ObservePass(desired, shown);
      if observed.Err? { return Err(observed.error); }
      ghost var prefix, before := log, Snapshot();
      NothingToExpect(cfg, log, e, shown);
      var answers := GatherAnswers(desired, observed.value.state);
      if answers.Err? { return Err(answers.error); }
      var (runner, rendered, applied) := answers.value;
      var outcome := Decide(cfg.policies.ForEnvironment(e), desired, observed.value, rendered,
                            applied);
      DecidesOver(cfg, before.world, desired, shown, runner, observed.value, rendered, applied);
      PassesSettle(cfg, before.world, desired, shown, runner, applied, outcome);
      if outcome.Apply? {
        approved := approved[e := Approved(desired, outcome.plan, Load(e))];
        PlanningApproves(cfg, before, desired, shown, runner);
        RecordPlan(prefix, before, desired, shown, runner);
      }
      SeenSince(|old(log)|, prefix, before.world);
      r := Ok(outcome);
    }

    lemma SeenSince(start: nat, prefix: seq<Label>, world: World)
      requires start <= |prefix| && prefix <= log && world == Exec(cfg, INITIAL, prefix).world
      ensures Since(start, world)
    {
      assert log[..|prefix|] == prefix;
      hide Exec;
    }

    /**
     * How an application may end: having recorded what its plan may record over the target state it
     * started from, or, unless it reports progress, having recorded nothing. A stale plan records
     * nothing.
     */
    ghost predicate Ended(before: map<string, TargetState>, desired: DesiredSlice, plan: Plan,
                          over: TargetState, outcome: ApplyOutcome)
      reads this
    {
      Valid() && pc.Idle? &&
      ((files == before[StatePath(desired.environment) := Load(desired.environment)] &&
        MayRecord(desired, plan, over, Load(desired.environment)) && !outcome.Stale?) ||
       (files == before && !outcome.Progressed?))
    }

    /**
     * With nothing in the way, applying the plan is going to make progress; a proposal, if its pull
     * request follows.
     */
    ghost predicate WillProgress(desired: DesiredSlice, plan: Plan)
      reads this
    {
      var head, pending := Get(refs, EnvBranch(desired.environment)),
                           Load(desired.environment).proposal;
      match plan
      case Publish(_, _) =>
        WillMatch(desired, plan) && (head.Some? || NextTree(desired) != EMPTY_TREE)
      case Propose(_, _) =>
        var base := if head.Some? then head.value.tree else EMPTY_TREE;
        WillMatch(desired, plan) &&
        (base == NextTree(desired) || Reviewable(cfg, base, NextTree(desired)))
      case RecordMerged(_) => pending.Some? && CanDrop(pending.value.proposal)
      case CancelProposal =>
        pending.Some? ==>
          pending.value.proposal.number in pulls && CanDrop(pending.value.proposal)
      case RemoveEnvironment => true
    }

    /** The environment branch holds already what is going to be rendered. */
    ghost predicate IsDeployed(desired: DesiredSlice)
      reads this
    {
      var head := Get(refs, EnvBranch(desired.environment));
      NextTree(desired) == if head.Some? then head.value.tree else EMPTY_TREE
    }

    method ApplyPublish(desired: DesiredSlice, plan: Plan) returns (outcome: ApplyOutcome)
      requires Valid() && plan.Publish? && pc == Running(desired, Applying(plan), Render)
      modifies this`refs, this`pulls, this`files, this`log, this`ahead, this`pc
      ensures Ended(old(files), desired, plan, old(Load(desired.environment)), outcome)
      ensures outcome.Stale? <==> old(WillDiffer(desired, plan))
      ensures approved == old(approved)
      ensures old(Calm()) ==> Calm() && (outcome.Progressed? <==> old(WillProgress(desired, plan)))
    {
      hide Exec, Step, StatePath;
      var world := RenderVerified(desired, plan);
      if world.Err? { return world.error; }
      var commit := Publish(desired, world.value, plan);
      if commit.Err? { return ApplyFailed(commit.error); }
      var state := PublishedState(desired, plan.outputs, commit.value);
      var saved := SaveState(desired, state, Applying(plan));
      outcome := if saved then Progressed else ApplyFailed("k8s.review.proposal");
    }

    method ApplyPropose(desired: DesiredSlice, plan: Plan) returns (outcome: ApplyOutcome)
      requires Valid() && plan.Propose? && pc == Running(desired, Applying(plan), Render)
      modifies this`refs, this`pulls, this`files, this`log, this`ahead, this`pc
      ensures Ended(old(files), desired, plan, old(Load(desired.environment)), outcome)
      ensures outcome.Stale? <==> old(WillDiffer(desired, plan))
      ensures approved == old(approved)
      ensures old(Calm()) ==>
                Calm() &&
                (outcome.Progressed? <==>
                  old(WillProgress(desired, plan)) &&
                  (old(IsDeployed(desired)) || Follows(old(pulls), desired.environment)))
    {
      hide Exec, Step, StatePath, EnvBranch, ProposalBranch;
      var world := RenderVerified(desired, plan);
      if world.Err? { return world.error; }
      var published := Propose(desired, world.value, plan);
      if published.Err? { return ApplyFailed(published.error); }
      var state;
      match published.value {
        case Unchanged(commit) => state := PublishedState(desired, plan.outputs, commit);
        case Awaiting(p) =>
          state := PendingState(Load(desired.environment), desired, plan, p.number, p.commit);
      }
      var saved := SaveState(desired, state, Applying(plan));
      outcome := if saved then Progressed else ApplyFailed("k8s.review.proposal");
    }

    method ApplyRecordMerged(desired: DesiredSlice, plan: Plan, pending: PendingProposal)
      returns (outcome: ApplyOutcome)
      requires Valid() && plan.RecordMerged?
      requires Load(desired.environment).proposal == Some(pending)
      requires pc == Running(desired, Applying(plan), DropLs(pending.proposal))
      modifies this`refs, this`pulls, this`files, this`log, this`ahead, this`pc
      ensures Ended(old(files), desired, plan, old(Load(desired.environment)), outcome)
      ensures !outcome.Stale?
      ensures approved == old(approved)
      ensures old(Calm()) ==> Calm() && (outcome.Progressed? <==> old(WillProgress(desired, plan)))
    {
      hide Exec, Step, StatePath;
      var dropped := RemoveProposalBranch(desired, pending.proposal, Applying(plan));
      if !dropped { return AwaitsRetry; }
      var state := TargetState(Some(pending.inputDigest), pending.outputs, Some(plan.commit), true,
                               None);
      var saved := SaveState(desired, state, Applying(plan));
      outcome := if saved then Progressed else ApplyFailed("k8s.review.proposal");
    }

    method ApplyCancel(desired: DesiredSlice, plan: Plan, pending: PendingProposal)
      returns (outcome: ApplyOutcome)
      requires Valid() && plan.CancelProposal?
      requires Load(desired.environment).proposal == Some(pending)
      requires pc == Running(desired, Applying(plan), CancelGet(pending.proposal))
      modifies this`refs, this`pulls, this`files, this`log, this`ahead, this`pc
      ensures Ended(old(files), desired, plan, old(Load(desired.environment)), outcome)
      ensures !outcome.Stale?
      ensures approved == old(approved)
      ensures old(Calm()) ==> Calm() && (outcome.Progressed? <==> old(WillProgress(desired, plan)))
    {
      hide Exec, Step, StatePath;
      var state := Load(desired.environment).(proposal := None);
      var closed := ClosePull(desired, pending.proposal, Applying(plan));
      if !closed { return ApplyFailed("k8s.github.api"); }
      var dropped := RemoveProposalBranch(desired, pending.proposal, Applying(plan));
      if !dropped { return ApplyFailed("k8s.publisher.git"); }
      var saved := SaveState(desired, state, Applying(plan));
      outcome := if saved then Progressed else ApplyFailed("k8s.review.proposal");
    }

    method ApplyRemove(desired: DesiredSlice, plan: Plan) returns (outcome: ApplyOutcome)
      requires Valid() && plan.RemoveEnvironment?
      requires pc == Running(desired, Applying(plan), RemoveLs)
      modifies this`refs, this`pulls, this`files, this`log, this`ahead, this`pc
      ensures Ended(old(files), desired, plan, old(Load(desired.environment)), outcome)
      ensures !outcome.Stale?
      ensures approved == old(approved)
      ensures old(Calm()) ==> Calm() && (outcome.Progressed? <==> old(WillProgress(desired, plan)))
    {
      hide Exec, Step, StatePath;
      var removed := Remove(desired, Applying(plan));
      if !removed { return ApplyFailed("k8s.publisher.git"); }
      var saved := SaveState(desired, DEFAULT_STATE, Applying(plan));
      outcome := if saved then Progressed else ApplyFailed("k8s.review.proposal");
    }

    /** Log that a pass starts with the approved plan, or finds nothing left of its proposal. */
    ghost method BeginApply(e: string)
      requires Valid() && pc.Idle? && e in approved && Load(e) == approved[e].over
      modifies this`pc, this`log
      ensures Valid()
      ensures var a := approved[e];
              var at := PlanEntry(a.plan, Load(e));
              pc == if at.Some? then Running(a.desired, Applying(a.plan), at.value) else Idle
    {
      ExecSnoc(cfg, INITIAL, log, Start(e));
      var a := approved[e];
      var at := PlanEntry(a.plan, Load(e));
      pc := if at.Some? then Running(a.desired, Applying(a.plan), at.value) else Idle;
      log := log + [Start(e)];
      hide Exec, Step, MakePlan, StatePath, PlanEntry;
    }

    /**
     * Apply the approved plan for an environment. The slice and the target state are those that the
     * plan was made for. The plan is stale exactly if its re-render differs from what was approved,
     * or if the proposal whose merge it records has gone.
     */
    method Apply(e: string) returns (outcome: ApplyOutcome)
      requires Valid() && pc.Idle? && e in approved && Load(e) == approved[e].over
      requires approved[e].desired.environment == e
      modifies this`refs, this`pulls, this`files, this`log, this`ahead, this`pc
      ensures Valid() && pc.Idle? && approved == old(approved)
      ensures var a := old(approved[e]);
              if (a.plan.RecordMerged? || a.plan.CancelProposal?) && a.over.proposal.None? then
                files == old(files)
              else Ended(old(files), a.desired, a.plan, a.over, outcome)
      ensures outcome.Stale? <==>
                old(WillDiffer(approved[e].desired, approved[e].plan)) ||
                (old(approved[e]).plan.RecordMerged? && old(approved[e]).over.proposal.None?)
      ensures old(Calm()) ==>
                Calm() &&
                (outcome.Progressed? <==>
                  old(WillProgress(approved[e].desired, approved[e].plan)) &&
                  (old(approved[e]).plan.Propose? ==>
                     old(IsDeployed(approved[e].desired)) || Follows(old(pulls), e)))
    {
      hide Exec, Step, StatePath;
      var a := approved[e];
      var pending := Load(e).proposal;
      BeginApply(e);
      match a.plan
      case Publish(_, _) => outcome := ApplyPublish(a.desired, a.plan);
      case Propose(_, _) => outcome := ApplyPropose(a.desired, a.plan);
      case RecordMerged(_) =>
        if pending.None? { return Stale; }
        outcome := ApplyRecordMerged(a.desired, a.plan, pending.value);
      case CancelProposal =>
        if pending.None? { return Progressed; }
        outcome := ApplyCancel(a.desired, a.plan, pending.value);
      case RemoveEnvironment => outcome := ApplyRemove(a.desired, a.plan);
    }

    ghost method BeginRetire(desired: DesiredSlice)
      requires Valid() && pc.Idle?
      modifies this`pc, this`log
      ensures Valid()
      ensures pc == Running(desired, Retiring, RetireEntry(desired, Load(desired.environment)))
    {
      ExecSnoc(cfg, INITIAL, log, Retire(desired));
      pc := Running(desired, Retiring, RetireEntry(desired, Load(desired.environment)));
      log := log + [Retire(desired)];
      hide Exec, Step, MakePlan, StatePath, RetireEntry;
    }

    /** Cancel what is pending, delete the environment's own branch, and forget its state. */
    method RetireSlice(desired: DesiredSlice) returns (outcome: RetireOutcome)
      requires Valid() && pc.Idle?
      modifies this`refs, this`pulls, this`files, this`log, this`ahead, this`pc
      ensures Valid() && pc.Idle? && approved == old(approved)
      ensures outcome.Absent? ==>
                files == old(files)[StatePath(desired.environment) := DEFAULT_STATE] &&
                (desired.BorrowedEnvironment().None? ==> EnvBranch(desired.environment) !in refs)
      ensures outcome.Blocked? ==>
                files == old(files) ||
                files == old(files)[StatePath(desired.environment) := DEFAULT_STATE]
      ensures old(Calm()) ==>
                var pending := old(Load(desired.environment)).proposal;
                Calm() &&
                (outcome.Absent? <==>
                  (pending.Some? ==>
                     pending.value.proposal.number in old(pulls) &&
                     old(CanDrop(Load(desired.environment).proposal.value.proposal))))
    {
      hide Exec, Step, StatePath, EnvBranch;
      var pending := Load(desired.environment).proposal;
      BeginRetire(desired);
      if pending.Some? {
        var closed := ClosePull(desired, pending.value.proposal, Retiring);
        if !closed { return Blocked("k8s.github.api"); }
        var dropped := RemoveProposalBranch(desired, pending.value.proposal, Retiring);
        if !dropped { return Blocked("k8s.publisher.git"); }
      }
      if desired.BorrowedEnvironment().None? {
        var removed := Remove(desired, Retiring);
        if !removed { return Blocked("k8s.publisher.git"); }
      }
      var saved := SaveState(desired, DEFAULT_STATE, Retiring);
      outcome := if saved then Absent else Blocked("k8s.review.proposal");
    }

    /** The plan renders nothing. */
    predicate CleansUp(plan: Plan) {
      plan.RecordMerged? || plan.CancelProposal? || plan.RemoveEnvironment?
    }

    /**
     * One whole pass: what it decides holds of the world at one moment, a plan is applied, and progress
     * lowers the rank of the slice; anything else records nothing, or reports a failure late. In calm,
     * a plan that cleans up makes progress exactly if it can.
     */
    method Reconcile(desired: DesiredSlice, shown: MergeIdentity)
      returns (planned: Result<PlanOutcome, string>, applied: Option<ApplyOutcome>)
      requires Valid() && pc.Idle?
      modifies this`refs, this`pulls, this`files, this`approved, this`log, this`ahead, this`pc
      ensures Valid() && pc.Idle?
      ensures applied.Some? <==> planned.Ok? && planned.value.Apply?
      ensures planned.Ok? ==>
                exists seen: World, runner, revision ::
                  seen.files == old(files) &&
                  Settled(cfg, seen, desired, shown, runner, revision, planned.value)
      ensures applied.None? ==> files == old(files)
      ensures applied == Some(Progressed) ==> files != old(files)
      ensures files == old(files) ||
              RankIn(cfg, desired, World(refs, pulls, files)) <
                old(RankIn(cfg, desired, World(refs, pulls, files)))
      ensures old(Calm()) && Observe(old(World(refs, pulls, files)), desired.environment, shown).Ok? &&
              desired.BorrowedEnvironment().None? ==>
                planned.Ok?
      ensures old(Calm()) && applied.Some? && CleansUp(planned.value.plan) ==>
                (applied.value.Progressed? <==> old(WillProgress(desired, planned.value.plan)))
    {
      hide Exec, Step, StatePath, Rank, Fits, MayRecord, Decide, Inv, ComesTo, Settled, Observe;
      var e := desired.environment;
      applied := None;
      planned := PlanPass(desired, shown);
      if planned.Ok? && planned.value.Apply? {
        var plan := planned.value.plan;
        ghost var over := Load(e);
        ghost var seen: World, runner, revision :|
          seen.files == files &&
          Settled(cfg, seen, desired, shown, runner, revision, planned.value);
        SettledFits(cfg, seen, desired, shown, runner, revision, plan);
        var outcome := Apply(e);
        applied := Some(outcome);
        if files != old(files) || outcome.Progressed? {
          RecordingLowers(cfg, seen.pulls, desired, plan, over, Load(e));
        }
      }
    }
  }

  /* ---------------------------------------------------------------- Which action a point takes */

  lemma PublishActs(cfg: Config, s: State, ch: Choice)
    requires s.pc.Running? && s.pc.op.Applying? && s.pc.op.plan.Publish?
    requires s.pc.at.PublishLs? || s.pc.at.PublishFetch? || s.pc.at.PublishPush?
    ensures Step(cfg, s, ch) == StepPublish(s, ch)
  {
    hide StepPublish;
  }

  lemma ProposeActs(cfg: Config, s: State, ch: Choice)
    requires s.pc.Running? && s.pc.op.Applying? && s.pc.op.plan.Propose?
    requires s.pc.at.ProposeLs? || s.pc.at.ProposeFetch? || s.pc.at.ProposeBootstrap? ||
             s.pc.at.ProposeLsProposal? || s.pc.at.ProposePush?
    ensures Step(cfg, s, ch) == StepPropose(cfg, s, ch)
  {
    hide StepPropose;
  }

  lemma PullActs(cfg: Config, s: State, ch: Choice)
    requires s.pc.Running? && s.pc.op.Applying? && s.pc.op.plan.Propose?
    requires s.pc.at.ProposeList? || s.pc.at.ProposeUpdate? || s.pc.at.ProposeCreate? ||
             s.pc.at.ProposeWait?
    ensures Step(cfg, s, ch) == StepPull(s, ch)
  {
    hide StepPull;
  }

  lemma CancelActs(cfg: Config, s: State, ch: Choice)
    requires s.pc.Running? && (s.pc.at.CancelGet? || s.pc.at.CancelClose?)
    ensures Step(cfg, s, ch) == StepCancel(s)
  {
    hide StepCancel;
  }

  lemma DropActs(cfg: Config, s: State, ch: Choice)
    requires s.pc.Running?
    requires s.pc.at.DropLs? || s.pc.at.DropFetch? || s.pc.at.DropLsProposal? || s.pc.at.DropPush?
    ensures Step(cfg, s, ch) == StepDrop(s)
  {
    hide StepDrop;
  }

  lemma MoreThanOne(s: set<nat>, n: nat)
    requires |s| > 1
    ensures s != {} && s != {n}
  {
  }

  lemma Sole(s: set<nat>, n: nat)
    requires |s| <= 1 && n in s
    ensures s == {n}
  {
    assert |s - {n}| == |s| - 1;
  }

  lemma SettledFits(cfg: Config, world: World, desired: DesiredSlice, shown: MergeIdentity,
                    runner: PreparedRunner, applied: Option<Commit>, plan: Plan)
    requires Settled(cfg, world, desired, shown, runner, applied, PlanOutcome.Apply(plan))
    ensures Fits(cfg, world.pulls, desired, plan, world.Load(desired.environment))
    ensures (plan.RecordMerged? || plan.CancelProposal?) ==>
              world.Load(desired.environment).proposal.Some?
  {
    hide FailsExactly, StatePath, UnderReview;
  }

  lemma NothingToExpect(cfg: Config, log: seq<Label>, e: string, shown: MergeIdentity)
    requires Observe(Exec(cfg, INITIAL, log).world, e, shown).Ok?
    ensures var observed := Observe(Exec(cfg, INITIAL, log).world, e, shown).value;
            (observed.state.proposal.Some? ==> observed.status.Some?) &&
            (observed.state.published ==> observed.state.commit.Some?)
  {
    EveryRunIsSound(cfg, log);
    var world := Exec(cfg, INITIAL, log).world;
    assert TargetStateOk(world.pulls, e, world.Load(e));
    hide Exec, StatePath;
  }

  /** A decision over what planning asked for is one over everything. */
  lemma DecidesOver(cfg: Config, seen: World, desired: DesiredSlice, shown: MergeIdentity,
                    runner: PreparedRunner, observed: Observation,
                    rendered: Option<RenderedWorld>, applied: Option<Commit>)
    requires Observe(seen, desired.environment, shown) == Ok(observed)
    requires observed.state.proposal.Some? ==> observed.status.Some?
    requires observed.state.published ==> observed.state.commit.Some?
    requires var asks := AsksForRender(cfg.policies.ForEnvironment(desired.environment), desired,
                                       observed.state);
             rendered == (if asks then cfg.render(runner, desired) else None) &&
             (applied.Some? ==> asks && desired.BorrowedEnvironment().Some?) &&
             (asks && rendered.Some? && desired.BorrowedEnvironment().Some? ==> applied.Some?)
    ensures var policy := cfg.policies.ForEnvironment(desired.environment);
            var outcome := Decide(policy, desired, observed, rendered, applied);
            ComesTo(cfg, seen, desired, shown, runner, applied, outcome) &&
            (outcome.Apply? ==>
               MakePlan(cfg, seen, desired, shown, runner) == Some(outcome.plan) &&
               (desired.BorrowedEnvironment().Some? ==>
                  !AsksForRender(policy, desired, observed.state))) &&
            (outcome.Ready? && desired.BorrowedEnvironment().Some? ==>
               applied.Some? && outcome.publication == applied)
  {
    hide Observe, StatePath;
  }

  lemma PlanningApproves(cfg: Config, s: State, desired: DesiredSlice, shown: MergeIdentity,
                         runner: PreparedRunner)
    requires s.pc.Idle? && MakePlan(cfg, s.world, desired, shown, runner).Some?
    ensures Do(cfg, s, Planned(desired, shown, runner)).approved ==
            s.approved[desired.environment :=
              Approved(desired, MakePlan(cfg, s.world, desired, shown, runner).value,
                       s.world.Load(desired.environment))]
  {
    hide MakePlan, StatePath;
  }

  /** Whatever happened around a connector, its files and pull requests are sound. */
  lemma ConnectorsAreSound(c: Connector, e: string)
    requires c.Valid()
    ensures TargetStateOk(c.pulls, e, c.Load(e))
    ensures forall n, m ::
              n in OpenPulls(c.pulls, e) && m in OpenPulls(c.pulls, e) ==> n == m
  {
    TargetStateInvariant(c.cfg, c.log, e);
    ExecKeepsOneOpen(c.cfg, INITIAL, c.log, e);
    hide Exec, StatePath, OpenPulls, TargetStateOk;
  }
}
