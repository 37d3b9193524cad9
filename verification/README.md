# Verification of the Kubernetes connector's reconciler

A Dafny 4.11 project that models the connector which renders a desired slice, publishes the rendered
tree to a deploy repository directly or through a reviewed pull request, and remembers what it did
in one target-state file for each environment. `dafny verify dfyconfig.toml` checks all of it.

## The publication lifecycle

`Lifecycle` is one labelled state machine. Its state is the deploy repository (branches as immutable
commits with tree and parents), the pull requests (open, closed or merged, with the head the host
shows), the target-state files, the approved plans, and the program point of the one running pass
with its local variables. A run is a list of labels: planning, starting, one atomic connector action,
a crash, a retirement, a merge, a close, a refreshed pull-request head, or an outside write to any
branch. A label that is not enabled does nothing, so every list of labels is a run. The branches of
`observe`, `plan`, `apply` and `retire` and of the engine's Git and GitHub operations are the
machine's functions `Observe`, `Decide`, `PlanEntry`, `RetireEntry` and `Step`.

`Invariants` proves what every step keeps, the gate, the single open pull request and that planning
cannot abort. `Evidence` says what a published state is evidence of. `Isolation` projects runs to one
environment. `LostUpdates` relates every push to what its pass saw. `Recovery`, `RecoveryPropose` and
`RecoveryCleanup` prove crash recovery of each plan and of retiring and say exactly when it works,
and `RecoveryLimits` shows what becomes of an environment when it does not. `Convergence` gives the
rank and what outcomes mean; `Deployments` composes all of it into whole deployments.

`Engine` is the connector as an object with fields that its methods read and change one remote
interaction at a time. Others act before every interaction and every interaction may fail, before or
after its effect. A ghost log ties the object to the machine: its state is where the log leads, so
what holds of every run holds of the object.

## Rendering, its cache, and the encodings

`Decoding`, `Contexts` and `Slices` decode and validate slices and define their digests.
`TreeDigests` and `Copies` collect, hash and copy directory trees. `RenderCaches` is the on-disk
cache as an object; `RenderQueue` is the queue it implements. `Recipes` is the key of a render, and
`Rendering` is rendering with the cache against rendering without it, `RenderRuns` says which of
many renders run the renderer, and `Receipts` joins rendering to the lifecycle. `Identities` is the
publication identity. `Reviews` is the projection of a diff that accompanies a proposal, and
`Projections` joins it to the lifecycle. `Bytes`, `OrdMaps`, `Trees` and `Wrappers` hold what they
share, and `Domains` keeps the digests apart.

A hash is a constructor over its preimage: it is collision-free and nothing else is known of it.
Commits are compared by content, with a stamp for everything of a commit besides tree and parents.

## Assumptions

- Passes of the connector are serial, and a plan is applied to the slice and the target state it was
  made for (`ConcurrencyScope::Connector`).
- Merging a pull request yields the proposed tree (docs/review-projection-v1.md, lines 10 to 12).
- The renderer is a function of the prepared runner and the slice's manifests. Where the lifecycle
  compares tree digests it takes the digest to be a function of these too, which for cached renders
  is the condition of `Rendering.HitsKeepTheDigest`.
- The manifest is serialised injectively, JSON reads back as it was written, and the publication
  identity's JSON is canonical.
- The keys of the recipes that are ever rendered do not collide.
- A corruption of the cache may be anything except a digest file that names a tree which the entry's
  recipe does not render.
- Modification times grow from one store to the next. The bounded queue of the cache uses this, its
  soundness does not.
- A renderer's tree is not empty: it holds its manifest. The recovery and convergence results of
  direct publication use this.
- The patch of a proposal is a function of the two trees. The convergence of a reviewed publication
  needs a difference that can be reviewed: its patch and its paths are UTF-8, and no file changes its
  type. That this is needed is part of `RecoveryPropose.ProposeSurvivesCrashes`.

## Where the code and its documents differ

- docs/review-projection-v1.md (line 90) says that a gated environment is Ready only after a merge is
  observed. The code also records a slice as published when its render equals the environment
  branch's tree (engine.rs, lines 534 to 536). The model follows the code.
- That branch returns the commit seen by `ls-remote`, while the comparison is with the commit that
  was fetched afterwards. If the branch moves in between, the recorded commit need not hold the
  render. `Evidence` gives the run, proves evidence for every run in which nobody moves the branch in
  between, and says of the step exactly when it is sound.
- docs/review-projection-v1.md (line 87) says that a newer slice replaces the proposal branch and
  updates the same open pull request. It does, also across crashes, as long as the pull request shows
  the recorded commit. Once the host shows a replacement that was pushed and not recorded, neither
  planning nor retiring gets the environment any further. `RecoveryPropose` proves the condition
  exact, and `RecoveryLimits` gives the run.
- docs/render-cache-v1.md says that cache failures do not block a fresh render. They do not, but a
  failure to clear the output directory after one does; `Rendering.Render` says so.

## Model

| member | source | states |
|---|---|---|
| `Invariants.EveryRunIsSound` | crates/reconciler/src/reconciler.rs:73-93 | Every state that any run reaches, with crashes, merges, closes, refreshed heads and outside writes anywhere, is well-formed: target states, approved plans and the running pass. |
| `Invariants.DoKeeps` | crates/reconciler/src/reconciler.rs:367-524 | Each single step of anybody keeps that invariant. |
| `Invariants.TargetStateInvariant` | crates/reconciler/src/reconciler.rs:386-491 | In every reachable target state, published implies that commit and input digest are present; a pending proposal's digest differs from the published one, its branches are the environment's own, and its pull request exists between them. |
| `Invariants.PlanNeverPanics` | crates/reconciler/src/reconciler.rs:309-347 | In every reachable state whose observation succeeds, a pending proposal has a status and a published state has a commit, so neither `expect` in planning can abort. |
| `Invariants.PlanFits` | crates/reconciler/src/reconciler.rs:239-364 | Every plan fits the slice, the policy and the target state it was made over; recording a merge is planned only for a pull request that is merged with the proposed commit as its head. |
| `Invariants.StepRefs` | crates/reconciler/src/engine.rs:439-697 | One connector action changes the branches only by one of six pushes, each from exactly the leased value and to exactly the pushed one. |
| `Invariants.StepPulls` | crates/reconciler/src/engine.rs:849-929 | One connector action changes the pull requests only by opening one on the current proposal branch or by closing an open one; only the save changes a file. |
| `Invariants.PullsOnlyAdvance` | crates/reconciler/src/engine.rs:817-929 | No step forgets or redirects a pull request or changes a merged one. |
| `Invariants.ReviewIsNeverBypassed` | crates/reconciler/src/engine.rs:494-591 | Under a fixed pr-gated policy, in every run, the connector itself changes the environment branch only by creating it as an empty root commit when it is absent, or by deleting it in a retirement; every other change is a merge of an open pull request or an outside write. |
| `Invariants.AtMostOneOpenPull` | crates/reconciler/src/engine.rs:849-892 | Every run keeps at most one open connector pull request for each environment. |
| `Invariants.CreateOnlyAfterList` | crates/reconciler/src/engine.rs:858-890 | A pass reaches the point of opening a pull request only when it has just seen that none is open. |
| `Invariants.AwaitingSawItsHead` | crates/reconciler/src/engine.rs:894-912 | A proposal is about to be recorded only when its pull request shows the proposed commit as its head. |
| `Invariants.BranchNamesAreApart` | crates/reconciler/src/engine.rs:1013-1019 | Environment and proposal branches of different environments, and the two kinds of branch, never coincide. |
| `Invariants.BranchesHaveLevels` | crates/reconciler/src/engine.rs:1013-1019 | An environment is the one level below `env`, and below `henosis` and `proposals`. |
| `Invariants.ProposalBranchRoundTrip` | crates/reconciler/src/engine.rs:1017-1027 | The environment is recovered from its proposal branch, except for the empty name, which is refused. |
| `Invariants.StatePathIsInjective` | crates/reconciler/src/reconciler.rs:108-112 | Different environments have different target-state files. |
| `Invariants.StateFilesAreJson` | crates/reconciler/src/reconciler.rs:108-112 | The file of an environment is its identity with the extension `json`. |
| `Evidence.PublishedMeansRendered` | crates/reconciler/src/reconciler.rs:386-468 | In every run in which nobody merges into or writes an environment branch between a proposing pass's inspection and fetch of it: a published state's commit holds exactly the tree of a verified render of a slice with the recorded input digest, and the recorded outputs are that render's. Crashes, reviews and outside writes may occur anywhere else. |
| `Evidence.UndisturbedInspects` | crates/reconciler/src/engine.rs:734-758 | In such runs every head that a proposing pass compares with is the one it inspected. |
| `Evidence.InspectedMeansRendered` | crates/reconciler/src/reconciler.rs:386-468 | The evidence holds in every run in which no proposing pass finds its render in a fetched head after inspecting one with another tree. |
| `Evidence.UnchangedIsSoundIffInspected` | crates/reconciler/src/engine.rs:525-536 | What a proposing pass records as unchanged holds the render if and only if the head it inspected and the head it fetched have one tree. |
| `Evidence.UnchangedCanMislead` | crates/reconciler/src/engine.rs:534-536 | The condition is needed: for every slice and render there is a crash-free run of one pass, with the branch moved between inspection and fetch, that records a published commit holding no render of the slice. |
| `Evidence.AfterDropSupported` | crates/reconciler/src/reconciler.rs:439-468 | Dropping a proposal branch ends in a state that is evidence again: the observed merge has the proposed tree. |
| `Receipts.PublishedIsReceipted` | crates/reconciler/src/engine.rs:1205-1243 | Over real renders, in every run in which nobody moves a branch between inspection and fetch: if an environment is published at the digest of a slice, the recorded commit's manifest attests a slice of that digest and reports the recorded outputs as those of its components; it names the graph and generation asked for, and attests that very slice if and only if it lists as many component hashes as that slice has components. |
| `Receipts.RendersAreReceipted` | crates/reconciler/src/engine.rs:362-377 | Every render as the lifecycle takes it says in its Git tree what it is: the manifest attests graph, generation, graph digest and every component hash of the slice and reports each component's outputs under its name. |
| `Receipts.AttestsTheAsked` | crates/reconciler/src/slice.rs:250-276 | Among slices of one materialization digest, a receipt attests exactly those with as many components as it lists hashes. |
| `Receipts.VerifiedRenderIsThePlanned` | crates/reconciler/src/reconciler.rs:157-176 | A render whose tree digest is the planned one becomes the planned Git tree. |
| `Isolation.OthersLeaveItAlone` | crates/reconciler/src/engine.rs:439-697 | A step that is not about an environment leaves its two branches, its pull requests, its target-state file, its approved plan and its pass as they are. |
| `Isolation.OwnSteps` | crates/reconciler/src/reconciler.rs:239-524 | A step about an environment does the same to the environment's part alone as to the whole state, and was enabled there as well. |
| `Isolation.OwnPlan` | crates/reconciler/src/reconciler.rs:216-364 | Observing and planning depend only on the environment's part of the world. |
| `Isolation.RunsProject` | crates/reconciler/src/reconciler.rs:108-112 | Projecting any legal run over many environments to one of them is a legal run of that environment alone and ends in exactly its part of the final state. |
| `Isolation.WholeRunsProject` | crates/reconciler/src/engine.rs:1013-1027 | The same for every run from the beginning. |
| `Isolation.BorrowerNeverWrites` | crates/reconciler/src/reconciler.rs:248-270 | No step of a decoded slice that borrows a stable environment changes anything of the borrowed environment. |
| `LostUpdates.PushesReplaceWhatTheySaw` | crates/reconciler/src/engine.rs:478-488 | In every run with outside writers, a connector step that changes a branch changes only the branch its pass is pushing to, from exactly the leased value, which that very pass saw on the branch. |
| `LostUpdates.PublicationsBuildOnWhatTheyReplace` | crates/reconciler/src/engine.rs:444-490 | If the replaced value has not recurred, a pushed publication is the replaced commit itself or has it as its only parent; onto an absent branch it is a root. |
| `LostUpdates.EveryRunRemembers` | crates/reconciler/src/engine.rs:734-781 | At every point of every run the local lease and head of the running pass are values that this pass read, the lease before the head. |
| `Recovery.PublishSurvivesCrashes` | crates/reconciler/src/reconciler.rs:374-397 | After any plans, starts, actions and crashes for one slice, whatever plans were made before that can no longer start: once the target state has changed, the world is the one an uninterrupted direct publication leaves, up to the new commit's identity; and from every idle point one more pass gets there. |
| `Recovery.RepublishingIsIdempotent` | crates/reconciler/src/engine.rs:444-477 | A restarted publication over its own unrecorded push makes no new commit. |
| `Recovery.PublishedWorldMeans` | crates/reconciler/src/engine.rs:439-490 | That world: the branch holds the render, the recorded commit is the branch, all other branches and the pull requests are untouched, and nothing moves if the branch held the render already. |
| `RecoveryPropose.ProposeSurvivesCrashes` | crates/reconciler/src/reconciler.rs:398-438 | After any plans, starts, actions, crashes and refreshed heads for a proposal, the first or one that replaces a pending one: once the target state has changed, the world is the one an uninterrupted proposal leaves, up to commit identities and the pull request's number; and from every idle point before that, one more pass gets there if and only if the difference can be reviewed and either the recorded pull request, if any, shows the recorded commit or a plan at hand can still start. Otherwise it records nothing. |
| `RecoveryPropose.ReplanningProposes` | crates/reconciler/src/reconciler.rs:318-363 | At every point of such a run, planning again gives the proposal if and only if nothing is recorded and the recorded pull request, if any, shows the recorded commit; otherwise it gives no plan. |
| `RecoveryPropose.ReplacementReusesThePull` | crates/reconciler/src/engine.rs:579-622 | Replacing a proposal whose pull request is open keeps the pull request and its number, opens no other, and leaves it on the new commit, which is what is recorded. |
| `RecoveryPropose.ProposedWorldMeans` | crates/reconciler/src/engine.rs:494-623 | The recorded world: the base branch is as before or a new empty root, the proposal branch holds one commit with the render on that base, exactly one pull request is open, its head is that commit, and the pending record names all of it. |
| `RecoveryPropose.MergedInTheWindow` | crates/reconciler/src/engine.rs:525-536 | A person merges the pull request after a crash and before it was recorded: one more pass records the merge as published and touches neither branches nor pull requests, if and only if it can begin. |
| `RecoveryPropose.SyncKeeps` | crates/reconciler/src/engine.rs:894-912 | A refreshed pull-request head keeps an interrupted proposal recoverable. |
| `RecoveryCleanup.CleanupSurvivesCrashes` | crates/reconciler/src/reconciler.rs:439-494 | After any plans, starts, actions and crashes for recording a merge, cancelling a proposal or removing an environment: once the target state has changed, the world is the one an uninterrupted clean-up leaves; and from every idle point before that, one more pass gets there if and only if nobody has moved the proposal branch, and the pull request shows the recorded commit or a plan at hand can still start. Otherwise it records nothing. |
| `RecoveryCleanup.CleanPlans` | crates/reconciler/src/reconciler.rs:248-332 | At every stage of an interrupted clean-up, planning again gives the same plan or none; with merges shown it gives the plan if and only if the pull request shows the recorded commit. |
| `RecoveryCleanup.RetireSurvivesCrashes` | crates/reconciler/src/reconciler.rs:497-524 | After retirements that crashed anywhere, the next uninterrupted one leaves the world of a single uninterrupted retirement if and only if nobody has moved the proposal branch; otherwise it leaves the target state as it was. |
| `RecoveryCleanup.RetiredWorldMeans` | crates/reconciler/src/reconciler.rs:497-524 | That world: the environment's branch is gone unless the slice borrows, the proposal branch is gone and its pull request not open, the target state is the default, and every other branch and pull request is untouched. |
| `RecoveryLimits.StrandedForever` | crates/reconciler/src/engine.rs:817-826 | Where recovery ends: once the recorded commit is neither the pull request's head nor the proposal branch, no run changes the environment's target state again, through planning or retiring, unless an old plan is applied again or somebody else moves the proposal branch. |
| `RecoveryLimits.ReplacingCanStrand` | crates/reconciler/src/engine.rs:579-622 | A crash after a recorded proposal's branch was replaced and before that was recorded leads there. |
| `RecoveryLimits.ReplacementStrands` | crates/reconciler/src/engine.rs:579-622 | From every world in which a slice can replace an open proposal with another tree, the run of one pass that dies right after its push leads there. |
| `RecoveryLimits.UpdatingCanStrand` | crates/reconciler/src/engine.rs:579-622 | A run from the beginning: for any two slices of a gated environment with different digests and renders, an undisturbed proposal of the first and a pass of the second with one crash strand the environment in every continuation without an old plan or an outside write. |
| `RecoveryLimits.RetirementFails` | crates/reconciler/src/engine.rs:643-658 | A retirement of such an environment fails at the proposal branch. |
| `Convergence.ProgressLowersTheRank` | crates/reconciler/src/reconciler.rs:367-494 | In every reachable state, an applied plan that records its result strictly lowers the rank of the slice over pending, pending digest and published digest. |
| `Convergence.AtMostTwoApplications` | crates/reconciler/src/reconciler.rs:239-495 | From any reachable state in which no plan for another slice can start, while one slice is asked for, no run of any length makes progress on it more often than the rank of its target state, which is at most two. |
| `Convergence.PassesSettle` | crates/reconciler/src/reconciler.rs:239-364 | Over any world, a pass that can observe is ready at rank zero, waits for an open pull request or a withheld merge identity, fails, or plans something of positive rank. Each of the four failures has exactly its cause. Ready reports the borrowed render and the borrowed branch, nothing of an empty slice that is not published, or the recorded outputs and commit of a published digest. A plan to publish or propose carries the render's digest and outputs. For a slice under review, its pull request decides which of these it is. |
| `Convergence.ObservationFails` | crates/reconciler/src/engine.rs:817-847 | Observing fails if and only if the pending pull request is unknown, shows another head, or is merged with a malformed identity, each with its own error. |
| `Lifecycle.OverridesWin` | crates/reconciler/src/engine.rs:60-70 | Setting one environment's policy is what it then gets and changes no other's; without an entry it gets the default. |
| `Convergence.RecordingLowers` | crates/reconciler/src/reconciler.rs:386-494 | Whatever a fitting plan may record has a lower rank than what it was planned over. |
| `Deployments.DirectConverges` | crates/reconciler/src/reconciler.rs:239-397 | Under a direct policy, from any sound idle state whose pending proposal, if any, is as the connector left it, at most two undisturbed passes make a slice Ready for good; unless it was published before, with the render's outputs and a commit that is the branch and holds exactly the render. |
| `Deployments.GatedConverges` | crates/reconciler/src/reconciler.rs:239-468 | Under a pr-gated policy, for a difference that can be reviewed: an undisturbed pass proposes the slice, or replaces a pending proposal of another digest whose pull request shows the recorded commit, and waits; after a person merges, one more pass records the merge, drops the proposal branch, and the slice is Ready with the render's outputs and the merge commit. |
| `Deployments.GatedProposes` | crates/reconciler/src/reconciler.rs:318-438 | One undisturbed pass proposes a slice for the first time, or updates the pending proposal of another slice, whatever was planned before. |
| `Deployments.PassForgets` | crates/reconciler/src/reconciler.rs:349-373 | A pass that plans does not depend on any plan made before. |
| `Deployments.MergeIsRecorded` | crates/reconciler/src/reconciler.rs:439-468 | One undisturbed pass turns a merged review into the published state with the pending digest and outputs. |
| `Engine.Connector.Publish` | crates/reconciler/src/engine.rs:439-490 | Ok means that the branch now is the returned commit, which holds the render, and that the pass goes on to record exactly it; every failure ends the pass. Undisturbed, it fails only for an empty render without a branch, and the commit is the head if nothing differs and otherwise stands on it. The object stays where its log leads the lifecycle machine. |
| `Engine.Connector.CommitRender` | crates/reconciler/src/engine.rs:444-477 | The commit to push and the lease it is pushed on: undisturbed, the inspected head and a commit that stands on it, or is it if the trees are equal. |
| `Engine.Connector.Stage` | crates/reconciler/src/engine.rs:499-561 | Staging over the inspected and fetched branch, after creating an empty root if there is none: unchanged with the inspected head, or a draft with the render's tree over a head with another one, whose patch is text; a patch that is not fails the pass. Undisturbed, trees and patch alone decide which. |
| `Engine.Connector.InspectBase` | crates/reconciler/src/engine.rs:499-524 | Undisturbed, the base is the branch's head, or a new empty root that the branch then is; no other branch and no pull request changes. |
| `Engine.Connector.PushProposal` | crates/reconciler/src/engine.rs:580-602 | The proposal branch is moved to the draft from exactly the value just inspected; then the pass goes on if the difference can be projected, and fails with the branch moved if it cannot. Undisturbed, nothing else happens. |
| `Engine.Connector.UpsertPull` | crates/reconciler/src/engine.rs:849-892 | The one open pull request is used, or one is opened; more than one is refused; the returned head is the one shown. Undisturbed, it succeeds exactly if one is open, or none and both branches exist. |
| `Engine.Connector.FindPull` | crates/reconciler/src/engine.rs:858-877 | What is found is the one open pull request of the environment, or that there is none; undisturbed, it fails exactly if there are more. |
| `Engine.Connector.OpenPull` | crates/reconciler/src/engine.rs:879-891 | Undisturbed, one new open pull request from the proposal branch as it is, and no other changed, exactly if both branches exist. |
| `Engine.Connector.WaitForPullHead` | crates/reconciler/src/engine.rs:894-912 | True only if the pull request shows the draft within the first look and three more; undisturbed, exactly if the first look shows it. |
| `Engine.Connector.Propose` | crates/reconciler/src/engine.rs:494-623 | Unchanged or Awaiting, with exactly the state that is then recorded; an awaited proposal has its pull request on the proposed commit, which holds the render over one parent with another tree, and their difference can be reviewed. Undisturbed, it succeeds exactly if the base holds the render, or the difference can be reviewed and the one open pull request, if any, shows the draft; it is Unchanged exactly in the first case. |
| `Engine.Connector.ClosePull` | crates/reconciler/src/engine.rs:635-641 | True only if the pull request exists and is not open. Undisturbed, exactly if it exists, and only it is closed. |
| `Engine.Connector.RemoveProposalBranch` | crates/reconciler/src/engine.rs:643-666 | True only if the proposal branch is gone; it is deleted only from the proposed commit. Undisturbed, true exactly if it was absent or held that commit, and no other branch changes. |
| `Engine.Connector.DropBranch` | crates/reconciler/src/engine.rs:654-666 | The deletion goes through exactly if the branch still is the proposed commit. |
| `Engine.Connector.Remove` | crates/reconciler/src/engine.rs:680-697 | True only if the environment branch is gone; it is deleted only from the inspected commit. Undisturbed it always succeeds and changes nothing else. |
| `Engine.Connector.SaveState` | crates/reconciler/src/reconciler.rs:129-155 | The file is replaced or untouched, never partly; success means replaced, and fails only with the disk. |
| `Engine.Connector.RenderVerified` | crates/reconciler/src/reconciler.rs:157-176 | A world is returned only if its tree digest and outputs are the plan's; undisturbed, exactly then. A render that fails is a failure; a render that differs is Stale, and only that is. |
| `Engine.Connector.PlanPass` | crates/reconciler/src/reconciler.rs:216-364 | The outcome settles, as `Convergence.PassesSettle` says, over the world at one moment of the pass, with a render by the prepared runner; a borrowing slice is Ready with a commit that the borrowed branch held at one moment of the pass. Only a plan is kept, over the loaded state; nothing else changes. Undisturbed, it fails exactly as the observation does, or without the borrowed branch. |
| `Engine.Connector.GatherAnswers` | crates/reconciler/src/reconciler.rs:248-348 | Renderer and borrowed branch are asked exactly if planning needs them, and answer for one moment of the pass. |
| `Engine.Connector.ObservePass` | crates/reconciler/src/reconciler.rs:216-237 | The observation is that of the world at its end; without a pending proposal it makes no request. Undisturbed, its error is the observation's too. |
| `Engine.Connector.AppliedRevision` | crates/reconciler/src/engine.rs:669-678 | A commit is returned only if the branch held it at one moment of the inspection; undisturbed, exactly if the branch exists. |
| `Engine.Connector.Apply` | crates/reconciler/src/reconciler.rs:367-495 | Progress means that the target state is one that the plan may record over its old value; anything else leaves the file untouched unless a failure was reported after the effect. The plan is Stale if and only if its re-render differs from what was approved or the proposal whose merge it records has gone, and then nothing is recorded. Undisturbed, it progresses if and only if nothing stands in the way: the render is the approved one and can be pushed or reviewed, an open pull request shows the draft, the proposal branch to be dropped holds what was proposed. |
| `Engine.Connector.RetireSlice` | crates/reconciler/src/reconciler.rs:497-524 | Absent means that the state is the default and the environment branch, unless borrowed, gone. Undisturbed, it is Absent if and only if the recorded pull request, if any, exists and its branch is absent or holds the proposed commit. |
| `Engine.Connector.Reconcile` | crates/reconciler/src/reconciler.rs:216-495 | A whole pass decides what holds of the world at one moment, applies a plan if there is one, and records nothing or lowers the rank of the slice; progress always records. Undisturbed, it plans whenever it can observe and does not borrow, and a plan that cleans up progresses if and only if nothing stands in the way. |
| `Engine.Connector.Await` | crates/reconciler/src/engine.rs:849-929 | Before an interaction others may act in any way; files, plans and the running pass are untouched and pull requests only advance. |
| `Engine.ConnectorsAreSound` | crates/reconciler/src/reconciler.rs:73-93 | Whatever happened around a connector object, its target states are well-formed and at most one pull request is open for each environment. |
| `Decoding.Decode` | crates/reconciler/src/slice.rs:124-178 | Decoding succeeds exactly on the acceptable slices and gives the canonical one. Otherwise the error is the first fault: of the contributors in their order a bad context, another environment, a repeated name, a repeated hash, in this order; then no environment; then a repeated upstream output. |
| `Decoding.ParseComponent` | crates/reconciler/src/slice.rs:279-310 | A component is accepted exactly if its name and context are valid and its environment is the bound one, which it binds if none is. |
| `Decoding.DecodeUpstream` | crates/reconciler/src/slice.rs:155-168 | Upstream outputs are accepted exactly if no hash repeats, and come in hash order. |
| `Decoding.DecodingIsDetermined` | crates/reconciler/src/slice.rs:124-178 | A slice decodes to one value or one error, and to a value exactly when it is acceptable. |
| `Decoding.DecodingIgnoresOrder` | crates/reconciler/src/slice.rs:124-178 | Reordering components, superseded components or upstream outputs changes neither whether a slice decodes nor the result. |
| `Decoding.BorrowedIsNotOwn` | crates/reconciler/src/slice.rs:181-193 | A decoded slice never borrows its own environment. |
| `Decoding.PushedComponentsBorrow` | crates/reconciler/src/slice.rs:181-193 | A decoded slice borrows an environment if and only if some component was pushed and every pushed one names that environment. |
| `Slices.BorrowingIsUnanimous` | crates/reconciler/src/slice.rs:181-193 | A slice borrows an environment if and only if it has components and every one of them borrows it. |
| `Slices.BorrowingIgnoresOrder` | crates/reconciler/src/slice.rs:181-193 | The borrowed environment does not depend on the order of the components. |
| `Slices.DesiredSlice.HashMaterialization` | crates/reconciler/src/slice.rs:250-264 | Feeding the hasher computes the materialization digest. |
| `Slices.DesiredSlice.HashGraph` | crates/reconciler/src/slice.rs:267-276 | Feeding the hasher computes the graph digest. |
| `Slices.GraphDigestIsInjective` | crates/reconciler/src/slice.rs:267-276 | Equal graph digests are exactly equal graph, generation and component hashes. |
| `Slices.MaterializationDigestIdentifies` | crates/reconciler/src/slice.rs:250-264 | Slices with equal materialization digests have the same inputs if and only if they have equally many components. |
| `Slices.MaterializationDigestNamesGeneration` | crates/reconciler/src/slice.rs:250-254 | Equal materialization digests have one graph and generation, whatever the component counts. |
| `Decoding.MaterializationDigestCollides` | crates/reconciler/src/slice.rs:255-262 | For every graph and valid context there are two decodable slices with the same digest, one of three components and one of one component and one output of canonical JSON. |
| `Slices.DigestsIgnoreTheSequence` | crates/reconciler/src/slice.rs:248-276 | The sequence cursor enters neither digest. |
| `Domains.PurposesAreApart` | crates/reconciler/src/slice.rs:250-276 | What is hashed as a graph, a materialization, a recipe, an ambient environment, a tree or a publication is never also hashed as another of these. |
| `Contexts.BorrowedIsAnotherStableEnvironment` | crates/reconciler/src/context.rs:107-125 | A valid borrow names a stable environment other than the borrower's. |
| `Contexts.ValidContextsPin` | crates/reconciler/src/context.rs:86-129 | A context is valid if and only if its environment is acceptable, its repository is two parts around one slash, its revision spells 20 bytes, its image digest spells 32, and a borrow is by a preview, of the one stable environment that it names twice. |
| `Contexts.LowerHexSpellsBytes` | crates/reconciler/src/context.rs:198-204 | The accepted hexadecimal pins are exactly the spellings of bytes. |
| `Contexts.RepositoryIsTwoParts` | crates/reconciler/src/context.rs:178-196 | An accepted repository is exactly two acceptable parts around its only slash. |
| `Contexts.PartsAreLikeLabels` | crates/reconciler/src/context.rs:182-188 | A part has up to 100 characters: those of labels in either case, dots and underscores. |
| `Contexts.LabelsAreHyphenated` | crates/reconciler/src/context.rs:131-152 | An accepted label is exactly a list of alphanumeric words joined by hyphens that begins and ends with a word, of at most 63 characters. |
| `Contexts.LengthsAreBounded` | crates/reconciler/src/context.rs:131-196 | There are labels of exactly the lengths from 1 to 63, and repository parts from 1 to 100. |
| `Contexts.BorrowsAreStable` | crates/reconciler/src/context.rs:107-127 | A borrow is accepted exactly from a preview and of a stable environment, named twice alike. |
| `Contexts.EnvironmentIdIsOneBranchLevel` | crates/reconciler/src/context.rs:154-176 | An accepted environment identity is not empty, ASCII and without separators. |
| `Contexts.PreviewSuffixIsA128BitInteger` | crates/reconciler/src/context.rs:155-159 | The accepted preview suffixes are exactly the 26-digit base-32 numerals below two to the 128. |
| `Contexts.PreviewSuffixBijection` | crates/reconciler/src/context.rs:155-159 | Encoding and decoding are inverse between accepted suffixes and 128-bit integers. |
| `Contexts.InAlphabetIsMembership` | crates/reconciler/src/context.rs:156-159 | The characters accepted in a suffix are exactly those of the alphabet. |
| `Contexts.SuffixOrderIsNumeric` | crates/reconciler/src/context.rs:156-159 | Suffixes are ordered as texts exactly as their integers are. |
| `TreeDigests.CollectEntries` | crates/reconciler/src/render_cache.rs:198-212 | The listing below a directory is complete and free of duplicates, whatever order directories are read in. |
| `TreeDigests.KeyOrderIsPathOrder` | crates/reconciler/src/render_cache.rs:171 | The order the entries are sorted in is that of paths, name by name. |
| `TreeDigests.ItemCodeIsPrefixFree` | crates/reconciler/src/render_cache.rs:182-189 | The code of one entry is delimited by its own bytes and determines path, kind, mode and contents. |
| `TreeDigests.HashEntries` | crates/reconciler/src/render_cache.rs:172-195 | Hashing sorted entries computes the digest of exactly their codes; it fails exactly on a special file. |
| `TreeDigests.TreeDigest` | crates/reconciler/src/render_cache.rs:168-196 | Collecting, sorting and hashing gives a digest of the tree, exactly if it holds no special file. |
| `TreeDigests.DigestsIdentifyTrees` | crates/reconciler/src/render_cache.rs:168-217 | Two trees have equal digests if and only if they are equal, whatever order their directories were listed in. |
| `Bytes.FramedIsPrefixFree` | crates/reconciler/src/render_cache.rs:214-217 | A framed value can be cut off from whatever follows. |
| `Copies.CopyTree` | crates/reconciler/src/render_cache.rs:149-166 | A copy adds exactly the entries below the source, directories with default modes and files as they are; it stops exactly on a special file. |
| `Copies.CopyKeepsDigest` | crates/reconciler/src/render_cache.rs:154-156 | A copy has the original's digest if and only if the original's directories have default modes. |
| `Copies.ClearWorktree` | crates/reconciler/src/engine.rs:1487-1499 | Clearing keeps exactly Git's own directory. |
| `Copies.StageRender` | crates/reconciler/src/engine.rs:445-447 | After clearing and copying, the worktree outside Git's own directory is the render: nothing older survives. |
| `Copies.GitRecordsFiles` | crates/reconciler/src/engine.rs:467-471 | Git records exactly the files, with their bytes and their owner's executable bit. |
| `RenderCaches.SortByAge` | crates/reconciler/src/render_cache.rs:120-133 | The entries in the order of insertion time, then name, each once. |
| `RenderCaches.RecipeKeysSpellHashes` | crates/reconciler/src/render_cache.rs:142-147 | The names taken for entries are exactly the spellings of 32-byte hashes. |
| `RenderCaches.RenderCache.Restore` | crates/reconciler/src/render_cache.rs:46-65 | A hit is exactly a stored render with the digest of its digest file, and yields its copy; a miss is exactly the absence of a render. |
| `RenderCaches.RenderCache.Invalidate` | crates/reconciler/src/render_cache.rs:97-107 | The entry is gone, or a failed deletion left it or part of it. |
| `RenderCaches.RenderCache.Evict` | crates/reconciler/src/render_cache.rs:113-139 | Staging is gone and the oldest entries beyond the bound are; the count is the excess. Listing and every single deletion can fail; a failure adds nothing and damages at most one directory. |
| `RenderCaches.RenderCache.RemoveStaging` | crates/reconciler/src/render_cache.rs:114-119 | Every staging directory is deleted and nothing else, or a deletion fails and nothing is new. |
| `RenderCaches.RenderCache.CopyAndDigest` | crates/reconciler/src/render_cache.rs:78-82 | The staged copy and its digest belong together. |
| `RenderCaches.RenderCache.Install` | crates/reconciler/src/render_cache.rs:74-91 | A complete entry appears at once under a free key; an existing complete entry stays as it was; a failure adds nothing. |
| `RenderCaches.RenderCache.Store` | crates/reconciler/src/render_cache.rs:67-95 | After a store every entry is an old one, part of one, or the complete new one; a working store leaves the installed entries, the youngest that fit. |
| `RenderQueue.Perform` | crates/reconciler/src/render_cache.rs:67-140 | One working operation on the cache is one operation on a bounded queue of keys, and the evicted count is what left the queue. |
| `RenderQueue.PerformAll` | crates/reconciler/src/render_cache.rs:67-140 | After any working operations on a new cache its entries are those of a first-in, first-out queue. |
| `RenderQueue.QueueProperties` | crates/reconciler/src/render_cache.rs:77-139 | The queue has distinct keys and is bounded; reading or storing a key again does not move it; a new key at the bound displaces the oldest. |
| `Recipes.HashRecipe` | crates/reconciler/src/engine.rs:1098-1122 | Feeding the hasher computes the hash of the recipe's preimage. |
| `Recipes.RecipesAreUniquelyDecodable` | crates/reconciler/src/engine.rs:1098-1122 | Equal preimages are exactly equal platform, runner digests, ambient digest, environment, manifest, component hashes and upstream outputs. |
| `Recipes.ManifestCountsComponents` | crates/reconciler/src/slice.rs:207-228 | With distinct names the manifest has exactly the slice's names, as many as components. |
| `Recipes.ManifestSaysWhatIsPinned` | crates/reconciler/src/slice.rs:207-228 | Under every component's name the manifest has the repository, the revision and the image digest of its context. |
| `Recipes.DifferentPinsRenderApart` | crates/reconciler/src/engine.rs:1098-1122 | Two slices whose contexts differ in repository, revision or image digest at one name have different manifests and different recipe preimages. |
| `Recipes.RendersAsBorrowed` | crates/reconciler/src/engine.rs:258-262 | A slice is rendered as the environment that all its components borrow, and as its own if there is none. |
| `Recipes.RecipesIgnoreTheGraph` | crates/reconciler/src/engine.rs:1098-1122 | Graph identity, generation and sequence do not enter the recipe. |
| `Recipes.AmbientDigestIdentifies` | crates/reconciler/src/engine.rs:1129-1142 | Ambient preimages are equal exactly if all variables but the fixed one are, whatever order they are listed in. |
| `Recipes.AmbientDigest` | crates/reconciler/src/engine.rs:1129-1142 | Collecting, sorting and feeding the process's variables gives the hash of exactly the variables but the fixed one, in the order of their names. |
| `Rendering.Render` | crates/reconciler/src/engine.rs:290-378 | A render with the cache succeeds, if the output directory can be reset, exactly when a fresh one does, with its outputs and its tree up to directory modes; without a hit the results are identical. Whatever is returned attests the slice that was asked for and reports each component's own outputs; the cache stays sound. When nothing goes wrong, the renderer runs exactly if no render is stored under the key, and then that key holds its render, the youngest of those that fit. |
| `Rendering.RestoreRender` | crates/reconciler/src/engine.rs:295-331 | A hit is the finished copy of a stored render and leaves the cache as it is; anything else gives nothing, and unless something fails the key then has no render. |
| `Rendering.RenderAnew` | crates/reconciler/src/engine.rs:337-378 | The result is the fresh render; a working cache then has the raw render, without a receipt, under its key, and a raw render that fails the checks is never stored. |
| `Rendering.History` | crates/reconciler/src/engine.rs:295-378 | The same for every render of every history of renders, cache failures, evictions, losses and corruptions that forge no digest. |
| `RenderRuns.RenderAll` | crates/reconciler/src/engine.rs:290-378 | Any renders in a row on a new cache with nothing going wrong: the renderer runs exactly for the keys that are not in the bounded first-in, first-out queue of those rendered before, and every result agrees with a fresh render. |
| `RenderRuns.EveryRecipeOnce` | crates/reconciler/src/engine.rs:290-378 | If the cache has room for all recipes of a run, a render is a hit if and only if its recipe was rendered before. |
| `RenderRuns.AgainIsAHit` | crates/reconciler/src/engine.rs:294-318 | However small the cache, rendering the same recipe again is a hit. |
| `RenderRuns.GenerationsShareAKey` | crates/reconciler/src/engine.rs:1098-1122 | Slices that differ only in graph, generation and sequence have one key, so that a later generation is a hit with its own receipt. |
| `Rendering.SameKeySameRaw` | crates/reconciler/src/engine.rs:290-299 | Slices with one recipe key have one raw render. |
| `Rendering.RendererIsGiven` | crates/reconciler/src/engine.rs:258-268 | The renderer is given two manifests of the same pins: one of the effective environment and one of `dev`. |
| `Rendering.OutputsAreTheirOwn` | crates/reconciler/src/engine.rs:1163-1203 | Outputs are read if and only if the manifest is of the environment asked for and of exactly the slice's components; then each component's hash has what the manifest says under its name, and they come in the order of names. |
| `Rendering.KeyNamesAreApart` | crates/reconciler/src/engine.rs:1121 | The names of cache entries are 64 hexadecimal digits, different for different recipes. |
| `Rendering.StoringIsSound` | crates/reconciler/src/engine.rs:353-361 | Storing a render under its own key lets no digest vouch for another tree. |
| `Rendering.RestoredFinishesAlike` | crates/reconciler/src/engine.rs:296-318 | A restored entry passes the same checks as a fresh render and gives its outputs and tree. |
| `Rendering.ReceiptIsCurrent` | crates/reconciler/src/engine.rs:1205-1243 | The finished manifest is the renderer's with one reserved field more, which attests the slice that was asked for; it still reports the outputs, and its mode and every other path are untouched. |
| `Rendering.ReceiptAttests` | crates/reconciler/src/engine.rs:1223-1233 | Everything read back from a receipt is the slice's: graph, generation in decimal, graph digest, and every component hash in order. |
| `Rendering.ReceiptsIdentify` | crates/reconciler/src/engine.rs:1223-1233 | One receipt is of one graph, one generation and one list of component hashes. |
| `Rendering.GraphDigestSuffices` | crates/reconciler/src/engine.rs:1227 | Receipts with equal graph digests are of equal graphs, generations and component hashes, unless the hash collides on these two. |
| `Rendering.CopyFinishesAlike` | crates/reconciler/src/engine.rs:1163-1203 | Checking outputs and embedding the receipt does the same to a copy as to the original. |
| `Rendering.HitsKeepTheDigest` | crates/reconciler/src/engine.rs:302-306 | A hit and a miss have one tree digest if and only if the fresh render's directories have default modes. |
| `Rendering.AlikeIsOneGitTree` | crates/reconciler/src/engine.rs:1501-1523 | Renders that are alike become the same Git tree. |
| `Rendering.DecodedNamesAreDistinct` | crates/reconciler/src/slice.rs:130-135 | Decoded slices have the distinct ASCII names that the recipe and the manifest need. |
| `Identities.PublicationIdentity` | crates/reconciler/src/reconciler.rs:570-588 | No identity exactly without outputs; otherwise the hash of the header and the outputs in the stable order of their hashes. |
| `Identities.IdentityIsDetermined` | crates/reconciler/src/reconciler.rs:579-580 | There is one stable order, so that the listed outputs determine the identity even if hashes repeat. |
| `Identities.IdentitiesIdentify` | crates/reconciler/src/reconciler.rs:570-588 | For one connector and distinct hashes, the names are equal exactly if graph, generation and outputs are; order and sequence do not matter. |
| `Reviews.TruncateUtf8` | crates/reconciler/src/review.rs:165-174 | The longest prefix of whole characters that fits, valid UTF-8, at most three bytes short. |
| `Reviews.Utf8IsCharacters` | crates/reconciler/src/review.rs:165-174 | The texts are exactly the byte strings that encode a list of Unicode scalar values. |
| `Reviews.OwnersOwnTheirDirectory` | crates/reconciler/src/review.rs:159-163 | A component owns exactly the paths below its own directory. |
| `Reviews.FromNameStatus` | crates/reconciler/src/review.rs:70-114 | The projection has one bucket of paths in stream order for every status and owner, the components in name order, and fails exactly where the stream is malformed or has another status. |
| `Reviews.ListComponents` | crates/reconciler/src/review.rs:108-111 | The components come strictly sorted, each with its own changes. |
| `Reviews.PrintedParses` | crates/reconciler/src/review.rs:84-100 | Parsing a printed stream gives its changes back, or the fault of the first change that has one: a path that is no text, or a status that is not supported. |
| `Reviews.ProjectDiff` | crates/reconciler/src/review.rs:68-114 | For any two committed trees, printing and parsing their differences succeeds if and only if every differing path is text and no file changes its type. Then each differing path is in exactly the bucket of its difference and owner; old paths without destroyed and with created ones are the new paths; requested components are covered. |
| `Projections.ProjectDraft` | crates/reconciler/src/engine.rs:594-602 | The projection of a pushed draft exists if and only if the lifecycle's pass goes on after its push. |
| `Projections.ReviewsAreOfText` | crates/reconciler/src/engine.rs:537-561 | A difference can be reviewed if and only if its patch and the paths that differ are encodings of characters and no file becomes a link or the converse. |
| `Projections.OwnersAreTheSecondLevel` | crates/reconciler/src/review.rs:159-163 | A path of a tree is a component's exactly if it lies in the directory of that name among the components. |
| `Projections.ProjectableWhenSpelled` | crates/reconciler/src/review.rs:84-100 | Differences of Git trees can be projected exactly if those of their spelled paths can. |

## Left out

- Evidence.PublishedMeansRendered: needs that nobody moves a branch between a proposing pass's inspection and fetch of it; without that the claim is false of the code, as `Evidence.UnchangedCanMislead` shows.
- Slices.MaterializationDigestIdentifies: is restricted to equal component counts because the digest does collide across counts.
- Ready does not imply that no pull request is open, that an empty slice has no rendered branch, or that the recorded commit is the branch's head; none of these is claimed.
- Closing or deleting branches by the host itself: a pull request is not closed when its branch is deleted, and people do not reopen pull requests or open ones between the connector's branches.
- Requests that outlive the process that sent them: an interaction takes effect before the next one or not at all.
- A target-state file that cannot be read or decoded: it makes every operation on its environment fail.
- The URL of a pull request in a recorded proposal, and commit messages, which enter a commit only through its stamp.
- `ls-remote` patterns that match more than one branch by their tail, shallow fetches, and `.gitignore` rules in a rendered tree.
- The review document's text, except for truncation, and how Git writes a patch, of which only whether it is UTF-8 matters; diagnostics, error texts and telemetry.
- Preparing the runner, running processes, HTTP, tokens and the askpass helper, server start-up and the connector SDK's runtime.
- The insides of the hashes, of UUIDs, of TOML and of JSON; texts outside ASCII in identities.
- `validate_transition`, `parse_deploy_repository` and strict JSON parsing of contexts and policies: easy members.
- The cache's mutex: its operations are taken one at a time. A crash inside a store is the loss of staging, which eviction removes.
