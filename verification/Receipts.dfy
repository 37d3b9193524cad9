/**
 * What is read back from a published commit: the lifecycle over real renders records only commits
 * whose manifest attests a slice of the recorded digest and reports the recorded outputs.
 */
module Receipts {
  import opened Wrappers
  import opened Bytes
  import opened Trees
  import opened Slices
  import opened Lifecycle
  import opened Evidence
  import opened TreeDigests
  import opened Copies
  import opened Recipes
  import opened Rendering

  /** A fresh render as the lifecycle takes it: its Git tree, its outputs, and its tree digest. */
  ghost function WorldOf(host: Host, runner: PreparedRunner, desired: DesiredSlice)
    : Option<RenderedWorld>
  {
    var r := FreshRender(host, runner, desired);
    if r.Some? && Hashable(r.value.tree) then
      Some(RenderedWorld(GitTreeOf(r.value.tree), r.value.outputs, DigestOf(r.value.tree)))
    else None
  }

  /** The connector's configuration over a host. */
  ghost function ConfigOf(host: Host, policies: PublicationPolicies,
                          patch: (GitTree, GitTree) -> ByteString): Config {
    Config(policies, (runner, desired) => WorldOf(host, runner, desired), patch)
  }

  /** The manifest in a committed tree. */
  function ManifestIn(host: Host, tree: GitTree): Option<map<string, Json>> {
    if MANIFEST in tree && tree[MANIFEST].Blob? then ParseManifest(host, tree[MANIFEST].content)
    else None
  }

  /** The committed manifest attests this slice and reports these outputs of its components. */
  ghost predicate CommitSays(host: Host, tree: GitTree, desired: DesiredSlice, outputs: seq<Output>) {
    var manifest := ManifestIn(host, tree);
    manifest.Some? && "henosis" in manifest.value &&
    Attests(host, manifest.value["henosis"], desired) &&
    (Named(desired.components) ==> Reports(manifest.value, desired, outputs))
  }

  lemma CommittedManifest(host: Host, tree: Tree)
    ensures ManifestIn(host, GitTreeOf(tree)) == ReadManifest(host, tree)
  {
  }

  /** Every render as the lifecycle takes it says in its Git tree what it is. */
  lemma RendersAreReceipted(host: Host, runner: PreparedRunner, desired: DesiredSlice)
    requires IsHost(host, {}) && WorldOf(host, runner, desired).Some?
    ensures var world := WorldOf(host, runner, desired).value;
            CommitSays(host, world.tree, desired, world.outputs)
  {
    var raw := RawRender(host, runner, desired).value;
    var finished := Finish(host, raw, desired).value;
    ReceiptIsCurrent(host, raw, desired);
    CommittedManifest(host, finished.tree);
    hide Finish, RawRender, ReadManifest, ManifestIn, Attests, Reports, Named, GitTreeOf, Hashable,
         DigestOf;
  }

  /** A render with the digest that was planned becomes the commit that was planned. */
  lemma VerifiedRenderIsThePlanned(host: Host, r: PreparedRunner, a: DesiredSlice,
                                   s: PreparedRunner, b: DesiredSlice)
    requires WorldOf(host, r, a).Some? && WorldOf(host, s, b).Some?
    ensures WorldOf(host, r, a).value.treeDigest == WorldOf(host, s, b).value.treeDigest ==>
              WorldOf(host, r, a).value.tree == WorldOf(host, s, b).value.tree
  {
    var x, y := FreshRender(host, r, a).value.tree, FreshRender(host, s, b).value.tree;
    DigestsIdentifyTrees(x, DigestOf(x), y, DigestOf(y));
    hide FreshRender, WellFormed, NothingSpecial, GitTreeOf;
  }

  /** How many component hashes a receipt lists. */
  function HashCount(receipt: Json): nat {
    if receipt.JObject? && "componentSpecHashes" in receipt.fields &&
       receipt.fields["componentSpecHashes"].JArray?
    then |receipt.fields["componentSpecHashes"].items|
    else 0
  }

  /**
   * A receipt under a slice's digest names its graph and generation; and it attests the slice exactly
   * if it lists as many hashes as the slice has components.
   */
  lemma AttestsTheAsked(host: Host, receipt: Json, desired: DesiredSlice, asked: DesiredSlice)
    requires Attests(host, receipt, desired)
    requires desired.MaterializationDigest() == asked.MaterializationDigest()
    ensures NamesGeneration(receipt, asked)
    ensures Attests(host, receipt, asked) <==> HashCount(receipt) == |asked.components|
  {
    MaterializationDigestNamesGeneration(desired, asked);
    if HashCount(receipt) == |asked.components| {
      MaterializationDigestIdentifies(desired, asked);
      GraphDigestIsInjective(desired, asked);
      forall i | 0 <= i < |asked.components|
        ensures asked.components[i].specHash == desired.components[i].specHash
      {
        assert asked.SpecHashes()[i] == desired.SpecHashes()[i];
      }
    }
    hide Unhex, DecimalValue, DesiredSlice.GraphDigest, DesiredSlice.MaterializationDigest;
  }

  /** What is committed under a digest comes from some slice of that digest. */
  ghost predicate ComesFrom(host: Host, tree: GitTree, asked: DesiredSlice, outputs: seq<Output>) {
    exists desired: DesiredSlice ::
      desired.MaterializationDigest() == asked.MaterializationDigest() &&
      CommitSays(host, tree, desired, outputs)
  }

  lemma SupportedIsReceipted(host: Host, policies: PublicationPolicies,
                             patch: (GitTree, GitTree) -> ByteString, asked: DesiredSlice,
                             outputs: seq<Output>, tree: GitTree)
    requires IsHost(host, {})
    requires Supported(ConfigOf(host, policies, patch), asked.MaterializationDigest(), outputs, tree)
    ensures ComesFrom(host, tree, asked, outputs)
    ensures var manifest := ManifestIn(host, tree);
            manifest.Some? && "henosis" in manifest.value &&
            NamesGeneration(manifest.value["henosis"], asked) &&
            (Attests(host, manifest.value["henosis"], asked) <==>
              HashCount(manifest.value["henosis"]) == |asked.components|)
  {
    var cfg := ConfigOf(host, policies, patch);
    var runner, desired :|
      RendersTo(cfg, runner, desired, asked.MaterializationDigest(), outputs, tree);
    assert WorldOf(host, runner, desired) == cfg.render(runner, desired);
    RendersAreReceipted(host, runner, desired);
    AttestsTheAsked(host, ManifestIn(host, tree).value["henosis"], desired, asked);
    hide WorldOf, ManifestIn, Attests, NamesGeneration, HashCount, Reports, IsHost, Named,
         DesiredSlice.MaterializationDigest;
  }

  /**
   * A published state is explained by its commit. In every run in which nobody moves an environment
   * branch between a proposing pass's inspection and fetch of it: if an environment is published at
   * the digest of a slice, then the recorded commit's manifest attests some slice of that digest and
   * reports the recorded outputs as those of its components. It names the graph and the generation
   * that were asked for, and attests the very slice exactly if it lists as many component hashes.
   */
  lemma PublishedIsReceipted(host: Host, policies: PublicationPolicies,
                             patch: (GitTree, GitTree) -> ByteString, labels: seq<Label>,
                             environment: string, asked: DesiredSlice)
    requires IsHost(host, {}) && UndisturbedRun(ConfigOf(host, policies, patch), INITIAL, labels)
    requires var state :=
               Exec(ConfigOf(host, policies, patch), INITIAL, labels).world.Load(environment);
             state.published && state.inputDigest == Some(asked.MaterializationDigest())
    ensures var state :=
              Exec(ConfigOf(host, policies, patch), INITIAL, labels).world.Load(environment);
            state.commit.Some? &&
            ComesFrom(host, state.commit.value.tree, asked, state.outputs) &&
            var manifest := ManifestIn(host, state.commit.value.tree);
            manifest.Some? && "henosis" in manifest.value &&
            NamesGeneration(manifest.value["henosis"], asked) &&
            (Attests(host, manifest.value["henosis"], asked) <==>
              HashCount(manifest.value["henosis"]) == |asked.components|)
  {
    var cfg := ConfigOf(host, policies, patch);
    PublishedMeansRendered(cfg, labels, environment);
    var state := Exec(cfg, INITIAL, labels).world.Load(environment);
    SupportedIsReceipted(host, policies, patch, asked, state.outputs, state.commit.value.tree);
    hide Exec, UndisturbedRun, Supported, ManifestIn, StatePath, NamesGeneration, Attests, HashCount,
         ComesFrom, DesiredSlice.MaterializationDigest;
  }
}
