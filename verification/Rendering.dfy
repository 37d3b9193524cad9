/**
 * Rendering with the cache. Whatever the cache holds, whatever of its input and output fails, and
 * however its entries are corrupted short of forging a digest, a render gives the outputs, the
 * receipt and the tree of a fresh one, up to the modes of directories.
 */
module Rendering {
  import opened Wrappers
  import opened Bytes
  import opened Trees
  import opened OrdMaps
  import opened Contexts
  import opened Slices
  import opened Decoding
  import opened Lifecycle
  import opened TreeDigests
  import opened Copies
  import opened RenderCaches
  import opened Recipes

  /* ---------------------------------------------------------------- The host's codecs */

  /**
   * JSON in and out, TOML out, the bytes of a digest, and the renderer, which is a function of the
   * runner and the two manifests it is given.
   */
  datatype Host = Host(
    parse: ByteString -> Option<Json>,
    format: Json -> ByteString,
    write: Writer,
    digestBytes: Digest -> Hash32,
    render: Renderer)

  type Renderer = (PreparedRunner, Manifest, Manifest) -> Option<Tree>

  /**
   * JSON reads back as written, manifests are spelled apart, and the recipes that are ever rendered
   * do not collide.
   */
  ghost predicate IsHost(host: Host, recipes: set<Digest>) {
    (forall json :: host.parse(host.format(json)) == Some(json)) &&
    Faithful(host.write) &&
    forall d, e | d in recipes && e in recipes :: host.digestBytes(d) == host.digestBytes(e) ==> d == e
  }

  /** The name of a recipe's entry in the cache. */
  function KeyName(host: Host, recipe: Digest): Name {
    TextBytes(Hex(host.digestBytes(recipe)))
  }

  lemma KeyNamesAreApart(host: Host, recipes: set<Digest>, d: Digest, e: Digest)
    requires IsHost(host, recipes) && d in recipes && e in recipes
    ensures IsRecipeKey(KeyName(host, d))
    ensures KeyName(host, d) == KeyName(host, e) ==> d == e
  {
    var x, y := host.digestBytes(d), host.digestBytes(e);
    SpelledHashIsKey(x);
    HexReadsBack(x);
    HexReadsBack(y);
    if KeyName(host, d) == KeyName(host, e) {
      TextBytesIsInjective(Hex(x), Hex(y));
      HexIsInjective(x, y);
    }
    hide IsRecipeKey, Hex, Unhex;
  }

  /* ---------------------------------------------------------------- The renderer's manifest */

  const MANIFEST: Path := [TextBytes("manifest.json")]

  /** The fields of a manifest's text. */
  function ParseManifest(host: Host, text: ByteString): Option<map<string, Json>> {
    match host.parse(text)
    case Some(JObject(fields)) => Some(fields)
    case _ => None
  }

  function ReadManifest(host: Host, tree: Tree): Option<map<string, Json>> {
    if MANIFEST in tree && tree[MANIFEST].File? then ParseManifest(host, tree[MANIFEST].content)
    else None
  }

  /** A component's outputs in the renderer's manifest. */
  function ComponentOutputs(rendered: Json): Option<Json> {
    if rendered.JObject? && "outputs" in rendered.fields then Some(rendered.fields["outputs"])
    else None
  }

  function NameKey(pin: ComponentPin): ByteString {
    TextBytes(pin.name)
  }

  /** Pins in the order of their names. */
  function ByName(pins: seq<ComponentPin>): seq<ComponentPin> {
    if pins == [] then []
    else
      var rest := ByName(pins[1..]);
      InsertUnique(rest, pins[0], NameKey).GetOrElse(rest)
  }

  /** The outputs of a complete render, in the order of component names. */
  function ReadOutputs(host: Host, tree: Tree, desired: DesiredSlice): Option<seq<Output>> {
    var manifest := ReadManifest(host, tree);
    if manifest.None? || "environment" !in manifest.value || "components" !in manifest.value then
      None
    else
      var environment, components := manifest.value["environment"], manifest.value["components"];
      if environment != JString(EffectiveEnvironment(desired)) || !components.JObject? ||
         components.fields.Keys != NamesIn(desired.components) ||
         exists name | name in components.fields :: ComponentOutputs(components.fields[name]).None?
      then None
      else Some(OutputsOf(ByName(desired.components), components.fields))
  }

  function OutputsOf(pins: seq<ComponentPin>, components: map<string, Json>): seq<Output> {
    seq(|pins|, i requires 0 <= i < |pins| =>
      Output(pins[i].specHash,
             if pins[i].name in components
             then ComponentOutputs(components[pins[i].name]).GetOrElse(JNull) else JNull))
  }

  /* ---------------------------------------------------------------- What outputs mean */

  /** The outputs are those of these components, in the order of the components' names. */
  ghost predicate InNameOrder(pins: seq<ComponentPin>, outputs: seq<Output>) {
    exists sorted: seq<ComponentPin> ::
      Sorted(sorted, NameKey) && multiset(sorted) == multiset(pins) && |sorted| == |outputs| &&
      forall i | 0 <= i < |outputs| :: outputs[i].componentSpecHash == sorted[i].specHash
  }

  /** A manifest of exactly this slice's components, rendered as the environment asked for. */
  predicate IsManifestFor(manifest: map<string, Json>, desired: DesiredSlice) {
    Get(manifest, "environment") == Some(JString(EffectiveEnvironment(desired))) &&
    "components" in manifest && manifest["components"].JObject? &&
    var components := manifest["components"].fields;
    components.Keys == NamesIn(desired.components) &&
    forall name | name in components ::
      components[name].JObject? && "outputs" in components[name].fields
  }

  /** The manifest says under each component's name what is reported under its hash. */
  ghost predicate Reports(manifest: map<string, Json>, desired: DesiredSlice, outputs: seq<Output>) {
    IsManifestFor(manifest, desired) &&
    |outputs| == |desired.components| && InNameOrder(desired.components, outputs) &&
    forall pin | pin in desired.components ::
      Output(pin.specHash, manifest["components"].fields[pin.name].fields["outputs"]) in outputs
  }

  lemma NameIsNew(pin: ComponentPin, others: seq<ComponentPin>, sorted: seq<ComponentPin>)
    requires Named([pin] + others) && multiset(sorted) == multiset(others)
    ensures !HasKey(sorted, NameKey, NameKey(pin))
  {
    var all := [pin] + others;
    assert all[0] in all;
    if i :| 0 <= i < |sorted| && NameKey(sorted[i]) == NameKey(pin) {
      assert sorted[i] in multiset(others);
      var j :| 0 <= j < |others| && others[j] == sorted[i];
      assert all[j + 1] == sorted[i] && all[j + 1] in all;
      TextBytesIsInjective(pin.name, sorted[i].name);
      assert all[0].name != all[j + 1].name;
    }
  }

  lemma {:induction false} ByNameSorts(pins: seq<ComponentPin>)
    requires Named(pins)
    ensures Sorted(ByName(pins), NameKey) && multiset(ByName(pins)) == multiset(pins)
    ensures |ByName(pins)| == |pins|
  {
    if pins != [] {
      var rest := pins[1..];
      assert pins == [pins[0]] + rest;
      assert Named(rest);
      ByNameSorts(rest);
      NameIsNew(pins[0], rest, ByName(rest));
      InsertUniqueKeepsOrder(ByName(rest), pins[0], NameKey);
      assert |multiset(ByName(pins))| == |multiset(pins)|;
      hide InsertUnique, Sorted, Named, HasKey;
    }
  }

  /** Reading outputs works exactly on the slice's manifests, and gives each component its own. */
  lemma OutputsAreTheirOwn(host: Host, tree: Tree, desired: DesiredSlice)
    requires Named(desired.components)
    ensures var manifest, outputs := ReadManifest(host, tree), ReadOutputs(host, tree, desired);
            (outputs.Some? <==> manifest.Some? && IsManifestFor(manifest.value, desired)) &&
            (outputs.Some? ==> Reports(manifest.value, desired, outputs.value))
  {
    var manifest, outputs := ReadManifest(host, tree), ReadOutputs(host, tree, desired);
    hide ReadManifest;
    if outputs.Some? {
      ListedByName(desired.components, manifest.value["components"].fields);
    }
    hide EffectiveEnvironment, OutputsOf, InNameOrder, Named, ByName;
  }

  lemma ListedByName(pins: seq<ComponentPin>, components: map<string, Json>)
    requires Named(pins) && components.Keys == NamesIn(pins)
    requires forall name | name in components ::
               components[name].JObject? && "outputs" in components[name].fields
    ensures var outputs := OutputsOf(ByName(pins), components);
            |outputs| == |pins| && InNameOrder(pins, outputs) &&
            forall pin | pin in pins ::
              Output(pin.specHash, components[pin.name].fields["outputs"]) in outputs
  {
    ByNameSorts(pins);
    var sorted := ByName(pins);
    var outputs := OutputsOf(sorted, components);
    forall pin | pin in pins
      ensures Output(pin.specHash, components[pin.name].fields["outputs"]) in outputs
    {
      assert pin in multiset(sorted);
      var i :| 0 <= i < |sorted| && sorted[i] == pin;
      assert pin.name in components;
      assert outputs[i] == Output(pin.specHash, components[pin.name].fields["outputs"]);
    }
    hide ByName, Sorted, Named;
  }

  /* ---------------------------------------------------------------- The receipt */

  function Receipt(host: Host, desired: DesiredSlice): Json {
    JObject(map[
      "apiVersion" := JString("henosis.dev/generation-receipt/v1"),
      "graphId" := JString(Hex(desired.graphId)),
      "generation" := JString(Decimal(desired.generation)),
      "graphDigest" := JString("sha256:" + Hex(host.digestBytes(desired.GraphDigest()))),
      "componentSpecHashes" := JArray(
        seq(|desired.components|, i requires 0 <= i < |desired.components| =>
          JString(Hex(desired.components[i].specHash))))])
  }

  /**
   * The manifest with the receipt in its reserved field, which must be free. No file is longer than
   * 64 bits count.
   */
  function EmbedReceipt(host: Host, tree: Tree, desired: DesiredSlice): Option<Tree> {
    var manifest := ReadManifest(host, tree);
    if manifest.None? || "henosis" in manifest.value then None
    else
      var text := host.format(JObject(manifest.value["henosis" := Receipt(host, desired)]));
      if |text| >= TWO_64 then None
      else Some(tree[MANIFEST := File(tree[MANIFEST].mode, text)])
  }

  datatype Rendered = Rendered(tree: Tree, outputs: seq<Output>)

  /** Checking a rendered tree and putting the receipt in. */
  function Finish(host: Host, tree: Tree, desired: DesiredSlice): Option<Rendered> {
    var outputs := ReadOutputs(host, tree, desired);
    if outputs.None? then None
    else
      var embedded := EmbedReceipt(host, tree, desired);
      if embedded.None? || !NothingSpecial(embedded.value) then None
      else Some(Rendered(embedded.value, outputs.value))
  }

  function RawRender(host: Host, runner: PreparedRunner, desired: DesiredSlice): Option<Tree> {
    host.render(runner, ManifestOf(desired, EffectiveEnvironment(desired)),
                ManifestOf(desired, "dev"))
  }

  /** What the renderer is given: the slice's pins under two environments. */
  lemma RendererIsGiven(host: Host, runner: PreparedRunner, desired: DesiredSlice, pin: ComponentPin)
    requires DistinctNames(desired.components) && pin in desired.components
    ensures exists asked: Manifest, dev: Manifest ::
              RawRender(host, runner, desired) == host.render(runner, asked, dev) &&
              asked.components == dev.components && dev.environment == "dev" &&
              (forall e :: AllBorrow(desired.components, e) ==> asked.environment == e) &&
              ((forall e :: !AllBorrow(desired.components, e)) ==>
                 asked.environment == desired.environment) &&
              asked.components.Keys == NamesIn(desired.components) &&
              asked.components[pin.name] ==
                ManifestComponent(pin.context.repository, pin.context.revision,
                                  pin.context.imageDigest)
  {
    var asked := ManifestOf(desired, EffectiveEnvironment(desired));
    ManifestSaysWhatIsPinned(desired.components, pin);
    ManifestCountsComponents(desired.components);
    forall e
      ensures AllBorrow(desired.components, e) ==> asked.environment == e
    {
      RendersAsBorrowed(desired, e);
    }
    RendersAsBorrowed(desired, "");
    assert RawRender(host, runner, desired) == host.render(runner, asked, ManifestOf(desired, "dev"));
    hide AllBorrow, EffectiveEnvironment, ManifestComponents;
  }

  /** A fresh render, without any cache. */
  function FreshRender(host: Host, runner: PreparedRunner, desired: DesiredSlice)
    : Option<Rendered>
  {
    var raw := RawRender(host, runner, desired);
    if raw.None? then None else Finish(host, raw.value, desired)
  }

  /* ---------------------------------------------------------------- What the receipt says */

  /** The text in a field, if there is one. */
  function TextAt(fields: map<string, Json>, name: string): Option<string> {
    if name in fields && fields[name].JString? then Some(fields[name].s) else None
  }

  /** The text spells these bytes. */
  predicate Spells(text: Option<string>, bytes: ByteString) {
    text.Some? && Unhex(text.value) == Some(bytes)
  }

  predicate SpellsNumber(text: Option<string>, n: nat) {
    text.Some? && text.value != "" && AreDigits(text.value) && DecimalValue(text.value) == n
  }

  predicate SpellsSha256(text: Option<string>, bytes: ByteString) {
    text.Some? && "sha256:" <= text.value && Unhex(text.value[7..]) == Some(bytes)
  }

  /** The list holds a component hash for each component, in their order. */
  predicate ListsHashes(list: Option<Json>, pins: seq<ComponentPin>) {
    list.Some? && list.value.JArray? && |list.value.items| == |pins| &&
    forall i | 0 <= i < |pins| ::
      list.value.items[i].JString? && Unhex(list.value.items[i].s) == Some(pins[i].specHash)
  }

  /** Graph and generation read back from a receipt. */
  predicate NamesGeneration(receipt: Json, desired: DesiredSlice) {
    receipt.JObject? &&
    TextAt(receipt.fields, "apiVersion") == Some("henosis.dev/generation-receipt/v1") &&
    Spells(TextAt(receipt.fields, "graphId"), desired.graphId) &&
    SpellsNumber(TextAt(receipt.fields, "generation"), desired.generation)
  }

  /** Everything read back from a receipt is the slice's. */
  predicate Attests(host: Host, receipt: Json, desired: DesiredSlice) {
    NamesGeneration(receipt, desired) &&
    receipt.fields.Keys ==
      {"apiVersion", "graphId", "generation", "graphDigest", "componentSpecHashes"} &&
    SpellsSha256(TextAt(receipt.fields, "graphDigest"), host.digestBytes(desired.GraphDigest())) &&
    ListsHashes(Get(receipt.fields, "componentSpecHashes"), desired.components)
  }

  lemma ListedHashesReadBack(pins: seq<ComponentPin>)
    ensures ListsHashes(Some(JArray(seq(|pins|, i requires 0 <= i < |pins| =>
                          JString(Hex(pins[i].specHash))))), pins)
  {
    forall i | 0 <= i < |pins|
      ensures Unhex(Hex(pins[i].specHash)) == Some(pins[i].specHash)
    {
      HexReadsBack(pins[i].specHash);
    }
    hide Hex, Unhex;
  }

  lemma ReceiptNames(host: Host, desired: DesiredSlice)
    ensures NamesGeneration(Receipt(host, desired), desired)
  {
    HexReadsBack(desired.graphId);
    DecimalReadsBack(desired.generation);
    hide Hex, Unhex, Decimal, DecimalValue, AreDigits, DesiredSlice.GraphDigest;
  }

  lemma ReceiptAttests(host: Host, desired: DesiredSlice)
    ensures Attests(host, Receipt(host, desired), desired)
  {
    ReceiptNames(host, desired);
    var digest := host.digestBytes(desired.GraphDigest());
    HexReadsBack(digest);
    assert ("sha256:" + Hex(digest))[7..] == Hex(digest);
    ListedHashesReadBack(desired.components);
    hide Hex, Unhex, Decimal, NamesGeneration, ListsHashes, DesiredSlice.GraphDigest;
  }

  /** A receipt is of one graph, one generation and one list of component hashes. */
  lemma ReceiptsIdentify(host: Host, receipt: Json, a: DesiredSlice, b: DesiredSlice)
    requires Attests(host, receipt, a) && Attests(host, receipt, b)
    ensures a.graphId == b.graphId && a.generation == b.generation
    ensures a.SpecHashes() == b.SpecHashes() && a.GraphDigest() == b.GraphDigest()
  {
    forall i | 0 <= i < |a.components|
      ensures a.components[i].specHash == b.components[i].specHash
    {
    }
    assert a.SpecHashes() == b.SpecHashes();
    hide Unhex, DecimalValue;
  }

  /** Unless the digests of the two graphs collide, the graph digest alone identifies all of it. */
  lemma GraphDigestSuffices(host: Host, r: Json, a: DesiredSlice, s: Json, b: DesiredSlice)
    requires Attests(host, r, a) && Attests(host, s, b)
    requires TextAt(r.fields, "graphDigest") == TextAt(s.fields, "graphDigest")
    requires host.digestBytes(a.GraphDigest()) == host.digestBytes(b.GraphDigest()) ==>
               a.GraphDigest() == b.GraphDigest()
    ensures a.graphId == b.graphId && a.generation == b.generation
    ensures a.SpecHashes() == b.SpecHashes()
  {
    GraphDigestIsInjective(a, b);
    hide Unhex, DecimalValue, DesiredSlice.GraphDigest, DesiredSlice.SpecHashes;
  }

  /**
   * A finished render's manifest is the renderer's with one field more, and that field attests the
   * slice that was asked for, whichever slice the tree was rendered for first. The manifest still
   * reports the outputs.
   */
  lemma ReceiptIsCurrent(host: Host, tree: Tree, desired: DesiredSlice)
    requires IsHost(host, {}) && Finish(host, tree, desired).Some?
    ensures var finished := Finish(host, tree, desired).value;
            var before, after := ReadManifest(host, tree), ReadManifest(host, finished.tree);
            before.Some? && after.Some? && "henosis" !in before.value && "henosis" in after.value &&
            after.value - {"henosis"} == before.value &&
            Attests(host, after.value["henosis"], desired) &&
            (forall p | p != MANIFEST :: Get(finished.tree, p) == Get(tree, p)) &&
            MANIFEST in tree && MANIFEST in finished.tree &&
            finished.tree[MANIFEST].File? && tree[MANIFEST].File? &&
            finished.tree[MANIFEST].mode == tree[MANIFEST].mode &&
            (Named(desired.components) ==> Reports(after.value, desired, finished.outputs))
  {
    hide *;
    EmbeddedReadsBack(host, tree, desired);
    ReceiptAttests(host, desired);
    var before := ReadManifest(host, tree);
    AddedAndRemoved(before.value, "henosis", Receipt(host, desired));
    if Named(desired.components) {
      OutputsAreTheirOwn(host, tree, desired);
      OtherFieldsDoNotReport(before.value, Receipt(host, desired), desired,
                             Finish(host, tree, desired).value.outputs);
    }
  }

  lemma AddedAndRemoved(fields: map<string, Json>, name: string, value: Json)
    requires name !in fields
    ensures fields[name := value] - {name} == fields && fields[name := value][name] == value
  {
  }

  lemma EmbeddedReadsBack(host: Host, tree: Tree, desired: DesiredSlice)
    requires IsHost(host, {}) && Finish(host, tree, desired).Some?
    ensures var finished := Finish(host, tree, desired).value;
            var before, after := ReadManifest(host, tree), ReadManifest(host, finished.tree);
            before.Some? && "henosis" !in before.value &&
            after == Some(before.value["henosis" := Receipt(host, desired)]) &&
            ReadOutputs(host, tree, desired) == Some(finished.outputs) &&
            (forall p | p != MANIFEST :: Get(finished.tree, p) == Get(tree, p)) &&
            MANIFEST in tree && MANIFEST in finished.tree &&
            finished.tree[MANIFEST].File? && tree[MANIFEST].File? &&
            finished.tree[MANIFEST].mode == tree[MANIFEST].mode
  {
    hide ReadOutputs, Receipt, MANIFEST;
  }

  lemma OtherFieldsDoNotReport(manifest: map<string, Json>, receipt: Json, desired: DesiredSlice,
                               outputs: seq<Output>)
    requires Reports(manifest, desired, outputs)
    ensures Reports(manifest["henosis" := receipt], desired, outputs)
  {
    hide EffectiveEnvironment, InNameOrder;
  }

  /* ---------------------------------------------------------------- Copies finish alike */

  lemma CopyFinishesAlike(host: Host, tree: Tree, desired: DesiredSlice)
    requires NothingSpecial(tree)
    ensures Finish(host, Copied(tree), desired).Some? <==> Finish(host, tree, desired).Some?
    ensures Finish(host, tree, desired).Some? ==>
              var copy, original := Finish(host, Copied(tree), desired).value,
                                    Finish(host, tree, desired).value;
              copy.outputs == original.outputs && copy.tree == Copied(original.tree)
  {
    CopiedIsHashable(tree);
    assert ReadManifest(host, Copied(tree)) == ReadManifest(host, tree);
    assert ReadOutputs(host, Copied(tree), desired) == ReadOutputs(host, tree, desired) by {
      hide ReadManifest;
    }
    var x, y := EmbedReceipt(host, tree, desired), EmbedReceipt(host, Copied(tree), desired);
    assert x.Some? <==> y.Some? by {
      hide ReadManifest;
    }
    if x.Some? {
      assert y.value == Copied(x.value) by {
        hide ReadManifest, Receipt;
      }
      CopiedIsHashable(x.value);
    }
    hide ReadManifest, EmbedReceipt, ReadOutputs;
  }

  /* ---------------------------------------------------------------- Sound caches */

  /** One of the recipes that are ever rendered. */
  ghost predicate IsKnown(host: Host, recipes: set<Digest>, runner: PreparedRunner,
                          desired: DesiredSlice)
  {
    IsRecipe(host.write, runner, desired) && Named(desired.components) &&
    Blake3(RecipePreimage(host.write, runner, desired)) in recipes
  }

  ghost function KeyOf(host: Host, runner: PreparedRunner, desired: DesiredSlice): Name
    requires IsRecipe(host.write, runner, desired)
  {
    KeyName(host, Blake3(RecipePreimage(host.write, runner, desired)))
  }

  /** The tree is the cache's copy of what this recipe renders. */
  ghost predicate GenuineFor(host: Host, recipes: set<Digest>, key: Name, tree: Tree,
                             runner: PreparedRunner, desired: DesiredSlice)
  {
    IsKnown(host, recipes, runner, desired) && KeyOf(host, runner, desired) == key &&
    var raw := RawRender(host, runner, desired);
    raw.Some? && Hashable(raw.value) && tree == Copied(raw.value)
  }

  ghost predicate Genuine(host: Host, recipes: set<Digest>, key: Name, tree: Tree) {
    exists runner, desired :: GenuineFor(host, recipes, key, tree, runner, desired)
  }

  /** Nobody wrote a digest of a tree that the key's recipe does not render. */
  ghost predicate Unforged(host: Host, recipes: set<Digest>, key: Name, node: Node) {
    node.digest.Some? ==>
      forall tree | Hashable(tree) && DigestOf(tree) == node.digest.value ::
        Genuine(host, recipes, key, tree)
  }

  ghost predicate Sound(host: Host, recipes: set<Digest>, disk: map<Name, Node>) {
    forall name | name in disk ::
      Unforged(host, recipes, name, disk[name]) &&
      (disk[name].rendered.Some? ==> WellFormed(disk[name].rendered.value))
  }

  ghost predicate IsRenderer(host: Host) {
    forall runner, desired, dev ::
      host.render(runner, desired, dev).Some? ==> WellFormed(host.render(runner, desired, dev).value)
  }

  /** One key, one raw render. */
  lemma SameKeySameRaw(host: Host, recipes: set<Digest>, r: PreparedRunner, a: DesiredSlice,
                       s: PreparedRunner, b: DesiredSlice)
    requires IsHost(host, recipes) && IsKnown(host, recipes, r, a) && IsKnown(host, recipes, s, b)
    requires KeyOf(host, r, a) == KeyOf(host, s, b)
    ensures RawRender(host, r, a) == RawRender(host, s, b)
  {
    KeyNamesAreApart(host, recipes, Blake3(RecipePreimage(host.write, r, a)),
                     Blake3(RecipePreimage(host.write, s, b)));
    RecipesAreUniquelyDecodable(host.write, r, a, s, b);
    hide RecipePreimage, ManifestComponents, KeyName;
  }

  lemma ShrinkingIsSound(host: Host, recipes: set<Digest>, before: map<Name, Node>,
                         after: map<Name, Node>)
    requires Sound(host, recipes, before) && Shrinks(before, after)
    ensures Sound(host, recipes, after)
  {
    hide WellFormed, Genuine;
  }

  lemma AddingIsSound(host: Host, recipes: set<Digest>, before: map<Name, Node>, key: Name,
                      source: Tree, now: nat, after: map<Name, Node>)
    requires Sound(host, recipes, before) && Hashable(Copied(source))
    requires Unforged(host, recipes, key, NewNode(source, now))
    requires Leaves(before, key, source, now, after)
    ensures Sound(host, recipes, after)
  {
    hide WellFormed, NothingSpecial, Genuine, Copied;
    forall name | name in after
      ensures Unforged(host, recipes, name, after[name])
      ensures after[name].rendered.Some? ==> WellFormed(after[name].rendered.value)
    {
    }
    hide Leaves, Unforged, PartOf, NewNode;
  }

  lemma NewNodeIsUnforged(host: Host, recipes: set<Digest>, runner: PreparedRunner,
                          desired: DesiredSlice, raw: Tree, now: nat)
    requires IsKnown(host, recipes, runner, desired)
    requires RawRender(host, runner, desired) == Some(raw)
    requires Hashable(raw) && Hashable(Copied(raw))
    ensures Unforged(host, recipes, KeyOf(host, runner, desired), NewNode(raw, now))
  {
    var key := KeyOf(host, runner, desired);
    forall tree | Hashable(tree) && DigestOf(tree) == DigestOf(Copied(raw))
      ensures Genuine(host, recipes, key, tree)
    {
      DigestsIdentifyTrees(tree, DigestOf(tree), Copied(raw), DigestOf(Copied(raw)));
      assert GenuineFor(host, recipes, key, tree, runner, desired);
    }
    hide Genuine, WellFormed, NothingSpecial, Copied, RecipePreimage, RawRender, KeyOf;
  }

  /** Storing a render under its own key forges nothing. */
  lemma StoringIsSound(host: Host, recipes: set<Digest>, before: map<Name, Node>,
                       runner: PreparedRunner, desired: DesiredSlice, raw: Tree, now: nat,
                       after: map<Name, Node>)
    requires Sound(host, recipes, before) && IsKnown(host, recipes, runner, desired)
    requires RawRender(host, runner, desired) == Some(raw)
    requires Hashable(raw) && Hashable(Copied(raw))
    requires Leaves(before, KeyOf(host, runner, desired), raw, now, after)
    ensures Sound(host, recipes, after)
  {
    NewNodeIsUnforged(host, recipes, runner, desired, raw, now);
    AddingIsSound(host, recipes, before, KeyOf(host, runner, desired), raw, now, after);
    hide Sound, Unforged, Leaves;
  }

  /** A genuine entry is a copy of what any slice of the same recipe renders. */
  lemma GenuineRaw(host: Host, recipes: set<Digest>, runner: PreparedRunner, desired: DesiredSlice,
                   tree: Tree) returns (raw: Tree)
    requires IsHost(host, recipes) && IsKnown(host, recipes, runner, desired)
    requires Genuine(host, recipes, KeyOf(host, runner, desired), tree)
    ensures RawRender(host, runner, desired) == Some(raw)
    ensures Hashable(raw) && tree == Copied(raw)
  {
    var key := KeyOf(host, runner, desired);
    hide IsKnown, WellFormed, NothingSpecial, Copied, RawRender;
    var s, b :| GenuineFor(host, recipes, key, tree, s, b);
    SameKeySameRaw(host, recipes, runner, desired, s, b);
    raw := RawRender(host, s, b).value;
  }

  /** A restored entry finishes like a fresh render. */
  lemma RestoredFinishesAlike(host: Host, recipes: set<Digest>, runner: PreparedRunner,
                              desired: DesiredSlice, node: Node)
    requires IsHost(host, recipes) && IsKnown(host, recipes, runner, desired)
    requires Unforged(host, recipes, KeyOf(host, runner, desired), node)
    requires node.rendered.Some? && node.digest.Some? && Hashable(node.rendered.value)
    requires node.digest.value == DigestOf(node.rendered.value)
    ensures var finished := Finish(host, Copied(node.rendered.value), desired);
            var anew := FreshRender(host, runner, desired);
            Alike(finished, anew) &&
            (finished.Some? ==> finished.value.tree == Copied(anew.value.tree))
  {
    var key, tree := KeyOf(host, runner, desired), node.rendered.value;
    hide IsKnown, WellFormed, NothingSpecial, Copied, KeyOf, RawRender, Finish;
    assert Genuine(host, recipes, key, tree);
    var raw := GenuineRaw(host, recipes, runner, desired, tree);
    CopiedIsHashable(raw);
    CopyFinishesAlike(host, raw, desired);
    CopiedFinishIsCopied(host, raw, desired);
  }

  lemma CopiedFinishIsCopied(host: Host, tree: Tree, desired: DesiredSlice)
    ensures Finish(host, tree, desired).Some? ==>
              Copied(Copied(Finish(host, tree, desired).value.tree)) ==
              Copied(Finish(host, tree, desired).value.tree)
  {
    if Finish(host, tree, desired).Some? {
      CopiedIsHashable(Finish(host, tree, desired).value.tree);
    }
    hide Finish, Copied;
  }

  /** The same success, outputs and tree, up to the modes of directories. */
  predicate Alike(r: Option<Rendered>, anew: Option<Rendered>) {
    (r.Some? <==> anew.Some?) &&
    (r.Some? ==> r.value.outputs == anew.value.outputs &&
                 Copied(r.value.tree) == Copied(anew.value.tree))
  }

  /* ---------------------------------------------------------------- Rendering */

  predicate SlotIsFree(host: Host, tree: Tree) {
    var manifest := ReadManifest(host, tree);
    manifest.Some? && "henosis" !in manifest.value
  }

  /** What passes the checks before the receipt is put in. */
  predicate IsUsable(host: Host, tree: Tree, desired: DesiredSlice) {
    ReadOutputs(host, tree, desired).Some? && SlotIsFree(host, tree)
  }

  /** What goes wrong with files during one render, and what is left where it does. */
  datatype Faults = Faults(restore: Io, partial: Tree, invalidate: Io, reset: bool, store: Io)

  /** The manifest attests the slice and reports the outputs. */
  ghost predicate IsComplete(host: Host, r: Rendered, desired: DesiredSlice) {
    var manifest := ReadManifest(host, r.tree);
    manifest.Some? && "henosis" in manifest.value &&
    Attests(host, manifest.value["henosis"], desired) && Reports(manifest.value, desired, r.outputs)
  }

  lemma FinishedIsComplete(host: Host, tree: Tree, desired: DesiredSlice)
    requires IsHost(host, {}) && Named(desired.components)
    requires Finish(host, tree, desired).Some?
    ensures IsComplete(host, Finish(host, tree, desired).value, desired)
  {
    ReceiptIsCurrent(host, tree, desired);
    hide Finish, ReadManifest, Attests, Reports;
  }

  /**
   * Restore a render and check it; what cannot be used is invalidated, and the output directory
   * reset, which may fail.
   */
  method RestoreRender(cache: RenderCache, host: Host, ghost recipes: set<Digest>,
                       ghost runner: PreparedRunner, desired: DesiredSlice, key: Name,
                       faults: Faults)
    returns (r: Option<Rendered>, hit: bool, blocked: bool)
    requires IsHost(host, recipes) && Sound(host, recipes, cache.disk)
    requires IsKnown(host, recipes, runner, desired) && key == KeyOf(host, runner, desired)
    modifies cache
    ensures Sound(host, recipes, cache.disk) && cache.clock == old(cache.clock)
    ensures hit ==>
              Stored(old(cache.disk), key) && cache.disk == old(cache.disk) && !blocked &&
              r == Finish(host, Copied(old(cache.disk)[key].rendered.value), desired)
    ensures blocked ==> faults.reset && r.None?
    ensures Unfaulted(faults) && !hit ==> IsGone(old(cache.disk), cache.disk, key)
    ensures Unfaulted(faults) && FreshRender(host, runner, desired).Some? ==>
              (Stored(old(cache.disk), key) <==> hit)
  {
    hide WellFormed, NothingSpecial, Copied, ReadOutputs, ReadManifest, RecipePreimage, Unforged,
         RawRender, IsRecipeKey, KeyName, DigestOf;
    r, hit, blocked := None, false, false;
    assert TreesOk(cache.disk);
    var lookup, output := cache.Restore(key, faults.restore, faults.partial);
    if lookup.Hit? {
      RestoredFinishesAlike(host, recipes, runner, desired, cache.disk[key]);
    }
    if lookup.Hit? && IsUsable(host, output, desired) {
      return Finish(host, output, desired), true, false;
    }
    if !lookup.Miss? {
      ghost var before := cache.disk;
      var invalidated := cache.Invalidate(key, faults.invalidate);
      ShrinkingIsSound(host, recipes, before, cache.disk);
      blocked := faults.reset;
    }
  }

  /** Render, check, and store what was rendered before the receipt is put in. */
  method RenderAnew(cache: RenderCache, host: Host, ghost recipes: set<Digest>,
                    runner: PreparedRunner, desired: DesiredSlice, key: Name, io: Io)
    returns (r: Option<Rendered>)
    requires IsHost(host, recipes) && IsRenderer(host) && Sound(host, recipes, cache.disk)
    requires IsKnown(host, recipes, runner, desired) && key == KeyOf(host, runner, desired)
    modifies cache
    ensures Sound(host, recipes, cache.disk)
    ensures r == FreshRender(host, runner, desired)
    ensures cache.maxEntries == 0 || !RendersUsably(host, runner, desired) ==>
              cache.disk == old(cache.disk) && cache.clock == old(cache.clock)
    ensures r.Some? && cache.maxEntries > 0 && io.Works? ==>
              var raw := RawRender(host, runner, desired);
              raw.Some? && Hashable(Copied(raw.value)) && cache.clock == old(cache.clock) + 1 &&
              Evicts(Installed(old(cache.disk), key, raw.value, old(cache.clock)), cache.maxEntries,
                     cache.disk)
  {
    hide WellFormed, NothingSpecial, Copied, ReadOutputs, ReadManifest, RecipePreimage, Unforged,
         RawRender, IsRecipeKey, KeyName, Evicts, Installed;
    var raw := RawRender(host, runner, desired);
    if raw.None? { return None; }
    if !IsUsable(host, raw.value, desired) { return None; }
    if cache.maxEntries > 0 {
      StoreRaw(cache, host, recipes, runner, desired, key, raw.value, io);
    }
    r := Finish(host, raw.value, desired);
    FinishedWasPlain(host, raw.value, desired);
  }

  predicate RendersUsably(host: Host, runner: PreparedRunner, desired: DesiredSlice) {
    var raw := RawRender(host, runner, desired);
    raw.Some? && IsUsable(host, raw.value, desired)
  }

  /** What finishes has nothing special in it. */
  lemma FinishedWasPlain(host: Host, tree: Tree, desired: DesiredSlice)
    ensures Finish(host, tree, desired).Some? ==> NothingSpecial(tree)
  {
    if Finish(host, tree, desired).Some? {
      var finished := Finish(host, tree, desired).value.tree;
      forall p | p in tree
        ensures !tree[p].Special?
      {
        assert finished[p] == tree[p] || p == MANIFEST;
      }
    }
    hide ReadOutputs, Receipt, MANIFEST;
  }

  /** Nothing goes wrong with files. */
  predicate Unfaulted(faults: Faults) {
    faults.restore.Works? && faults.invalidate.Works? && faults.store.Works? && !faults.reset
  }

  /** The key has no render any more, and nothing else has changed. */
  predicate IsGone(before: map<Name, Node>, after: map<Name, Node>, key: Name) {
    after - {key} == before - {key} && (key in after ==> after[key].rendered.None?)
  }

  /**
   * Render with the cache, if it is enabled. What is returned agrees with a fresh render, attests the
   * slice that was asked for, and reports each component's own outputs. When nothing goes wrong, the
   * renderer runs exactly if no render is stored, and then its render is, as the youngest; one that
   * fails the checks never is.
   */
  method Render(cache: RenderCache, host: Host, ghost recipes: set<Digest>, runner: PreparedRunner,
                desired: DesiredSlice, faults: Faults)
    returns (r: Option<Rendered>, hit: bool)
    requires IsHost(host, recipes) && IsRenderer(host) && Sound(host, recipes, cache.disk)
    requires IsKnown(host, recipes, runner, desired)
    modifies cache
    ensures Sound(host, recipes, cache.disk)
    ensures r.Some? ==> Alike(r, FreshRender(host, runner, desired))
    ensures !faults.reset ==> Alike(r, FreshRender(host, runner, desired))
    ensures r.Some? && !hit ==> r == FreshRender(host, runner, desired)
    ensures r.Some? && hit ==>
              r.value.tree == Copied(FreshRender(host, runner, desired).value.tree)
    ensures r.Some? ==> IsComplete(host, r.value, desired)
    ensures cache.maxEntries == 0 ==> !hit && cache.disk == old(cache.disk)
    ensures hit ==> cache.disk == old(cache.disk) && cache.clock == old(cache.clock)
    ensures Unfaulted(faults) && cache.maxEntries > 0 && !hit &&
            !RendersUsably(host, runner, desired) ==>
              IsGone(old(cache.disk), cache.disk, KeyOf(host, runner, desired))
    ensures Unfaulted(faults) && cache.maxEntries > 0 && FreshRender(host, runner, desired).Some? ==>
              (hit <==> Stored(old(cache.disk), KeyOf(host, runner, desired))) &&
              (!hit ==> Renews(old(cache.disk), KeyOf(host, runner, desired),
                               RawRender(host, runner, desired), old(cache.clock),
                               cache.maxEntries, cache.disk, cache.clock))
  {
    hide WellFormed, NothingSpecial, Copied, ReadOutputs, ReadManifest, RecipePreimage, Unforged,
         RawRender, IsRecipeKey, KeyName, IsComplete, Evicts, Installed, Finish, FreshRender, DigestOf,
         SlotIsFree, IsUsable, RendersUsably, IsGone;
    hit := false;
    var recipe := HashRecipe(host.write, runner, desired);
    var key := KeyName(host, recipe);
    ghost var before := cache.disk;
    if cache.maxEntries > 0 {
      var blocked;
      r, hit, blocked := RestoreRender(cache, host, recipes, runner, desired, key, faults);
      if hit {
        RestoredFinishesAlike(host, recipes, runner, desired, before[key]);
        if r.Some? { RestoredIsComplete(host, before[key], desired); }
        return;
      }
      if blocked { return None, false; }
    }
    ghost var emptied, now := cache.disk, cache.clock;
    r := RenderAnew(cache, host, recipes, runner, desired, key, faults.store);
    if r.Some? {
      FreshIsComplete(host, runner, desired);
      if cache.maxEntries > 0 && Unfaulted(faults) {
        InstallsAnew(before, emptied, key, RawRender(host, runner, desired), now);
      }
    }
  }

  lemma FreshIsComplete(host: Host, runner: PreparedRunner, desired: DesiredSlice)
    requires IsHost(host, {}) && Named(desired.components)
    requires FreshRender(host, runner, desired).Some?
    ensures IsComplete(host, FreshRender(host, runner, desired).value, desired)
  {
    FinishedIsComplete(host, RawRender(host, runner, desired).value, desired);
    hide Finish, IsComplete, RawRender;
  }

  lemma RestoredIsComplete(host: Host, node: Node, desired: DesiredSlice)
    requires IsHost(host, {}) && Named(desired.components) && node.rendered.Some?
    requires Finish(host, Copied(node.rendered.value), desired).Some?
    ensures IsComplete(host, Finish(host, Copied(node.rendered.value), desired).value, desired)
  {
    FinishedIsComplete(host, Copied(node.rendered.value), desired);
    hide Finish, IsComplete, Copied;
  }

  /** The new render is stored as the youngest, and what is too old is evicted. */
  ghost predicate Renews(before: map<Name, Node>, key: Name, raw: Option<Tree>, now: nat,
                         maxEntries: nat, after: map<Name, Node>, clock: nat)
  {
    raw.Some? && Hashable(Copied(raw.value)) && clock == now + 1 &&
    Evicts(before[key := NewNode(raw.value, now)], maxEntries, after)
  }

  lemma InstallsAnew(before: map<Name, Node>, emptied: map<Name, Node>, key: Name,
                     raw: Option<Tree>, now: nat)
    requires raw.Some? && IsGone(before, emptied, key)
    ensures Hashable(Copied(raw.value)) ==>
              Installed(emptied, key, raw.value, now) == before[key := NewNode(raw.value, now)]
  {
    if Hashable(Copied(raw.value)) {
      var x, y := emptied[key := NewNode(raw.value, now)], before[key := NewNode(raw.value, now)];
      assert x - {key} == emptied - {key} && y - {key} == before - {key};
      forall name
        ensures Get(x, name) == Get(y, name)
      {
        assert name != key ==> Get(x - {key}, name) == Get(y - {key}, name);
      }
      assert forall name :: name in x <==> Get(x, name).Some?;
      assert x == y;
    }
    hide Hashable, Copied, NewNode;
  }

  /** Store a raw render under its key. */
  method StoreRaw(cache: RenderCache, host: Host, ghost recipes: set<Digest>,
                  ghost runner: PreparedRunner, ghost desired: DesiredSlice, key: Name, raw: Tree,
                  io: Io)
    requires IsHost(host, recipes) && IsRenderer(host) && Sound(host, recipes, cache.disk)
    requires IsKnown(host, recipes, runner, desired) && key == KeyOf(host, runner, desired)
    requires RawRender(host, runner, desired) == Some(raw)
    modifies cache
    ensures Sound(host, recipes, cache.disk)
    ensures io.Works? && NothingSpecial(raw) ==>
              Hashable(Copied(raw)) && cache.clock == old(cache.clock) + 1 &&
              Evicts(Installed(old(cache.disk), key, raw, old(cache.clock)), cache.maxEntries,
                     cache.disk)
  {
    hide WellFormed, NothingSpecial, Copied, RecipePreimage, Unforged, Leaves, Shrinks, Evicts,
         Installed, Excess;
    ghost var before, now := cache.disk, cache.clock;
    var stored := cache.Store(key, raw, io);
    if NothingSpecial(raw) {
      StoringIsSound(host, recipes, before, runner, desired, raw, now, cache.disk);
    } else {
      ShrinkingIsSound(host, recipes, before, cache.disk);
    }
  }

  /* ---------------------------------------------------------------- Histories */

  datatype CacheEvent =
    | Rendering(runner: PreparedRunner, desired: DesiredSlice, faults: Faults)
    | Corrupted(name: Name, node: Node)
    | Lost(name: Name)

  /** A corruption may be anything but a forged digest. */
  ghost predicate Admissible(host: Host, recipes: set<Digest>, event: CacheEvent) {
    match event
    case Rendering(runner, desired, _) =>
      IsKnown(host, recipes, runner, desired)
    case Corrupted(name, node) =>
      Unforged(host, recipes, name, node) &&
      (node.rendered.Some? ==> WellFormed(node.rendered.value))
    case Lost(_) => true
  }

  /** What a render returned, against a fresh render of the same slice by the same runner. */
  ghost predicate Refines(host: Host, event: CacheEvent, r: Option<Rendered>) {
    event.Rendering? ==>
      var anew := FreshRender(host, event.runner, event.desired);
      (r.Some? || !event.faults.reset) ==> Alike(r, anew)
  }

  /**
   * Cached rendering refines uncached rendering: in every history of renders on one cache, with
   * stores, hits, evictions, failures of any of the cache's input and output, lost and corrupted
   * entries, every render that returns gives what a fresh render gives, and every render returns
   * whose output directory can be reset.
   */
  method History(cache: RenderCache, host: Host, ghost recipes: set<Digest>, events: seq<CacheEvent>)
    returns (results: seq<Option<Rendered>>)
    requires IsHost(host, recipes) && IsRenderer(host) && Sound(host, recipes, cache.disk)
    requires forall event | event in events :: Admissible(host, recipes, event)
    modifies cache
    ensures |results| == |events|
    ensures forall i | 0 <= i < |events| :: Refines(host, events[i], results[i])
    ensures Sound(host, recipes, cache.disk)
  {
    hide WellFormed, Unforged, IsKnown, Alike, FreshRender, IsHost, IsRenderer;
    results := [];
    for i := 0 to |events|
      invariant |results| == i && Sound(host, recipes, cache.disk)
      invariant forall k | 0 <= k < i :: Refines(host, events[k], results[k])
    {
      assert events[i] in events;
      match events[i] {
        case Rendering(runner, desired, faults) =>
          var r, hit := Render(cache, host, recipes, runner, desired, faults);
          results := results + [r];
        case Corrupted(name, node) =>
          cache.disk := cache.disk[name := node];
          results := results + [None];
        case Lost(name) =>
          cache.disk := cache.disk - {name};
          results := results + [None];
      }
    }
  }

  /** Renders that are alike make the same Git tree. */
  lemma AlikeIsOneGitTree(r: Option<Rendered>, anew: Option<Rendered>)
    requires Alike(r, anew) && r.Some?
    ensures GitTreeOf(r.value.tree) == GitTreeOf(anew.value.tree)
  {
    CopiesStageAlike(r.value.tree);
    CopiesStageAlike(anew.value.tree);
  }

  /**
   * A hit and a miss have one tree digest exactly when the fresh render's directories have the
   * modes that copying gives them.
   */
  lemma HitsKeepTheDigest(host: Host, runner: PreparedRunner,
                          desired: DesiredSlice, hit: Rendered)
    requires FreshRender(host, runner, desired).Some?
    requires var anew := FreshRender(host, runner, desired).value;
             Hashable(anew.tree) && hit.tree == Copied(anew.tree)
    ensures Hashable(hit.tree)
    ensures var anew := FreshRender(host, runner, desired).value;
            DigestOf(hit.tree) == DigestOf(anew.tree) <==> DefaultModes(anew.tree)
  {
    CopyKeepsDigest(FreshRender(host, runner, desired).value.tree);
    hide FreshRender;
  }

  /** Decoding makes names distinct and plain, as the recipe needs them. */
  lemma DecodedNamesAreDistinct(slice: TargetSlice, desired: DesiredSlice)
    requires Decodes(slice, Result.Ok(desired))
    ensures Named(desired.components)
  {
    var pins := Pins(slice.components);
    assert Distinct(pins, PinName) by {
      forall i, j | 0 <= i < j < |pins|
        ensures PinName(pins[i]) != PinName(pins[j])
      {
        assert NameOf(slice.components[i]) != NameOf(slice.components[j]);
      }
    }
    DistinctIsOrderFree(pins, desired.components, PinName);
    forall i, j | 0 <= i < j < |desired.components|
      ensures desired.components[i].name != desired.components[j].name
    {
      assert PinName(desired.components[i]) != PinName(desired.components[j]);
    }
    forall pin | pin in desired.components
      ensures IsAscii(pin.name)
    {
      assert pin in multiset(pins);
      var i :| 0 <= i < |pins| && pins[i] == pin;
      assert slice.components[i] in Contributors(slice);
      assert IsDnsLabel(pin.name);
    }
    hide IsValid;
  }

  function PinName(pin: ComponentPin): string {
    pin.name
  }
}
