/**
 * The key under which a render is cached: everything that can affect the renderer's output, and
 * nothing that cannot.
 */
module Recipes {
  import opened Wrappers
  import opened Bytes
  import opened OrdMaps
  import opened Contexts
  import opened Slices
  import opened Lifecycle

  /* ---------------------------------------------------------------- Manifests */

  datatype ManifestComponent = ManifestComponent(
    repository: string, revision: string, digest: string)

  datatype Manifest = Manifest(environment: string, components: map<string, ManifestComponent>)

  function ManifestComponents(pins: seq<ComponentPin>): map<string, ManifestComponent> {
    if pins == [] then map[]
    else
      var pin := pins[|pins| - 1];
      ManifestComponents(pins[..|pins| - 1])[pin.name :=
        ManifestComponent(pin.context.repository, pin.context.revision, pin.context.imageDigest)]
  }

  function ManifestOf(desired: DesiredSlice, environment: string): Manifest {
    Manifest(environment, ManifestComponents(desired.components))
  }

  /** The environment that a slice is rendered as: the one it borrows, or its own. */
  function EffectiveEnvironment(desired: DesiredSlice): string {
    desired.BorrowedEnvironment().GetOrElse(desired.environment)
  }

  ghost predicate DistinctNames(pins: seq<ComponentPin>) {
    forall i, j | 0 <= i < j < |pins| :: pins[i].name != pins[j].name
  }

  /** What validated slices have: distinct names in ASCII. */
  ghost predicate Named(pins: seq<ComponentPin>) {
    DistinctNames(pins) && forall pin | pin in pins :: IsAscii(pin.name)
  }

  function NamesIn(pins: seq<ComponentPin>): set<string> {
    set pin | pin in pins :: pin.name
  }

  /** With distinct names, a manifest has as many components as the slice. */
  lemma {:induction false} ManifestCountsComponents(pins: seq<ComponentPin>)
    requires DistinctNames(pins)
    ensures ManifestComponents(pins).Keys == NamesIn(pins)
    ensures |ManifestComponents(pins)| == |pins|
  {
    if pins != [] {
      var n := |pins| - 1;
      ManifestCountsComponents(pins[..n]);
      var front, whole := ManifestComponents(pins[..n]), ManifestComponents(pins);
      assert pins == pins[..n] + [pins[n]];
      assert pins[n].name !in NamesIn(pins[..n]);
      assert whole.Keys == front.Keys + {pins[n].name};
      assert |whole| == |whole.Keys| && |front| == |front.Keys|;
      assert NamesIn(pins) == NamesIn(pins[..n]) + {pins[n].name};
    }
  }

  /** What a manifest says of a component is what its context pins. */
  lemma {:induction false} ManifestSaysWhatIsPinned(pins: seq<ComponentPin>, pin: ComponentPin)
    requires DistinctNames(pins) && pin in pins
    ensures pin.name in ManifestComponents(pins)
    ensures var entry := ManifestComponents(pins)[pin.name];
            entry.repository == pin.context.repository &&
            entry.revision == pin.context.revision && entry.digest == pin.context.imageDigest
  {
    var n := |pins| - 1;
    if pin != pins[n] {
      var i :| 0 <= i < n && pins[i] == pin;
      assert pins[..n][i] == pin;
      ManifestSaysWhatIsPinned(pins[..n], pin);
    }
  }

  /** A slice is rendered as the environment that all its components borrow, or as its own. */
  lemma RendersAsBorrowed(desired: DesiredSlice, environment: string)
    ensures AllBorrow(desired.components, environment) ==>
              EffectiveEnvironment(desired) == environment
    ensures (forall other :: !AllBorrow(desired.components, other)) ==>
              EffectiveEnvironment(desired) == desired.environment
  {
    BorrowingIsUnanimous(desired, environment);
    if desired.BorrowedEnvironment().Some? {
      BorrowingIsUnanimous(desired, desired.BorrowedEnvironment().value);
    }
    hide AllBorrow;
  }

  /* ---------------------------------------------------------------- The preimage */

  /** Writing a manifest down: different manifests are written differently. */
  type Writer = Manifest -> ByteString

  ghost predicate Faithful(write: Writer) {
    forall m, n :: write(m) == write(n) ==> m == n
  }

  const RECIPE_PREFIX := TextBytes("henosis.dev/k8s-render-action/v1") + [0]
  const RENDER_COMMAND := TextBytes("render") + [0] + TextBytes("GITHUB_ACTIONS=true") + [0]

  predicate IsPlain(text: string) {
    IsAscii(text) && |text| < TWO_64
  }

  /** The slice's texts are plain once validated, and everything is shorter than 64 bits count. */
  predicate IsWritable(write: Writer, desired: DesiredSlice) {
    IsPlain(desired.environment) &&
    |write(ManifestOf(desired, EffectiveEnvironment(desired)))| < TWO_64 &&
    |write(ManifestOf(desired, "dev"))| < TWO_64
  }

  predicate IsRecipe(write: Writer, runner: PreparedRunner, desired: DesiredSlice) {
    IsPlain(runner.platformSha) && IsWritable(write, desired)
  }

  function RunnerCode(runner: PreparedRunner): ByteString
    requires IsPlain(runner.platformSha)
  {
    Framed(TextBytes(runner.platformSha)) + runner.prepareRecipeDigest + runner.entrypointDigest
    + runner.ambientDigest
  }

  function InputsCode(desired: DesiredSlice): ByteString {
    Concat(desired.SpecHashes(), Itself) + Concat(desired.upstreamOutputs, UpstreamCode)
  }

  function RecipePreimage(write: Writer, runner: PreparedRunner, desired: DesiredSlice): ByteString
    requires IsRecipe(write, runner, desired)
  {
    RECIPE_PREFIX + RunnerCode(runner) + Framed(TextBytes(desired.environment))
    + Framed(write(ManifestOf(desired, EffectiveEnvironment(desired))))
    + Framed(write(ManifestOf(desired, "dev"))) + RENDER_COMMAND + InputsCode(desired)
  }

  /** Computing the key by feeding a hasher. */
  method HashRecipe(write: Writer, runner: PreparedRunner, desired: DesiredSlice)
    returns (digest: Digest)
    requires IsRecipe(write, runner, desired)
    ensures digest == Blake3(RecipePreimage(write, runner, desired))
  {
    hide Framed;
    var fed := RECIPE_PREFIX;
    fed := fed + Framed(TextBytes(runner.platformSha));
    fed := fed + runner.prepareRecipeDigest;
    fed := fed + runner.entrypointDigest;
    fed := fed + runner.ambientDigest;
    assert fed == RECIPE_PREFIX + RunnerCode(runner);
    hide RunnerCode;
    fed := fed + Framed(TextBytes(desired.environment));
    fed := fed + Framed(write(ManifestOf(desired, EffectiveEnvironment(desired))));
    fed := fed + Framed(write(ManifestOf(desired, "dev")));
    fed := fed + RENDER_COMMAND;
    ghost var head := fed;
    fed := FeedHashes(fed, desired.components);
    fed := FeedUpstream(fed, desired.upstreamOutputs);
    assert RecipePreimage(write, runner, desired) == head + InputsCode(desired);
    digest := Blake3(fed);
  }

  /* ---------------------------------------------------------------- What it identifies */

  /** The same inputs to the renderer. */
  predicate SameRecipe(r: PreparedRunner, a: DesiredSlice, s: PreparedRunner, b: DesiredSlice) {
    r == s && a.environment == b.environment &&
    ManifestOf(a, EffectiveEnvironment(a)) == ManifestOf(b, EffectiveEnvironment(b)) &&
    a.SpecHashes() == b.SpecHashes() && a.upstreamOutputs == b.upstreamOutputs
  }

  lemma RunnerCodeIsPrefixFree(r: PreparedRunner, u: ByteString, s: PreparedRunner, v: ByteString)
    requires IsPlain(r.platformSha) && IsPlain(s.platformSha)
    requires RunnerCode(r) + u == RunnerCode(s) + v
    ensures r == s && u == v
  {
    hide Framed;
    var x := r.prepareRecipeDigest + (r.entrypointDigest + (r.ambientDigest + u));
    var y := s.prepareRecipeDigest + (s.entrypointDigest + (s.ambientDigest + v));
    assert RunnerCode(r) + u == Framed(TextBytes(r.platformSha)) + x;
    assert RunnerCode(s) + v == Framed(TextBytes(s.platformSha)) + y;
    FramedIsPrefixFree(TextBytes(r.platformSha), x, TextBytes(s.platformSha), y);
    TextBytesIsInjective(r.platformSha, s.platformSha);
    SplitAt(r.prepareRecipeDigest, r.entrypointDigest + (r.ambientDigest + u),
            s.prepareRecipeDigest, s.entrypointDigest + (s.ambientDigest + v));
    SplitAt(r.entrypointDigest, r.ambientDigest + u, s.entrypointDigest, s.ambientDigest + v);
    SplitAt(r.ambientDigest, u, s.ambientDigest, v);
  }

  /** With equally many components the unframed hashes and the outputs can be told apart. */
  lemma InputsCodeIsInjective(a: DesiredSlice, b: DesiredSlice)
    requires InputsCode(a) == InputsCode(b) && |a.components| == |b.components|
    ensures a.SpecHashes() == b.SpecHashes() && a.upstreamOutputs == b.upstreamOutputs
  {
    HashesHaveFixedWidth(a.SpecHashes());
    HashesHaveFixedWidth(b.SpecHashes());
    SplitAt(Concat(a.SpecHashes(), Itself), Concat(a.upstreamOutputs, UpstreamCode),
            Concat(b.SpecHashes(), Itself), Concat(b.upstreamOutputs, UpstreamCode));
    HashesArePrefixFree();
    ConcatIsInjective(a.SpecHashes(), b.SpecHashes(), Itself);
    UpstreamCodeIsPrefixFree();
    ConcatIsInjective(a.upstreamOutputs, b.upstreamOutputs, UpstreamCode);
  }

  /** The parts of a recipe behind the runner. */
  function SliceCode(write: Writer, desired: DesiredSlice): ByteString
    requires IsWritable(write, desired)
  {
    Framed(TextBytes(desired.environment))
    + (Framed(write(ManifestOf(desired, EffectiveEnvironment(desired))))
       + (Framed(write(ManifestOf(desired, "dev"))) + (RENDER_COMMAND + InputsCode(desired))))
  }

  lemma SliceCodeIsInjective(write: Writer, a: DesiredSlice, b: DesiredSlice)
    requires Faithful(write) && IsWritable(write, a) && IsWritable(write, b)
    requires DistinctNames(a.components) && DistinctNames(b.components)
    requires SliceCode(write, a) == SliceCode(write, b)
    ensures a.environment == b.environment &&
            ManifestOf(a, EffectiveEnvironment(a)) == ManifestOf(b, EffectiveEnvironment(b)) &&
            a.SpecHashes() == b.SpecHashes() && a.upstreamOutputs == b.upstreamOutputs
  {
    hide Framed, InputsCode;
    var m, n := write(ManifestOf(a, EffectiveEnvironment(a))),
                write(ManifestOf(b, EffectiveEnvironment(b)));
    var d, e := write(ManifestOf(a, "dev")), write(ManifestOf(b, "dev"));
    var x, y := RENDER_COMMAND + InputsCode(a), RENDER_COMMAND + InputsCode(b);
    FramedIsPrefixFree(TextBytes(a.environment), Framed(m) + (Framed(d) + x),
                       TextBytes(b.environment), Framed(n) + (Framed(e) + y));
    TextBytesIsInjective(a.environment, b.environment);
    FramedIsPrefixFree(m, Framed(d) + x, n, Framed(e) + y);
    FramedIsPrefixFree(d, x, e, y);
    SplitAt(RENDER_COMMAND, InputsCode(a), RENDER_COMMAND, InputsCode(b));
    ManifestCountsComponents(a.components);
    ManifestCountsComponents(b.components);
    InputsCodeIsInjective(a, b);
  }

  /**
   * The recipe's preimage is uniquely decodable: equal keys mean equal renderer inputs. The number
   * of components is not framed, but the manifest fixes it, because names are distinct.
   */
  lemma RecipesAreUniquelyDecodable(write: Writer, r: PreparedRunner, a: DesiredSlice,
                                    s: PreparedRunner, b: DesiredSlice)
    requires Faithful(write) && IsRecipe(write, r, a) && IsRecipe(write, s, b)
    requires DistinctNames(a.components) && DistinctNames(b.components)
    ensures RecipePreimage(write, r, a) == RecipePreimage(write, s, b) <==> SameRecipe(r, a, s, b)
  {
    RecipeIsRunnerThenSlice(write, r, a);
    RecipeIsRunnerThenSlice(write, s, b);
    if RecipePreimage(write, r, a) == RecipePreimage(write, s, b) {
      SplitAt(RECIPE_PREFIX, RunnerCode(r) + SliceCode(write, a),
              RECIPE_PREFIX, RunnerCode(s) + SliceCode(write, b));
      RunnerCodeIsPrefixFree(r, SliceCode(write, a), s, SliceCode(write, b));
      SliceCodeIsInjective(write, a, b);
    }
    hide RECIPE_PREFIX, Framed, RunnerCode;
  }

  /** The two components are pinned to different sources or images. */
  predicate PinnedApart(x: ComponentPin, y: ComponentPin) {
    x.context.repository != y.context.repository || x.context.revision != y.context.revision ||
    x.context.imageDigest != y.context.imageDigest
  }

  /** Slices that pin one name to different sources or images have different manifests and keys. */
  lemma DifferentPinsRenderApart(write: Writer, r: PreparedRunner, a: DesiredSlice,
                                 s: PreparedRunner, b: DesiredSlice, x: ComponentPin,
                                 y: ComponentPin)
    requires Faithful(write) && IsRecipe(write, r, a) && IsRecipe(write, s, b)
    requires DistinctNames(a.components) && DistinctNames(b.components)
    requires x in a.components && y in b.components && x.name == y.name && PinnedApart(x, y)
    ensures forall e, f :: ManifestOf(a, e) != ManifestOf(b, f)
    ensures RecipePreimage(write, r, a) != RecipePreimage(write, s, b)
  {
    ManifestSaysWhatIsPinned(a.components, x);
    ManifestSaysWhatIsPinned(b.components, y);
    RecipesAreUniquelyDecodable(write, r, a, s, b);
    hide RecipePreimage, ManifestComponents;
  }

  lemma RecipeIsRunnerThenSlice(write: Writer, runner: PreparedRunner, desired: DesiredSlice)
    requires IsRecipe(write, runner, desired)
    ensures RecipePreimage(write, runner, desired) ==
            RECIPE_PREFIX + (RunnerCode(runner) + SliceCode(write, desired))
  {
    hide Framed, RunnerCode, InputsCode;
  }

  /** The graph, its generation and the cursor do not enter the recipe. */
  lemma RecipesIgnoreTheGraph(write: Writer, runner: PreparedRunner, a: DesiredSlice,
                              graphId: Uuid, generation: u64, sequence: u64)
    requires IsRecipe(write, runner, a)
    ensures RecipePreimage(write, runner, a) ==
            RecipePreimage(write, runner,
              a.(graphId := graphId, generation := generation, sequence := sequence))
  {
    var b := a.(graphId := graphId, generation := generation, sequence := sequence);
    assert a.SpecHashes() == b.SpecHashes();
    assert a.BorrowedEnvironment() == b.BorrowedEnvironment();
  }

  /* ---------------------------------------------------------------- The ambient environment */

  datatype Variable = Variable(name: Framable, value: Framable)

  function VariableName(v: Variable): ByteString {
    v.name
  }

  function VariableCode(v: Variable): ByteString {
    Framed(v.name) + Framed(v.value)
  }

  const AMBIENT_PREFIX := TextBytes("henosis.dev/k8s-render-environment/v1") + [0]
  const AMBIENT_SUFFIX := TextBytes("GITHUB_ACTIONS=true") + [0]

  function AmbientPreimage(variables: seq<Variable>): ByteString {
    AMBIENT_PREFIX + Concat(variables, VariableCode) + AMBIENT_SUFFIX
  }

  /** These are the process's variables other than `GITHUB_ACTIONS`, in the order of their names. */
  ghost predicate IsAmbient(environment: map<ByteString, ByteString>, variables: seq<Variable>) {
    Sorted(variables, VariableName) &&
    forall v: Variable :: v in variables <==>
      v.name != TextBytes("GITHUB_ACTIONS") && v.name in environment && environment[v.name] == v.value
  }

  /** The process's variables but the fixed one, sorted. */
  method CollectVariables(environment: map<ByteString, ByteString>) returns (variables: seq<Variable>)
    requires forall name | name in environment :: |name| < TWO_64 && |environment[name]| < TWO_64
    ensures IsAmbient(environment, variables)
  {
    variables := [];
    var fixed := TextBytes("GITHUB_ACTIONS");
    var left := environment.Keys;
    while left != {}
      invariant left <= environment.Keys && Sorted(variables, VariableName)
      invariant forall v: Variable :: v in variables <==>
                  v.name != fixed && v.name in environment && v.name !in left &&
                  environment[v.name] == v.value
      decreases |left|
    {
      var name :| name in left;
      left := left - {name};
      if name != fixed {
        var variable := Variable(name, environment[name]);
        InsertVariable(variables, variable);
        variables := InsertUnique(variables, variable, VariableName).value;
      }
    }
  }

  method FeedVariables(before: ByteString, variables: seq<Variable>) returns (fed: ByteString)
    ensures fed == before + Concat(variables, VariableCode)
  {
    fed := before;
    assert Concat(variables[..0], VariableCode) == [];
    hide Framed, Concat;
    for i := 0 to |variables|
      invariant fed == before + Concat(variables[..i], VariableCode)
    {
      ConcatNext(variables, i, VariableCode);
      ghost var head := fed;
      fed := fed + Framed(variables[i].name);
      fed := fed + Framed(variables[i].value);
      assert fed == head + VariableCode(variables[i]);
    }
    assert variables[..|variables|] == variables;
  }

  /** Collecting, sorting and hashing the process's variables. */
  method AmbientDigest(environment: map<ByteString, ByteString>) returns (digest: Digest)
    requires forall name | name in environment :: |name| < TWO_64 && |environment[name]| < TWO_64
    ensures exists variables ::
              IsAmbient(environment, variables) && digest == Blake3(AmbientPreimage(variables))
  {
    var variables := CollectVariables(environment);
    var fed := FeedVariables(AMBIENT_PREFIX, variables);
    fed := fed + AMBIENT_SUFFIX;
    digest := Blake3(fed);
    hide AMBIENT_PREFIX, AMBIENT_SUFFIX, Concat, IsAmbient;
  }

  lemma InsertVariable(variables: seq<Variable>, v: Variable)
    requires Sorted(variables, VariableName)
    requires forall other | other in variables :: other.name != v.name
    ensures var r := InsertUnique(variables, v, VariableName);
            r.Some? && Sorted(r.value, VariableName) &&
            forall other :: other in r.value <==> other == v || other in variables
  {
    InsertUniqueKeepsOrder(variables, v, VariableName);
    forall j | 0 <= j < |variables|
      ensures VariableName(variables[j]) != VariableName(v)
    {
      assert variables[j] in variables;
    }
    var r := InsertUnique(variables, v, VariableName).value;
    forall other
      ensures other in r <==> other == v || other in variables
    {
      assert other in r <==> other in multiset(r);
      assert other in variables <==> other in multiset(variables);
    }
  }

  /** The ambient digest identifies every variable but the one that is set anyway. */
  lemma AmbientDigestIdentifies(x: map<ByteString, ByteString>, a: seq<Variable>,
                                y: map<ByteString, ByteString>, b: seq<Variable>)
    requires IsAmbient(x, a) && IsAmbient(y, b)
    requires forall name | name in x :: |name| < TWO_64 && |x[name]| < TWO_64
    requires forall name | name in y :: |name| < TWO_64 && |y[name]| < TWO_64
    ensures AmbientPreimage(a) == AmbientPreimage(b) <==>
            forall name | name != TextBytes("GITHUB_ACTIONS") :: Get(x, name) == Get(y, name)
  {
    if AmbientPreimage(a) == AmbientPreimage(b) {
      var u, v := Concat(a, VariableCode), Concat(b, VariableCode);
      SplitAt(AMBIENT_PREFIX + u, AMBIENT_SUFFIX, AMBIENT_PREFIX + v, AMBIENT_SUFFIX);
      SplitAt(AMBIENT_PREFIX, u, AMBIENT_PREFIX, v);
      VariableCodeIsPrefixFree();
      ConcatIsInjective(a, b, VariableCode);
      forall name | name != TextBytes("GITHUB_ACTIONS")
        ensures Get(x, name) == Get(y, name)
      {
        if name in x {
          var v := Variable(name, x[name]);
          assert v in a;
        }
        if name in y {
          var v := Variable(name, y[name]);
          assert v in b;
        }
      }
    }
    if forall name | name != TextBytes("GITHUB_ACTIONS") :: Get(x, name) == Get(y, name) {
      forall v: Variable | v in a + b
        ensures v in a && v in b
      {
        assert Get(x, v.name) == Get(y, v.name);
      }
      SortedByElements(a, b, VariableName);
    }
    hide AMBIENT_PREFIX, AMBIENT_SUFFIX, TextBytes, VariableCode, Concat;
  }

  lemma VariableCodeIsPrefixFree()
    ensures PrefixFree(VariableCode)
  {
    forall x: Variable, y: Variable, u, v | VariableCode(x) + u == VariableCode(y) + v
      ensures x == y && u == v
    {
      hide Framed;
      assert VariableCode(x) + u == Framed(x.name) + (Framed(x.value) + u);
      assert VariableCode(y) + v == Framed(y.name) + (Framed(y.value) + v);
      FramedIsPrefixFree(x.name, Framed(x.value) + u, y.name, Framed(y.value) + v);
      FramedIsPrefixFree(x.value, u, y.value, v);
    }
    forall x: Variable
      ensures VariableCode(x) != []
    {
      assert |Framed(x.name)| >= 8;
    }
  }
}
