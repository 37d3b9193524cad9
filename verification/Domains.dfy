/** What is hashed for one purpose is never hashed for another. */
module Domains {
  import opened Bytes
  import opened Slices
  import opened Recipes
  import opened Lifecycle
  import opened TreeDigests
  import opened Trees
  import opened Decoding
  import Identities

  /** Everything that a digest is taken of, by what it identifies. */
  datatype Preimage =
    | OfGraph(slice: DesiredSlice)
    | OfMaterialization(slice: DesiredSlice)
    | OfRecipe(write: Writer, runner: PreparedRunner, slice: DesiredSlice)
    | OfAmbient(variables: seq<Variable>)
    | OfTree(items: seq<Item>)
    | OfPublication(json: Identities.JsonWriter, target: TargetSlice, outputs: seq<Output>)

  ghost predicate Exists(preimage: Preimage) {
    (preimage.OfRecipe? ==> IsRecipe(preimage.write, preimage.runner, preimage.slice)) &&
    (preimage.OfPublication? ==> Identities.AllFit(preimage.json, preimage.outputs))
  }

  ghost function Hashed(preimage: Preimage): ByteString
    requires Exists(preimage)
  {
    match preimage
    case OfGraph(slice) => slice.GraphPreimage()
    case OfMaterialization(slice) => slice.MaterializationPreimage()
    case OfRecipe(write, runner, slice) => RecipePreimage(write, runner, slice)
    case OfAmbient(variables) => AmbientPreimage(variables)
    case OfTree(items) => TreePreimage(items)
    case OfPublication(json, target, outputs) =>
      Identities.IdentityName(json, target, outputs)
  }

  /** What the hashed bytes of each purpose start with. */
  function Domain(preimage: Preimage): ByteString {
    match preimage
    case OfGraph(_) => GRAPH_PREFIX
    case OfMaterialization(_) => MATERIALIZATION_PREFIX
    case OfRecipe(_, _, _) => RECIPE_PREFIX
    case OfAmbient(_) => AMBIENT_PREFIX
    case OfTree(_) => TREE_PREFIX
    case OfPublication(_, _, _) => Identities.IDENTITY_PREFIX
  }

  function Purpose(preimage: Preimage): (purpose: nat)
    ensures purpose < 6
  {
    match preimage
    case OfGraph(_) => 0
    case OfMaterialization(_) => 1
    case OfRecipe(_, _, _) => 2
    case OfAmbient(_) => 3
    case OfTree(_) => 4
    case OfPublication(_, _, _) => 5
  }

  lemma StartsInItsDomain(preimage: Preimage)
    requires Exists(preimage)
    ensures Domain(preimage) <= Hashed(preimage)
  {
    hide Concat, Framed, TextBytes, U64, BigEndian;
  }

  /** Two characters in which all domains differ, at the same places in each. */
  function Mark(purpose: nat): string {
    match purpose
    case 0 => "ge"
    case 1 => "ml"
    case 2 => "ra"
    case 3 => "re"
    case 4 => "rt"
    case _ => "pt"
  }

  lemma DomainsAreMarked(preimage: Preimage)
    ensures var d := Domain(preimage);
            |d| > 23 && [d[16], d[23]] == TextBytes(Mark(Purpose(preimage)))
  {
  }

  lemma MarksDiffer(p: nat, q: nat)
    requires p < 6 && q < 6 && TextBytes(Mark(p)) == TextBytes(Mark(q))
    ensures p == q
  {
    TextBytesIsInjective(Mark(p), Mark(q));
    assert Mark(p)[0] == Mark(q)[0] && Mark(p)[1] == Mark(q)[1];
    hide TextBytes;
  }

  /** Bytes that are hashed for two purposes do not exist. */
  lemma PurposesAreApart(a: Preimage, b: Preimage)
    requires Exists(a) && Exists(b) && Hashed(a) == Hashed(b)
    ensures Purpose(a) == Purpose(b)
  {
    hide *;
    StartsInItsDomain(a);
    StartsInItsDomain(b);
    DomainsAreMarked(a);
    DomainsAreMarked(b);
    var x, y := Domain(a), Domain(b);
    assert x[16] == Hashed(a)[16] == y[16] && x[23] == Hashed(a)[23] == y[23];
    MarksDiffer(Purpose(a), Purpose(b));
  }
}
