/** Rendered directory trees, the Git trees they become, and JSON values. */
module Trees {
  import opened Bytes

  type Name = ByteString

  /** A path below a root directory, one name a level. */
  type Path = seq<Name>

  type Mode = m: nat | m < 0x1_0000_0000

  /** What a path holds; symbolic links and devices are special. */
  datatype Entry =
    | Directory(mode: Mode)
    | File(mode: Mode, content: ByteString)
    | Special

  type Tree = map<Path, Entry>

  /** What Git records of a path: a regular file with its executable bit, or a link. */
  datatype GitObject = Blob(executable: bool, content: ByteString) | Link(target: ByteString)

  type GitTree = map<Path, GitObject>

  const SLASH: byte := 47

  /** A path as it is spelled. */
  function Joined(path: Path): ByteString {
    if path == [] then [] else if |path| == 1 then path[0] else path[0] + [SLASH] + Joined(path[1..])
  }

  const EMPTY_TREE: GitTree := map[]

  datatype Json =
    | JNull
    | JBool(b: bool)
    | JNumber(n: int)
    | JString(s: string)
    | JArray(items: seq<Json>)
    | JObject(fields: map<string, Json>)

  /** One component's complete outputs, as reported. */
  datatype Output = Output(componentSpecHash: Hash32, values: Json)
}
