/** Copying rendered trees between directories, and staging a render in a Git worktree. */
module Copies {
  import opened Wrappers
  import opened Bytes
  import opened Trees
  import opened TreeDigests

  /** The mode of a directory that is created anew: a directory, rwxr-xr-x. */
  const DEFAULT_MODE: Mode := 0x41ED

  /** Directories are created anew; files keep their bits and bytes. */
  function CopiedEntry(entry: Entry): Entry {
    if entry.Directory? then Directory(DEFAULT_MODE) else entry
  }

  function Copied(tree: Tree): Tree {
    map p | p in tree :: CopiedEntry(tree[p])
  }

  lemma CopiedIsHashable(tree: Tree)
    ensures WellFormed(tree) ==> WellFormed(Copied(tree))
    ensures NothingSpecial(tree) <==> NothingSpecial(Copied(tree))
    ensures Copied(Copied(tree)) == Copied(tree)
  {
    forall p | p in tree
      ensures tree[p].Special? <==> Copied(tree)[p].Special?
    {
      assert p in Copied(tree);
    }
  }

  predicate DefaultModes(tree: Tree) {
    forall p | p in tree :: tree[p].Directory? ==> tree[p].mode == DEFAULT_MODE
  }

  lemma CopyingDefaultModes(tree: Tree)
    ensures Copied(tree) == tree <==> DefaultModes(tree)
  {
    if Copied(tree) == tree {
      forall p | p in tree && tree[p].Directory?
        ensures tree[p].mode == DEFAULT_MODE
      {
        assert Copied(tree)[p] == Directory(DEFAULT_MODE);
      }
    }
  }

  /** A copy has the original's digest exactly when the original's directories have default modes. */
  lemma CopyKeepsDigest(tree: Tree)
    requires Hashable(tree)
    ensures Hashable(Copied(tree))
    ensures DigestOf(Copied(tree)) == DigestOf(tree) <==> DefaultModes(tree)
  {
    CopiedIsHashable(tree);
    CopyingDefaultModes(tree);
    hide WellFormed, NothingSpecial, DefaultModes, Copied;
    DigestsIdentifyTrees(tree, DigestOf(tree), Copied(tree), DigestOf(Copied(tree)));
  }

  /** What has been copied: everything below `dir` whose next name is one of these. */
  ghost predicate CopiedBelow(source: Tree, dir: Path, names: seq<Name>, before: Tree, after: Tree) {
    forall p :: Get(after, p) ==
      if p in source && IsBelow(dir, p) && p[|dir|] in names then Some(CopiedEntry(source[p]))
      else Get(before, p)
  }

  /** Everything below `dir` has been copied, over what was there. */
  ghost predicate Receives(source: Tree, dir: Path, before: Tree, after: Tree) {
    forall p :: Get(after, p) ==
      if p in Below(source, dir) then Some(CopiedEntry(source[p])) else Get(before, p)
  }

  lemma CopiedNext(source: Tree, dir: Path, names: seq<Name>, before: Tree, middle: Tree,
                   name: Name, after: Tree)
    requires CopiedBelow(source, dir, names, before, middle)
    requires dir + [name] in source
    requires Receives(source, dir + [name],
                      middle[dir + [name] := CopiedEntry(source[dir + [name]])], after)
    ensures CopiedBelow(source, dir, names + [name], before, after)
  {
    BelowChild(source, dir, name);
    var path := dir + [name];
    forall p
      ensures Get(after, p) ==
        if p in source && IsBelow(dir, p) && p[|dir|] in names + [name]
        then Some(CopiedEntry(source[p])) else Get(before, p)
    {
      assert p in Below(source, path) ==> p[..|path|] == path && p[|dir|] == name;
      assert IsBelow(dir, path) && path[|dir|] == name;
    }
  }

  /** Copy everything below a directory into a target, in listing order; special files stop it. */
  method CopyTree(source: Tree, dir: Path, target: Tree) returns (ok: bool, copied: Tree)
    requires WellFormed(source)
    ensures ok ==> Receives(source, dir, target, copied)
    ensures ok <==> forall p | p in Below(source, dir) :: !source[p].Special?
    decreases |Below(source, dir)|
  {
    hide WellFormed, CopiedBelow, Enumerates, Receives;
    ok, copied := true, target;
    var names := ReadDir(source, dir);
    NothingCopied(source, dir, target);
    for i := 0 to |names|
      invariant CopiedBelow(source, dir, names[..i], target, copied)
      invariant forall p | p in Below(source, dir) && p[|dir|] in names[..i] :: !source[p].Special?
    {
      var path := dir + [names[i]];
      ListedChild(source, names, dir, i);
      var entry := source[path];
      assert path in Below(source, dir);
      if entry.Special? { return false, copied; }
      ghost var middle := copied;
      copied := copied[path := CopiedEntry(entry)];
      if entry.Directory? {
        FewerBelow(source, dir, names[i]);
        BelowChild(source, dir, names[i]);
        ok, copied := CopyTree(source, path, copied);
        if !ok { return; }
      } else {
        NothingBelowFiles(source, path);
        BelowChild(source, dir, names[i]);
        ReceivesNothing(source, path, copied);
      }
      CopiedNext(source, dir, names[..i], target, middle, names[i], copied);
      assert names[..i + 1] == names[..i] + [names[i]];
    }
    assert names[..|names|] == names;
    AllCopied(source, dir, names, target, copied);
  }

  lemma NothingCopied(source: Tree, dir: Path, target: Tree)
    ensures CopiedBelow(source, dir, [], target, target)
  {
  }

  lemma ReceivesNothing(source: Tree, dir: Path, target: Tree)
    requires Below(source, dir) == {}
    ensures Receives(source, dir, target, target)
  {
  }

  lemma BelowChild(source: Tree, dir: Path, name: Name)
    ensures forall p | p in Below(source, dir + [name]) :: p in Below(source, dir)
    ensures forall p | p in Below(source, dir) && p[|dir|] == name ::
              p == dir + [name] || p in Below(source, dir + [name])
  {
    var path := dir + [name];
    forall p | p in Below(source, path)
      ensures p in Below(source, dir)
    {
      assert p[..|dir|] == path[..|dir|] == dir;
    }
    forall p | p in Below(source, dir) && p[|dir|] == name
      ensures p == path || p in Below(source, path)
    {
      assert p[..|dir| + 1] == path;
    }
  }

  lemma AllCopied(source: Tree, dir: Path, names: seq<Name>, before: Tree, after: Tree)
    requires WellFormed(source) && Enumerates(source, dir, names)
    requires CopiedBelow(source, dir, names, before, after)
    ensures forall p | p in Below(source, dir) :: p[|dir|] in names
    ensures Receives(source, dir, before, after)
  {
    forall p | p in Below(source, dir)
      ensures p[|dir|] in names
    {
      ChildIsListed(source, names, dir, p);
    }
  }

  /* ---------------------------------------------------------------- Staging in a worktree */

  const DOT_GIT: Name := TextBytes(".git")

  /** Git's own directory in a worktree. */
  predicate IsGits(p: Path) {
    p != [] && p[0] == DOT_GIT
  }

  /** Remove everything at the top of a worktree but Git's own directory. */
  method ClearWorktree(worktree: Tree) returns (cleared: Tree)
    ensures cleared == map p | p in worktree && (p == [] || IsGits(p)) :: worktree[p]
  {
    cleared := worktree;
    var names := set p | p in worktree && p != [] :: p[0];
    var left := names;
    while left != {}
      invariant left <= names
      invariant cleared == map p | p in worktree &&
                  (p == [] || p[0] == DOT_GIT || p[0] in left) :: worktree[p]
      decreases |left|
    {
      var name :| name in left;
      left := left - {name};
      if name != DOT_GIT {
        cleared := map p | p in cleared && (p == [] || p[0] != name) :: cleared[p];
      }
    }
  }

  /**
   * Clear the worktree and copy the render into it: outside Git's own directory the worktree is
   * then the render, and nothing of what it held before survives.
   */
  method StageRender(worktree: Tree, rendered: Tree) returns (ok: bool, staged: Tree)
    requires WellFormed(rendered)
    ensures ok <==> NothingSpecial(rendered)
    ensures ok ==> forall p | p != [] && !IsGits(p) ::
              Get(staged, p) == Get(Copied(rendered), p)
  {
    var cleared := ClearWorktree(worktree);
    ok, staged := CopyTree(rendered, [], cleared);
    assert forall p | p in rendered :: p in Below(rendered, []);
    hide DOT_GIT;
  }

  /** What Git records of a tree: its files, their executable bits, and their bytes. */
  function GitTreeOf(tree: Tree): GitTree {
    map p | p in tree && tree[p].File? :: Blob(tree[p].mode / 64 % 2 == 1, tree[p].content)
  }

  /** Git records exactly the files, with their bytes and their owner's executable bit. */
  lemma GitRecordsFiles(tree: Tree, p: Path, high: nat, executable: bool, low: nat, content: ByteString)
    requires low < 64 && 128 * high + (if executable then 64 else 0) + low < 0x1_0000_0000
    ensures GitTreeOf(tree).Keys == set q | q in tree && tree[q].File?
    ensures Get(tree, p) ==
              Some(File(128 * high + (if executable then 64 else 0) + low, content)) ==>
              GitTreeOf(tree)[p] == Blob(executable, content)
  {
    assert (128 * high + (if executable then 64 else 0) + low) / 64 ==
           2 * high + if executable then 1 else 0;
  }

  /** Staging a copy stages the original. */
  lemma CopiesStageAlike(tree: Tree)
    ensures GitTreeOf(Copied(tree)) == GitTreeOf(tree)
  {
  }
}
