/** The lifecycle's condition on a draft, and the projection that it stands for. */
module Projections {
  import opened Wrappers
  import opened Bytes
  import opened Trees
  import opened Lifecycle
  import opened TreeDigests
  import Reviews

  /** Names without NUL and slash. */
  predicate NamesOk(p: Path) {
    p != [] && forall name | name in p :: NameOk(name)
  }

  /** Git's paths: non-empty lists of names without NUL and slash. */
  predicate GitPaths(tree: GitTree) {
    forall p | p in tree :: NamesOk(p)
  }

  /** The committed tree, by the paths as they are spelled. */
  ghost predicate Spells(committed: Reviews.Committed, tree: GitTree) {
    (forall p | p in tree :: Joined(p) in committed && committed[Joined(p)] == tree[p]) &&
    forall path | path in committed :: exists p | p in tree :: Joined(p) == path
  }

  lemma {:induction false} SpellingIsAField(p: Path)
    requires NamesOk(p)
    ensures Reviews.IsField(Joined(p))
  {
    assert NameOk(p[0]);
    if |p| > 1 {
      SpellingIsAField(p[1..]);
    }
  }

  lemma SpelledLookup(committed: Reviews.Committed, tree: GitTree, p: Path)
    requires GitPaths(tree) && Spells(committed, tree)
    requires NamesOk(p)
    ensures Get(committed, Joined(p)) == Get(tree, p)
  {
    if Joined(p) in committed {
      var q :| q in tree && Joined(q) == Joined(p);
      JoinedIsInjective(p, q);
    }
    hide NameOk, Joined;
  }

  /** Differences of trees are differences of the spelled trees. */
  lemma SpelledStatus(before: GitTree, after: GitTree, was: Reviews.Committed,
                      now: Reviews.Committed, p: Path)
    requires GitPaths(before) && GitPaths(after) && Spells(was, before) && Spells(now, after)
    requires p in before.Keys + after.Keys
    ensures var status := Reviews.StatusBetween(was, now, Joined(p));
            (status.Some? <==> Get(before, p) != Get(after, p)) &&
            (status.Some? && status.value.Other? <==>
              p in before && p in after && before[p].Blob? != after[p].Blob?)
  {
    SpelledLookup(was, before, p);
    SpelledLookup(now, after, p);
    hide NameOk, Joined, Spells;
  }

  lemma ProjectableWhenSpelled(before: GitTree, after: GitTree, was: Reviews.Committed,
                               now: Reviews.Committed)
    requires GitPaths(before) && GitPaths(after) && Spells(was, before) && Spells(now, after)
    ensures Projectable(before, after) <==> Reviews.Projectable(was, now)
  {
    forall p | p in before.Keys + after.Keys
      ensures var status := Reviews.StatusBetween(was, now, Joined(p));
              (status.Some? <==> Get(before, p) != Get(after, p)) &&
              (status.Some? && status.value.Other? <==>
                p in before && p in after && before[p].Blob? != after[p].Blob?)
    {
      SpelledStatus(before, after, was, now, p);
    }
    forall path | Reviews.StatusBetween(was, now, path).Some?
      ensures exists p | p in before.Keys + after.Keys :: Joined(p) == path
    {
      assert path in was || path in now;
    }
    hide Reviews.StatusBetween, Reviews.ValidUtf8, NameOk, Joined;
    if Projectable(before, after) {
      forall path | Reviews.StatusBetween(was, now, path).Some?
        ensures Reviews.ValidUtf8(path) && !Reviews.StatusBetween(was, now, path).value.Other?
      {
        var p :| p in before.Keys + after.Keys && Joined(p) == path;
      }
    }
  }

  /** What precedes the first slash of a path's spelling is its first name. */
  lemma FirstLevel(p: Path, x: Name)
    requires NamesOk(p) && SLASH !in x
    ensures x + [SLASH] <= Joined(p) <==> |p| > 1 && p[0] == x
  {
    var spelled := Joined(p);
    assert p[0] in p;
    if x + [SLASH] <= spelled {
      assert spelled[|x|] == SLASH && x == spelled[..|x|];
      if |x| >= |p[0]| && |p| > 1 {
        assert spelled[|p[0]|] == SLASH;
      }
    }
  }

  lemma BelowFirst(first: ByteString, own: ByteString, rest: ByteString)
    ensures first + own <= first + rest <==> own <= rest
  {
    assert (first + rest)[|first|..] == rest && (first + own)[|first|..] == own;
    if first + own <= first + rest {
      assert (first + rest)[..|first + own|] == first + own;
      assert rest[..|own|] == (first + rest)[|first|..|first + own|] == own;
    }
  }

  lemma TwoLevels(p: Path, x: Name, y: Name)
    requires NamesOk(p) && NameOk(x) && NameOk(y)
    ensures x + [SLASH] + (y + [SLASH]) <= Joined(p) <==> |p| > 2 && p[0] == x && p[1] == y
    ensures y != [] && SLASH !in y
  {
    FirstLevel(p, x);
    if |p| > 1 && p[0] == x {
      assert Joined(p) == x + [SLASH] + Joined(p[1..]);
      BelowFirst(x + [SLASH], y + [SLASH], Joined(p[1..]));
      FirstLevel(p[1..], y);
    }
    hide Joined;
  }

  lemma ComponentsAreADirectory(first: Name)
    requires first == TextBytes("components")
    ensures NameOk(first) && Reviews.COMPONENTS == first + [SLASH]
  {
  }

  /** A component owns exactly what is in its own directory among the components. */
  lemma OwnersAreTheSecondLevel(p: Path, component: Name)
    requires NamesOk(p) && NameOk(component)
    ensures Reviews.ComponentPath(Joined(p)) == Some(component) <==>
            |p| > 2 && p[0] == TextBytes("components") && p[1] == component
  {
    hide *;
    var first: Name := TextBytes("components");
    ComponentsAreADirectory(first);
    Reviews.OwnersOwnTheirDirectory(Joined(p), component);
    TwoLevels(p, first, component);
    assert first + [SLASH] + component + [SLASH] == first + [SLASH] + (component + [SLASH]);
  }

  /** A file becomes a link, or a link a file. */
  predicate ChangesKind(before: GitTree, after: GitTree, p: Path) {
    p in before && p in after &&
    ((before[p].Blob? && after[p].Link?) || (before[p].Link? && after[p].Blob?))
  }

  /** A difference can be reviewed exactly if its patch and its paths are texts, kinds kept. */
  lemma ReviewsAreOfText(cfg: Config, before: GitTree, after: GitTree)
    ensures Readable(cfg, before, after) <==> Reviews.IsText(cfg.patch(before, after))
    ensures Reviewable(cfg, before, after) <==>
            Reviews.IsText(cfg.patch(before, after)) &&
            forall p | p in before.Keys + after.Keys && Get(before, p) != Get(after, p) ::
              Reviews.IsText(Joined(p)) && !ChangesKind(before, after, p)
  {
    hide Joined, Reviews.ValidUtf8, Reviews.IsText;
    Reviews.Utf8IsCharacters(cfg.patch(before, after));
    forall p: Path
      ensures Reviews.ValidUtf8(Joined(p)) <==> Reviews.IsText(Joined(p))
    {
      Reviews.Utf8IsCharacters(Joined(p));
    }
  }

  /**
   * Projecting a draft. The lifecycle's condition on a pushed draft is exactly that the projection
   * of its difference from the commit it stands on exists.
   */
  method ProjectDraft(draft: Commit, before: Reviews.Committed, after: Reviews.Committed,
                      changes: seq<Reviews.Change>, names: seq<ByteString>)
    returns (r: Result<Reviews.Projection, Reviews.ReviewError>)
    requires draft.parents != [] && GitPaths(draft.parents[0].tree) && GitPaths(draft.tree)
    requires Spells(before, draft.parents[0].tree) && Spells(after, draft.tree)
    requires Reviews.IsDiff(before, after, changes)
    ensures r.Ok? <==> DraftProjects(draft)
    ensures r.Ok? ==> Reviews.Means(before, after, names, r.value)
  {
    forall path | path in before.Keys + after.Keys
      ensures Reviews.IsField(path)
    {
      if path in before {
        var p :| p in draft.parents[0].tree && Joined(p) == path;
        SpellingIsAField(p);
      } else {
        var p :| p in draft.tree && Joined(p) == path;
        SpellingIsAField(p);
      }
    }
    ProjectableWhenSpelled(draft.parents[0].tree, draft.tree, before, after);
    hide Reviews.Projectable, Projectable, Reviews.Means, Spells, GitPaths, Reviews.IsField;
    r := Reviews.ProjectDiff(before, after, changes, names);
  }
}
