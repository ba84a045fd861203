/** What the check on sorted neighbours admits: exactly which owned-path lists still hold an ancestor and its
    descendant. */
module OwnedPaths {
  import opened Values
  import opened Coordination

  // ----- the order paths are sorted in -----

  lemma {:induction false} LessTrans(a: string, b: string, c: string)
    requires Less(a, b) && Less(b, c)
    ensures Less(a, c)
    decreases a
  {
    if a != "" && a[0] == b[0] && b[0] == c[0] { LessTrans(a[1..], b[1..], c[1..]); }
  }

  lemma {:induction false} LessIrreflexive(a: string)
    ensures !Less(a, a)
  {
    if a != "" { LessIrreflexive(a[1..]); }
  }

  /** Any two strings compare, so sorted neighbours are the neighbours of one order. */
  lemma {:induction false} LessTotal(a: string, b: string)
    ensures a == b || Less(a, b) || Less(b, a)
    decreases a
  {
    if a != "" && b != "" && a[0] == b[0] {
      LessTotal(a[1..], b[1..]);
      assert a == [a[0]] + a[1..] && b == [b[0]] + b[1..];
    }
  }

  // ----- the parts of a path -----

  function Joined(parts: seq<string>): string
    requires parts != []
  {
    if |parts| == 1 then parts[0] else parts[0] + "/" + Joined(parts[1..])
  }

  /** The parts of a path hold no separator and put together again are the path. */
  lemma {:induction false} SplitJoins(s: string)
    ensures Joined(Split(s)) == s
    ensures forall part :: part in Split(s) ==> '/' !in part
    decreases s
  {
    if s != "" {
      var rest := Split(s[1..]);
      SplitJoins(s[1..]);
      assert s == [s[0]] + s[1..];
      if s[0] == '/' {
        assert ([""] + rest)[1..] == rest;
        assert "" + "/" + s[1..] == s;
      } else {
        var parts := [[s[0]] + rest[0]] + rest[1..];
        assert parts[1..] == rest[1..] && rest[0] in rest;
        assert Joined(parts) == [s[0]] + Joined(rest);
      }
    }
  }

  /** The string is the item followed by at least one more character. */
  predicate Extends(s: string, item: string) { |s| > |item| && s[..|item|] == item }

  lemma ExtendsTail(s: string, item: string)
    requires s != "" && item != "" && s[0] == item[0]
    ensures Extends(s, item) <==> Extends(s[1..], item[1..])
  {
    if |s| > |item| {
      assert s[..|item|] == [s[0]] + s[1..][..|item| - 1];
      assert item == [item[0]] + item[1..];
    }
  }

  lemma {:induction false} ExtendsLess(s: string, item: string)
    requires Extends(s, item)
    ensures Less(item, s)
    decreases item
  {
    if item != "" {
      assert s[..|item|][0] == item[0];
      ExtendsTail(s, item);
      ExtendsLess(s[1..], item[1..]);
    }
  }

  /** What sorts between an item and an extension of it extends it too, and no later in its next character. */
  lemma {:induction false} BetweenExtends(item: string, s: string, t: string)
    requires Less(item, s) && Extends(t, item) && Less(s, t)
    ensures Extends(s, item) && s[|item|] <= t[|item|]
    decreases item
  {
    if item != "" {
      assert t[..|item|][0] == item[0];
      ExtendsTail(t, item);
      BetweenExtends(item[1..], s[1..], t[1..]);
      ExtendsTail(s, item);
    }
  }

  /** Two extensions of one item sort by their next characters where these differ. */
  lemma {:induction false} ExtensionsSort(item: string, s: string, t: string)
    requires Extends(s, item) && Extends(t, item) && s[|item|] < t[|item|]
    ensures Less(s, t)
    decreases item
  {
    if item != "" {
      assert s[..|item|][0] == item[0] && t[..|item|][0] == item[0];
      ExtendsTail(s, item);
      ExtendsTail(t, item);
      ExtensionsSort(item[1..], s[1..], t[1..]);
    }
  }

  lemma BelowExtends(path: Path, item: Path)
    ensures StartsWith(path, item + "/") <==> Extends(path, item) && path[|item|] == '/'
  {
    if |path| > |item| {
      assert path[..|item| + 1] == path[..|item|] + [path[|item|]];
      assert (item + "/")[..|item|] == item;
    }
  }

  // ----- the neighbour check -----

  /** A least path after the given one. */
  lemma {:induction false} LeastAfter(a: Path, paths: set<Path>, b: Path) returns (next: Path)
    requires b in paths && Less(a, b)
    ensures next in paths && Less(a, next) && (next == b || Less(next, b))
    ensures forall c :: c in paths ==> !(Less(a, c) && Less(c, next))
    decreases paths
  {
    next := b;
    if c :| c in paths && Less(a, c) && Less(c, b) {
      LessIrreflexive(b);
      next := LeastAfter(a, paths - {b}, c);
      if next != c { LessTrans(next, c, b); }
      if Less(b, next) { LessTrans(b, next, b); }
    }
  }

  /** Some entry goes on from this one with a character below the separator. */
  predicate Shadowed(a: Path, paths: set<Path>) {
    exists s :: s in paths && Extends(s, a) && s[|a|] < '/'
  }

  predicate HasDescendant(a: Path, paths: set<Path>) {
    exists b :: b in paths && StartsWith(b, a + "/")
  }

  lemma ShadowSorts(a: Path, s: Path, b: Path)
    requires Extends(s, a) && s[|a|] < '/' && StartsWith(b, a + "/")
    ensures Less(a, s) && Less(s, b)
  {
    BelowExtends(b, a);
    ExtendsLess(s, a);
    ExtensionsSort(a, s, b);
  }

  lemma UnshadowedCaught(a: Path, b: Path, paths: set<Path>)
    requires a in paths && b in paths && StartsWith(b, a + "/") && !Shadowed(a, paths)
    ensures !NeighboursOk(paths)
  {
    BelowExtends(b, a);
    ExtendsLess(b, a);
    var next := LeastAfter(a, paths, b);
    if next != b { BetweenExtends(a, next, b); }
    BelowExtends(next, a);
    assert Neighbours(a, next, paths);
  }

  /** The neighbour check lets an ancestor and its descendant through exactly when some entry extends that
      ancestor with a character that sorts below the separator. */
  lemma NeighboursOkIff(paths: set<Path>)
    ensures NeighboursOk(paths) <==> forall a :: a in paths && HasDescendant(a, paths) ==> Shadowed(a, paths)
  {
    forall a | a in paths && HasDescendant(a, paths) && !Shadowed(a, paths) ensures !NeighboursOk(paths) {
      var b :| b in paths && StartsWith(b, a + "/");
      UnshadowedCaught(a, b, paths);
    }
    forall a, b | a in paths && b in paths && Neighbours(a, b, paths) && StartsWith(b, a + "/")
      ensures !Shadowed(a, paths)
    {
      if Shadowed(a, paths) {
        var s :| s in paths && Extends(s, a) && s[|a|] < '/';
        ShadowSorts(a, s, b);
      }
    }
  }

  /** No entry is an ancestor of another. */
  predicate Flat(paths: set<Path>) { forall a :: a in paths ==> !HasDescendant(a, paths) }

  /** So the check is exact for every list in which no entry goes on from another that way. */
  lemma NeighboursExact(paths: set<Path>)
    requires forall a :: a in paths ==> !Shadowed(a, paths)
    ensures NeighboursOk(paths) <==> Flat(paths)
  {
    NeighboursOkIff(paths);
  }

  // ----- a witness -----

  lemma {:induction false} SplitPlain(part: string)
    requires '/' !in part
    ensures Split(part) == [part]
  {
    if part != "" {
      SplitPlain(part[1..]);
      assert [part[0]] + part[1..] == part;
    }
  }

  lemma SplitSteps()
    ensures Split("a") == ["a"] && Split("a-b") == ["a-b"] && Split("a/c") == ["a", "c"]
  {
    SplitPlain("a");
    SplitPlain("a-b");
    SplitPlain("c");
    assert "a/c"[1..] == "/c" && "/c"[1..] == "c";
    assert Split("/c") == [""] + ["c"];
    assert ['a'] + "" == "a" && ["", "c"][1..] == ["c"];
  }

  lemma ThreePaths()
    ensures Elements(["a", "a-b", "a/c"]) == {"a", "a-b", "a/c"}
    ensures Extends("a-b", "a") && StartsWith("a/c", "a" + "/")
    ensures !StartsWith("a", "a/") && !StartsWith("a-b", "a/")
  {
    assert "a-b"[..1] == "a" && "a/c"[..2] == "a/" && "a-b"[1] == '-';
    assert "a-b"[..2][1] == '-';
  }

  lemma ThreeRelative()
    ensures RelativePath("a") && RelativePath("a-b") && RelativePath("a/c")
  {
    SplitSteps();
  }

  lemma ThreeNeighbours()
    ensures NeighboursOk({"a", "a-b", "a/c"})
  {
    ThreePaths();
    var paths := {"a", "a-b", "a/c"};
    assert "a-b" in paths && "a-b"[|"a"|] < '/';
    forall a | a in paths && HasDescendant(a, paths) ensures Shadowed(a, paths) {
      var b :| b in paths && StartsWith(b, a + "/");
      BelowExtends(b, a);
      assert |a| < |b| <= 3 && b[|a|] == '/';
    }
    NeighboursOkIff(paths);
  }

  /** Only sorted neighbours are compared, so a path list with an ancestor and its descendant is admitted when a
      sibling sorts between them. Disjointness between assignments does not depend on it. */
  lemma NestedPathsAdmitted()
    ensures OwnedPathsOk(["a", "a-b", "a/c"]) && Under("a/c", "a")
  {
    ThreePaths();
    ThreeRelative();
    ThreeNeighbours();
    assert "a" + "/" == "a/";
  }
}
