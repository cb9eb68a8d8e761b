/** Concrete consequences for a few entries of the table: names that are
    prefixes of other names, aliases sharing one implementation, exact
    lookup, and the panics the check raises on a bad candidate list. */
module Examples {
  import opened Wrappers
  import opened Lex
  import opened Applet
  import opened Registry
  import opened Lookup
  import opened Table

  /** Ten pushes of the table, in source order: `[`, `[[`, `bunzip2`,
      `bzcat`, `fsck`, then `fsck.minix`, `ifdown`, `ifup`, `ping`, `ping6`. */
  const ExcerptFront: seq<Candidate> := [Block00[0], Block00[1], Block04[1], Block04[2], Block19[2]]
  const ExcerptBack: seq<Candidate> := [Block19[3], Block26[0], Block26[3], Block46[1], Block46[2]]
  const Excerpt: seq<Candidate> := ExcerptFront + ExcerptBack

  /** The excerpt passes the check, although `[` is a prefix of `[[`,
      `fsck` of `fsck.minix` and `ping` of `ping6`. */
  lemma ExcerptValid()
    ensures Valid(Applets(Excerpt))
  {
    assert Valid(Applets(ExcerptFront)) by {
      PrefixSortsFirst("[", "[[");
    }
    assert Valid(Applets(ExcerptBack)) by {
      PrefixSortsFirst("ping", "ping6");
    }
    PrefixSortsFirst("fsck", "fsck.minix");
    AppletsConcat(ExcerptFront, ExcerptBack);
    ValidConcat(Applets(ExcerptFront), Applets(ExcerptBack));
  }

  /** Every feature selection of the excerpt builds. */
  lemma ExcerptAlwaysBuilds(enabled: set<Feature>)
    ensures Build(Excerpt, enabled) == Success(Filter(Excerpt, enabled))
  {
    ExcerptValid();
    MasterValidBuildsAll(Excerpt, enabled);
  }

  /** `ifdown` and `ifup` share their implementation, as do `bunzip2` and
      `bzcat`, yet each is its own entry: in any build that enables it,
      looking up its name returns that entry and not its alias. */
  lemma AliasesResolveSeparately(enabled: set<Feature>)
    ensures Excerpt[6].applet.main == Excerpt[7].applet.main == "ifupdown"
    ensures Excerpt[6].applet.entrypoint == Excerpt[7].applet.entrypoint
    ensures Excerpt[2].applet.main == Excerpt[3].applet.main == "bunzip2"
    ensures Excerpt[2].applet.entrypoint == Excerpt[3].applet.entrypoint
    ensures "bunzip2" in enabled ==> Find(Filter(Excerpt, enabled), "bunzip2") == Some(Excerpt[2].applet)
    ensures "ifdown" in enabled ==> Find(Filter(Excerpt, enabled), "ifdown") == Some(Excerpt[6].applet)
    ensures "ifup" in enabled ==> Find(Filter(Excerpt, enabled), "ifup") == Some(Excerpt[7].applet)
    ensures "bzcat" in enabled ==> Find(Filter(Excerpt, enabled), "bzcat") == Some(Excerpt[3].applet)
  {
    var t := Filter(Excerpt, enabled);
    ExcerptValid();
    FilterKeepsAscending(Excerpt, enabled) by {
      ValidIffAscending(Applets(Excerpt));
    }
    AscendingNamesUnique(t);
    FilterIsPositions(Excerpt, enabled);
    var p := Positions(Excerpt, enabled);
    if "ifdown" in enabled {
      assert Excerpt[6].feature == "ifdown" && 6 in p;
      var k :| 0 <= k < |p| && p[k] == 6;
      FindUnique(t, k);
    }
    if "ifup" in enabled {
      assert Excerpt[7].feature == "ifup" && 7 in p;
      var k :| 0 <= k < |p| && p[k] == 7;
      FindUnique(t, k);
    }
    if "bunzip2" in enabled {
      assert Excerpt[2].feature == "bunzip2" && 2 in p;
      var k :| 0 <= k < |p| && p[k] == 2;
      FindUnique(t, k);
    }
    if "bzcat" in enabled {
      assert Excerpt[3].feature == "bzcat" && 3 in p;
      var k :| 0 <= k < |p| && p[k] == 3;
      FindUnique(t, k);
    }
  }

  /** Lookup is exact: `[[` never answers to `[`, and a string that only
      extends or truncates a real name finds nothing. */
  lemma LookupIsExact(enabled: set<Feature>)
    ensures Find(Filter(Excerpt, enabled), "[").Some? ==> Find(Filter(Excerpt, enabled), "[").value == Excerpt[0].applet
    ensures Find(Filter(Excerpt, enabled), "fsck.") == None
    ensures Find(Filter(Excerpt, enabled), "ping66") == None
  {
    var t := Filter(Excerpt, enabled);
    forall i | 0 <= i < |t|
      ensures t[i].name != "fsck." && t[i].name != "ping66"
      ensures t[i].name == "[" ==> t[i] == Excerpt[0].applet
    {
      assert t[i] in t;
    }
  }

  /** Pushing `ifup` before `ifdown` makes the check fail. */
  lemma SwappedPushesPanic()
    ensures Build([Excerpt[7], Excerpt[6]], {"ifdown", "ifup"}) == Failure(NamesNotAscending)
  {
    var c := [Excerpt[7], Excerpt[6]];
    assert Filter(c, {"ifdown", "ifup"}) == [Excerpt[7].applet, Excerpt[6].applet] by {
      assert c[..1] == [Excerpt[7]];
      assert c[..1][..0] == [];
    }
    UnsortedPanics(c, {"ifdown", "ifup"}, 0);
  }

  /** Pushing two descriptors with the same name makes the check fail,
      whatever their features, implementations or other fields: for
      instance an alias given a name that is already taken. */
  lemma DuplicatePushPanics(a: Applet, b: Applet, f: Feature, g: Feature)
    requires a.name == b.name
    ensures Build([Candidate(f, a), Candidate(g, b)], {f, g}) == Failure(NamesNotAscending)
  {
    var c := [Candidate(f, a), Candidate(g, b)];
    assert Filter(c, {f, g}) == [a, b] by {
      assert c[..1] == [Candidate(f, a)];
      assert c[..1][..0] == [];
    }
    LessIrreflexive(a.name);
    UnsortedPanics(c, {f, g}, 0);
  }

  /** A build with no feature enabled yields the empty table. */
  lemma NoFeaturesBuildsEmpty()
    ensures Build(Candidates, {}) == Success([])
  {
    FilterNoneEnabled(Candidates, {});
  }
}
