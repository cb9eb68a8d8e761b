/** The applet table: a list of feature-guarded pushes, filtered by the
    build's feature set, then checked for strictly ascending names. */
module Registry {
  import opened Wrappers
  import opened Lex
  import opened Applet

  /** The only way construction can fail: the finished table is not
      strictly ascending by name, and the builder panics. */
  datatype BuildError = NamesNotAscending

  /** The table the pushes produce: enabled candidates in source order.
      Defined from the last push backwards, as each push appends. */
  function Filter(c: seq<Candidate>, enabled: set<Feature>): (t: seq<Applet>)
    ensures |t| <= |c|
    ensures forall a :: a in t ==>
      exists i :: 0 <= i < |c| && c[i].applet == a && c[i].feature in enabled
  {
    if |c| == 0 then []
    else
      var rest := Filter(c[..|c| - 1], enabled);
      if c[|c| - 1].feature in enabled then rest + [c[|c| - 1].applet] else rest
  }

  /** Indices of the enabled candidates, ascending, and every enabled index
      among them. */
  function Positions(c: seq<Candidate>, enabled: set<Feature>): (p: seq<nat>)
    ensures forall k :: 0 <= k < |p| ==> p[k] < |c| && c[p[k]].feature in enabled
    ensures forall k, l :: 0 <= k < l < |p| ==> p[k] < p[l]
    ensures forall i :: 0 <= i < |c| && c[i].feature in enabled ==> i in p
  {
    if |c| == 0 then []
    else
      var rest := Positions(c[..|c| - 1], enabled);
      if c[|c| - 1].feature in enabled then rest + [|c| - 1] else rest
  }

  /** The check the builder runs: every window of two adjacent entries has
      strictly ascending names. Tables of fewer than two entries have no
      window and pass. */
  predicate Valid(t: seq<Applet>)
  {
    forall i :: 0 <= i < |t| - 1 ==> Less(t[i].name, t[i + 1].name)
  }

  /** Global strict order: every earlier name sorts before every later one. */
  ghost predicate Ascending(t: seq<Applet>)
  {
    forall i, j :: 0 <= i < j < |t| ==> Less(t[i].name, t[j].name)
  }

  /** No two entries share a name. */
  ghost predicate NamesUnique(t: seq<Applet>)
  {
    forall i, j :: 0 <= i < |t| && 0 <= j < |t| && i != j ==> t[i].name != t[j].name
  }

  /** Table construction: the enabled pushes, accepted as they are or
      rejected by the panic. */
  function Build(c: seq<Candidate>, enabled: set<Feature>): (r: Result<seq<Applet>, BuildError>)
    ensures r.Success? <==> Ascending(Filter(c, enabled))
    ensures r.Success? ==> r.value == Filter(c, enabled) && NamesUnique(r.value)
  {
    var t := Filter(c, enabled);
    ValidIffAscending(t);
    if Valid(t) then
      AscendingNamesUnique(t);
      Success(t)
    else
      Failure(NamesNotAscending)
  }

  /** The filtered table is exactly the candidates at `Positions`: nothing
      reordered, dropped, duplicated or changed. */
  lemma {:induction false} FilterIsPositions(c: seq<Candidate>, enabled: set<Feature>)
    ensures |Filter(c, enabled)| == |Positions(c, enabled)|
    ensures forall k :: 0 <= k < |Filter(c, enabled)| ==>
      Filter(c, enabled)[k] == c[Positions(c, enabled)[k]].applet
  {
    if |c| > 0 {
      var c' := c[..|c| - 1];
      FilterIsPositions(c', enabled);
      forall k | 0 <= k < |Positions(c', enabled)|
        ensures c'[Positions(c', enabled)[k]] == c[Positions(c', enabled)[k]]
      {
      }
    }
  }

  /** A candidate is in the table iff its feature is enabled. */
  lemma FilterMembership(c: seq<Candidate>, enabled: set<Feature>, i: nat)
    requires i < |c|
    ensures c[i].feature in enabled ==> c[i].applet in Filter(c, enabled)
    ensures c[i].feature !in enabled && (forall j :: 0 <= j < |c| && c[j].applet == c[i].applet ==> j == i)
      ==> c[i].applet !in Filter(c, enabled)
  {
  }

  /** With every feature enabled, the table is the whole candidate list. */
  lemma {:induction false} FilterAllEnabled(c: seq<Candidate>, enabled: set<Feature>)
    requires forall i :: 0 <= i < |c| ==> c[i].feature in enabled
    ensures Filter(c, enabled) == Applets(c)
  {
    if |c| > 0 {
      FilterAllEnabled(c[..|c| - 1], enabled);
      assert Applets(c) == Applets(c[..|c| - 1]) + [c[|c| - 1].applet];
    }
  }

  /** With no candidate's feature enabled, the table is empty. */
  lemma {:induction false} FilterNoneEnabled(c: seq<Candidate>, enabled: set<Feature>)
    requires forall i :: 0 <= i < |c| ==> c[i].feature !in enabled
    ensures Filter(c, enabled) == []
  {
    if |c| > 0 {
      FilterNoneEnabled(c[..|c| - 1], enabled);
    }
  }

  /** The adjacent check is equivalent to global strict order. */
  lemma {:induction false} ValidIffAscending(t: seq<Applet>)
    ensures Valid(t) <==> Ascending(t)
  {
    if Valid(t) {
      forall i, j | 0 <= i < j < |t|
        ensures Less(t[i].name, t[j].name)
      {
        AdjacentChain(t, i, j);
      }
    }
  }

  /** Two valid tables joined where the last name of the first sorts before
      the first name of the second make one valid table. */
  lemma ValidConcat(a: seq<Applet>, b: seq<Applet>)
    requires Valid(a) && Valid(b)
    requires |a| > 0 && |b| > 0 ==> Less(a[|a| - 1].name, b[0].name)
    ensures Valid(a + b)
  {
  }

  /** Strictly ascending adjacent pairs chain from `i` up to `j`. */
  lemma {:induction false} AdjacentChain(t: seq<Applet>, i: nat, j: nat)
    requires Valid(t)
    requires i < j < |t|
    ensures Less(t[i].name, t[j].name)
    decreases j - i
  {
    if i + 1 < j {
      AdjacentChain(t, i + 1, j);
      LessTransitive(t[i].name, t[i + 1].name, t[j].name);
    }
  }

  /** Strict order forbids duplicate names. */
  lemma AscendingNamesUnique(t: seq<Applet>)
    requires Ascending(t)
    ensures NamesUnique(t)
  {
    forall i, j | 0 <= i < |t| && 0 <= j < |t| && i != j
      ensures t[i].name != t[j].name
    {
      if i < j {
        LessIrreflexive(t[i].name);
      } else {
        LessIrreflexive(t[j].name);
      }
    }
  }

  /** A feature-filtered subsequence of a strictly ascending candidate list
      is strictly ascending too. */
  lemma {:induction false} FilterKeepsAscending(c: seq<Candidate>, enabled: set<Feature>)
    requires Ascending(Applets(c))
    ensures Ascending(Filter(c, enabled))
  {
    FilterIsPositions(c, enabled);
    var t := Filter(c, enabled);
    var p := Positions(c, enabled);
    forall k, l | 0 <= k < l < |t|
      ensures Less(t[k].name, t[l].name)
    {
      assert Applets(c)[p[k]] == t[k] && Applets(c)[p[l]] == t[l];
    }
  }

  /** If the whole candidate list passes the check, every build
      configuration passes it and yields its filtered table. */
  lemma MasterValidBuildsAll(c: seq<Candidate>, enabled: set<Feature>)
    requires Valid(Applets(c))
    ensures Build(c, enabled) == Success(Filter(c, enabled))
  {
    ValidIffAscending(Applets(c));
    FilterKeepsAscending(c, enabled);
  }

  /** Builds with at most one enabled applet never panic. */
  lemma ShortTableBuilds(c: seq<Candidate>, enabled: set<Feature>)
    requires |Filter(c, enabled)| <= 1
    ensures Build(c, enabled) == Success(Filter(c, enabled))
  {
  }

  /** The check only accepts or rejects: when two adjacent pushed names are
      out of order, construction fails rather than repairing the table. */
  lemma UnsortedPanics(c: seq<Candidate>, enabled: set<Feature>, i: nat)
    requires i + 1 < |Filter(c, enabled)|
    requires !Less(Filter(c, enabled)[i].name, Filter(c, enabled)[i + 1].name)
    ensures Build(c, enabled) == Failure(NamesNotAscending)
  {
  }
}
