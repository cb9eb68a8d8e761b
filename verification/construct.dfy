/** The builder as the source runs it: one conditional push per candidate
    into an empty vector, then the `windows(2).all(..)` assertion. */
module Construct {
  import opened Wrappers
  import opened Lex
  import opened Applet
  import opened Registry

  /** Scans the windows of two adjacent entries, stopping at the first one
      that is not strictly ascending, as `all` does. */
  method AllWindowsAscending(t: seq<Applet>) returns (ok: bool)
    ensures ok <==> Ascending(t)
    ensures !ok ==> exists i :: 0 <= i < |t| - 1 && !Less(t[i].name, t[i + 1].name)
  {
    ValidIffAscending(t);
    var i := 0;
    while i + 1 < |t|
      invariant 0 <= i <= |t|
      invariant forall k :: 0 <= k < i && k + 1 < |t| ==> Less(t[k].name, t[k + 1].name)
    {
      if !Less(t[i].name, t[i + 1].name) {
        return false;
      }
      i := i + 1;
    }
    return true;
  }

  /** Pushes each enabled candidate in source order, then checks the result. */
  method BuildTable(c: seq<Candidate>, enabled: set<Feature>) returns (r: Result<seq<Applet>, BuildError>)
    ensures r.Success? <==> Ascending(Filter(c, enabled))
    ensures r.Success? ==> r.value == Filter(c, enabled)
    ensures r == Build(c, enabled)
  {
    var table: seq<Applet> := [];
    for i := 0 to |c|
      invariant table == Filter(c[..i], enabled)
    {
      assert c[..i + 1][..i] == c[..i];
      if c[i].feature in enabled {
        table := table + [c[i].applet];
      }
    }
    assert c[..|c|] == c;
    var ok := AllWindowsAscending(table);
    if ok {
      r := Success(table);
    } else {
      r := Failure(NamesNotAscending);
    }
  }
}
