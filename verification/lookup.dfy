/** Exact-name lookup over a table that passed the construction check.
    The resolver of the multi-call binary is not part of this model; this
    module states what the ascending-name invariant guarantees to any
    exact-match lookup over the table. */
module Lookup {
  import opened Wrappers
  import opened Lex
  import opened Applet
  import opened Registry

  /** The first entry whose name equals `name` exactly, if any. */
  function Find(t: seq<Applet>, name: string): (r: Option<Applet>)
    ensures r.Some? ==> r.value in t && r.value.name == name
    ensures r.None? <==> forall i :: 0 <= i < |t| ==> t[i].name != name
    ensures r.Some? ==>
      exists i :: 0 <= i < |t| && t[i] == r.value && (forall j :: 0 <= j < i ==> t[j].name != name)
  {
    if |t| == 0 then None
    else if t[0].name == name then Some(t[0])
    else
      var r := Find(t[1..], name);
      assert forall i :: 1 <= i < |t| ==> t[i] == t[1..][i - 1];
      if r.Some? then
        var i :| 0 <= i < |t| - 1 && t[1..][i] == r.value && (forall j :: 0 <= j < i ==> t[1..][j].name != name);
        assert t[i + 1] == r.value && forall j :: 0 <= j < i + 1 ==> t[j].name != name;
        r
      else
        r
  }

  /** In a table with unique names, looking up an entry's own name returns
      that entry, and no other entry answers to it. */
  lemma FindUnique(t: seq<Applet>, i: nat)
    requires NamesUnique(t)
    requires i < |t|
    ensures Find(t, t[i].name) == Some(t[i])
  {
  }

  /** Binary search over a valid table: O(log n) comparisons with the same
      order the construction check uses. Only an exact match is returned. */
  method BinarySearch(t: seq<Applet>, name: string) returns (r: Option<Applet>)
    requires Valid(t)
    ensures r.Some? ==> r.value in t && r.value.name == name
    ensures r.None? <==> forall i :: 0 <= i < |t| ==> t[i].name != name
    ensures r == Find(t, name)
  {
    ValidIffAscending(t);
    AscendingNamesUnique(t);
    var lo, hi := 0, |t|;
    while lo < hi
      invariant 0 <= lo <= hi <= |t|
      invariant forall k :: 0 <= k < lo ==> Less(t[k].name, name)
      invariant forall k :: hi <= k < |t| ==> Less(name, t[k].name)
      decreases hi - lo
    {
      var mid := lo + (hi - lo) / 2;
      if Less(t[mid].name, name) {
        forall k | 0 <= k <= mid
          ensures Less(t[k].name, name)
        {
          if k < mid {
            LessTransitive(t[k].name, t[mid].name, name);
          }
        }
        lo := mid + 1;
      } else if t[mid].name == name {
        FindUnique(t, mid);
        return Some(t[mid]);
      } else {
        LessTotal(t[mid].name, name);
        forall k | mid <= k < |t|
          ensures Less(name, t[k].name)
        {
          if mid < k {
            LessTransitive(name, t[mid].name, t[k].name);
          }
        }
        hi := mid;
      }
    }
    forall k | 0 <= k < |t|
      ensures t[k].name != name
    {
      LessIrreflexive(name);
    }
    return None;
  }
}
