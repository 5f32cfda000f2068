/**
 * `ParentGroups`: the list of groups a host or group belongs to. When the list is read in,
 * each name is kept only the first time it occurs, so the stored list has no repeats and
 * keeps the order in which names first appeared.
 */
module ParentGroups {

  predicate NoDuplicates(s: seq<string>) {
    forall i, j :: 0 <= i < j < |s| ==> s[i] != s[j]
  }

  /** The position where `x` first occurs in `s`. */
  function IndexOf(s: seq<string>, x: string): (i: nat)
    requires x in s
    ensures i < |s| && s[i] == x
    ensures forall j :: 0 <= j < i ==> s[j] != x
  {
    if s[0] == x then 0 else 1 + IndexOf(s[1..], x)
  }

  /** The first occurrence of each name in `s`, in the order they occur. */
  function FirstOccurrences(s: seq<string>): seq<string> {
    if s == [] then []
    else
      var kept := FirstOccurrences(s[..|s| - 1]);
      if s[|s| - 1] in kept then kept else kept + [s[|s| - 1]]
  }

  /**
   * The visitor's loop: pull each element of the incoming sequence and append it unless the
   * list built so far already contains it.
   */
  method VisitSeq(values: seq<string>) returns (groups: seq<string>)
    ensures groups == FirstOccurrences(values)
    ensures NoDuplicates(groups)
    ensures forall x :: x in groups <==> x in values
  {
    groups := [];
    var i := 0;
    while i < |values|
      invariant 0 <= i <= |values|
      invariant groups == FirstOccurrences(values[..i])
    {
      assert values[..i + 1][..i] == values[..i];
      if values[i] !in groups {
        groups := groups + [values[i]];
      }
      i := i + 1;
    }
    assert values[..i] == values;
    FirstOccurrencesHasNoDuplicates(values);
    FirstOccurrencesKeepsElements(values);
  }

  lemma {:induction false} FirstOccurrencesHasNoDuplicates(s: seq<string>)
    ensures NoDuplicates(FirstOccurrences(s))
    decreases |s|
  {
    if s != [] {
      FirstOccurrencesHasNoDuplicates(s[..|s| - 1]);
    }
  }

  lemma {:induction false} FirstOccurrencesKeepsElements(s: seq<string>)
    ensures forall x :: x in FirstOccurrences(s) <==> x in s
    decreases |s|
  {
    if s != [] {
      FirstOccurrencesKeepsElements(s[..|s| - 1]);
      assert s == s[..|s| - 1] + [s[|s| - 1]];
    }
  }

  lemma IndexOfExtends(s: seq<string>, t: seq<string>, x: string)
    requires x in s
    ensures x in s + t && IndexOf(s + t, x) == IndexOf(s, x)
  {
    var i := IndexOf(s, x);
    assert (s + t)[i] == x;
  }

  /** Kept names appear in the order of their first occurrence in the input. */
  lemma {:induction false} FirstOccurrencesKeepOrder(s: seq<string>)
    ensures forall i, j :: 0 <= i < j < |FirstOccurrences(s)| ==>
      FirstOccurrences(s)[i] in s && FirstOccurrences(s)[j] in s &&
      IndexOf(s, FirstOccurrences(s)[i]) < IndexOf(s, FirstOccurrences(s)[j])
    decreases |s|
  {
    if s != [] {
      var p := s[..|s| - 1];
      var x := s[|s| - 1];
      var kept := FirstOccurrences(p);
      var g := FirstOccurrences(s);
      FirstOccurrencesKeepOrder(p);
      FirstOccurrencesKeepsElements(p);
      assert s == p + [x];
      forall i, j | 0 <= i < j < |g|
        ensures g[i] in s && g[j] in s && IndexOf(s, g[i]) < IndexOf(s, g[j])
      {
        assert g[i] == kept[i] && kept[i] in p;
        IndexOfExtends(p, [x], g[i]);
        if j < |kept| {
          assert g[j] == kept[j] && kept[j] in p;
          IndexOfExtends(p, [x], g[j]);
        } else {
          assert g[j] == x && x !in p;
          assert s[|p|] == x;
        }
      }
    } else {
      assert FirstOccurrences(s) == [];
    }
  }

  /** The stored list has no repeats, holds exactly the input's names, in first-occurrence order. */
  lemma Deduplicated(values: seq<string>)
    ensures NoDuplicates(FirstOccurrences(values))
    ensures forall x :: x in FirstOccurrences(values) <==> x in values
    ensures forall i, j :: 0 <= i < j < |FirstOccurrences(values)| ==>
      IndexOf(values, FirstOccurrences(values)[i]) < IndexOf(values, FirstOccurrences(values)[j])
  {
    FirstOccurrencesHasNoDuplicates(values);
    FirstOccurrencesKeepsElements(values);
    FirstOccurrencesKeepOrder(values);
  }

  /** Repeated vendor names collapse to their first occurrences. */
  method VendorsScenario() returns (groups: seq<string>)
    ensures groups == ["cisco", "juniper", "arista"]
  {
    var c, j, a := "cisco", "juniper", "arista";
    groups := VisitSeq([c, j, c, a, j, c]);
    RepeatsCollapse(c, j, a);
  }

  /** The first occurrence decides the position, not the alphabet. */
  method FirstOccurrenceOrderScenario() returns (groups: seq<string>)
    ensures groups == ["zebra", "apple", "banana"]
  {
    var z, a, b := "zebra", "apple", "banana";
    assert z[0] != a[0];
    groups := VisitSeq([z, a, z, b]);
    FirstRepeatDropped(z, a, b);
  }

  lemma FirstRepeatDropped(x: string, y: string, z: string)
    requires x != y && y != z && x != z
    ensures FirstOccurrences([x, y, x, z]) == [x, y, z]
  {
    assert [x][..0] == [];
    assert FirstOccurrences([x]) == [x];
    assert [x, y][..1] == [x];
    assert FirstOccurrences([x, y]) == [x, y];
    assert [x, y, x][..2] == [x, y];
    assert FirstOccurrences([x, y, x]) == [x, y];
    assert [x, y, x, z][..3] == [x, y, x];
  }

  lemma RepeatsCollapse(x: string, y: string, z: string)
    requires x != y && y != z && x != z
    ensures FirstOccurrences([x, y, x, z, y, x]) == [x, y, z]
  {
    FirstRepeatDropped(x, y, z);
    assert [x, y, x, z, y][..4] == [x, y, x, z];
    assert FirstOccurrences([x, y, x, z, y]) == [x, y, z];
    assert [x, y, x, z, y, x][..5] == [x, y, x, z, y];
  }
}
