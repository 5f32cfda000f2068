/**
 * The ordered store `CustomTreeMap<V>`: a map from string keys (wrapped as `NatString`)
 * to values, iterated in natural key order. Inserting an existing key overwrites its value;
 * reading an absent key yields nothing.
 */
module OrderedStore {
  import opened Wrappers
  import opened NaturalOrder

  predicate StrictlyIncreasing(ks: seq<string>) {
    forall i, j :: 0 <= i < j < |ks| ==> NatLess(ks[i], ks[j])
  }

  predicate IsLeast(m: string, s: set<string>) {
    m in s && forall k :: k in s && k != m ==> NatLess(m, k)
  }

  /** Every non-empty finite set of keys has a least element in natural order. */
  lemma {:induction false} LeastExists(s: set<string>)
    requires s != {}
    ensures exists m :: IsLeast(m, s)
    decreases |s|
  {
    var x :| x in s;
    if s == {x} {
      assert IsLeast(x, s);
    } else {
      LeastExists(s - {x});
      var m :| IsLeast(m, s - {x});
      NatLessTotal(x, m);
      if NatLess(x, m) {
        forall k | k in s && k != x
          ensures NatLess(x, k)
        {
          if k != m {
            NatLessTransitive(x, m, k);
          }
        }
        assert IsLeast(x, s);
      } else {
        assert IsLeast(m, s);
      }
    }
  }

  /** The keys of a store in iteration order: each key once, in increasing natural order. */
  ghost function InOrder(s: set<string>): (ks: seq<string>)
    ensures |ks| == |s|
    ensures forall k :: k in ks <==> k in s
    ensures StrictlyIncreasing(ks)
    decreases |s|
  {
    if s == {} then []
    else
      LeastExists(s);
      var m :| IsLeast(m, s);
      var rest := InOrder(s - {m});
      LeastThenRest(m, s, rest);
      [m] + rest
  }

  /** The least key followed by an ordered listing of the others is an ordered listing of all. */
  lemma LeastThenRest(m: string, s: set<string>, rest: seq<string>)
    requires IsLeast(m, s)
    requires |rest| == |s - {m}|
    requires forall k :: k in rest <==> k in s - {m}
    requires StrictlyIncreasing(rest)
    ensures |[m] + rest| == |s|
    ensures forall k :: k in [m] + rest <==> k in s
    ensures StrictlyIncreasing([m] + rest)
  {
    var ks := [m] + rest;
    forall i, j | 0 <= i < j < |ks|
      ensures NatLess(ks[i], ks[j])
    {
      assert ks[j] == rest[j - 1] && rest[j - 1] in rest;
      if i > 0 {
        assert ks[i] == rest[i - 1];
      } else {
        assert ks[i] == m;
      }
    }
  }

  /** A strictly increasing listing of a set is unique: it is the iteration order. */
  lemma {:induction false} InOrderIsUnique(s: set<string>, ks: seq<string>)
    requires StrictlyIncreasing(ks)
    requires forall k :: k in ks <==> k in s
    ensures ks == InOrder(s)
    decreases |s|
  {
    var os := InOrder(s);
    if ks == [] {
      assert s == {};
    } else {
      assert ks[0] in s;
      HeadIsLeast(ks, s);
      HeadIsLeast(os, s);
      LeastIsUnique(ks[0], os[0], s);
      assert s - {ks[0]} == s - {os[0]};
      TailListsRest(ks, s);
      InOrderIsUnique(s - {ks[0]}, ks[1..]);
      assert ks == [ks[0]] + ks[1..];
    }
  }

  /** Dropping the head of an ordered listing of `s` lists the rest of `s`, still in order. */
  lemma TailListsRest(ks: seq<string>, s: set<string>)
    requires ks != [] && StrictlyIncreasing(ks)
    requires forall k :: k in ks <==> k in s
    ensures StrictlyIncreasing(ks[1..])
    ensures forall k :: k in ks[1..] <==> k in s - {ks[0]}
  {
    forall k
      ensures k in ks[1..] <==> k in s - {ks[0]}
    {
      if k in ks[1..] {
        var i :| 1 <= i < |ks| && ks[i] == k;
        NatLessTotal(k, k);
      }
      if k in s - {ks[0]} {
        assert k in ks;
      }
    }
    forall i, j | 0 <= i < j < |ks| - 1
      ensures NatLess(ks[1..][i], ks[1..][j])
    {
      assert ks[1..][i] == ks[i + 1] && ks[1..][j] == ks[j + 1];
    }
  }

  lemma HeadIsLeast(ks: seq<string>, s: set<string>)
    requires ks != [] && StrictlyIncreasing(ks)
    requires forall k :: k in ks <==> k in s
    ensures IsLeast(ks[0], s)
  {
    forall k | k in s && k != ks[0]
      ensures NatLess(ks[0], k)
    {
      var i :| 0 <= i < |ks| && ks[i] == k;
    }
  }

  lemma LeastIsUnique(a: string, b: string, s: set<string>)
    requires IsLeast(a, s) && IsLeast(b, s)
    ensures a == b
  {
    NatLessTotal(a, b);
  }

  /** Keys listed pairwise in increasing order, neighbour by neighbour, are strictly increasing. */
  lemma {:induction false} ChainIsStrictlyIncreasing(ks: seq<string>)
    requires forall i :: 0 <= i < |ks| - 1 ==> NatLess(ks[i], ks[i + 1])
    ensures StrictlyIncreasing(ks)
    decreases |ks|
  {
    if |ks| > 1 {
      ChainIsStrictlyIncreasing(ks[1..]);
      forall j | 1 <= j < |ks|
        ensures NatLess(ks[0], ks[j])
      {
        if j > 1 {
          assert NatLess(ks[1], ks[j]) by { assert ks[1..][0] == ks[1] && ks[1..][j - 1] == ks[j]; }
          NatLessTransitive(ks[0], ks[1], ks[j]);
        }
      }
      forall i, j | 0 <= i < j < |ks|
        ensures NatLess(ks[i], ks[j])
      {
        if i > 0 {
          assert ks[1..][i - 1] == ks[i] && ks[1..][j - 1] == ks[j];
        }
      }
    }
  }

  class CustomTreeMap<V> {
    var entries: map<string, V>

    /** `CustomTreeMap::new`: an empty store. */
    constructor ()
      ensures entries == map[]
      ensures forall k :: Get(k) == None
    {
      entries := map[];
    }

    /** The keys in iteration order (`keys()`, `iter()`, `values_mut()` all walk this order). */
    ghost function Keys(): (ks: seq<string>)
      reads this
      ensures StrictlyIncreasing(ks)
      ensures forall k :: k in ks <==> k in entries
    {
      InOrder(entries.Keys)
    }

    /** `get`: the value stored under `key`, or nothing when the key is absent. */
    function Get(key: string): (r: Option<V>)
      reads this
      ensures r.Some? <==> key in entries
      ensures r.Some? ==> r.value == entries[key]
    {
      if key in entries then Some(entries[key]) else None
    }

    /** `insert`: stores `value` under `key`, overwriting any previous value, and touches no other key. */
    method Insert(key: string, value: V)
      modifies this
      ensures entries == old(entries)[key := value]
      ensures Get(key) == Some(value)
      ensures forall k :: k != key ==> Get(k) == old(Get(k))
    {
      entries := entries[key := value];
    }

    /**
     * `get_mut` followed by an assignment through the returned reference: when `key` is
     * present its value becomes `value`; no other key is reachable through it.
     */
    method GetMut(key: string, value: V) returns (found: bool)
      modifies this
      ensures found <==> key in old(entries)
      ensures entries == if found then old(entries)[key := value] else old(entries)
      ensures forall k :: k != key ==> Get(k) == old(Get(k))
    {
      found := key in entries;
      if found {
        entries := entries[key := value];
      }
    }

    /** `remove`: takes `key` out and returns the value it had, if any. */
    method Remove(key: string) returns (previous: Option<V>)
      modifies this
      ensures previous == old(Get(key))
      ensures Get(key) == None
      ensures entries == old(entries) - {key}
      ensures forall k :: k != key ==> Get(k) == old(Get(k))
    {
      previous := Get(key);
      entries := entries - {key};
    }

    /** `len`: the number of distinct keys, which is the length of the iteration. */
    function Len(): (n: nat)
      reads this
      ensures n == |Keys()|
    {
      |entries|
    }

    /** `is_empty`. */
    function IsEmpty(): (r: bool)
      reads this
      ensures r <==> Len() == 0
      ensures r <==> Keys() == []
    {
      entries == map[]
    }
  }

  /**
   * The store scenario the repository tests: five hosts inserted out of order are read back
   * by key, and iteration lists them in natural order.
   */
  method NaturalOrderScenario() returns (one: Option<string>, ten: Option<string>, ghost order: seq<string>)
    ensures one == Some("one") && ten == Some("three10")
    ensures order == ["host1", "host2", "host4", "host10", "host100"]
  {
    var tree := new CustomTreeMap<string>();
    tree.Insert("host1", "one");
    tree.Insert("host2", "two");
    tree.Insert("host10", "three10");
    tree.Insert("host4", "four1");
    tree.Insert("host100", "100");
    one := tree.Get("host1");
    ten := tree.Get("host10");
    order := tree.Keys();
    var expected := ["host1", "host2", "host4", "host10", "host100"];
    HostsInNaturalOrder(expected);
    assert forall k :: k in expected <==> k in tree.entries;
    InOrderIsUnique(tree.entries.Keys, expected);
  }

  /** The host names of the store scenario, neighbour by neighbour, in natural order. */
  lemma HostsInNaturalOrder(ks: seq<string>)
    requires ks == ["host1", "host2", "host4", "host10", "host100"]
    ensures StrictlyIncreasing(ks)
  {
    Host1BeforeHost2(ks[0], ks[1]);
    Host2BeforeHost4(ks[1], ks[2]);
    Host4BeforeHost10(ks[2], ks[3]);
    Host10BeforeHost100(ks[3], ks[4]);
    FiveInChain(ks);
  }

  lemma FiveInChain(ks: seq<string>)
    requires |ks| == 5
    requires NatLess(ks[0], ks[1]) && NatLess(ks[1], ks[2]) && NatLess(ks[2], ks[3]) && NatLess(ks[3], ks[4])
    ensures StrictlyIncreasing(ks)
  {
    assert forall i :: 0 <= i < |ks| - 1 ==> NatLess(ks[i], ks[i + 1]);
    ChainIsStrictlyIncreasing(ks);
  }

  lemma Host1BeforeHost2(a: string, b: string)
    requires a == "host1" && b == "host2"
    ensures NatLess(a, b)
  {
    assert Value("1") == 1 && Value("2") == 2;
    NumericRunsCompareByValue("host", "1", "2", "");
    assert "host" + "1" + "" == a && "host" + "2" + "" == b;
  }

  lemma Host2BeforeHost4(a: string, b: string)
    requires a == "host2" && b == "host4"
    ensures NatLess(a, b)
  {
    assert Value("2") == 2 && Value("4") == 4;
    NumericRunsCompareByValue("host", "2", "4", "");
    assert "host" + "2" + "" == a && "host" + "4" + "" == b;
  }

  lemma Host4BeforeHost10(a: string, b: string)
    requires a == "host4" && b == "host10"
    ensures NatLess(a, b)
  {
    assert Value("4") == 4;
    ValueOf10();
    NumericRunsCompareByValue("host", "4", "10", "");
    assert "host" + "4" + "" == a && "host" + "10" + "" == b;
  }

  lemma Host10BeforeHost100(a: string, b: string)
    requires a == "host10" && b == "host100"
    ensures NatLess(a, b)
  {
    ValueOf10();
    ValueOf100();
    NumericRunsCompareByValue("host", "10", "100", "");
    assert "host" + "10" + "" == a && "host" + "100" + "" == b;
  }

  lemma ValueOf10()
    ensures Value("10") == 10
  {
    assert "10"[..1] == "1";
  }

  lemma ValueOf100()
    ensures Value("100") == 100
  {
    assert "100"[..2] == "10";
    ValueOf10();
  }
}
