/**
 * `Genja`: a shared, read-only inventory of hosts together with a selection of host ids.
 * A new `Genja` selects every host; `filter` selects, from the whole inventory, the hosts a
 * predicate accepts. Ids are listed in the store's natural key order. The host type is a
 * parameter, and `hosts` is the inventory's host store.
 */
module Genja {
  import opened NaturalOrder
  import opened OrderedStore

  /** The ids in `ids`, in their order, whose host is stored and accepted by `pred`. */
  function KeepMatching<H>(ids: seq<string>, hosts: map<string, H>, pred: H -> bool): (r: seq<string>)
    ensures forall id :: id in r <==> id in ids && id in hosts && pred(hosts[id])
    ensures StrictlyIncreasing(ids) ==> StrictlyIncreasing(r)
  {
    if ids == [] then []
    else
      var rest := KeepMatching(ids[1..], hosts, pred);
      TailIncreasing(ids);
      ConsIncreasing(ids[0], rest);
      if ids[0] in hosts && pred(hosts[ids[0]]) then [ids[0]] + rest else rest
  }

  lemma TailIncreasing(ids: seq<string>)
    requires ids != []
    ensures StrictlyIncreasing(ids) ==> StrictlyIncreasing(ids[1..])
    ensures StrictlyIncreasing(ids) ==> forall x :: x in ids[1..] ==> NatLess(ids[0], x)
  {
    if StrictlyIncreasing(ids) {
      forall i, j | 0 <= i < j < |ids[1..]|
        ensures NatLess(ids[1..][i], ids[1..][j])
      {
        assert ids[1..][i] == ids[i + 1] && ids[1..][j] == ids[j + 1];
      }
    }
  }

  lemma ConsIncreasing(x: string, rest: seq<string>)
    ensures StrictlyIncreasing(rest) && (forall y :: y in rest ==> NatLess(x, y)) ==>
      StrictlyIncreasing([x] + rest)
  {
    if StrictlyIncreasing(rest) && (forall y :: y in rest ==> NatLess(x, y)) {
      forall i, j | 0 <= i < j < |[x] + rest|
        ensures NatLess(([x] + rest)[i], ([x] + rest)[j])
      {
        if i == 0 {
          assert ([x] + rest)[j] == rest[j - 1];
        } else {
          assert ([x] + rest)[i] == rest[i - 1] && ([x] + rest)[j] == rest[j - 1];
        }
      }
    }
  }

  /** The hosts stored under `ids`, in order, skipping ids the store lacks. */
  function HostsOf<H>(ids: seq<string>, hosts: map<string, H>): seq<H> {
    if ids == [] then []
    else if ids[0] in hosts then [hosts[ids[0]]] + HostsOf(ids[1..], hosts)
    else HostsOf(ids[1..], hosts)
  }

  function Everything<H>(h: H): bool {
    true
  }

  datatype Genja<H> = Genja(hosts: map<string, H>, hostIds: seq<string>) {

    /** `filter`: the hosts of the whole inventory that `pred` accepts; the inventory is shared. */
    ghost function Filter(pred: H -> bool): (g: Genja<H>)
      ensures g.hosts == hosts
      ensures forall id :: id in g.hostIds <==> id in hosts && pred(hosts[id])
      ensures StrictlyIncreasing(g.hostIds)
    {
      Genja(hosts, KeepMatching(InOrder(hosts.Keys), hosts, pred))
    }

    /**
     * `iter_hosts`: the selected hosts in selection order. When every selected id is stored
     * (as for a selection made by `new` or `filter`), there is one host per id.
     */
    function IterHosts(): (hs: seq<H>)
      ensures |hs| <= |hostIds|
      ensures (forall id :: id in hostIds ==> id in hosts) ==>
        |hs| == |hostIds| && forall i :: 0 <= i < |hs| ==> hs[i] == hosts[hostIds[i]]
    {
      HostsOfAllPresent(hostIds, hosts);
      HostsOf(hostIds, hosts)
    }

    /** `iter_all_hosts`: every stored (id, host) pair in key order, whatever the selection. */
    ghost function IterAllHosts(): (pairs: seq<(string, H)>)
      ensures |pairs| == |hosts|
      ensures forall i :: 0 <= i < |pairs| ==> pairs[i].0 in hosts && pairs[i].1 == hosts[pairs[i].0]
      ensures forall i, j :: 0 <= i < j < |pairs| ==> NatLess(pairs[i].0, pairs[j].0)
    {
      var ids := InOrder(hosts.Keys);
      seq(|ids|, i requires 0 <= i < |ids| => (ids[i], hosts[ids[i]]))
    }

    /** `host_count`: the size of the selection, which is how many hosts `iter_hosts` yields. */
    function HostCount(): (n: nat)
      ensures n == |hostIds|
      ensures (forall id :: id in hostIds ==> id in hosts) ==> n == |IterHosts()|
    {
      |hostIds|
    }
  }

  /** `Genja::new`: every host id of the store, in natural order. */
  ghost function New<H>(hosts: map<string, H>): (g: Genja<H>)
    ensures g.hosts == hosts
    ensures forall id :: id in g.hostIds <==> id in hosts
    ensures StrictlyIncreasing(g.hostIds)
    ensures g.HostCount() == |hosts|
  {
    Genja(hosts, InOrder(hosts.Keys))
  }

  /** The selection `filter` makes is the accepted ids in iteration order, and nothing else. */
  lemma FilterIsOrderedSelection<H>(g: Genja<H>, pred: H -> bool)
    ensures g.Filter(pred).hostIds == InOrder(set id | id in g.hosts && pred(g.hosts[id]))
    ensures g.Filter(pred).HostCount() == |set id | id in g.hosts && pred(g.hosts[id])|
  {
    var accepted := set id | id in g.hosts && pred(g.hosts[id]);
    InOrderIsUnique(accepted, g.Filter(pred).hostIds);
  }

  /** `filter` scans the inventory, not the current selection, so only the last filter counts. */
  lemma FilterIgnoresSelection<H>(g: Genja<H>, p: H -> bool, q: H -> bool)
    ensures g.Filter(p).Filter(q) == g.Filter(q)
    ensures g.Filter(q).hosts == g.hosts
  {
  }

  /** A filter that accepts every host selects what `new` selects. */
  lemma FilterEverythingIsNew<H>(hosts: map<string, H>, ids: seq<string>)
    ensures Genja(hosts, ids).Filter(Everything) == New(hosts)
  {
    var g := Genja(hosts, ids);
    InOrderIsUnique(hosts.Keys, g.Filter(Everything).hostIds);
  }

  /** `iter_hosts` looks up each selected id in turn, dropping ids the store lacks. */
  lemma {:induction false} HostsOfPresentIds<H>(ids: seq<string>, hosts: map<string, H>)
    ensures var present := KeepMatching(ids, hosts, Everything);
      HostsOf(ids, hosts) == seq(|present|, i requires 0 <= i < |present| => hosts[present[i]])
  {
    if ids != [] {
      HostsOfPresentIds(ids[1..], hosts);
    }
  }

  lemma {:induction false} HostsOfAllPresent<H>(ids: seq<string>, hosts: map<string, H>)
    ensures |HostsOf(ids, hosts)| <= |ids|
    ensures (forall id :: id in ids ==> id in hosts) ==>
      |HostsOf(ids, hosts)| == |ids| && forall i :: 0 <= i < |ids| ==> HostsOf(ids, hosts)[i] == hosts[ids[i]]
  {
    if ids != [] {
      HostsOfAllPresent(ids[1..], hosts);
      assert forall i :: 1 <= i < |ids| ==> ids[1..][i - 1] == ids[i];
    }
  }
}
