# nornir-rs inventory core, modelled in Dafny

This project models the inventory core of nornir-rs, a Rust network-automation framework.
The model covers these parts:

- **Natural-order store.** `CustomTreeMap` is a map from strings to values. Its keys
  are wrapped as `NatString` and iterated in natural order, where embedded numbers compare
  by value ("host2" comes before "host10").
- **Hosts.** Each host has its own connection settings, optional overrides per connection
  type, and a per-type cache of resolved connection parameters. Resolving a type merges the
  host's settings with that type's overrides and stores the result. A type already in the
  cache is returned from it unchanged.
- **Builders.** Hosts, groups and inventories are built by builders, and `Hosts::add_host`
  files a host under its name.
- **Parent groups.** A host's parent-group list is de-duplicated when it is read in. The
  first occurrence of each name is kept.
- **Connection cache.** It holds one shared connection per (hostname, connection type)
  key. It creates connections lazily and closes them one at a time or all together.
- **Inventory transform.** An inventory can carry a transform. The repository defines one,
  in its test fixture: it rewrites obfuscated addresses through a lookup table.
- **`Genja`.** It holds a shared read-only inventory plus a selection of host ids, made
  either by `new` (every host) or by `filter` (the hosts a predicate accepts).

Modules, one per file:

| file | module | content |
|---|---|---|
| `wrappers.dfy` | `Wrappers` | `Option` |
| `json.dfy` | `Json` | JSON values and the member, object and string accessors the transform uses |
| `natural_order.dfy` | `NaturalOrder` | the natural comparison, its order laws, and `NatString` |
| `ordered_store.dfy` | `OrderedStore` | the iteration order of a key set, and the `CustomTreeMap` class |
| `parent_groups.dfy` | `ParentGroups` | the de-duplicating visitor loop and its specification |
| `hosts.dfy` | `Hosts` | `Host` (a class, since resolving mutates its cache), the merge, the builders, `Group`, `AddHost` |
| `connections.dfy` | `Connections` | connection keys and objects, the constructor closure, `ConnectionManager` |
| `obfuscated_ip.dfy` | `ObfuscatedIp` | the fixture's address-rewriting transform |
| `inventory.dfy` | `Inventory` | `Inventory` (constructor, `apply_transform`) and `InventoryBuilder` |
| `inventory_setup.dfy` | `InventorySetup` | the two-host fixture and the transform applied to it |
| `genja.dfy` | `Genja` | `Genja::new`, `filter`, `iter_hosts`, `iter_all_hosts`, `host_count` |

How Rust's behaviour is represented:

- State that Rust changes in place is a Dafny `class`: the store, a host, the connection
  cache, a connection, and the inventory.
- Things Rust builds and passes by value are datatypes and functions: builders, groups,
  options, resolved parameters, JSON values, and `Genja`.
- A key is identified by its string. `NatString` equality is derived in the repository, so
  it is string equality. The model proves that the stand-in comparator's `Equal` coincides
  with it; for the real `natord::compare` that holds only on strings without whitespace (see
  "Left out").

## Model

| member | source | states |
|---|---|---|
| `NaturalOrder.NumericRunsCompareByValue` | nornir-core/src/lib.rs:13-31 | two strings that differ only in one embedded digit run compare by the numeric values of those runs |
| `NaturalOrder.File2BeforeFile10` | nornir-core/src/lib.rs:252-257 | "file2" orders before "file10" |
| `NaturalOrder.Compare` | nornir-core/src/lib.rs:51-55 | the stand-in for `natord::compare` answers Equal exactly for identical strings, so ordering and the derived equality agree |
| `NaturalOrder.CompareReverse` | nornir-core/src/lib.rs:57-61 | swapping the operands reverses the answer (antisymmetry of `Ord`) |
| `NaturalOrder.NatLessTransitive` | nornir-core/src/lib.rs:51-55 | the natural order is transitive |
| `NaturalOrder.NatLessTotal` | nornir-core/src/lib.rs:51-61 | the natural order is irreflexive, and for distinct strings exactly one is less |
| `NaturalOrder.NatStringRoundTrip` | genja-core/src/types.rs:55-75 | converting a wrapped string back to `String` (owned or borrowed) gives the string, and `as_str` shows it unchanged |
| `NaturalOrder.NatString.AsStr` | nornir-core/src/lib.rs:40-42 | `as_str` shows a string that wraps back to the same key |
| `NaturalOrder.NatString.Cmp` | nornir-core/src/lib.rs:51-55 | `cmp` answers Equal exactly for equal keys |
| `NaturalOrder.IntoString` | genja-core/src/types.rs:55-65 | `String::from` (owned or borrowed) gives a string that wraps back to the same key |
| `NaturalOrder.NatStringOrderMatchesEquality` | genja-core/src/types.rs:83-93 | `NatString::cmp` is Equal exactly for equal wrappers and is antisymmetric |
| `OrderedStore.InOrder` | nornir-core/src/lib.rs:63-83 | a store's iteration lists every key once, only its keys, strictly increasing in natural order |
| `OrderedStore.InOrderIsUnique` | genja-core/src/types.rs:114-125 | any strictly increasing listing of the key set is the iteration order, so iteration order is determined by the keys |
| `OrderedStore.CustomTreeMap.constructor` | nornir-core/src/lib.rs:129-131 | a new store is empty, and every lookup misses |
| `OrderedStore.CustomTreeMap.Keys` | nornir-core/src/lib.rs:97-105 | the keys seen through the store are exactly its entries, in strictly increasing natural order |
| `OrderedStore.CustomTreeMap.Get` | nornir-core/src/lib.rs:146-148 | finds a value exactly when the key is stored, and it is the stored value |
| `OrderedStore.CustomTreeMap.Insert` | nornir-core/src/lib.rs:139-144 | after inserting, the key reads back the new value (an existing value is overwritten), and every other key reads as before |
| `OrderedStore.CustomTreeMap.GetMut` | genja-core/src/types.rs:177-179 | a present key reports found and gets the new value; an absent key changes nothing; no other key changes |
| `OrderedStore.CustomTreeMap.Remove` | nornir-core/src/lib.rs:154-156 | returns the value the key had (if any), the key is absent afterwards, and every other key is untouched |
| `OrderedStore.CustomTreeMap.Len` | nornir-core/src/lib.rs:158-160 | the length is the number of distinct keys, which is the length of the iteration |
| `OrderedStore.CustomTreeMap.IsEmpty` | genja-core/src/types.rs:185-191 | empty exactly when the length is 0, i.e. when the iteration is empty |
| `OrderedStore.NaturalOrderScenario` | nornir-core/src/lib.rs:259-269 | five hosts inserted out of order read back "one" for host1 and "three10" for host10, and iterate as host1, host2, host4, host10, host100 |
| `OrderedStore.HostsInNaturalOrder` | genja-core/src/types.rs:237-247 | host1 < host2 < host4 < host10 < host100 in natural order |
| `ParentGroups.VisitSeq` | nornir-core/src/inventory.rs:172-184 | the visitor loop yields the first occurrences of the input, with no repeats and exactly the input's names |
| `ParentGroups.FirstOccurrencesHasNoDuplicates` | nornir-core/src/inventory.rs:178-180 | the kept list has no repeated name |
| `ParentGroups.FirstOccurrencesKeepsElements` | nornir-core/src/inventory.rs:176-181 | a name is kept exactly when it occurs in the input |
| `ParentGroups.FirstOccurrencesKeepOrder` | nornir-core/src/inventory.rs:177-180 | kept names appear in the order of their first occurrence in the input |
| `ParentGroups.Deduplicated` | nornir-core/src/inventory.rs:172-183 | no repeats, same names as the input, first-occurrence order, all three together |
| `ParentGroups.VendorsScenario` | nornir-core/src/inventory.rs:902-921 | [cisco, juniper, cisco, arista, juniper, cisco] becomes [cisco, juniper, arista] |
| `ParentGroups.FirstOccurrenceOrderScenario` | nornir-core/src/inventory.rs:923-941 | [zebra, apple, zebra, banana] becomes [zebra, apple, banana] |
| `Hosts.OverlayNoOverrides` | nornir-core/src/inventory.rs:86-97 | an entry made with `ConnectionOptions::new` overrides nothing |
| `Hosts.Host.constructor` | nornir-core/src/inventory.rs:231-245 | `Host::new` sets the name; every optional field is `None` and the resolved cache is empty |
| `Hosts.Host.ResolveConnectionParams` | nornir-core/src/inventory.rs:250-301 | a cached type returns the cached value and changes nothing; a miss returns the merge of the host's settings (before the call) with that type's overrides and adds exactly that one cache entry; only the cache can change; the returned value is the stored one |
| `Hosts.MergePrecedence` | nornir-core/src/inventory.rs:259-292 | on a miss: hostname is the override's, else the host's hostname, else its name; port, username, password and platform are the override's when it supplies one, else the host's; extras come only from the override |
| `Hosts.StickyCacheScenario` | nornir-core/src/inventory.rs:254-258 | resolving "ssh", changing the hostname, and resolving again returns the first result |
| `Hosts.HostnameFallbackScenario` | nornir-core/src/inventory.rs:259-263 | with no hostname and an all-`None` entry, the resolved hostname is the host's name and the rest are the host's own settings |
| `Hosts.OptionsAccumulate` | nornir-core/src/inventory.rs:374-383 | repeated `connection_options` calls create the map, hold every name ever given, let the last call per name win, and keep earlier entries of other names |
| `Hosts.NewHostBuilder` | nornir-core/src/inventory.rs:319-334 | a new host builder has the name and every other field `None` |
| `Hosts.HostBuilder.WithHostname` | nornir-core/src/inventory.rs:339-342 | sets `hostname` to the given value; every other field is unchanged |
| `Hosts.HostBuilder.WithPort` | nornir-core/src/inventory.rs:344-347 | sets `port` to the given value; every other field is unchanged |
| `Hosts.HostBuilder.WithUsername` | nornir-core/src/inventory.rs:349-352 | sets `username` to the given value; every other field is unchanged |
| `Hosts.HostBuilder.WithPassword` | nornir-core/src/inventory.rs:354-357 | sets `password` to the given value; every other field is unchanged |
| `Hosts.HostBuilder.WithPlatform` | nornir-core/src/inventory.rs:359-362 | sets `platform` to the given value; every other field is unchanged |
| `Hosts.HostBuilder.WithGroups` | nornir-core/src/inventory.rs:364-367 | sets `groups` to the given value; every other field is unchanged |
| `Hosts.HostBuilder.WithData` | nornir-core/src/inventory.rs:369-372 | sets `data` to the given value; every other field is unchanged |
| `Hosts.HostBuilder.WithConnectionOptions` | nornir-core/src/inventory.rs:374-383 | the options map becomes `InsertOptions` of the old one (created if absent, the entry for the name added or replaced); every other field is unchanged |
| `Hosts.HostBuilder.WithDefaults` | nornir-core/src/inventory.rs:385-388 | sets `defaults` to the given value; every other field is unchanged |
| `Hosts.HostBuilder.Build` | nornir-core/src/inventory.rs:390-404 | the built host is new, carries every builder field unchanged, and has an empty resolved cache |
| `Hosts.BuilderScenario` | nornir-core/src/inventory.rs:339-383 | chained setters with "ssh" given twice yield an options map whose "ssh" is the second value and which also holds "netconf"; the built host's cache is empty |
| `Hosts.NewGroup` | nornir-core/src/inventory.rs:426-439 | `Group::new` has every field `None` |
| `Hosts.NewGroupBuilder` | nornir-core/src/inventory.rs:519-533 | `GroupBuilder::new` sets the hostname to its argument and nothing else |
| `Hosts.GroupBuilder.WithHostname` | nornir-core/src/inventory.rs:460-463 | sets `hostname` to the given value; every other field is unchanged |
| `Hosts.GroupBuilder.WithPort` | nornir-core/src/inventory.rs:464-467 | sets `port` to the given value; every other field is unchanged |
| `Hosts.GroupBuilder.WithUsername` | nornir-core/src/inventory.rs:469-472 | sets `username` to the given value; every other field is unchanged |
| `Hosts.GroupBuilder.WithPassword` | nornir-core/src/inventory.rs:474-477 | sets `password` to the given value; every other field is unchanged |
| `Hosts.GroupBuilder.WithPlatform` | nornir-core/src/inventory.rs:478-481 | sets `platform` to the given value; every other field is unchanged |
| `Hosts.GroupBuilder.WithGroups` | nornir-core/src/inventory.rs:482-485 | sets `groups` to the given value; every other field is unchanged |
| `Hosts.GroupBuilder.WithData` | nornir-core/src/inventory.rs:486-489 | sets `data` to the given value; every other field is unchanged |
| `Hosts.GroupBuilder.WithConnectionOptions` | nornir-core/src/inventory.rs:490-499 | the options map becomes `InsertOptions` of the old one (created if absent, the entry for the name added or replaced); every other field is unchanged |
| `Hosts.GroupBuilder.WithDefaults` | nornir-core/src/inventory.rs:500-503 | sets `defaults` to the given value; every other field is unchanged |
| `Hosts.GroupBuilder.Build` | nornir-core/src/inventory.rs:504-516 | the built group carries every builder field unchanged |
| `Hosts.AddHost` | nornir-core/src/inventory.rs:556-559 | the host is stored under its own name, replacing any host of that name, and nothing else in the store changes |
| `Connections.Connection.Close` | nornir-core/src/inventory.rs:625-634 | a closed connection is marked closed |
| `Connections.ConnectionFactory.Invoke` | nornir-core/src/inventory.rs:670-679 | one constructor call builds one new, open connection |
| `Connections.ConnectionManager.constructor` | nornir-core/src/inventory.rs:652-655 | a default manager holds no connections |
| `Connections.ConnectionManager.Get` | nornir-core/src/inventory.rs:658-662 | returns the stored handle exactly when the key is present |
| `Connections.ConnectionManager.Insert` | nornir-core/src/inventory.rs:664-666 | stores the handle under the key, replacing any previous one, and touches no other key |
| `Connections.ConnectionManager.GetOrCreate` | nornir-core/src/inventory.rs:670-684 | a present key returns its stored handle, with no constructor call and no change; an absent key calls the constructor exactly once, stores the new handle under the key alone, and returns that same handle |
| `Connections.ConnectionManager.CloseConnection` | nornir-core/src/inventory.rs:688-694 | removes only the key; its connection is closed unless its lock is poisoned; no other key or connection changes |
| `Connections.ConnectionManager.CloseAllConnections` | nornir-core/src/inventory.rs:697-704 | every stored connection whose lock is not poisoned is closed, the others are left as they were, and the cache ends empty |
| `Connections.LazyCreationScenario` | genja-core/tests/inventory_test.rs:182-218 | two `get_or_create` calls on one key run the constructor once and return the same handle |
| `Connections.ReopenAfterCloseScenario` | nornir-core/src/inventory.rs:670-694 | after closing a key its old connection is closed, another key's connection stays open, and the next `get_or_create` builds a different connection |
| `ObfuscatedIp.Mapping` | nornir-core/tests/common/mod.rs:19-24 | a lookup table exists exactly when the options hold an `obfuscated_ip_map` member that is an object, and it is that object |
| `ObfuscatedIp.HostnameRewrite` | nornir-core/tests/common/mod.rs:27-31 | a hostname changes exactly when the table maps it to a different string, and then becomes that string; a missing hostname stays missing |
| `ObfuscatedIp.DataRewriteTouchesOnlyAddress` | nornir-core/tests/common/mod.rs:33-45 | data stays present or absent, non-object data is kept, an object keeps all keys and every entry but `mgmt_ip`; a mapped string address becomes the mapped value, and anything else is kept |
| `ObfuscatedIp.RewriteIdempotent` | nornir-core/tests/common/mod.rs:26-46 | when no real address is itself a table key, applying the rewrite twice equals applying it once |
| `ObfuscatedIp.RewriteHost` | nornir-core/tests/common/mod.rs:27-45 | the loop body sets the host's hostname and data to their rewritten values and changes nothing else |
| `ObfuscatedIp.Transform` | nornir-core/tests/common/mod.rs:18-47 | every stored host gets its hostname and data rewritten through the table (unchanged when there is no table); the store and all other host settings are preserved |
| `Inventory.Inventory.constructor` | nornir-core/src/inventory.rs:714-723 | `Inventory::new` has no hosts, no optional parts, and a new empty connection cache |
| `Inventory.Inventory.ApplyTransform` | nornir-core/src/inventory.rs:730-735 | without a transform no host changes; with the obfuscated-address transform every host is rewritten with the inventory's own options |
| `Inventory.NewInventoryBuilder` | nornir-core/src/inventory.rs:753-762 | a new inventory builder has nothing set |
| `Inventory.InventoryBuilder.WithHosts` | nornir-core/src/inventory.rs:764-767 | sets `hosts` to the given part; every other part is unchanged |
| `Inventory.InventoryBuilder.WithGroups` | nornir-core/src/inventory.rs:769-772 | sets `groups` to the given part; every other part is unchanged |
| `Inventory.InventoryBuilder.WithDefaults` | nornir-core/src/inventory.rs:774-777 | sets `defaults` to the given part; every other part is unchanged |
| `Inventory.InventoryBuilder.WithTransformFunction` | nornir-core/src/inventory.rs:779-782 | sets `transformFunction` to the given part; every other part is unchanged |
| `Inventory.InventoryBuilder.WithTransformFunctionOptions` | nornir-core/src/inventory.rs:784-787 | sets `transformFunctionOptions` to the given part; every other part is unchanged |
| `Inventory.InventoryBuilder.WithConnections` | nornir-core/src/inventory.rs:789-792 | sets `connections` to the given part; every other part is unchanged |
| `Inventory.InventoryBuilder.Build` | nornir-core/src/inventory.rs:794-805 | the built inventory carries every part given; missing hosts become a new empty store and a missing cache a new empty manager |
| `InventorySetup.InventorySetup` | nornir-core/tests/common/mod.rs:50-71 | the fixture stores router1.lab and switch1.lab under their names, with hostname and `mgmt_ip` "10-0-0-1" and "10-0-0-2", the transform and its table attached, no groups or defaults, and a new empty connection cache |
| `InventorySetup.ObfuscatedIpScenario` | genja-core/tests/inventory_test.rs:148-179 | after `apply_transform`, router1.lab has hostname and `mgmt_ip` "10.0.0.1", and switch1.lab has "10.0.0.2" |
| `Genja.New` | genja-core/src/lib.rs:26-36 | selects every host id exactly once, in natural key order, so the host count is the number of hosts |
| `Genja.KeepMatching` | genja-core/src/lib.rs:40-45 | keeps exactly the ids whose host is stored and accepted, and keeps natural order |
| `Genja.Genja.Filter` | genja-core/src/lib.rs:39-55 | shares the inventory unchanged and selects exactly the accepted hosts' ids, in natural key order |
| `Genja.FilterIsOrderedSelection` | genja-core/src/lib.rs:40-45 | the selection is the iteration order of the accepted key set, and its count is that set's size |
| `Genja.FilterIgnoresSelection` | genja-core/src/lib.rs:40-49 | filtering a filtered selection equals filtering the original, because the whole inventory is re-scanned |
| `Genja.FilterEverythingIsNew` | genja-core/src/lib.rs:26-45 | a filter accepting every host selects what `new` selects |
| `Genja.Genja.IterAllHosts` | genja-core/src/lib.rs:63-65 | yields every stored (id, host) pair once, in strictly increasing key order, whatever the selection |
| `Genja.HostsOfPresentIds` | genja-core/src/lib.rs:57-61 | `iter_hosts` yields the hosts of the selected ids that are stored, in selection order, skipping the rest |
| `Genja.Genja.IterHosts` | genja-core/src/lib.rs:57-61 | yields at most one host per selected id; when every selected id is stored, exactly the host of each id, in selection order |
| `Genja.Genja.HostCount` | genja-core/src/lib.rs:67-69 | the size of the selection, which is the number of hosts `iter_hosts` yields when every selected id is stored |

## Left out

- `natord::compare` is a foreign crate and is not part of this model. The comparator in
  `NaturalOrder` stands in for it. It compares digit runs by value, then by length, and
  other characters by code point. natord's handling of whitespace, of leading zeros and of
  non-ASCII digits is not modelled. The strict total order whose Equal is string equality
  is proved for the stand-in, not for natord. The documented examples (plain letters and
  digits without leading zeros) order the same way under both.
- Keys that natord calls Equal are one key in every Rust store, but distinct keys in the
  model. natord skips whitespace, so "a b" and "ab" compare Equal. A Rust `insert` of one
  overwrites the other, and `get` of one finds the other. The model keys its stores by
  string, so the two stay apart. This rests on the model's assumption that the comparator
  agrees with the derived `Eq` of `NatString`, which natord does not guarantee.
- Iteration order differs from natord for keys with leading zeros. natord puts "x05" before
  "x1"; the stand-in compares runs by value first and puts "x1" first.
- Concurrency is not modelled. That covers the `DashMap` behind the connection cache and
  `Arc`/`Mutex` sharing. In particular, nothing is claimed about racing `get_or_create`
  calls: in Rust each racer may run its constructor, and a loser returns its own handle,
  not the stored one.
- Mutex poisoning is a `poisoned` flag on each connection. A poisoned connection is not
  closed, and its key is removed all the same.
- `open_connection` is `todo!()` in the repository and is not modelled.
- Connections are user-supplied trait objects. Only their closed state is modelled: `open`,
  `is_alive` and the key `close` returns are not.
- `Connections.ConnectionManager.CloseAllConnections` closes each distinct connection object
  once. Rust walks the entries, so an object stored under two keys would be closed twice.
- Serialization is not modelled: serde/schemars derivations, `BaseMethods::schema`,
  `deny_unknown_fields`, and the `ParentGroups` error path that rejects a plain string and
  logs. Only the de-duplication loop of the visitor is modelled.
- JSON blobs have integer numbers only, and their accessors beyond member lookup,
  `as_object` and `as_str` are not modelled.
- `TransformFunction` wraps an arbitrary closure. It is represented by a one-variant
  datatype naming the only transform the repository defines.
- `Inventory.Inventory.ApplyTransform` states no outcome for closures other than the
  fixture's, since those are arbitrary code.
- `ObfuscatedIp.Transform` visits the set of host objects, while Rust walks `values_mut()`
  in key order. Each host is rewritten independently of the others, so the result is the same.
- `OrderedStore.CustomTreeMap.GetMut` models a write through the returned `&mut V` as
  replacing the value. Other in-place edits of the value are not modelled.
- `DerefMut` on `CustomTreeMap` (genja-core) is represented by the public `entries` field.
  `DerefMut` on `NatString` edits a key string in place; that is not modelled.
- The `Hosts` and `Groups` newtype wrappers are the store itself.
- The options map and the resolved cache inside a host are plain maps. Their natural
  iteration order plays no part in resolution.
- Group-to-host and defaults inheritance is not implemented anywhere in the repository.
  Groups and defaults are only carried.
- Ports are a `U16` newtype. `usize` lengths and counts are unbounded.
- `Genja` is generic over the host type, and its filter predicate is a pure function. Its
  members are ghost because iteration order is defined by choice over the key set. The
  genja-core inventory module is not part of this model.
- The Python bindings (`sum_as_string` and the pyo3 modules), `Debug`/`Display` formatting
  and the derive-macro crate are not modelled.
