/**
 * The one concrete inventory transform in the repository: hosts carry obfuscated
 * addresses ("10-0-0-1"), and a lookup table in the transform options maps each to the
 * real address. The transform rewrites every host's `hostname` and the `mgmt_ip` entry of
 * its data through that table, and touches nothing else.
 */
module ObfuscatedIp {
  import opened Wrappers
  import opened Json
  import opened OrderedStore
  import opened Hosts

  const TableKey := "obfuscated_ip_map"
  const AddressKey := "mgmt_ip"

  /** The lookup table: the options' `obfuscated_ip_map` member, when it is an object. */
  function Mapping(options: Option<Value>): (m: Option<map<string, Value>>)
    ensures m.Some? <==> options.Some? && options.value.Get(TableKey).Some? && options.value.Get(TableKey).value.Object?
    ensures m.Some? ==> m.value == options.value.fields[TableKey].fields
  {
    if options.Some? && options.value.Get(TableKey).Some? then options.value.Get(TableKey).value.AsObject()
    else None
  }

  /** The replacement for `s`: present only when the table maps `s` to a string. */
  function Translate(table: map<string, Value>, s: string): Option<string> {
    if s in table then table[s].AsStr() else None
  }

  /** The hostname after the transform. */
  function NewHostname(table: Option<map<string, Value>>, hostname: Option<string>): Option<string> {
    if table.Some? && hostname.Some? && Translate(table.value, hostname.value).Some?
    then Translate(table.value, hostname.value)
    else hostname
  }

  /** The host data after the transform. */
  function NewData(table: Option<map<string, Value>>, data: Option<Value>): Option<Value> {
    if table.Some? && data.Some? && data.value.Get(AddressKey).Some? && data.value.Get(AddressKey).value.AsStr().Some? then
      var ip := data.value.Get(AddressKey).value.str;
      if Translate(table.value, ip).Some?
      then Some(Object(data.value.fields[AddressKey := String(Translate(table.value, ip).value)]))
      else data
    else data
  }

  /** The `mgmt_ip` entry of host data, when it is a string. */
  function MgmtIp(data: Option<Value>): Option<string> {
    if data.Some? && data.value.Get(AddressKey).Some? then data.value.Get(AddressKey).value.AsStr() else None
  }

  /**
   * A hostname changes exactly when there is a table, the host has a hostname, and the
   * table maps it to a string, which becomes the new hostname.
   */
  lemma HostnameRewrite(table: Option<map<string, Value>>, hostname: Option<string>)
    ensures NewHostname(table, hostname) != hostname <==>
      table.Some? && hostname.Some? && hostname.value in table.value &&
      table.value[hostname.value].String? && table.value[hostname.value].str != hostname.value
    ensures table.Some? && hostname.Some? && hostname.value in table.value && table.value[hostname.value].String? ==>
      NewHostname(table, hostname) == Some(table.value[hostname.value].str)
    ensures hostname.None? ==> NewHostname(table, hostname).None?
  {
  }

  /**
   * Only the address entry can change: data that is not an object, or has no string
   * `mgmt_ip`, is kept, and an object keeps all its keys and every other entry.
   */
  lemma DataRewriteTouchesOnlyAddress(table: Option<map<string, Value>>, data: Option<Value>)
    ensures NewData(table, data).Some? <==> data.Some?
    ensures data.Some? && !data.value.Object? ==> NewData(table, data) == data
    ensures data.Some? && data.value.Object? ==>
      NewData(table, data).value.Object? &&
      NewData(table, data).value.fields.Keys == data.value.fields.Keys &&
      forall k :: k in data.value.fields && k != AddressKey ==>
        NewData(table, data).value.fields[k] == data.value.fields[k]
    ensures MgmtIp(data).Some? && table.Some? && Translate(table.value, MgmtIp(data).value).Some? ==>
      MgmtIp(NewData(table, data)) == Translate(table.value, MgmtIp(data).value)
    ensures MgmtIp(data).None? || table.None? || Translate(table.value, MgmtIp(data).value).None? ==>
      NewData(table, data) == data
  {
  }

  /** No real address is itself an obfuscated one. */
  predicate Settled(table: map<string, Value>) {
    forall k :: k in table && table[k].String? ==> table[k].str !in table
  }

  /** With a settled table the transform is idempotent: a second application changes nothing. */
  lemma RewriteIdempotent(table: map<string, Value>, hostname: Option<string>, data: Option<Value>)
    requires Settled(table)
    ensures NewHostname(Some(table), NewHostname(Some(table), hostname)) == NewHostname(Some(table), hostname)
    ensures NewData(Some(table), NewData(Some(table), data)) == NewData(Some(table), data)
  {
    var d := NewData(Some(table), data);
    if d != data {
      assert d.value.Get(AddressKey).value.str !in table;
    }
  }

  /** One pass of the loop body over one host. */
  method RewriteHost(h: Host, table: map<string, Value>)
    modifies h`hostname, h`data
    ensures h.hostname == NewHostname(Some(table), old(h.hostname))
    ensures h.data == NewData(Some(table), old(h.data))
  {
    if h.hostname.Some? {
      var mapped := Translate(table, h.hostname.value);
      if mapped.Some? {
        h.hostname := mapped;
      }
    }
    if h.data.Some? && h.data.value.Object? {
      var fields := h.data.value.fields;
      if AddressKey in fields {
        var mgmtIp := fields[AddressKey];
        if mgmtIp.String? {
          var mapped := Translate(table, mgmtIp.str);
          if mapped.Some? {
            h.data := Some(Object(fields[AddressKey := String(mapped.value)]));
          }
        }
      }
    }
  }

  /** The hosts' settings the transform never touches. */
  twostate predicate OtherSettingsKept(h: Host)
    reads h
  {
    && h.name == old(h.name) && h.port == old(h.port) && h.username == old(h.username)
    && h.password == old(h.password) && h.platform == old(h.platform) && h.groups == old(h.groups)
    && h.connectionOptions == old(h.connectionOptions) && h.defaults == old(h.defaults)
    && h.resolvedConnectionParams == old(h.resolvedConnectionParams)
  }

  /**
   * The transform: without a lookup table it returns at once; otherwise every stored host
   * has its hostname and address rewritten. The store itself, and every other setting of
   * every host, stays as it was.
   */
  method Transform(hosts: CustomTreeMap<Host>, options: Option<Value>)
    modifies hosts.entries.Values`hostname, hosts.entries.Values`data
    ensures hosts.entries == old(hosts.entries)
    ensures forall h :: h in hosts.entries.Values ==>
      h.hostname == NewHostname(Mapping(options), old(h.hostname)) &&
      h.data == NewData(Mapping(options), old(h.data)) &&
      OtherSettingsKept(h)
  {
    var table := Mapping(options);
    if table.None? {
      return;
    }
    var pending := hosts.entries.Values;
    while pending != {}
      invariant pending <= hosts.entries.Values
      invariant forall h :: h in hosts.entries.Values && h !in pending ==>
        h.hostname == NewHostname(table, old(h.hostname)) && h.data == NewData(table, old(h.data))
      invariant forall h :: h in pending ==> h.hostname == old(h.hostname) && h.data == old(h.data)
      decreases pending
    {
      var h :| h in pending;
      RewriteHost(h, table.value);
      pending := pending - {h};
    }
  }
}
