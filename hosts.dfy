/**
 * Hosts, groups and their builders. A host keeps its own connection settings, optional
 * per-connection-type overrides, and a cache of the parameters already resolved for each
 * connection type. Resolving a type the cache lacks merges the host's settings with that
 * type's overrides and stores the result; resolving a cached type returns the stored value
 * even if the host's settings have changed since.
 */
module Hosts {
  import opened Wrappers
  import opened Json
  import opened OrderedStore

  /** Rust's `u16`, the type of a port number. */
  newtype U16 = x: int | 0 <= x < 0x1_0000

  /** Per-connection-type overrides; a `None` field overrides nothing. */
  datatype ConnectionOptions = ConnectionOptions(
    hostname: Option<string>,
    port: Option<U16>,
    username: Option<string>,
    password: Option<string>,
    platform: Option<string>,
    extras: Option<Value>)

  /** `ConnectionOptions::new`. */
  const NoOverrides := ConnectionOptions(None, None, None, None, None, None)

  /** The parameters a connection is opened with; the hostname is always known. */
  datatype ResolvedConnectionParams = ResolvedConnectionParams(
    hostname: string,
    port: Option<U16>,
    username: Option<string>,
    password: Option<string>,
    platform: Option<string>,
    extras: Option<Value>)

  /** Apply the overrides in `o` over `base`, one field at a time. */
  function Overlay(base: ResolvedConnectionParams, o: ConnectionOptions): ResolvedConnectionParams {
    ResolvedConnectionParams(
      if o.hostname.Some? then o.hostname.value else base.hostname,
      if o.port.Some? then o.port else base.port,
      if o.username.Some? then o.username else base.username,
      if o.password.Some? then o.password else base.password,
      if o.platform.Some? then o.platform else base.platform,
      if o.extras.Some? then o.extras else base.extras)
  }

  /** An entry built with `ConnectionOptions::new` resolves to the host's own settings. */
  lemma OverlayNoOverrides(base: ResolvedConnectionParams)
    ensures Overlay(base, NoOverrides) == base
  {
  }

  /** Applying the same overrides twice is applying them once. */
  class Host {
    var name: string
    var hostname: Option<string>
    var port: Option<U16>
    var username: Option<string>
    var password: Option<string>
    var platform: Option<string>
    var groups: Option<seq<string>>
    var data: Option<Value>
    var connectionOptions: Option<map<string, ConnectionOptions>>
    var defaults: Option<Value>
    var resolvedConnectionParams: map<string, ResolvedConnectionParams>

    /** `Host::new`: only the name is set, and nothing has been resolved yet. */
    constructor (name: string)
      ensures this.name == name
      ensures hostname == None && port == None && username == None && password == None
      ensures platform == None && groups == None && data == None
      ensures connectionOptions == None && defaults == None
      ensures resolvedConnectionParams == map[]
    {
      this.name := name;
      hostname := None;
      port := None;
      username := None;
      password := None;
      platform := None;
      groups := None;
      data := None;
      connectionOptions := None;
      defaults := None;
      resolvedConnectionParams := map[];
    }

    /** The overrides stored for `connectionType`, if the host has an options map holding it. */
    function OptionsFor(connectionType: string): Option<ConnectionOptions>
      reads this
    {
      if connectionOptions.Some? && connectionType in connectionOptions.value
      then Some(connectionOptions.value[connectionType])
      else None
    }

    /** The host's own settings, the hostname falling back to the name; no extras. */
    function Base(): ResolvedConnectionParams
      reads this
    {
      ResolvedConnectionParams(hostname.UnwrapOr(name), port, username, password, platform, None)
    }

    /** What a cache miss for `connectionType` computes. */
    function Merged(connectionType: string): ResolvedConnectionParams
      reads this
    {
      match OptionsFor(connectionType)
      case None => Base()
      case Some(o) => Overlay(Base(), o)
    }

    /**
     * `resolve_connection_params`. A cached entry is returned as is and nothing changes;
     * otherwise the merge is computed, stored under `connectionType` alone, and returned.
     */
    method ResolveConnectionParams(connectionType: string) returns (r: ResolvedConnectionParams)
      modifies this`resolvedConnectionParams
      ensures connectionType in old(resolvedConnectionParams) ==>
        r == old(resolvedConnectionParams)[connectionType] &&
        resolvedConnectionParams == old(resolvedConnectionParams)
      ensures connectionType !in old(resolvedConnectionParams) ==>
        r == old(Merged(connectionType)) &&
        resolvedConnectionParams == old(resolvedConnectionParams)[connectionType := r]
      ensures connectionType in resolvedConnectionParams && resolvedConnectionParams[connectionType] == r
    {
      if connectionType !in resolvedConnectionParams {
        var resolved := ResolvedConnectionParams(hostname.UnwrapOr(name), port, username, password, platform, None);
        if connectionOptions.Some? {
          var optionsMap := connectionOptions.value;
          if connectionType in optionsMap {
            var options := optionsMap[connectionType];
            if options.hostname.Some? {
              resolved := resolved.(hostname := options.hostname.value);
            }
            if options.port.Some? {
              resolved := resolved.(port := options.port);
            }
            if options.username.Some? {
              resolved := resolved.(username := options.username);
            }
            if options.password.Some? {
              resolved := resolved.(password := options.password);
            }
            if options.platform.Some? {
              resolved := resolved.(platform := options.platform);
            }
            if options.extras.Some? {
              resolved := resolved.(extras := options.extras);
            }
          }
        }
        resolvedConnectionParams := resolvedConnectionParams[connectionType := resolved];
      }
      r := resolvedConnectionParams[connectionType];
    }
  }

  /**
   * Field by field, a cache miss takes the override when the entry supplies one, else the
   * host's own value; the hostname falls back further to the name, and extras come only
   * from the override.
   */
  lemma MergePrecedence(h: Host, connectionType: string)
    ensures var r := h.Merged(connectionType);
      var o := h.OptionsFor(connectionType);
      && r.hostname == (if o.Some? && o.value.hostname.Some? then o.value.hostname.value
                        else if h.hostname.Some? then h.hostname.value else h.name)
      && r.port == (if o.Some? && o.value.port.Some? then o.value.port else h.port)
      && r.username == (if o.Some? && o.value.username.Some? then o.value.username else h.username)
      && r.password == (if o.Some? && o.value.password.Some? then o.value.password else h.password)
      && r.platform == (if o.Some? && o.value.platform.Some? then o.value.platform else h.platform)
      && r.extras == (if o.Some? then o.value.extras else None)
  {
  }

  /**
   * The cache is sticky: once a type is resolved, later changes to the host's settings do
   * not reach it. Here the hostname changes between two resolutions of "ssh".
   */
  method StickyCacheScenario() returns (first: ResolvedConnectionParams, second: ResolvedConnectionParams)
    ensures first == second
    ensures first.hostname == "10.0.0.1" && first.port == Some(2222)
  {
    var h := new Host("router1.lab");
    h.hostname := Some("10.0.0.1");
    h.connectionOptions := Some(map["ssh" := NoOverrides.(port := Some(2222))]);
    first := h.ResolveConnectionParams("ssh");
    h.hostname := Some("10.9.9.9");
    second := h.ResolveConnectionParams("ssh");
  }

  /** Without a hostname anywhere, the resolved hostname is the host's name. */
  method HostnameFallbackScenario() returns (r: ResolvedConnectionParams)
    ensures r == ResolvedConnectionParams("router1.lab", None, Some("admin"), None, None, None)
  {
    var h := new Host("router1.lab");
    h.username := Some("admin");
    h.connectionOptions := Some(map["netconf" := NoOverrides]);
    r := h.ResolveConnectionParams("netconf");
  }

  /**
   * The `connection_options` builder step: create the map on first use, then store
   * `options` under `name`, replacing an earlier entry of that name.
   */
  function InsertOptions(m: Option<map<string, ConnectionOptions>>, name: string, options: ConnectionOptions)
    : Option<map<string, ConnectionOptions>>
  {
    Some(m.UnwrapOr(map[])[name := options])
  }

  /** A run of `connection_options` calls, in call order. */
  function InsertAll(m: Option<map<string, ConnectionOptions>>, calls: seq<(string, ConnectionOptions)>)
    : Option<map<string, ConnectionOptions>>
  {
    if calls == [] then m
    else
      var last := calls[|calls| - 1];
      InsertOptions(InsertAll(m, calls[..|calls| - 1]), last.0, last.1)
  }

  /** The options given by the last call that used `name`, if any call did. */
  function LastOptions(calls: seq<(string, ConnectionOptions)>, name: string): Option<ConnectionOptions> {
    if calls == [] then None
    else if calls[|calls| - 1].0 == name then Some(calls[|calls| - 1].1)
    else LastOptions(calls[..|calls| - 1], name)
  }

  /**
   * Repeated `connection_options` calls accumulate: every name ever given is present, the
   * last call for a name wins, and names only in the starting map keep their options.
   */
  lemma {:induction false} OptionsAccumulate(m: Option<map<string, ConnectionOptions>>, calls: seq<(string, ConnectionOptions)>)
    requires calls != []
    ensures InsertAll(m, calls).Some?
    ensures forall n :: n in InsertAll(m, calls).value <==> LastOptions(calls, n).Some? || (m.Some? && n in m.value)
    ensures forall n :: n in InsertAll(m, calls).value ==>
      InsertAll(m, calls).value[n] == (if LastOptions(calls, n).Some? then LastOptions(calls, n).value else m.value[n])
    decreases |calls|
  {
    var init := calls[..|calls| - 1];
    if init != [] {
      OptionsAccumulate(m, init);
    }
  }

  /** A host under construction; each setter stores one field and returns the builder. */
  datatype HostBuilder = HostBuilder(
    name: string,
    hostname: Option<string>,
    port: Option<U16>,
    username: Option<string>,
    password: Option<string>,
    platform: Option<string>,
    groups: Option<seq<string>>,
    data: Option<Value>,
    connectionOptions: Option<map<string, ConnectionOptions>>,
    defaults: Option<Value>)
  {
    function WithHostname(hostname: string): (b: HostBuilder)
      ensures b.hostname == Some(hostname) && b.(hostname := this.hostname) == this
    {
      this.(hostname := Some(hostname))
    }

    function WithPort(port: U16): (b: HostBuilder)
      ensures b.port == Some(port) && b.(port := this.port) == this
    {
      this.(port := Some(port))
    }

    function WithUsername(username: string): (b: HostBuilder)
      ensures b.username == Some(username) && b.(username := this.username) == this
    {
      this.(username := Some(username))
    }

    function WithPassword(password: string): (b: HostBuilder)
      ensures b.password == Some(password) && b.(password := this.password) == this
    {
      this.(password := Some(password))
    }

    function WithPlatform(platform: string): (b: HostBuilder)
      ensures b.platform == Some(platform) && b.(platform := this.platform) == this
    {
      this.(platform := Some(platform))
    }

    function WithGroups(groups: seq<string>): (b: HostBuilder)
      ensures b.groups == Some(groups) && b.(groups := this.groups) == this
    {
      this.(groups := Some(groups))
    }

    function WithData(data: Value): (b: HostBuilder)
      ensures b.data == Some(data) && b.(data := this.data) == this
    {
      this.(data := Some(data))
    }

    function WithDefaults(defaults: Value): (b: HostBuilder)
      ensures b.defaults == Some(defaults) && b.(defaults := this.defaults) == this
    {
      this.(defaults := Some(defaults))
    }

    /** `connection_options`: adds or replaces the entry for `name`, creating the map on first use. */
    function WithConnectionOptions(name: string, options: ConnectionOptions): (b: HostBuilder)
      ensures b.connectionOptions == InsertOptions(this.connectionOptions, name, options)
      ensures b.(connectionOptions := this.connectionOptions) == this
    {
      this.(connectionOptions := InsertOptions(connectionOptions, name, options))
    }

    /** `build`: a new host carrying every field of the builder and an empty resolved cache. */
    method Build() returns (h: Host)
      ensures fresh(h)
      ensures h.name == name && h.hostname == hostname && h.port == port
      ensures h.username == username && h.password == password && h.platform == platform
      ensures h.groups == groups && h.data == data
      ensures h.connectionOptions == connectionOptions && h.defaults == defaults
      ensures h.resolvedConnectionParams == map[]
    {
      h := new Host(name);
      h.hostname := hostname;
      h.port := port;
      h.username := username;
      h.password := password;
      h.platform := platform;
      h.groups := groups;
      h.data := data;
      h.connectionOptions := connectionOptions;
      h.defaults := defaults;
    }
  }

  /** `HostBuilder::new`: the name and nothing else. */
  function NewHostBuilder(name: string): (b: HostBuilder)
    ensures b.name == name
    ensures b.hostname == None && b.port == None && b.username == None && b.password == None
    ensures b.platform == None && b.groups == None && b.data == None
    ensures b.connectionOptions == None && b.defaults == None
  {
    HostBuilder(name, None, None, None, None, None, None, None, None, None)
  }

  /** A group: the host settings without a name. */
  datatype Group = Group(
    hostname: Option<string>,
    port: Option<U16>,
    username: Option<string>,
    password: Option<string>,
    platform: Option<string>,
    groups: Option<seq<string>>,
    data: Option<Value>,
    connectionOptions: Option<map<string, ConnectionOptions>>,
    defaults: Option<Value>)

  /** `Group::new`: every field unset. */
  function NewGroup(): (g: Group)
    ensures g.hostname == None && g.port == None && g.username == None && g.password == None
    ensures g.platform == None && g.groups == None && g.data == None
    ensures g.connectionOptions == None && g.defaults == None
  {
    Group(None, None, None, None, None, None, None, None, None)
  }

  datatype GroupBuilder = GroupBuilder(
    hostname: Option<string>,
    port: Option<U16>,
    username: Option<string>,
    password: Option<string>,
    platform: Option<string>,
    groups: Option<seq<string>>,
    data: Option<Value>,
    connectionOptions: Option<map<string, ConnectionOptions>>,
    defaults: Option<Value>)
  {
    function WithHostname(hostname: string): (b: GroupBuilder)
      ensures b.hostname == Some(hostname) && b.(hostname := this.hostname) == this
    {
      this.(hostname := Some(hostname))
    }

    function WithPort(port: U16): (b: GroupBuilder)
      ensures b.port == Some(port) && b.(port := this.port) == this
    {
      this.(port := Some(port))
    }

    function WithUsername(username: string): (b: GroupBuilder)
      ensures b.username == Some(username) && b.(username := this.username) == this
    {
      this.(username := Some(username))
    }

    function WithPassword(password: string): (b: GroupBuilder)
      ensures b.password == Some(password) && b.(password := this.password) == this
    {
      this.(password := Some(password))
    }

    function WithPlatform(platform: string): (b: GroupBuilder)
      ensures b.platform == Some(platform) && b.(platform := this.platform) == this
    {
      this.(platform := Some(platform))
    }

    function WithGroups(groups: seq<string>): (b: GroupBuilder)
      ensures b.groups == Some(groups) && b.(groups := this.groups) == this
    {
      this.(groups := Some(groups))
    }

    function WithData(data: Value): (b: GroupBuilder)
      ensures b.data == Some(data) && b.(data := this.data) == this
    {
      this.(data := Some(data))
    }

    function WithDefaults(defaults: Value): (b: GroupBuilder)
      ensures b.defaults == Some(defaults) && b.(defaults := this.defaults) == this
    {
      this.(defaults := Some(defaults))
    }

    /** `connection_options`: adds or replaces the entry for `name`, creating the map on first use. */
    function WithConnectionOptions(name: string, options: ConnectionOptions): (b: GroupBuilder)
      ensures b.connectionOptions == InsertOptions(this.connectionOptions, name, options)
      ensures b.(connectionOptions := this.connectionOptions) == this
    {
      this.(connectionOptions := InsertOptions(connectionOptions, name, options))
    }

    /** `build`: a group carrying every field of the builder. */
    function Build(): (g: Group)
      ensures g.hostname == hostname && g.port == port && g.username == username
      ensures g.password == password && g.platform == platform && g.groups == groups
      ensures g.data == data && g.connectionOptions == connectionOptions && g.defaults == defaults
    {
      Group(hostname, port, username, password, platform, groups, data, connectionOptions, defaults)
    }
  }

  /** `GroupBuilder::new`: unlike the host builder, the argument is the group's hostname. */
  function NewGroupBuilder(hostname: string): (b: GroupBuilder)
    ensures b.hostname == Some(hostname)
    ensures b.port == None && b.username == None && b.password == None && b.platform == None
    ensures b.groups == None && b.data == None && b.connectionOptions == None && b.defaults == None
  {
    GroupBuilder(Some(hostname), None, None, None, None, None, None, None, None)
  }

  /** `Hosts::add_host`: the host is stored under its own name, replacing any host of that name. */
  method AddHost(hosts: CustomTreeMap<Host>, host: Host)
    modifies hosts
    ensures hosts.entries == old(hosts.entries)[host.name := host]
    ensures hosts.Get(host.name) == Some(host)
  {
    var name := host.name;
    hosts.Insert(name, host);
  }

  /**
   * Two builder calls naming the same connection type: the second replaces the first,
   * and the built host carries the map the builder accumulated.
   */
  method BuilderScenario() returns (options: Option<map<string, ConnectionOptions>>, cached: nat)
    ensures options == Some(map["ssh" := NoOverrides.(port := Some(22)), "netconf" := NoOverrides])
    ensures cached == 0
  {
    var b := NewHostBuilder("router1.lab")
      .WithHostname("10-0-0-1")
      .WithConnectionOptions("ssh", NoOverrides)
      .WithConnectionOptions("netconf", NoOverrides)
      .WithConnectionOptions("ssh", NoOverrides.(port := Some(22)));
    var h := b.Build();
    options := h.connectionOptions;
    assert options.value == map["ssh" := NoOverrides, "netconf" := NoOverrides]["ssh" := NoOverrides.(port := Some(22))];
    assert options.value == map["ssh" := NoOverrides.(port := Some(22)), "netconf" := NoOverrides];
    cached := |h.resolvedConnectionParams|;
  }
}
