/**
 * The inventory: the natural-order store of hosts, optional groups and defaults, an
 * optional transform with its options, and the shared connection cache.
 */
module Inventory {
  import opened Wrappers
  import opened Json
  import opened OrderedStore
  import opened Hosts
  import opened Connections
  import opened ObfuscatedIp

  /**
   * The transforms an inventory can hold. User closures are arbitrary code; the one the
   * repository defines is the obfuscated-address rewrite.
   */
  datatype TransformFunction = ObfuscatedIpMap

  class Inventory {
    var hosts: CustomTreeMap<Host>
    var groups: Option<CustomTreeMap<Group>>
    var defaults: Option<Value>
    var transformFunction: Option<TransformFunction>
    var transformFunctionOptions: Option<Value>
    var connections: ConnectionManager

    /** `Inventory::new`: no hosts, nothing optional set, and an empty connection cache. */
    constructor ()
      ensures fresh(hosts) && hosts.entries == map[]
      ensures groups == None && defaults == None
      ensures transformFunction == None && transformFunctionOptions == None
      ensures fresh(connections) && connections.connections == map[]
    {
      hosts := new CustomTreeMap<Host>();
      groups := None;
      defaults := None;
      transformFunction := None;
      transformFunctionOptions := None;
      connections := new ConnectionManager();
    }

    /**
     * `apply_transform`: run the inventory's transform, if it has one, with its options.
     * Without a transform nothing changes.
     */
    method ApplyTransform()
      modifies hosts.entries.Values`hostname, hosts.entries.Values`data
      ensures hosts.entries == old(hosts.entries)
      ensures transformFunction.None? ==>
        forall h :: h in hosts.entries.Values ==> h.hostname == old(h.hostname) && h.data == old(h.data)
      ensures transformFunction == Some(ObfuscatedIpMap) ==>
        forall h :: h in hosts.entries.Values ==>
          h.hostname == NewHostname(Mapping(transformFunctionOptions), old(h.hostname)) &&
          h.data == NewData(Mapping(transformFunctionOptions), old(h.data))
    {
      if transformFunction.Some? {
        match transformFunction.value
        case ObfuscatedIpMap =>
          Transform(hosts, transformFunctionOptions);
      }
    }
  }

  /** An inventory under construction; each setter stores one part and returns the builder. */
  datatype InventoryBuilder = InventoryBuilder(
    hosts: Option<CustomTreeMap<Host>>,
    groups: Option<CustomTreeMap<Group>>,
    defaults: Option<Value>,
    transformFunction: Option<TransformFunction>,
    transformFunctionOptions: Option<Value>,
    connections: Option<ConnectionManager>)
  {
    function WithHosts(hosts: CustomTreeMap<Host>): (b: InventoryBuilder)
      ensures b.hosts == Some(hosts) && b.(hosts := this.hosts) == this
    {
      this.(hosts := Some(hosts))
    }

    function WithGroups(groups: CustomTreeMap<Group>): (b: InventoryBuilder)
      ensures b.groups == Some(groups) && b.(groups := this.groups) == this
    {
      this.(groups := Some(groups))
    }

    function WithDefaults(defaults: Value): (b: InventoryBuilder)
      ensures b.defaults == Some(defaults) && b.(defaults := this.defaults) == this
    {
      this.(defaults := Some(defaults))
    }

    function WithTransformFunction(transform: TransformFunction): (b: InventoryBuilder)
      ensures b.transformFunction == Some(transform)
      ensures b.(transformFunction := this.transformFunction) == this
    {
      this.(transformFunction := Some(transform))
    }

    function WithTransformFunctionOptions(options: Value): (b: InventoryBuilder)
      ensures b.transformFunctionOptions == Some(options)
      ensures b.(transformFunctionOptions := this.transformFunctionOptions) == this
    {
      this.(transformFunctionOptions := Some(options))
    }

    function WithConnections(connections: ConnectionManager): (b: InventoryBuilder)
      ensures b.connections == Some(connections) && b.(connections := this.connections) == this
    {
      this.(connections := Some(connections))
    }

    /**
     * `build`: the parts given to the builder; missing hosts become an empty store and a
     * missing connection cache a new empty one.
     */
    method Build() returns (inventory: Inventory)
      ensures fresh(inventory)
      ensures hosts.Some? ==> inventory.hosts == hosts.value
      ensures hosts.None? ==> fresh(inventory.hosts) && inventory.hosts.entries == map[]
      ensures inventory.groups == groups && inventory.defaults == defaults
      ensures inventory.transformFunction == transformFunction
      ensures inventory.transformFunctionOptions == transformFunctionOptions
      ensures connections.Some? ==> inventory.connections == connections.value
      ensures connections.None? ==> fresh(inventory.connections) && inventory.connections.connections == map[]
    {
      inventory := new Inventory();
      if hosts.Some? {
        inventory.hosts := hosts.value;
      }
      inventory.groups := groups;
      inventory.defaults := defaults;
      inventory.transformFunction := transformFunction;
      inventory.transformFunctionOptions := transformFunctionOptions;
      if connections.Some? {
        inventory.connections := connections.value;
      }
    }
  }

  /** `InventoryBuilder::new`: nothing set. */
  function NewInventoryBuilder(): (b: InventoryBuilder)
    ensures b.hosts == None && b.groups == None && b.defaults == None
    ensures b.transformFunction == None && b.transformFunctionOptions == None && b.connections == None
  {
    InventoryBuilder(None, None, None, None, None, None)
  }
}
