/**
 * The two-host inventory the integration tests share: a router and a switch whose
 * hostnames and management addresses are obfuscated, with the obfuscated-address
 * transform and its lookup table attached.
 */
module InventorySetup {
  import opened Wrappers
  import opened Json
  import opened OrderedStore
  import opened Hosts
  import opened ObfuscatedIp
  import opened Inventory

  const TransformOptions: Value :=
    Object(map[TableKey := Object(map["10-0-0-1" := String("10.0.0.1"), "10-0-0-2" := String("10.0.0.2")])])

  function AddressData(ip: string): Value {
    Object(map[AddressKey := String(ip)])
  }

  /** `inventory_setup`: both hosts stored under their names, the transform not yet applied. */
  method InventorySetup() returns (inventory: Inventory, router: Host, switch: Host)
    ensures fresh(inventory) && fresh(inventory.hosts) && fresh(router) && fresh(switch)
    ensures inventory.hosts.entries == map["router1.lab" := router, "switch1.lab" := switch]
    ensures router.name == "router1.lab" && router.hostname == Some("10-0-0-1")
    ensures router.data == Some(AddressData("10-0-0-1"))
    ensures switch.name == "switch1.lab" && switch.hostname == Some("10-0-0-2")
    ensures switch.data == Some(AddressData("10-0-0-2"))
    ensures inventory.transformFunction == Some(ObfuscatedIpMap)
    ensures inventory.transformFunctionOptions == Some(TransformOptions)
    ensures inventory.groups == None && inventory.defaults == None
    ensures fresh(inventory.connections) && inventory.connections.connections == map[]
  {
    var hosts := new CustomTreeMap<Host>();
    router := NewHostBuilder("router1.lab").WithHostname("10-0-0-1").WithData(AddressData("10-0-0-1")).Build();
    switch := NewHostBuilder("switch1.lab").WithHostname("10-0-0-2").WithData(AddressData("10-0-0-2")).Build();
    AddHost(hosts, router);
    AddHost(hosts, switch);
    inventory := new Inventory();
    inventory.hosts := hosts;
    inventory.transformFunction := Some(ObfuscatedIpMap);
    inventory.transformFunctionOptions := Some(TransformOptions);
  }

  /**
   * Applying the fixture's transform: both hosts end up with their real address as
   * hostname and as `mgmt_ip`.
   */
  method ObfuscatedIpScenario() returns (routerHostname: Option<string>, routerIp: Option<string>,
                                         switchHostname: Option<string>, switchIp: Option<string>)
    ensures routerHostname == Some("10.0.0.1") && routerIp == Some("10.0.0.1")
    ensures switchHostname == Some("10.0.0.2") && switchIp == Some("10.0.0.2")
  {
    var inventory, router, switch := InventorySetup();
    inventory.ApplyTransform();
    assert router in inventory.hosts.entries.Values && switch in inventory.hosts.entries.Values by {
      assert inventory.hosts.entries["router1.lab"] == router;
      assert inventory.hosts.entries["switch1.lab"] == switch;
    }
    var storedRouter := inventory.hosts.Get("router1.lab");
    var storedSwitch := inventory.hosts.Get("switch1.lab");
    routerHostname := if storedRouter.Some? then storedRouter.value.hostname else None;
    routerIp := if storedRouter.Some? then MgmtIp(storedRouter.value.data) else None;
    switchHostname := if storedSwitch.Some? then storedSwitch.value.hostname else None;
    switchIp := if storedSwitch.Some? then MgmtIp(storedSwitch.value.data) else None;
  }
}
