/** The accepted declarations of the define's examples: required parameters,
    a VLAN name, `manage_hwaddr => false` and `flush => true`. Each lemma
    states the file lines or the actions the example expects. */
module Accepted {
  import opened Wrappers
  import opened Text
  import opened Validators
  import opened Model
  import opened Builder
  import opened Renderer
  import opened Contents
  import opened Planner
  import opened Literals
  import opened Expected
  import opened Spelling

  // ---------------------------------------------------------------- required parameters

  /** The required lines of the `test1`/`eth1` example, `DEVICE=eth1` to
      `NM_CONTROLLED=yes`. */
  function RequiredExample(): Lines {
    Front("eth1", Some(FactMac), "yes", Cons(PeerDns, "no", Cons(NmControlled, "yes", End)))
  }

  /** The required example's lines, written out line by line. */
  lemma RequiredSpelled()
    ensures TextsOf(RequiredExample()) ==
            ["DEVICE=eth1", "BOOTPROTO=none", "HWADDR=fe:fe:fe:aa:aa:aa", "ONBOOT=yes", "HOTPLUG=yes",
             "TYPE=Ethernet", "IPADDR=1.2.3.4", "NETMASK=255.255.255.0", "PEERDNS=no", "NM_CONTROLLED=yes"]
  {
    var t := Cons(NmControlled, "yes", End);
    NmControlledYesLine(End);
    PeerDnsLine(t);
    t := Cons(PeerDns, "no", t);
    AddressLines(t);
    t := AddressedLines(t);
    HotPlugLine(t);
    t := Cons(HotPlug, "yes", t);
    OnBootLine(t);
    t := Cons(OnBoot, "yes", t);
    HwAddrFactLine(t);
    t := Cons(HwAddr, FactMac, t);
    BootProtoNoneLine(t);
    t := Cons(BootProto, "none", t);
    DeviceLine(t);
    assert RequiredExample() == Cons(Device, "eth1", t);
  }

  /** The required lines are, character for character, the ten strings the
      example lists. */
  lemma RequiredText()
    ensures Texts(Listed(RequiredExample())) ==
            ["DEVICE=eth1", "BOOTPROTO=none", "HWADDR=fe:fe:fe:aa:aa:aa", "ONBOOT=yes", "HOTPLUG=yes",
             "TYPE=Ethernet", "IPADDR=1.2.3.4", "NETMASK=255.255.255.0", "PEERDNS=no", "NM_CONTROLLED=yes"]
  {
    RequiredSpelled();
    TextsOfListed(RequiredExample());
  }

  /** The file of an up `eth1` with the example's MAC has the required lines
      of the example, in order. */
  lemma RequiredRendered(c: Ifcfg)
    requires c.device == "eth1" && c.state == Up && c.hwaddr == Some(FactMac) && !c.peerdns
    requires c.ipaddress == Some("1.2.3.4") && c.netmask == Some("255.255.255.0")
    ensures VerifyContents(RenderText(c), Texts(Listed(RequiredExample())))
  {
    ShownCons(c, NmControlled, "yes", End);
    ShownCons(c, PeerDns, "no", Cons(NmControlled, "yes", End));
    var t := Cons(PeerDns, "no", Cons(NmControlled, "yes", End));
    FrontShown(c, "eth1", Some(FactMac), "yes", t);
    Shows(c, RequiredExample());
  }

  lemma RequiredFacts(p: Params, dev: string, mac: string)
    requires dev == "eth1" && p == Addressed("up", Some(dev))
    ensures Acceptable(p) && p.ensure == "up" && p.manageHwaddr && p.macaddress.None? && p.peerdns.None?
    ensures p.ipaddress == Some("1.2.3.4") && p.netmask == Some("255.255.255.0") && !p.flush
    ensures ResolveDevice("test1", p.device) == dev
    ensures MacFactKey(dev) in Facts("macaddress_eth1", mac) && Facts("macaddress_eth1", mac)[MacFactKey(dev)] == mac
  {
    AddressedAcceptable("up", Some(dev));
    PlainFact(dev, mac);
  }

  /** Required parameters on `test1` with `device => 'eth1'`: the interface
      is up, named `eth1`, with the MAC of fact `macaddress_eth1`. */
  lemma RequiredBuilt(p: Params, dev: string, mac: string)
    requires dev == "eth1" && p == Addressed("up", Some(dev))
    ensures var r := Build("test1", p, Facts("macaddress_eth1", mac));
            && r.Ok? && r.value.cfg.device == dev && r.value.cfg.state == Up
            && r.value.cfg.hwaddr == Some(mac) && !r.value.cfg.peerdns && !r.value.flush
            && r.value.cfg.ipaddress == Some("1.2.3.4") && r.value.cfg.netmask == Some("255.255.255.0")
  {
    RequiredFacts(p, dev, mac);
  }

  /** The required-parameters example end to end: the declaration is
      accepted, its file has the required lines in order, and the only action
      is the manage step. */
  lemma RequiredParameters(p: Params)
    requires p == Addressed("up", Some("eth1"))
    ensures var r := Build("test1", p, Facts("macaddress_eth1", FactMac));
            && r.Ok?
            && VerifyContents(RenderText(r.value.cfg), Texts(Listed(RequiredExample())))
            && Plan(r.value) == [ManageConnections]
  {
    RequiredBuilt(p, "eth1", FactMac);
    var r := Build("test1", p, Facts("macaddress_eth1", FactMac));
    RequiredRendered(r.value.cfg);
  }

  // ---------------------------------------------------------------- VLAN

  /** The lines the VLAN example expects for the name `dev` and the base
      device's MAC. */
  function VlanExample(dev: string, mac: string): Lines {
    Front(dev, Some(mac), "yes", Cons(NmControlled, "yes", End))
  }

  /** The VLAN example's lines, written out line by line. */
  lemma VlanSpelled()
    ensures TextsOf(VlanExample("eth6.203", "bb:cc:bb:cc:bb:cc")) ==
            ["DEVICE=eth6.203", "BOOTPROTO=none", "HWADDR=bb:cc:bb:cc:bb:cc", "ONBOOT=yes", "HOTPLUG=yes",
             "TYPE=Ethernet", "IPADDR=1.2.3.4", "NETMASK=255.255.255.0", "NM_CONTROLLED=yes"]
  {
    var t := Cons(NmControlled, "yes", End);
    NmControlledYesLine(End);
    AddressLines(t);
    t := AddressedLines(t);
    HotPlugLine(t);
    t := Cons(HotPlug, "yes", t);
    OnBootLine(t);
    t := Cons(OnBoot, "yes", t);
    HwAddrVlanLine(t);
    t := Cons(HwAddr, "bb:cc:bb:cc:bb:cc", t);
    BootProtoNoneLine(t);
    t := Cons(BootProto, "none", t);
    DeviceLine(t);
    assert VlanExample("eth6.203", "bb:cc:bb:cc:bb:cc") == Cons(Device, "eth6.203", t);
  }

  /** The VLAN lines are, character for character, the nine strings the
      example lists. */
  lemma VlanText()
    ensures Texts(Listed(VlanExample("eth6.203", "bb:cc:bb:cc:bb:cc"))) ==
            ["DEVICE=eth6.203", "BOOTPROTO=none", "HWADDR=bb:cc:bb:cc:bb:cc", "ONBOOT=yes", "HOTPLUG=yes",
             "TYPE=Ethernet", "IPADDR=1.2.3.4", "NETMASK=255.255.255.0", "NM_CONTROLLED=yes"]
  {
    VlanSpelled();
    TextsOfListed(VlanExample("eth6.203", "bb:cc:bb:cc:bb:cc"));
  }

  /** Title `eth6.203` without a `device`: the fact is that of `eth6`. */
  lemma VlanFact(base: string, tag: string, mac: string)
    requires base == "eth6" && tag == "203"
    ensures ResolveDevice(base + "." + tag, None) == base + "." + tag
    ensures MacFactKey(base + "." + tag) == "macaddress_eth6"
    ensures MacFactKey(base + "." + tag) in Facts("macaddress_eth6", mac)
    ensures Facts("macaddress_eth6", mac)[MacFactKey(base + "." + tag)] == mac
  {
    StripVlanTag(base, tag);
  }

  lemma VlanFacts(p: Params, base: string, tag: string, mac: string)
    requires base == "eth6" && tag == "203" && p == Addressed("up", None)
    ensures Acceptable(p) && p.ensure == "up" && p.manageHwaddr && p.macaddress.None? && p.device.None?
    ensures p.ipaddress == Some("1.2.3.4") && p.netmask == Some("255.255.255.0")
    ensures ResolveDevice(base + "." + tag, p.device) == base + "." + tag
    ensures MacFactKey(base + "." + tag) in Facts("macaddress_eth6", mac)
    ensures Facts("macaddress_eth6", mac)[MacFactKey(base + "." + tag)] == mac
  {
    AddressedAcceptable("up", None);
    VlanFact(base, tag, mac);
  }

  /** The VLAN declaration keeps its full name as DEVICE and pins the MAC of
      the base device. */
  lemma VlanBuilt(p: Params, base: string, tag: string, mac: string)
    requires base == "eth6" && tag == "203" && p == Addressed("up", None)
    ensures var r := Build(base + "." + tag, p, Facts("macaddress_eth6", mac));
            && r.Ok? && r.value.cfg.device == base + "." + tag && r.value.cfg.state == Up
            && r.value.cfg.hwaddr == Some(mac)
            && r.value.cfg.ipaddress == Some("1.2.3.4") && r.value.cfg.netmask == Some("255.255.255.0")
  {
    VlanFacts(p, base, tag, mac);
  }

  lemma VlanRendered(c: Ifcfg, dev: string, mac: string)
    requires c.device == dev && c.state == Up && c.hwaddr == Some(mac)
    requires c.ipaddress == Some("1.2.3.4") && c.netmask == Some("255.255.255.0")
    ensures VerifyContents(RenderText(c), Texts(Listed(VlanExample(dev, mac))))
  {
    ShownCons(c, NmControlled, "yes", End);
    FrontShown(c, dev, Some(mac), "yes", Cons(NmControlled, "yes", End));
    Shows(c, VlanExample(dev, mac));
  }

  /** The VLAN example end to end: the title `eth6.203`, written as its base
      device and tag, with the MAC of `eth6`. */
  lemma Vlan(p: Params, base: string, tag: string, mac: string)
    requires base == "eth6" && tag == "203" && mac == "bb:cc:bb:cc:bb:cc"
    requires p == Addressed("up", None)
    ensures var r := Build(base + "." + tag, p, Facts("macaddress_eth6", mac));
            && r.Ok? && VerifyContents(RenderText(r.value.cfg), Texts(Listed(VlanExample(base + "." + tag, mac))))
  {
    VlanBuilt(p, base, tag, mac);
    var r := Build(base + "." + tag, p, Facts("macaddress_eth6", mac));
    VlanRendered(r.value.cfg, base + "." + tag, mac);
  }

  // ---------------------------------------------------------------- manage_hwaddr

  /** The lines the `manage_hwaddr => false` example expects: no HWADDR. */
  function UnpinnedExample(): Lines {
    Front("eth0", None, "yes", Cons(NmControlled, "yes", End))
  }

  /** The `manage_hwaddr => false` example's lines, written out line by line. */
  lemma UnpinnedSpelled()
    ensures TextsOf(UnpinnedExample()) ==
            ["DEVICE=eth0", "BOOTPROTO=none", "ONBOOT=yes", "HOTPLUG=yes",
             "TYPE=Ethernet", "IPADDR=1.2.3.4", "NETMASK=255.255.255.0", "NM_CONTROLLED=yes"]
  {
    var t := Cons(NmControlled, "yes", End);
    NmControlledYesLine(End);
    AddressLines(t);
    t := AddressedLines(t);
    HotPlugLine(t);
    t := Cons(HotPlug, "yes", t);
    OnBootLine(t);
    t := Cons(OnBoot, "yes", t);
    BootProtoNoneLine(t);
    t := Cons(BootProto, "none", t);
    DeviceLine(t);
    assert UnpinnedExample() == Cons(Device, "eth0", t);
  }

  /** The unpinned lines are, character for character, the eight strings
      the example lists. */
  lemma UnpinnedText()
    ensures Texts(Listed(UnpinnedExample())) ==
            ["DEVICE=eth0", "BOOTPROTO=none", "ONBOOT=yes", "HOTPLUG=yes",
             "TYPE=Ethernet", "IPADDR=1.2.3.4", "NETMASK=255.255.255.0", "NM_CONTROLLED=yes"]
  {
    UnpinnedSpelled();
    TextsOfListed(UnpinnedExample());
  }

  lemma UnpinnedFacts(p: Params, dev: string)
    requires dev == "eth0" && p == Addressed("up", Some(dev)).(manageHwaddr := false)
    ensures Acceptable(p) && p.ensure == "up" && !p.manageHwaddr
    ensures p.ipaddress == Some("1.2.3.4") && p.netmask == Some("255.255.255.0")
    ensures ResolveDevice("test0", p.device) == dev
  {
    assert p.device == Some(dev) && dev != "";
    var a := Addressed("up", Some(dev));
    AddressedAcceptable("up", Some(dev));
    assert StateKnown(p) == StateKnown(a) && Paired(p) == Paired(a);
    assert AddressesValid(p) == AddressesValid(a) && IPv6FieldsValid(p) == IPv6FieldsValid(a);
    assert FlagsCoercible(p) == FlagsCoercible(a);
  }

  /** With `manage_hwaddr => false` no MAC is pinned, although the fact for
      the device is present. */
  lemma UnpinnedBuilt(p: Params, dev: string, mac: string)
    requires dev == "eth0" && p == Addressed("up", Some(dev)).(manageHwaddr := false)
    ensures var r := Build("test0", p, Facts("macaddress_eth0", mac));
            && r.Ok? && r.value.cfg.device == dev && r.value.cfg.state == Up && r.value.cfg.hwaddr.None?
            && r.value.cfg.ipaddress == Some("1.2.3.4") && r.value.cfg.netmask == Some("255.255.255.0")
  {
    UnpinnedFacts(p, dev);
  }

  lemma UnpinnedRendered(c: Ifcfg)
    requires c.device == "eth0" && c.state == Up && c.hwaddr.None?
    requires c.ipaddress == Some("1.2.3.4") && c.netmask == Some("255.255.255.0")
    ensures VerifyContents(RenderText(c), Texts(Listed(UnpinnedExample())))
    ensures Lookup(Render(c), HwAddr).None?
  {
    ShownCons(c, NmControlled, "yes", End);
    FrontShown(c, "eth0", None, "yes", Cons(NmControlled, "yes", End));
    Shows(c, UnpinnedExample());
  }

  /** The `manage_hwaddr => false` example end to end. */
  lemma Unpinned(p: Params)
    requires p == Addressed("up", Some("eth0")).(manageHwaddr := false)
    ensures var r := Build("test0", p, Facts("macaddress_eth0", "bb:cc:bb:cc:bb:cc"));
            && r.Ok? && VerifyContents(RenderText(r.value.cfg), Texts(Listed(UnpinnedExample())))
            && Lookup(Render(r.value.cfg), HwAddr).None?
  {
    UnpinnedBuilt(p, "eth0", "bb:cc:bb:cc:bb:cc");
    var r := Build("test0", p, Facts("macaddress_eth0", "bb:cc:bb:cc:bb:cc"));
    UnpinnedRendered(r.value.cfg);
  }

  // ---------------------------------------------------------------- flush

  lemma FlushFacts(p: Params, dev: string)
    requires dev == "eth1" && p == Addressed("up", Some(dev)).(flush := true)
    ensures Acceptable(p) && p.flush && ResolveDevice("test1", p.device) == dev
  {
    AddressedAcceptable("up", Some(dev));
    AcceptableIgnoresFlush(Addressed("up", Some(dev)), true);
  }

  lemma FlushBuilt(p: Params, dev: string, mac: string)
    requires dev == "eth1" && p == Addressed("up", Some(dev)).(flush := true)
    ensures var r := Build("test1", p, Facts("macaddress_eth1", mac));
            && r.Ok? && r.value.cfg.device == dev && r.value.flush
  {
    FlushFacts(p, dev);
  }

  /** The plan of a flushed `eth1`. */
  lemma FlushPlan(i: Interface)
    requires i.flush && i.cfg.device == "eth1"
    ensures Plan(i) == [FlushAddresses("eth1"), ManageConnections]
    ensures Command(Plan(i)[0]) == Some("ip addr flush dev eth1")
    ensures Before(Plan(i), FlushAddresses("eth1"), ManageConnections)
  {
    var plan := Plan(i);
    assert plan[0] == FlushAddresses("eth1") && plan[1] == ManageConnections;
    assert FlushPrefix + "eth1" == "ip addr flush dev eth1";
  }

  /** `flush => true`: the plan flushes `eth1`, with the command
      `ip addr flush dev eth1`, before the manage step. */
  lemma FlushPlanned(p: Params)
    requires p == Addressed("up", Some("eth1")).(flush := true)
    ensures var r := Build("test1", p, Facts("macaddress_eth1", FactMac));
            && r.Ok?
            && Plan(r.value) == [FlushAddresses("eth1"), ManageConnections]
            && Command(Plan(r.value)[0]) == Some("ip addr flush dev eth1")
            && Before(Plan(r.value), FlushAddresses("eth1"), ManageConnections)
  {
    FlushBuilt(p, "eth1", FactMac);
    FlushPlan(Build("test1", p, Facts("macaddress_eth1", FactMac)).value);
  }
}
