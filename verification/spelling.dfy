/** The lines of the examples as the suite writes them. Each lemma states
    that the renderer's text of one line, put in front of any further lines,
    is that line's string, so the expected lines are checked character by
    character and not only through the renderer's own key names. */
module Spelling {
  import opened Model
  import opened Renderer
  import opened Expected
  import opened Literals

  // ---------------------------------------------------------------- lines every example has

  lemma BootProtoNoneLine(rest: Lines)
    ensures TextsOf(Cons(BootProto, "none", rest)) == ["BOOTPROTO=none"] + TextsOf(rest)
  {
    assert ToText(Line(BootProto, "none")) == "BOOTPROTO=none";
  }

  lemma TypeEthernetLine(rest: Lines)
    ensures TextsOf(Cons(Type, "Ethernet", rest)) == ["TYPE=Ethernet"] + TextsOf(rest)
  {
    assert ToText(Line(Type, "Ethernet")) == "TYPE=Ethernet";
  }

  lemma IpAddrLine(rest: Lines)
    ensures TextsOf(Cons(IpAddr, "1.2.3.4", rest)) == ["IPADDR=1.2.3.4"] + TextsOf(rest)
  {
    assert ToText(Line(IpAddr, "1.2.3.4")) == "IPADDR=1.2.3.4";
  }

  lemma NetmaskLine(rest: Lines)
    ensures TextsOf(Cons(Netmask, "255.255.255.0", rest)) == ["NETMASK=255.255.255.0"] + TextsOf(rest)
  {
    assert ToText(Line(Netmask, "255.255.255.0")) == "NETMASK=255.255.255.0";
  }

  lemma NmControlledYesLine(rest: Lines)
    ensures TextsOf(Cons(NmControlled, "yes", rest)) == ["NM_CONTROLLED=yes"] + TextsOf(rest)
  {
    assert ToText(Line(NmControlled, "yes")) == "NM_CONTROLLED=yes";
  }

  /** The TYPE, IPADDR and NETMASK lines every example shares, in front of `rest`. */
  function AddressedLines(rest: Lines): Lines {
    Cons(Type, "Ethernet", Cons(IpAddr, "1.2.3.4", Cons(Netmask, "255.255.255.0", rest)))
  }

  /** TYPE, IPADDR and NETMASK of the example address, in front of `rest`. */
  lemma AddressLines(rest: Lines)
    ensures TextsOf(AddressedLines(rest))
            == ["TYPE=Ethernet", "IPADDR=1.2.3.4", "NETMASK=255.255.255.0"] + TextsOf(rest)
  {
    NetmaskLine(rest);
    IpAddrLine(Cons(Netmask, "255.255.255.0", rest));
    TypeEthernetLine(Cons(IpAddr, "1.2.3.4", Cons(Netmask, "255.255.255.0", rest)));
  }

  // ---------------------------------------------------------------- state and device

  /** ONBOOT is written yes or no as the ensure state decides. */
  lemma OnBootLine(rest: Lines)
    ensures TextsOf(Cons(OnBoot, "yes", rest)) == ["ONBOOT=yes"] + TextsOf(rest)
    ensures TextsOf(Cons(OnBoot, "no", rest)) == ["ONBOOT=no"] + TextsOf(rest)
  {
    assert ToText(Line(OnBoot, "yes")) == "ONBOOT=yes";
    assert ToText(Line(OnBoot, "no")) == "ONBOOT=no";
  }

  /** HOTPLUG follows ONBOOT. */
  lemma HotPlugLine(rest: Lines)
    ensures TextsOf(Cons(HotPlug, "yes", rest)) == ["HOTPLUG=yes"] + TextsOf(rest)
    ensures TextsOf(Cons(HotPlug, "no", rest)) == ["HOTPLUG=no"] + TextsOf(rest)
  {
    assert ToText(Line(HotPlug, "yes")) == "HOTPLUG=yes";
    assert ToText(Line(HotPlug, "no")) == "HOTPLUG=no";
  }

  /** The DEVICE line of each example: eth1, eth0 and the VLAN eth6.203. */
  lemma DeviceLine(rest: Lines)
    ensures TextsOf(Cons(Device, "eth1", rest)) == ["DEVICE=eth1"] + TextsOf(rest)
    ensures TextsOf(Cons(Device, "eth0", rest)) == ["DEVICE=eth0"] + TextsOf(rest)
    ensures TextsOf(Cons(Device, "eth6.203", rest)) == ["DEVICE=eth6.203"] + TextsOf(rest)
  {
    assert ToText(Line(Device, "eth1")) == "DEVICE=eth1";
    assert ToText(Line(Device, "eth0")) == "DEVICE=eth0";
    assert ToText(Line(Device, "eth6.203")) == "DEVICE=eth6.203";
  }

  /** The HWADDR line holding the MAC the host reports for the device. */
  lemma HwAddrFactLine(rest: Lines)
    ensures TextsOf(Cons(HwAddr, FactMac, rest)) == ["HWADDR=fe:fe:fe:aa:aa:aa"] + TextsOf(rest)
  {
    assert ToText(Line(HwAddr, FactMac)) == "HWADDR=fe:fe:fe:aa:aa:aa";
  }

  /** The HWADDR line of the VLAN example: the fact of the base device. Each
      MAC line has a lemma of its own, which keeps every proof small. */
  lemma HwAddrVlanLine(rest: Lines)
    ensures TextsOf(Cons(HwAddr, "bb:cc:bb:cc:bb:cc", rest)) == ["HWADDR=bb:cc:bb:cc:bb:cc"] + TextsOf(rest)
  {
    assert ToText(Line(HwAddr, "bb:cc:bb:cc:bb:cc")) == "HWADDR=bb:cc:bb:cc:bb:cc";
  }

  /** The HWADDR line of a declared `macaddress`. */
  lemma HwAddrExplicitLine(rest: Lines)
    ensures TextsOf(Cons(HwAddr, "ef:ef:ef:ef:ef:ef", rest)) == ["HWADDR=ef:ef:ef:ef:ef:ef"] + TextsOf(rest)
  {
    assert ToText(Line(HwAddr, "ef:ef:ef:ef:ef:ef")) == "HWADDR=ef:ef:ef:ef:ef:ef";
  }

  // ---------------------------------------------------------------- resolvers and IPv6

  /** PEERDNS is written yes or no. */
  lemma PeerDnsLine(rest: Lines)
    ensures TextsOf(Cons(PeerDns, "yes", rest)) == ["PEERDNS=yes"] + TextsOf(rest)
    ensures TextsOf(Cons(PeerDns, "no", rest)) == ["PEERDNS=no"] + TextsOf(rest)
  {
    assert ToText(Line(PeerDns, "yes")) == "PEERDNS=yes";
    assert ToText(Line(PeerDns, "no")) == "PEERDNS=no";
  }

  lemma Ipv6InitYesLine(rest: Lines)
    ensures TextsOf(Cons(Ipv6Init, "yes", rest)) == ["IPV6INIT=yes"] + TextsOf(rest)
  {
    assert ToText(Line(Ipv6Init, "yes")) == "IPV6INIT=yes";
  }

  /** An IPV6ADDR line holds the address as given. */
  lemma Ipv6AddrLine(a: string, rest: Lines)
    ensures TextsOf(Cons(Ipv6Addr, a, rest)) == ["IPV6ADDR=" + a] + TextsOf(rest)
  {
    assert ToText(Line(Ipv6Addr, a)) == "IPV6ADDR=" + a;
  }

  /** The secondaries line holds the further addresses space-joined
      between double quotes. */
  lemma Ipv6SecondariesLine(a: string, b: string, rest: Lines)
    ensures TextsOf(Cons(Ipv6Secondaries, Quote(a + " " + b), rest))
            == ["IPV6ADDR_SECONDARIES=\"" + a + " " + b + "\""] + TextsOf(rest)
  {
    assert ToText(Line(Ipv6Secondaries, Quote(a + " " + b))) == "IPV6ADDR_SECONDARIES=\"" + a + " " + b + "\"";
  }

  // ---------------------------------------------------------------- the optional parameters

  lemma GatewayLine(rest: Lines)
    ensures TextsOf(Cons(Gateway, "1.2.3.1", rest)) == ["GATEWAY=1.2.3.1"] + TextsOf(rest)
  {
    assert ToText(Line(Gateway, "1.2.3.1")) == "GATEWAY=1.2.3.1";
  }

  lemma MtuLine(rest: Lines)
    ensures TextsOf(Cons(Mtu, "9000", rest)) == ["MTU=9000"] + TextsOf(rest)
  {
    assert ToText(Line(Mtu, "9000")) == "MTU=9000";
  }

  lemma EthtoolOptsLine(rest: Lines)
    ensures TextsOf(Cons(EthtoolOpts, Quote("speed 1000 duplex full autoneg off"), rest))
            == ["ETHTOOL_OPTS=\"" + "speed 1000 duplex full autoneg off" + "\""] + TextsOf(rest)
  {
    assert ToText(Line(EthtoolOpts, Quote("speed 1000 duplex full autoneg off")))
        == "ETHTOOL_OPTS=\"" + "speed 1000 duplex full autoneg off" + "\"";
  }

  lemma Dns1Line(rest: Lines)
    ensures TextsOf(Cons(Dns1, "3.4.5.6", rest)) == ["DNS1=3.4.5.6"] + TextsOf(rest)
  {
    assert ToText(Line(Dns1, "3.4.5.6")) == "DNS1=3.4.5.6";
  }

  lemma Dns2Line(rest: Lines)
    ensures TextsOf(Cons(Dns2, "5.6.7.8", rest)) == ["DNS2=5.6.7.8"] + TextsOf(rest)
  {
    assert ToText(Line(Dns2, "5.6.7.8")) == "DNS2=5.6.7.8";
  }

  lemma DomainLine(rest: Lines)
    ensures TextsOf(Cons(Domain, Quote("somedomain.com"), rest)) == ["DOMAIN=\"somedomain.com\""] + TextsOf(rest)
  {
    assert ToText(Line(Domain, Quote("somedomain.com"))) == "DOMAIN=\"somedomain.com\"";
  }

  lemma UserCtlYesLine(rest: Lines)
    ensures TextsOf(Cons(UserCtl, "yes", rest)) == ["USERCTL=yes"] + TextsOf(rest)
  {
    assert ToText(Line(UserCtl, "yes")) == "USERCTL=yes";
  }

  lemma Ipv6AutoconfYesLine(rest: Lines)
    ensures TextsOf(Cons(Ipv6Autoconf, "yes", rest)) == ["IPV6_AUTOCONF=yes"] + TextsOf(rest)
  {
    assert ToText(Line(Ipv6Autoconf, "yes")) == "IPV6_AUTOCONF=yes";
  }

  /** An IPV6_DEFAULTGW line holds the gateway as given. */
  lemma Ipv6DefaultGwLine(g: string, rest: Lines)
    ensures TextsOf(Cons(Ipv6DefaultGw, g, rest)) == ["IPV6_DEFAULTGW=" + g] + TextsOf(rest)
  {
    assert ToText(Line(Ipv6DefaultGw, g)) == "IPV6_DEFAULTGW=" + g;
  }

  lemma Ipv6PeerDnsYesLine(rest: Lines)
    ensures TextsOf(Cons(Ipv6PeerDns, "yes", rest)) == ["IPV6_PEERDNS=yes"] + TextsOf(rest)
  {
    assert ToText(Line(Ipv6PeerDns, "yes")) == "IPV6_PEERDNS=yes";
  }

  lemma LinkDelayLine(rest: Lines)
    ensures TextsOf(Cons(LinkDelay, "5", rest)) == ["LINKDELAY=5"] + TextsOf(rest)
  {
    assert ToText(Line(LinkDelay, "5")) == "LINKDELAY=5";
  }

  lemma ScopeLine(rest: Lines)
    ensures TextsOf(Cons(Scope, Quote("peer 1.2.3.1"), rest)) == ["SCOPE=\"peer 1.2.3.1\""] + TextsOf(rest)
  {
    assert ToText(Line(Scope, Quote("peer 1.2.3.1"))) == "SCOPE=\"peer 1.2.3.1\"";
  }

  lemma DefRouteYesLine(rest: Lines)
    ensures TextsOf(Cons(DefRoute, "yes", rest)) == ["DEFROUTE=yes"] + TextsOf(rest)
  {
    assert ToText(Line(DefRoute, "yes")) == "DEFROUTE=yes";
  }

  lemma ZoneLine(rest: Lines)
    ensures TextsOf(Cons(Zone, "trusted", rest)) == ["ZONE=trusted"] + TextsOf(rest)
  {
    assert ToText(Line(Zone, "trusted")) == "ZONE=trusted";
  }

  lemma MetricLine(rest: Lines)
    ensures TextsOf(Cons(Metric, "10", rest)) == ["METRIC=10"] + TextsOf(rest)
  {
    assert ToText(Line(Metric, "10")) == "METRIC=10";
  }
}
