/** The example that declares every optional parameter on an interface
    that is down. */
module OptionalParameters {
  import opened Wrappers
  import opened Text
  import opened Validators
  import opened Model
  import opened Builder
  import opened Renderer
  import opened Contents
  import opened Literals
  import opened Expected
  import opened Spelling

  // ---------------------------------------------------------------- optional parameters

  /** The validated values of the optional-parameters example, kept apart so
      that their validity is shown once. */
  datatype Given = Given(gateway: string, mac: string, dns1: string, dns2: string, v6: string, v6gateway: string)

  /** The values as the example writes them; the IPv6 ones through Example6. */
  predicate AsWritten(v: Given) {
    && v.gateway == "1.2.3.1" && v.mac == "ef:ef:ef:ef:ef:ef"
    && v.dns1 == "3.4.5.6" && v.dns2 == "5.6.7.8"
    && v.v6 == Example6("cdef") + "/64"
    && v.v6gateway == Example6("1")
  }

  /** Every optional parameter declared, with `ensure => 'down'`. */
  function OptionalDeclaration(v: Given): Params {
    Params("down", Some("eth1"), Some("1.2.3.4"), Some("255.255.255.0"), Some(v.gateway), Some(v.mac), true,
           Some(Flag(true)), Some("9000"), Some("speed 1000 duplex full autoneg off"), Some(Flag(true)),
           Some(v.dns1), Some(v.dns2), Some("somedomain.com"), Some(Flag(true)), Some(Flag(true)), Some(Flag(true)),
           Some(Single(v.v6)), Some(v.v6gateway), Some("5"), Some("peer 1.2.3.1"), Some("yes"), Some("10"),
           Some("trusted"), false)
  }

  /** The file model the declaration is expected to produce: the explicit
      MAC wins over the fact, every flag is `true`. */
  function OptionalConfig(v: Given): Ifcfg {
    Ifcfg("eth1", Down, Some(v.mac), Some("1.2.3.4"), Some("255.255.255.0"), Some(v.gateway), Some("9000"),
          Some("speed 1000 duplex full autoneg off"), true, Some(v.dns1), Some(v.dns2), Some("somedomain.com"),
          Some(true), Some(true), Some(true), [v.v6], Some(v.v6gateway), Some(true), Some("5"),
          Some("peer 1.2.3.1"), Some("yes"), Some("trusted"), Some("10"))
  }

  /** The lines the optional-parameters example expects, `DEVICE=eth1` to
      `NM_CONTROLLED=yes`. */
  function OptionalExample(v: Given): Lines {
    Front("eth1", Some(v.mac), "no", OptionalIPv4(v, OptionalIPv6(v, OptionalRouting())))
  }

  /** GATEWAY to DOMAIN, in front of `rest`. */
  function OptionalIPv4(v: Given, rest: Lines): Lines {
    Cons(Gateway, v.gateway,
    Cons(Mtu, "9000",
    Cons(EthtoolOpts, Quote("speed 1000 duplex full autoneg off"),
    Cons(PeerDns, "yes", OptionalResolvers(v, rest)))))
  }

  /** DNS1, DNS2 and DOMAIN, in front of `rest`. */
  function OptionalResolvers(v: Given, rest: Lines): Lines {
    Cons(Dns1, v.dns1,
    Cons(Dns2, v.dns2,
    Cons(Domain, Quote("somedomain.com"), rest)))
  }

  /** USERCTL to IPV6_PEERDNS, in front of `rest`. */
  function OptionalIPv6(v: Given, rest: Lines): Lines {
    Cons(UserCtl, "yes",
    Cons(Ipv6Init, "yes",
    Cons(Ipv6Autoconf, "yes", OptionalIPv6Addressing(v, rest))))
  }

  /** IPV6ADDR, IPV6_DEFAULTGW and IPV6_PEERDNS, in front of `rest`. */
  function OptionalIPv6Addressing(v: Given, rest: Lines): Lines {
    Cons(Ipv6Addr, v.v6,
    Cons(Ipv6DefaultGw, v.v6gateway,
    Cons(Ipv6PeerDns, "yes", rest)))
  }

  /** LINKDELAY to the closing NM_CONTROLLED line. */
  function OptionalRouting(): Lines {
    Cons(LinkDelay, "5",
    Cons(Scope, Quote("peer 1.2.3.1"),
    Cons(DefRoute, "yes",
    Cons(Zone, "trusted",
    Cons(Metric, "10",
    Cons(NmControlled, "yes", End))))))
  }

  // ---------------------------------------------------------------- the lines as the example writes them

  lemma OptionalFrontSpelled(rest: Lines)
    ensures TextsOf(Front("eth1", Some("ef:ef:ef:ef:ef:ef"), "no", rest)) ==
            ["DEVICE=eth1", "BOOTPROTO=none", "HWADDR=ef:ef:ef:ef:ef:ef", "ONBOOT=no", "HOTPLUG=no",
             "TYPE=Ethernet", "IPADDR=1.2.3.4", "NETMASK=255.255.255.0"] + TextsOf(rest)
  {
    AddressLines(rest);
    var t := AddressedLines(rest);
    HotPlugLine(t);
    t := Cons(HotPlug, "no", t);
    OnBootLine(t);
    t := Cons(OnBoot, "no", t);
    HwAddrExplicitLine(t);
    t := Cons(HwAddr, "ef:ef:ef:ef:ef:ef", t);
    BootProtoNoneLine(t);
    t := Cons(BootProto, "none", t);
    DeviceLine(t);
  }

  lemma OptionalIPv4Spelled(v: Given, rest: Lines)
    requires v.gateway == "1.2.3.1" && v.dns1 == "3.4.5.6" && v.dns2 == "5.6.7.8"
    ensures TextsOf(OptionalIPv4(v, rest)) ==
            ["GATEWAY=1.2.3.1", "MTU=9000", "ETHTOOL_OPTS=\"" + "speed 1000 duplex full autoneg off" + "\"",
             "PEERDNS=yes", "DNS1=3.4.5.6", "DNS2=5.6.7.8", "DOMAIN=\"somedomain.com\""] + TextsOf(rest)
  {
    DomainLine(rest);
    var t := Cons(Domain, Quote("somedomain.com"), rest);
    Dns2Line(t);
    t := Cons(Dns2, "5.6.7.8", t);
    Dns1Line(t);
    t := Cons(Dns1, "3.4.5.6", t);
    PeerDnsLine(t);
    t := Cons(PeerDns, "yes", t);
    EthtoolOptsLine(t);
    t := Cons(EthtoolOpts, Quote("speed 1000 duplex full autoneg off"), t);
    MtuLine(t);
    t := Cons(Mtu, "9000", t);
    GatewayLine(t);
  }

  lemma OptionalIPv6Spelled(v: Given, rest: Lines)
    ensures TextsOf(OptionalIPv6(v, rest)) ==
            ["USERCTL=yes", "IPV6INIT=yes", "IPV6_AUTOCONF=yes", "IPV6ADDR=" + v.v6,
             "IPV6_DEFAULTGW=" + v.v6gateway, "IPV6_PEERDNS=yes"] + TextsOf(rest)
  {
    Ipv6PeerDnsYesLine(rest);
    var t := Cons(Ipv6PeerDns, "yes", rest);
    Ipv6DefaultGwLine(v.v6gateway, t);
    t := Cons(Ipv6DefaultGw, v.v6gateway, t);
    Ipv6AddrLine(v.v6, t);
    t := Cons(Ipv6Addr, v.v6, t);
    Ipv6AutoconfYesLine(t);
    t := Cons(Ipv6Autoconf, "yes", t);
    Ipv6InitYesLine(t);
    t := Cons(Ipv6Init, "yes", t);
    UserCtlYesLine(t);
  }

  lemma OptionalRoutingSpelled()
    ensures TextsOf(OptionalRouting()) ==
            ["LINKDELAY=5", "SCOPE=\"peer 1.2.3.1\"", "DEFROUTE=yes", "ZONE=trusted", "METRIC=10", "NM_CONTROLLED=yes"]
  {
    NmControlledYesLine(End);
    var t := Cons(NmControlled, "yes", End);
    MetricLine(t);
    t := Cons(Metric, "10", t);
    ZoneLine(t);
    t := Cons(Zone, "trusted", t);
    DefRouteYesLine(t);
    t := Cons(DefRoute, "yes", t);
    ScopeLine(t);
    t := Cons(Scope, Quote("peer 1.2.3.1"), t);
    LinkDelayLine(t);
  }

  /** The optional-parameters lines written out, the IPv6 values as given. */
  lemma OptionalSpelled(v: Given)
    requires v.gateway == "1.2.3.1" && v.mac == "ef:ef:ef:ef:ef:ef" && v.dns1 == "3.4.5.6" && v.dns2 == "5.6.7.8"
    ensures TextsOf(OptionalExample(v)) ==
            ["DEVICE=eth1", "BOOTPROTO=none", "HWADDR=ef:ef:ef:ef:ef:ef", "ONBOOT=no", "HOTPLUG=no",
             "TYPE=Ethernet", "IPADDR=1.2.3.4", "NETMASK=255.255.255.0",
             "GATEWAY=1.2.3.1", "MTU=9000", "ETHTOOL_OPTS=\"" + "speed 1000 duplex full autoneg off" + "\"",
             "PEERDNS=yes", "DNS1=3.4.5.6", "DNS2=5.6.7.8", "DOMAIN=\"somedomain.com\"",
             "USERCTL=yes", "IPV6INIT=yes", "IPV6_AUTOCONF=yes", "IPV6ADDR=" + v.v6,
             "IPV6_DEFAULTGW=" + v.v6gateway, "IPV6_PEERDNS=yes",
             "LINKDELAY=5", "SCOPE=\"peer 1.2.3.1\"", "DEFROUTE=yes", "ZONE=trusted", "METRIC=10", "NM_CONTROLLED=yes"]
  {
    OptionalRoutingSpelled();
    OptionalIPv6Spelled(v, OptionalRouting());
    OptionalIPv4Spelled(v, OptionalIPv6(v, OptionalRouting()));
    OptionalFrontSpelled(OptionalIPv4(v, OptionalIPv6(v, OptionalRouting())));
  }

  /** The optional-parameters lines are, character for character, the
      strings the example lists; the two IPv6 values are the example's
      literals `123:4567:89ab:cdef:123:4567:89ab:cdef/64` and
      `123:4567:89ab:cdef:123:4567:89ab:1`. */
  lemma OptionalText(v: Given)
    requires AsWritten(v)
    ensures Texts(Listed(OptionalExample(v))) ==
            ["DEVICE=eth1", "BOOTPROTO=none", "HWADDR=ef:ef:ef:ef:ef:ef", "ONBOOT=no", "HOTPLUG=no",
             "TYPE=Ethernet", "IPADDR=1.2.3.4", "NETMASK=255.255.255.0",
             "GATEWAY=1.2.3.1", "MTU=9000", "ETHTOOL_OPTS=\"" + "speed 1000 duplex full autoneg off" + "\"",
             "PEERDNS=yes", "DNS1=3.4.5.6", "DNS2=5.6.7.8", "DOMAIN=\"somedomain.com\"",
             "USERCTL=yes", "IPV6INIT=yes", "IPV6_AUTOCONF=yes", "IPV6ADDR=" + (Example6("cdef") + "/64"),
             "IPV6_DEFAULTGW=" + Example6("1"), "IPV6_PEERDNS=yes",
             "LINKDELAY=5", "SCOPE=\"peer 1.2.3.1\"", "DEFROUTE=yes", "ZONE=trusted", "METRIC=10", "NM_CONTROLLED=yes"]
  {
    OptionalSpelled(v);
    TextsOfListed(OptionalExample(v));
  }

  lemma WrittenMac(mac: string)
    requires mac == "ef:ef:ef:ef:ef:ef"
    ensures IsMac(mac)
  {
    var pairs := ["ef", "ef", "ef", "ef", "ef", "ef"];
    MacFormAccepted(pairs);
    assert Join(pairs, ':') == mac;
  }

  lemma SixtyFour(a: string)
    ensures a + "/" + NatToDecimal(64) == a + "/64"
  {
    assert NatToDecimal(64) == "64";
  }

  lemma WrittenPrefixed(v6: string, last: string)
    requires IsHexGroup(last) && v6 == Example6(last) + "/64"
    ensures IsIPv6(v6)
  {
    var a := Example6(last);
    Example6Valid(last);
    AddressWithPrefixAccepted(a, 64);
    SixtyFour(a);
  }

  /** The written values pass their validators. */
  lemma WrittenValid(v: Given)
    requires AsWritten(v)
    ensures IsIPv4(v.gateway) && IsIPv4(v.dns1) && IsIPv4(v.dns2) && IsMac(v.mac)
    ensures IsIPv6(v.v6) && IsIPv6(v.v6gateway)
  {
    DigitQuadValid(v.gateway, '1', '2', '3', '1');
    DigitQuadValid(v.dns1, '3', '4', '5', '6');
    DigitQuadValid(v.dns2, '5', '6', '7', '8');
    WrittenMac(v.mac);
    ExampleGroup("cdef");
    WrittenPrefixed(v.v6, "cdef");
    ExampleGroup("1");
    Example6Valid("1");
  }

  lemma OptionalAcceptable(p: Params, v: Given)
    requires IsIPv4(v.gateway) && IsIPv4(v.dns1) && IsIPv4(v.dns2) && IsMac(v.mac)
    requires IsIPv6(v.v6) && IsIPv6(v.v6gateway)
    requires p == OptionalDeclaration(v)
    ensures Acceptable(p) && p.ensure == "down" && p.manageHwaddr && p.macaddress == Some(v.mac)
    ensures ResolveDevice("test1", p.device) == "eth1"
  {
    HostAddressValid();
    assert StateKnown(p) && Paired(p);
    assert AddressesValid(p);
    assert IPv6FieldsValid(p);
    assert FlagsCoercible(p);
  }

  /** Every optional parameter is carried into the file model, the explicit
      MAC taking precedence over the discovered one. */
  lemma OptionalBuilt(p: Params, v: Given, mac: string)
    requires IsIPv4(v.gateway) && IsIPv4(v.dns1) && IsIPv4(v.dns2) && IsMac(v.mac)
    requires IsIPv6(v.v6) && IsIPv6(v.v6gateway)
    requires p == OptionalDeclaration(v)
    ensures var r := Build("test1", p, Facts("macaddress_eth1", mac));
            r.Ok? && r.value.cfg == OptionalConfig(v)
  {
    OptionalAcceptable(p, v);
  }

  lemma OptionalRendered(c: Ifcfg, v: Given)
    requires c == OptionalConfig(v)
    ensures VerifyContents(RenderText(c), Texts(Listed(OptionalExample(v))))
  {
    OptionalRoutingShown(c);
    OptionalIPv6Shown(c, v, OptionalRouting());
    OptionalIPv4Shown(c, v, OptionalIPv6(v, OptionalRouting()));
    FrontShown(c, "eth1", Some(v.mac), "no", OptionalIPv4(v, OptionalIPv6(v, OptionalRouting())));
    Shows(c, OptionalExample(v));
  }

  lemma OptionalIPv4Shown(c: Ifcfg, v: Given, rest: Lines)
    requires c.gateway == Some(v.gateway) && c.mtu == Some("9000") && c.peerdns
    requires c.ethtoolOpts == Some("speed 1000 duplex full autoneg off")
    requires c.dns1 == Some(v.dns1) && c.dns2 == Some(v.dns2) && c.domain == Some("somedomain.com")
    requires Shown(c, rest) && rest.Cons? && Rank(Domain) < Rank(rest.key)
    ensures Shown(c, OptionalIPv4(v, rest))
  {
    OptionalResolversShown(c, v, rest);
    var t := OptionalResolvers(v, rest);
    ShownCons(c, PeerDns, "yes", t);
    t := Cons(PeerDns, "yes", t);
    ShownCons(c, EthtoolOpts, Quote("speed 1000 duplex full autoneg off"), t);
    t := Cons(EthtoolOpts, Quote("speed 1000 duplex full autoneg off"), t);
    ShownCons(c, Mtu, "9000", t);
    t := Cons(Mtu, "9000", t);
    ShownCons(c, Gateway, v.gateway, t);
  }

  lemma OptionalResolversShown(c: Ifcfg, v: Given, rest: Lines)
    requires c.dns1 == Some(v.dns1) && c.dns2 == Some(v.dns2) && c.domain == Some("somedomain.com")
    requires Shown(c, rest) && rest.Cons? && Rank(Domain) < Rank(rest.key)
    ensures Shown(c, OptionalResolvers(v, rest))
  {
    ShownCons(c, Domain, Quote("somedomain.com"), rest);
    var t := Cons(Domain, Quote("somedomain.com"), rest);
    ShownCons(c, Dns2, v.dns2, t);
    t := Cons(Dns2, v.dns2, t);
    ShownCons(c, Dns1, v.dns1, t);
  }

  lemma OptionalIPv6Shown(c: Ifcfg, v: Given, rest: Lines)
    requires c.userctl == Some(true) && c.ipv6init == Some(true) && c.ipv6autoconf == Some(true)
    requires c.ipv6addresses == [v.v6] && c.ipv6gateway == Some(v.v6gateway) && c.ipv6peerdns == Some(true)
    requires Shown(c, rest) && rest.Cons? && Rank(Ipv6PeerDns) < Rank(rest.key)
    ensures Shown(c, OptionalIPv6(v, rest))
  {
    OptionalIPv6AddressingShown(c, v, rest);
    var t := OptionalIPv6Addressing(v, rest);
    ShownCons(c, Ipv6Autoconf, "yes", t);
    t := Cons(Ipv6Autoconf, "yes", t);
    ShownCons(c, Ipv6Init, "yes", t);
    t := Cons(Ipv6Init, "yes", t);
    ShownCons(c, UserCtl, "yes", t);
  }

  lemma OptionalIPv6AddressingShown(c: Ifcfg, v: Given, rest: Lines)
    requires c.ipv6addresses == [v.v6] && c.ipv6gateway == Some(v.v6gateway) && c.ipv6peerdns == Some(true)
    requires Shown(c, rest) && rest.Cons? && Rank(Ipv6PeerDns) < Rank(rest.key)
    ensures Shown(c, OptionalIPv6Addressing(v, rest))
  {
    ShownCons(c, Ipv6PeerDns, "yes", rest);
    var t := Cons(Ipv6PeerDns, "yes", rest);
    ShownCons(c, Ipv6DefaultGw, v.v6gateway, t);
    t := Cons(Ipv6DefaultGw, v.v6gateway, t);
    ShownCons(c, Ipv6Addr, v.v6, t);
  }

  lemma OptionalRoutingShown(c: Ifcfg)
    requires c.linkdelay == Some("5") && c.scope == Some("peer 1.2.3.1") && c.defroute == Some("yes")
    requires c.zone == Some("trusted") && c.metric == Some("10")
    ensures Shown(c, OptionalRouting())
  {
    ShownCons(c, NmControlled, "yes", End);
    var t := Cons(NmControlled, "yes", End);
    ShownCons(c, Metric, "10", t);
    t := Cons(Metric, "10", t);
    ShownCons(c, Zone, "trusted", t);
    t := Cons(Zone, "trusted", t);
    ShownCons(c, DefRoute, "yes", t);
    t := Cons(DefRoute, "yes", t);
    ShownCons(c, Scope, Quote("peer 1.2.3.1"), t);
    t := Cons(Scope, Quote("peer 1.2.3.1"), t);
    ShownCons(c, LinkDelay, "5", t);
  }

  /** The optional-parameters example end to end: an interface declared
      down is written with ONBOOT=no and HOTPLUG=no and every optional key. */
  lemma Optional(p: Params, v: Given)
    requires AsWritten(v) && p == OptionalDeclaration(v)
    ensures var r := Build("test1", p, Facts("macaddress_eth1", FactMac));
            && r.Ok? && VerifyContents(RenderText(r.value.cfg), Texts(Listed(OptionalExample(v))))
  {
    WrittenValid(v);
    OptionalBuilt(p, v, FactMac);
    OptionalRendered(Build("test1", p, Facts("macaddress_eth1", FactMac)).value.cfg, v);
  }
}
