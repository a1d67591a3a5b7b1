/** The IPv6 list examples: a one-element list and a three-element list,
    the first address primary and the rest secondaries. */
module IPv6Lists {
  import opened Wrappers
  import opened Text
  import opened Validators
  import opened Model
  import opened Builder
  import opened Renderer
  import opened Contents
  import opened Literals
  import opened Expected
  import opened Spelling

  // ---------------------------------------------------------------- IPv6 lists

  /** The lines the one-element list example expects. */
  function SingleListExample(a: string): Lines {
    Front("eth1", Some(FactMac), "yes",
      Cons(PeerDns, "no",
      Cons(Ipv6Init, "yes",
      Cons(Ipv6Addr, a,
      Cons(NmControlled, "yes", End)))))
  }

  /** The lines the three-element list example expects: the first address
      as IPV6ADDR, the other two quoted and space-joined as secondaries. */
  function MultipleListExample(a1: string, a2: string, a3: string): Lines {
    Front("eth1", Some(FactMac), "yes",
      Cons(PeerDns, "no",
      Cons(Ipv6Init, "yes",
      Cons(Ipv6Addr, a1,
      Cons(Ipv6Secondaries, Quote(a2 + " " + a3),
      Cons(NmControlled, "yes", End))))))
  }

  /** The front of the list examples, up to IPV6INIT, in front of `rest`. */
  lemma ListFrontSpelled(rest: Lines)
    ensures TextsOf(Front("eth1", Some(FactMac), "yes", Cons(PeerDns, "no", Cons(Ipv6Init, "yes", rest)))) ==
            ["DEVICE=eth1", "BOOTPROTO=none", "HWADDR=fe:fe:fe:aa:aa:aa", "ONBOOT=yes", "HOTPLUG=yes",
             "TYPE=Ethernet", "IPADDR=1.2.3.4", "NETMASK=255.255.255.0", "PEERDNS=no", "IPV6INIT=yes"]
            + TextsOf(rest)
  {
    var t := Cons(Ipv6Init, "yes", rest);
    Ipv6InitYesLine(rest);
    PeerDnsLine(t);
    t := Cons(PeerDns, "no", t);
    AddressLines(t);
    t := AddressedLines(t);
    HotPlugLine(t);
    t := Cons(HotPlug, "yes", t);
    OnBootLine(t);
    t := Cons(OnBoot, "yes", t);
    HwAddrFactLine(t);
    t := Cons(HwAddr, FactMac, t);
    BootProtoNoneLine(t);
    t := Cons(BootProto, "none", t);
    DeviceLine(t);
  }

  /** The one-element list lines are, character for character, the strings
      the example lists, with the address as IPV6ADDR. */
  lemma SingleListText(a: string)
    ensures Texts(Listed(SingleListExample(a))) ==
            ["DEVICE=eth1", "BOOTPROTO=none", "HWADDR=fe:fe:fe:aa:aa:aa", "ONBOOT=yes", "HOTPLUG=yes",
             "TYPE=Ethernet", "IPADDR=1.2.3.4", "NETMASK=255.255.255.0", "PEERDNS=no", "IPV6INIT=yes",
             "IPV6ADDR=" + a, "NM_CONTROLLED=yes"]
  {
    var t := Cons(NmControlled, "yes", End);
    NmControlledYesLine(End);
    Ipv6AddrLine(a, t);
    ListFrontSpelled(Cons(Ipv6Addr, a, t));
    TextsOfListed(SingleListExample(a));
  }

  /** The three-element list lines written out line by line. */
  lemma MultipleListSpelled(a1: string, a2: string, a3: string)
    ensures TextsOf(MultipleListExample(a1, a2, a3)) ==
            ["DEVICE=eth1", "BOOTPROTO=none", "HWADDR=fe:fe:fe:aa:aa:aa", "ONBOOT=yes", "HOTPLUG=yes",
             "TYPE=Ethernet", "IPADDR=1.2.3.4", "NETMASK=255.255.255.0", "PEERDNS=no", "IPV6INIT=yes",
             "IPV6ADDR=" + a1, "IPV6ADDR_SECONDARIES=\"" + a2 + " " + a3 + "\"", "NM_CONTROLLED=yes"]
  {
    var t := Cons(NmControlled, "yes", End);
    NmControlledYesLine(End);
    Ipv6SecondariesLine(a2, a3, t);
    t := Cons(Ipv6Secondaries, Quote(a2 + " " + a3), t);
    Ipv6AddrLine(a1, t);
    ListFrontSpelled(Cons(Ipv6Addr, a1, t));
  }

  /** The three-element list lines are, character for character, the
      strings the example lists: the first address as IPV6ADDR, the other
      two space-joined in quotes as IPV6ADDR_SECONDARIES. */
  lemma MultipleListText(a1: string, a2: string, a3: string)
    ensures Texts(Listed(MultipleListExample(a1, a2, a3))) ==
            ["DEVICE=eth1", "BOOTPROTO=none", "HWADDR=fe:fe:fe:aa:aa:aa", "ONBOOT=yes", "HOTPLUG=yes",
             "TYPE=Ethernet", "IPADDR=1.2.3.4", "NETMASK=255.255.255.0", "PEERDNS=no", "IPV6INIT=yes",
             "IPV6ADDR=" + a1, "IPV6ADDR_SECONDARIES=\"" + a2 + " " + a3 + "\"", "NM_CONTROLLED=yes"]
  {
    MultipleListSpelled(a1, a2, a3);
    TextsOfListed(MultipleListExample(a1, a2, a3));
  }

  /** A declaration of `eth1` with `ipv6init => true` and the given list. */
  function WithV6List(xs: seq<string>): Params {
    Addressed("up", Some("eth1")).(ipv6init := Some(Flag(true)), ipv6address := Some(List(xs)))
  }

  /** The list declaration is accepted whenever every element is an IPv6
      value: it differs from the plain example only in IPv6 fields. */
  lemma V6ListAcceptable(xs: seq<string>)
    requires forall i :: 0 <= i < |xs| ==> IsIPv6(xs[i])
    ensures Acceptable(WithV6List(xs))
  {
    var a := Addressed("up", Some("eth1"));
    AddressedAcceptable("up", Some("eth1"));
    var p := WithV6List(xs);
    assert StateKnown(p) && Paired(p) && AddressesValid(p) by {
      assert p.ensure == a.ensure && p.ipaddress == a.ipaddress && p.netmask == a.netmask;
      assert p.gateway == a.gateway && p.dns1 == a.dns1 && p.dns2 == a.dns2 && p.macaddress == a.macaddress;
    }
    assert FlagsCoercible(p) by {
      assert p.userctl == a.userctl && p.peerdns == a.peerdns && p.ipv6autoconf == a.ipv6autoconf;
      assert p.ipv6peerdns == a.ipv6peerdns;
    }
  }

  lemma V6ListFacts(p: Params, xs: seq<string>, dev: string, mac: string)
    requires dev == "eth1" && p == WithV6List(xs)
    requires forall i :: 0 <= i < |xs| ==> IsIPv6(xs[i])
    ensures Acceptable(p) && p.ensure == "up" && p.manageHwaddr && p.macaddress.None? && p.peerdns.None?
    ensures p.ipaddress == Some("1.2.3.4") && p.netmask == Some("255.255.255.0")
    ensures p.ipv6init == Some(Flag(true)) && CoerceOpt(p.ipv6init) == Some(true)
    ensures IPv6Addresses(p.ipv6address) == xs
    ensures ResolveDevice("test1", p.device) == dev
    ensures MacFactKey(dev) in Facts("macaddress_eth1", mac) && Facts("macaddress_eth1", mac)[MacFactKey(dev)] == mac
  {
    V6ListAcceptable(xs);
    PlainFact(dev, mac);
  }

  /** An `eth1` declaration with a valid IPv6 list keeps the list in order. */
  lemma V6ListBuilt(p: Params, xs: seq<string>, dev: string, mac: string)
    requires dev == "eth1" && p == WithV6List(xs)
    requires forall i :: 0 <= i < |xs| ==> IsIPv6(xs[i])
    ensures var r := Build("test1", p, Facts("macaddress_eth1", mac));
            && r.Ok? && r.value.cfg.device == dev && r.value.cfg.state == Up
            && r.value.cfg.hwaddr == Some(mac) && !r.value.cfg.peerdns
            && r.value.cfg.ipaddress == Some("1.2.3.4") && r.value.cfg.netmask == Some("255.255.255.0")
            && r.value.cfg.ipv6init == Some(true) && r.value.cfg.ipv6addresses == xs
  {
    V6ListFacts(p, xs, dev, mac);
  }

  lemma SingleListRendered(c: Ifcfg, a: string)
    requires c.device == "eth1" && c.state == Up && c.hwaddr == Some(FactMac) && !c.peerdns
    requires c.ipaddress == Some("1.2.3.4") && c.netmask == Some("255.255.255.0")
    requires c.ipv6init == Some(true) && c.ipv6addresses == [a]
    ensures VerifyContents(RenderText(c), Texts(Listed(SingleListExample(a))))
  {
    ShownCons(c, NmControlled, "yes", End);
    var t := Cons(NmControlled, "yes", End);
    ShownCons(c, Ipv6Addr, a, t);
    t := Cons(Ipv6Addr, a, t);
    ShownCons(c, Ipv6Init, "yes", t);
    t := Cons(Ipv6Init, "yes", t);
    ShownCons(c, PeerDns, "no", t);
    t := Cons(PeerDns, "no", t);
    FrontShown(c, "eth1", Some(FactMac), "yes", t);
    Shows(c, SingleListExample(a));
  }

  /** A one-address list has no secondaries line. */
  lemma SingleHasNoSecondaries(c: Ifcfg, a: string)
    requires c.ipv6addresses == [a]
    ensures FieldValue(c, Ipv6Secondaries).None?
    ensures Lookup(Render(c), Ipv6Secondaries).None?
  {
  }

  /** The secondaries line holds the second and third address, quoted and
      joined by one space. */
  lemma SecondariesLine(c: Ifcfg, a1: string, a2: string, a3: string)
    requires c.ipv6addresses == [a1, a2, a3]
    ensures FieldValue(c, Ipv6Secondaries) == Some(Quote(a2 + " " + a3))
  {
    assert c.ipv6addresses[1..] == [a2, a3];
    assert Join([a3], ' ') == a3;
    assert Join([a2, a3], ' ') == a2 + " " + a3;
  }

  lemma MultipleListRendered(c: Ifcfg, a1: string, a2: string, a3: string)
    requires c.device == "eth1" && c.state == Up && c.hwaddr == Some(FactMac) && !c.peerdns
    requires c.ipaddress == Some("1.2.3.4") && c.netmask == Some("255.255.255.0")
    requires c.ipv6init == Some(true) && c.ipv6addresses == [a1, a2, a3]
    ensures VerifyContents(RenderText(c), Texts(Listed(MultipleListExample(a1, a2, a3))))
  {
    SecondariesLine(c, a1, a2, a3);
    ShownCons(c, NmControlled, "yes", End);
    var t := Cons(NmControlled, "yes", End);
    ShownCons(c, Ipv6Secondaries, Quote(a2 + " " + a3), t);
    t := Cons(Ipv6Secondaries, Quote(a2 + " " + a3), t);
    ShownCons(c, Ipv6Addr, a1, t);
    t := Cons(Ipv6Addr, a1, t);
    ShownCons(c, Ipv6Init, "yes", t);
    t := Cons(Ipv6Init, "yes", t);
    ShownCons(c, PeerDns, "no", t);
    t := Cons(PeerDns, "no", t);
    FrontShown(c, "eth1", Some(FactMac), "yes", t);
    Shows(c, MultipleListExample(a1, a2, a3));
  }

  /** A one-element list is the primary address alone. */
  lemma SingleList(p: Params, g: string)
    requires g == "cdee" && p == WithV6List([Example6(g)])
    ensures var r := Build("test1", p, Facts("macaddress_eth1", FactMac));
            && r.Ok? && VerifyContents(RenderText(r.value.cfg), Texts(Listed(SingleListExample(Example6(g)))))
            && Lookup(Render(r.value.cfg), Ipv6Secondaries).None?
  {
    ExampleGroup(g);
    Example6Valid(g);
    V6ListBuilt(p, [Example6(g)], "eth1", FactMac);
    SingleListRendered(Build("test1", p, Facts("macaddress_eth1", FactMac)).value.cfg, Example6(g));
    SingleHasNoSecondaries(Build("test1", p, Facts("macaddress_eth1", FactMac)).value.cfg, Example6(g));
  }

  /** Three valid addresses make a list of valid addresses. */
  lemma ThreeValid(a1: string, a2: string, a3: string)
    requires IsIPv6(a1) && IsIPv6(a2) && IsIPv6(a3)
    ensures forall i :: 0 <= i < |[a1, a2, a3]| ==> IsIPv6([a1, a2, a3][i])
  {
  }

  /** A three-element list: the first is primary, the rest secondaries. */
  lemma MultipleList(p: Params, g1: string, g2: string, g3: string)
    requires g1 == "cded" && g2 == "cdee" && g3 == "cdef"
    requires p == WithV6List([Example6(g1), Example6(g2), Example6(g3)])
    ensures var r := Build("test1", p, Facts("macaddress_eth1", FactMac));
            && r.Ok? && VerifyContents(RenderText(r.value.cfg), Texts(Listed(MultipleListExample(Example6(g1), Example6(g2), Example6(g3)))))
  {
    ExampleGroup(g1);
    ExampleGroup(g2);
    ExampleGroup(g3);
    Example6Valid(g1);
    Example6Valid(g2);
    Example6Valid(g3);
    ThreeValid(Example6(g1), Example6(g2), Example6(g3));
    V6ListBuilt(p, [Example6(g1), Example6(g2), Example6(g3)], "eth1", FactMac);
    MultipleListRendered(Build("test1", p, Facts("macaddress_eth1", FactMac)).value.cfg,
      Example6(g1), Example6(g2), Example6(g3));
  }
}
