/** Reading an `ifcfg` file back: an independent reader of the rendered
    lines, used to show that the file states the whole model and nothing is
    lost or confused between keys. */
module ReadBack {
  import opened Wrappers
  import opened Text
  import opened Model
  import opened Renderer

  /** Strips one pair of surrounding double quotes, if present. */
  function Unquote(v: string): string {
    if |v| >= 2 && v[0] == '"' && v[|v| - 1] == '"' then v[1..|v| - 1] else v
  }

  function UnquoteOpt(v: Option<string>): Option<string> {
    match v
    case Some(s) => Some(Unquote(s))
    case None => None
  }

  function ReadBool(v: Option<string>): Option<bool> {
    match v
    case Some(s) => Some(s == "yes")
    case None => None
  }

  /** The primary address, then the space-separated secondaries. */
  function ReadAddresses(primary: Option<string>, secondaries: Option<string>): seq<string> {
    match primary
    case None => []
    case Some(a) =>
      [a] + match secondaries
            case None => []
            case Some(s) => Split(Unquote(s), ' ')
  }

  /** What the file says for every key, indexed by rank. */
  function Table(lines: seq<Line>): (t: seq<Option<string>>)
    ensures |t| == KeyCount
  {
    seq(KeyCount, n requires 0 <= n < KeyCount => Lookup(lines, KeyAt(n)))
  }

  function Get(t: seq<Option<string>>, k: Key): Option<string>
    requires |t| == KeyCount
  {
    t[Rank(k)]
  }

  /** The interface a table of key values describes. */
  function ReadValues(t: seq<Option<string>>): Ifcfg
    requires |t| == KeyCount
  {
    Ifcfg(
      device := Get(t, Device).GetOr(""),
      state := if Get(t, OnBoot) == Some("yes") then Up else Down,
      hwaddr := Get(t, HwAddr),
      ipaddress := Get(t, IpAddr),
      netmask := Get(t, Netmask),
      gateway := Get(t, Gateway),
      mtu := Get(t, Mtu),
      ethtoolOpts := UnquoteOpt(Get(t, EthtoolOpts)),
      peerdns := Get(t, PeerDns) == Some("yes"),
      dns1 := Get(t, Dns1),
      dns2 := Get(t, Dns2),
      domain := UnquoteOpt(Get(t, Domain)),
      userctl := ReadBool(Get(t, UserCtl)),
      ipv6init := ReadBool(Get(t, Ipv6Init)),
      ipv6autoconf := ReadBool(Get(t, Ipv6Autoconf)),
      ipv6addresses := ReadAddresses(Get(t, Ipv6Addr), Get(t, Ipv6Secondaries)),
      ipv6gateway := Get(t, Ipv6DefaultGw),
      ipv6peerdns := ReadBool(Get(t, Ipv6PeerDns)),
      linkdelay := Get(t, LinkDelay),
      scope := UnquoteOpt(Get(t, Scope)),
      defroute := Get(t, DefRoute),
      zone := Get(t, Zone),
      metric := Get(t, Metric))
  }

  /** The interface an `ifcfg` file describes, reading each key's first line. */
  function ReadIfcfg(lines: seq<Line>): Ifcfg {
    ReadValues(Table(lines))
  }

  lemma UnquoteQuote(s: string)
    ensures Unquote(Quote(s)) == s
  {
    assert Quote(s)[1..|Quote(s)| - 1] == s;
  }

  /** The quoted free-text fields read back to the declared text. */
  lemma UnquoteQuoteOpt(v: Option<string>)
    ensures UnquoteOpt(QuoteOpt(v)) == v
  {
    if v.Some? {
      UnquoteQuote(v.value);
    }
  }

  /** A primary address and its quoted, space-joined secondaries read back
      to the list, provided no address is empty or holds a space. */
  lemma ReadJoined(xs: seq<string>)
    requires |xs| > 1
    requires forall i :: 0 <= i < |xs| ==> ' ' !in xs[i]
    ensures ReadAddresses(Some(xs[0]), Some(Quote(Join(xs[1..], ' ')))) == xs
  {
    var rest := xs[1..];
    UnquoteQuote(Join(rest, ' '));
    forall j | 0 <= j < |rest|
      ensures ' ' !in rest[j]
    {
      assert rest[j] == xs[j + 1];
    }
    SplitJoin(rest, ' ');
    assert [xs[0]] + rest == xs;
  }

  /** The IPv6 lines read back to the ordered address list: the primary
      address first, the secondaries after it in order. */
  lemma ReadIPv6Addresses(c: Ifcfg)
    requires WellFormed(c)
    ensures ReadAddresses(FieldValue(c, Ipv6Addr), FieldValue(c, Ipv6Secondaries)) == c.ipv6addresses
  {
    var xs := c.ipv6addresses;
    var primary := FieldValue(c, Ipv6Addr);
    var secondaries := FieldValue(c, Ipv6Secondaries);
    if |xs| == 0 {
      assert primary == None;
    } else if |xs| == 1 {
      assert primary == Some(xs[0]) && secondaries == None;
      assert [xs[0]] == xs;
    } else {
      assert primary == Some(xs[0]) && secondaries == Some(Quote(Join(xs[1..], ' ')));
      ReadJoined(xs);
    }
  }

  /** A yes/no value reads back to the flag it was written from. */
  lemma ReadYesNo(b: bool)
    ensures (Some(YesNo(b)) == Some("yes")) == b
    ensures ReadBool(Some(YesNo(b))) == Some(b)
  {
    if !b {
      assert YesNo(b)[0] == 'n';
    }
  }

  lemma ReadYesNoOpt(v: Option<bool>)
    ensures ReadBool(YesNoOpt(v)) == v
  {
    if v.Some? {
      ReadYesNo(v.value);
    }
  }

  /** The device and IPv4 fields, written verbatim, read back unchanged. */
  lemma ReadAddressFields(t: seq<Option<string>>, c: Ifcfg)
    requires |t| == KeyCount
    requires forall k :: Get(t, k) == FieldValue(c, k)
    ensures ReadValues(t).device == c.device
    ensures ReadValues(t).hwaddr == c.hwaddr
    ensures ReadValues(t).ipaddress == c.ipaddress
    ensures ReadValues(t).netmask == c.netmask
    ensures ReadValues(t).gateway == c.gateway
    ensures ReadValues(t).mtu == c.mtu
  {
    assert Get(t, Device) == FieldValue(c, Device) == Some(c.device);
    assert Get(t, HwAddr) == FieldValue(c, HwAddr) == c.hwaddr;
    assert Get(t, IpAddr) == FieldValue(c, IpAddr) == c.ipaddress;
    assert Get(t, Netmask) == FieldValue(c, Netmask) == c.netmask;
    assert Get(t, Gateway) == FieldValue(c, Gateway) == c.gateway;
    assert Get(t, Mtu) == FieldValue(c, Mtu) == c.mtu;
  }

  /** The DNS servers and the IPv6 gateway, written verbatim, read back unchanged. */
  lemma ReadResolverFields(t: seq<Option<string>>, c: Ifcfg)
    requires |t| == KeyCount
    requires forall k :: Get(t, k) == FieldValue(c, k)
    ensures ReadValues(t).dns1 == c.dns1
    ensures ReadValues(t).dns2 == c.dns2
    ensures ReadValues(t).ipv6gateway == c.ipv6gateway
  {
    assert Get(t, Dns1) == FieldValue(c, Dns1) == c.dns1;
    assert Get(t, Dns2) == FieldValue(c, Dns2) == c.dns2;
    assert Get(t, Ipv6DefaultGw) == FieldValue(c, Ipv6DefaultGw) == c.ipv6gateway;
  }

  /** The routing and firewall fields, written verbatim, read back unchanged. */
  lemma ReadRoutingFields(t: seq<Option<string>>, c: Ifcfg)
    requires |t| == KeyCount
    requires forall k :: Get(t, k) == FieldValue(c, k)
    ensures ReadValues(t).linkdelay == c.linkdelay
    ensures ReadValues(t).defroute == c.defroute
    ensures ReadValues(t).zone == c.zone
    ensures ReadValues(t).metric == c.metric
  {
    assert Get(t, LinkDelay) == FieldValue(c, LinkDelay) == c.linkdelay;
    assert Get(t, DefRoute) == FieldValue(c, DefRoute) == c.defroute;
    assert Get(t, Zone) == FieldValue(c, Zone) == c.zone;
    assert Get(t, Metric) == FieldValue(c, Metric) == c.metric;
  }

  /** The quoted free-text fields read back to the declared text. */
  lemma ReadQuotedFields(t: seq<Option<string>>, c: Ifcfg)
    requires |t| == KeyCount
    requires forall k :: Get(t, k) == FieldValue(c, k)
    ensures ReadValues(t).ethtoolOpts == c.ethtoolOpts
    ensures ReadValues(t).domain == c.domain
    ensures ReadValues(t).scope == c.scope
  {
    assert Get(t, EthtoolOpts) == FieldValue(c, EthtoolOpts) == QuoteOpt(c.ethtoolOpts);
    assert Get(t, Domain) == FieldValue(c, Domain) == QuoteOpt(c.domain);
    assert Get(t, Scope) == FieldValue(c, Scope) == QuoteOpt(c.scope);
    UnquoteQuoteOpt(c.ethtoolOpts);
    UnquoteQuoteOpt(c.domain);
    UnquoteQuoteOpt(c.scope);
  }

  /** ONBOOT and PEERDNS read back to the state and the flag they were
      written from. */
  lemma ReadStateFields(t: seq<Option<string>>, c: Ifcfg)
    requires |t| == KeyCount
    requires forall k :: Get(t, k) == FieldValue(c, k)
    ensures ReadValues(t).state == c.state
    ensures ReadValues(t).peerdns == c.peerdns
  {
    assert Get(t, OnBoot) == FieldValue(c, OnBoot) == Some(YesNo(c.state == Up));
    assert Get(t, PeerDns) == FieldValue(c, PeerDns) == Some(YesNo(c.peerdns));
    ReadYesNo(c.state == Up);
    ReadYesNo(c.peerdns);
  }

  /** The optional yes/no fields read back to the flags they were written from. */
  lemma ReadBooleanFields(t: seq<Option<string>>, c: Ifcfg)
    requires |t| == KeyCount
    requires forall k :: Get(t, k) == FieldValue(c, k)
    ensures ReadValues(t).userctl == c.userctl
    ensures ReadValues(t).ipv6init == c.ipv6init
    ensures ReadValues(t).ipv6autoconf == c.ipv6autoconf
    ensures ReadValues(t).ipv6peerdns == c.ipv6peerdns
  {
    assert Get(t, UserCtl) == FieldValue(c, UserCtl) == YesNoOpt(c.userctl);
    assert Get(t, Ipv6Init) == FieldValue(c, Ipv6Init) == YesNoOpt(c.ipv6init);
    assert Get(t, Ipv6Autoconf) == FieldValue(c, Ipv6Autoconf) == YesNoOpt(c.ipv6autoconf);
    assert Get(t, Ipv6PeerDns) == FieldValue(c, Ipv6PeerDns) == YesNoOpt(c.ipv6peerdns);
    ReadYesNoOpt(c.userctl);
    ReadYesNoOpt(c.ipv6init);
    ReadYesNoOpt(c.ipv6autoconf);
    ReadYesNoOpt(c.ipv6peerdns);
  }

  /** Any table holding the model's own key values reads back to the model. */
  lemma ReadSlots(t: seq<Option<string>>, c: Ifcfg)
    requires WellFormed(c)
    requires |t| == KeyCount
    requires forall k :: Get(t, k) == FieldValue(c, k)
    ensures ReadValues(t) == c
  {
    ReadAddressFields(t, c);
    ReadResolverFields(t, c);
    ReadRoutingFields(t, c);
    ReadQuotedFields(t, c);
    ReadStateFields(t, c);
    ReadBooleanFields(t, c);
    ReadIPv6Addresses(c);
    var r := ReadValues(t);
    assert r.ipv6addresses == c.ipv6addresses;
  }

  /** Looking every key up in the rendered file finds the model's values. */
  lemma TableRender(c: Ifcfg)
    ensures Table(Render(c)) == Slots(c)
  {
    forall n | 0 <= n < KeyCount
      ensures Table(Render(c))[n] == Slots(c)[n]
    {
      assert Slots(c)[Rank(KeyAt(n))] == FieldValue(c, KeyAt(n));
    }
  }

  /** Reading the rendered lines gives back the model: every field is
      written under its own key, booleans as yes/no, free text quoted, and
      the IPv6 list as a primary plus space-joined secondaries. */
  lemma ReadRender(c: Ifcfg)
    requires WellFormed(c)
    ensures ReadIfcfg(Render(c)) == c
  {
    TableRender(c);
    ReadSlots(Slots(c), c);
  }

  // ---------------------------------------------------------------- text

  /** No two keys share a name; shown one block of the file at a time. */
  lemma KeyNameInjective(a: Key, b: Key)
    ensures KeyName(a) == KeyName(b) ==> a == b
  {
    if Rank(a) < 6 {
      HeaderNamesDistinct(a, b);
    } else if Rank(a) < 15 {
      IPv4NamesDistinct(a, b);
    } else if Rank(a) < 22 {
      IPv6NamesDistinct(a, b);
    } else {
      RoutingNamesDistinct(a, b);
    }
  }

  /** DEVICE to TYPE name no other key. */
  lemma HeaderNamesDistinct(a: Key, b: Key)
    requires Rank(a) < 6
    ensures KeyName(a) == KeyName(b) ==> a == b
  {
  }

  /** IPADDR to DOMAIN name no other key. */
  lemma IPv4NamesDistinct(a: Key, b: Key)
    requires 6 <= Rank(a) < 15
    ensures KeyName(a) == KeyName(b) ==> a == b
  {
  }

  /** USERCTL to IPV6_PEERDNS name no other key. */
  lemma IPv6NamesDistinct(a: Key, b: Key)
    requires 15 <= Rank(a) < 22
    ensures KeyName(a) == KeyName(b) ==> a == b
  {
  }

  /** LINKDELAY to NM_CONTROLLED name no other key. */
  lemma RoutingNamesDistinct(a: Key, b: Key)
    requires 22 <= Rank(a)
    ensures KeyName(a) == KeyName(b) ==> a == b
  {
  }

  /** No key name holds `=`, so a line splits at the end of its name. */
  lemma KeyNameHasNoEquals(k: Key)
    ensures '=' !in KeyName(k)
  {
    if Rank(k) < 15 {
      LowerNamesHaveNoEquals(k);
    } else {
      UpperNamesHaveNoEquals(k);
    }
  }

  lemma LowerNamesHaveNoEquals(k: Key)
    requires Rank(k) < 15
    ensures '=' !in KeyName(k)
  {
  }

  lemma UpperNamesHaveNoEquals(k: Key)
    requires 15 <= Rank(k)
    ensures '=' !in KeyName(k)
  {
  }

  /** The first key of rank `n` or more with the given name. */
  function FindKey(name: string, n: nat): Option<Key>
    decreases KeyCount - n
  {
    if n >= KeyCount then None
    else if KeyName(KeyAt(n)) == name then Some(KeyAt(n))
    else FindKey(name, n + 1)
  }

  function KeyOf(name: string): Option<Key> {
    FindKey(name, 0)
  }

  lemma {:induction false} FindKeyName(k: Key, n: nat)
    requires n <= Rank(k)
    ensures FindKey(KeyName(k), n) == Some(k)
    decreases KeyCount - n
  {
    KeyNameInjective(KeyAt(n), k);
    RankInjective(KeyAt(n), k);
    if KeyAt(n) != k {
      FindKeyName(k, n + 1);
    }
  }

  /** A text line split at its first `=`: a known key name, then the value. */
  function ParseLine(t: string): Option<Line> {
    if '=' !in t then None
    else
      var i := FirstIndex(t, '=');
      match KeyOf(t[..i])
      case Some(k) => Some(Line(k, t[i + 1..]))
      case None => None
  }

  /** Text lines parsed one by one; lines that do not parse are skipped. */
  function ParseLines(text: seq<string>): seq<Line> {
    if |text| == 0 then []
    else
      (match ParseLine(text[0]) case Some(l) => [l] case None => []) + ParseLines(text[1..])
  }

  /** A written line parses back to itself, whatever its value holds
      (including further `=` signs). */
  lemma ParseToText(l: Line)
    ensures ParseLine(ToText(l)) == Some(l)
  {
    var t := ToText(l);
    var name := KeyName(l.key);
    KeyNameHasNoEquals(l.key);
    assert t[|name|] == '=';
    var i := FirstIndex(t, '=');
    assert forall k :: 0 <= k < |name| ==> t[k] == name[k];
    assert forall k :: 0 <= k < i ==> t[k] == t[..i][k];
    assert i == |name|;
    assert t[..i] == name;
    assert t[i + 1..] == l.value;
    FindKeyName(l.key, 0);
  }

  lemma {:induction false} ParseTexts(lines: seq<Line>)
    ensures ParseLines(Texts(lines)) == lines
    decreases |lines|
  {
    if |lines| > 0 {
      ParseToText(lines[0]);
      assert Texts(lines)[1..] == Texts(lines[1..]);
      ParseTexts(lines[1..]);
    }
  }

  function ReadText(text: seq<string>): Ifcfg {
    ReadIfcfg(ParseLines(text))
  }

  /** Reading the rendered text back gives the model. */
  lemma ReadRenderText(c: Ifcfg)
    requires WellFormed(c)
    ensures ReadText(RenderText(c)) == c
  {
    ParseTexts(Render(c));
    ReadRender(c);
  }
}
