/** The renderer: turns an interface model into the ordered `KEY=VALUE`
    lines of its `ifcfg` file. Every key has a fixed rank; a key's line is
    present exactly when the model has a value for it, and lines come out in
    rank order. */
module Renderer {
  import opened Wrappers
  import opened Text
  import opened Model

  datatype Key =
    | Device | BootProto | HwAddr | OnBoot | HotPlug | Type
    | IpAddr | Netmask | Gateway | Mtu | EthtoolOpts | PeerDns
    | Dns1 | Dns2 | Domain | UserCtl | Ipv6Init | Ipv6Autoconf
    | Ipv6Addr | Ipv6Secondaries | Ipv6DefaultGw | Ipv6PeerDns
    | LinkDelay | Scope | DefRoute | Zone | Metric | NmControlled

  function KeyName(k: Key): string {
    match k
    case Device => "DEVICE"
    case BootProto => "BOOTPROTO"
    case HwAddr => "HWADDR"
    case OnBoot => "ONBOOT"
    case HotPlug => "HOTPLUG"
    case Type => "TYPE"
    case IpAddr => "IPADDR"
    case Netmask => "NETMASK"
    case Gateway => "GATEWAY"
    case Mtu => "MTU"
    case EthtoolOpts => "ETHTOOL_OPTS"
    case PeerDns => "PEERDNS"
    case Dns1 => "DNS1"
    case Dns2 => "DNS2"
    case Domain => "DOMAIN"
    case UserCtl => "USERCTL"
    case Ipv6Init => "IPV6INIT"
    case Ipv6Autoconf => "IPV6_AUTOCONF"
    case Ipv6Addr => "IPV6ADDR"
    case Ipv6Secondaries => "IPV6ADDR_SECONDARIES"
    case Ipv6DefaultGw => "IPV6_DEFAULTGW"
    case Ipv6PeerDns => "IPV6_PEERDNS"
    case LinkDelay => "LINKDELAY"
    case Scope => "SCOPE"
    case DefRoute => "DEFROUTE"
    case Zone => "ZONE"
    case Metric => "METRIC"
    case NmControlled => "NM_CONTROLLED"
  }

  const KeyCount: nat := 28

  /** The position of a key's line in the file. */
  function Rank(k: Key): (n: nat)
    ensures n < KeyCount
  {
    match k
    case Device => 0
    case BootProto => 1
    case HwAddr => 2
    case OnBoot => 3
    case HotPlug => 4
    case Type => 5
    case IpAddr => 6
    case Netmask => 7
    case Gateway => 8
    case Mtu => 9
    case EthtoolOpts => 10
    case PeerDns => 11
    case Dns1 => 12
    case Dns2 => 13
    case Domain => 14
    case UserCtl => 15
    case Ipv6Init => 16
    case Ipv6Autoconf => 17
    case Ipv6Addr => 18
    case Ipv6Secondaries => 19
    case Ipv6DefaultGw => 20
    case Ipv6PeerDns => 21
    case LinkDelay => 22
    case Scope => 23
    case DefRoute => 24
    case Zone => 25
    case Metric => 26
    case NmControlled => 27
  }

  /** The key of a given rank; the inverse of Rank. */
  function KeyAt(n: nat): (k: Key)
    requires n < KeyCount
    ensures Rank(k) == n
  {
    if n == 0 then Device else if n == 1 then BootProto else if n == 2 then HwAddr
    else if n == 3 then OnBoot else if n == 4 then HotPlug else if n == 5 then Type
    else if n == 6 then IpAddr else if n == 7 then Netmask else if n == 8 then Gateway
    else if n == 9 then Mtu else if n == 10 then EthtoolOpts else if n == 11 then PeerDns
    else if n == 12 then Dns1 else if n == 13 then Dns2 else if n == 14 then Domain
    else if n == 15 then UserCtl else if n == 16 then Ipv6Init else if n == 17 then Ipv6Autoconf
    else if n == 18 then Ipv6Addr else if n == 19 then Ipv6Secondaries else if n == 20 then Ipv6DefaultGw
    else if n == 21 then Ipv6PeerDns else if n == 22 then LinkDelay else if n == 23 then Scope
    else if n == 24 then DefRoute else if n == 25 then Zone else if n == 26 then Metric
    else NmControlled
  }

  lemma RankInjective(a: Key, b: Key)
    ensures Rank(a) == Rank(b) ==> a == b
  {
  }

  /** KeyAt undoes Rank. */
  lemma KeyAtRank(k: Key)
    ensures KeyAt(Rank(k)) == k
  {
    RankInjective(KeyAt(Rank(k)), k);
  }

  // ---------------------------------------------------------------- values

  function YesNo(b: bool): string {
    if b then "yes" else "no"
  }

  /** Free text is written inside double quotes. */
  function Quote(s: string): string {
    "\"" + s + "\""
  }

  function QuoteOpt(v: Option<string>): Option<string> {
    match v
    case Some(s) => Some(Quote(s))
    case None => None
  }

  function YesNoOpt(v: Option<bool>): Option<string> {
    match v
    case Some(b) => Some(YesNo(b))
    case None => None
  }

  /** The value written for a key, or None when its line is left out. */
  function FieldValue(c: Ifcfg, k: Key): Option<string> {
    match k
    case Device => Some(c.device)
    case BootProto => Some("none")
    case HwAddr => c.hwaddr
    case OnBoot => Some(YesNo(c.state == Up))
    case HotPlug => Some(YesNo(c.state == Up))
    case Type => Some("Ethernet")
    case IpAddr => c.ipaddress
    case Netmask => c.netmask
    case Gateway => c.gateway
    case Mtu => c.mtu
    case EthtoolOpts => QuoteOpt(c.ethtoolOpts)
    case PeerDns => Some(YesNo(c.peerdns))
    case Dns1 => c.dns1
    case Dns2 => c.dns2
    case Domain => QuoteOpt(c.domain)
    case UserCtl => YesNoOpt(c.userctl)
    case Ipv6Init => YesNoOpt(c.ipv6init)
    case Ipv6Autoconf => YesNoOpt(c.ipv6autoconf)
    case Ipv6Addr =>
      if |c.ipv6addresses| > 0 then Some(c.ipv6addresses[0]) else None
    case Ipv6Secondaries =>
      if |c.ipv6addresses| > 1 then Some(Quote(Join(c.ipv6addresses[1..], ' '))) else None
    case Ipv6DefaultGw => c.ipv6gateway
    case Ipv6PeerDns => YesNoOpt(c.ipv6peerdns)
    case LinkDelay => c.linkdelay
    case Scope => QuoteOpt(c.scope)
    case DefRoute => c.defroute
    case Zone => c.zone
    case Metric => c.metric
    case NmControlled => Some("yes")
  }

  // ---------------------------------------------------------------- lines

  datatype Line = Line(key: Key, value: string)

  function ToText(l: Line): string {
    KeyName(l.key) + "=" + l.value
  }

  /** The value of every key, indexed by rank. */
  function Slots(c: Ifcfg): (values: seq<Option<string>>)
    ensures |values| == KeyCount
    ensures forall k :: values[Rank(k)] == FieldValue(c, k)
  {
    var values := seq(KeyCount, n requires 0 <= n < KeyCount => FieldValue(c, KeyAt(n)));
    assert forall k :: KeyAt(Rank(k)) == k by {
      forall k ensures KeyAt(Rank(k)) == k {
        RankInjective(KeyAt(Rank(k)), k);
      }
    }
    values
  }

  /** The lines for the present values of rank `n` and above. */
  function Emit(values: seq<Option<string>>, n: nat): seq<Line>
    requires |values| == KeyCount
    decreases KeyCount - n
  {
    if n >= KeyCount then []
    else
      (if values[n].Some? then [Line(KeyAt(n), values[n].value)] else []) + Emit(values, n + 1)
  }

  /** Lines whose ranks strictly increase: each key at most once, in the
      fixed order. */
  predicate RankOrdered(lines: seq<Line>) {
    forall p, q :: 0 <= p < q < |lines| ==> Rank(lines[p].key) < Rank(lines[q].key)
  }

  /** The value of the first line with key `k`. */
  function Lookup(lines: seq<Line>, k: Key): Option<string> {
    if |lines| == 0 then None
    else if lines[0].key == k then Some(lines[0].value)
    else Lookup(lines[1..], k)
  }

  /** Emitted lines are of rank `n` or more, carry the value of their rank,
      and come in strictly increasing rank. */
  lemma {:induction false} EmitOrdered(values: seq<Option<string>>, n: nat)
    requires |values| == KeyCount
    ensures RankOrdered(Emit(values, n))
    ensures forall i :: 0 <= i < |Emit(values, n)| ==>
              n <= Rank(Emit(values, n)[i].key) && values[Rank(Emit(values, n)[i].key)] == Some(Emit(values, n)[i].value)
    decreases KeyCount - n
  {
    if n < KeyCount {
      EmitOrdered(values, n + 1);
    }
  }

  /** Looking a key up behind one line checks that line first. */
  lemma LookupCons(x: Line, rest: seq<Line>, k: Key)
    ensures Lookup([x] + rest, k) == (if x.key == k then Some(x.value) else Lookup(rest, k))
  {
    assert ([x] + rest)[1..] == rest;
  }

  /** One emitted line put in front of the lines above its rank keeps the
      lookup finding the value of the key's rank. */
  lemma EmitLookupStep(values: seq<Option<string>>, n: nat, kn: Key, rest: seq<Line>, k: Key)
    requires |values| == KeyCount && n < KeyCount && Rank(kn) == n
    requires Lookup(rest, k) == (if n + 1 <= Rank(k) then values[Rank(k)] else None)
    ensures var head := if values[n].Some? then [Line(kn, values[n].value)] else [];
            Lookup(head + rest, k) == (if n <= Rank(k) then values[Rank(k)] else None)
  {
    RankInjective(kn, k);
    if values[n].Some? {
      LookupCons(Line(kn, values[n].value), rest, k);
    } else {
      assert [] + rest == rest;
    }
  }

  /** Looking a key up in the emitted lines finds the value of its rank. */
  lemma {:induction false} EmitLookup(values: seq<Option<string>>, n: nat, k: Key)
    requires |values| == KeyCount
    ensures Lookup(Emit(values, n), k) == (if n <= Rank(k) then values[Rank(k)] else None)
    decreases KeyCount - n
  {
    if n < KeyCount {
      EmitLookup(values, n + 1, k);
      EmitLookupStep(values, n, KeyAt(n), Emit(values, n + 1), k);
    }
  }

  /** The file content as structured lines. Lines come in rank order, each
      key at most once; every line carries the model's value for its key,
      and every key the model has a value for has its line. */
  function Render(c: Ifcfg): (lines: seq<Line>)
    ensures RankOrdered(lines)
    ensures forall i :: 0 <= i < |lines| ==> FieldValue(c, lines[i].key) == Some(lines[i].value)
    ensures forall k :: Lookup(lines, k) == FieldValue(c, k)
  {
    var values := Slots(c);
    EmitOrdered(values, 0);
    forall k ensures Lookup(Emit(values, 0), k) == FieldValue(c, k) {
      EmitLookup(values, 0, k);
    }
    Emit(values, 0)
  }

  /** Structured lines written out as `KEY=VALUE` text. */
  function Texts(lines: seq<Line>): (text: seq<string>)
    ensures |text| == |lines|
    ensures forall i :: 0 <= i < |lines| ==> text[i] == ToText(lines[i])
  {
    seq(|lines|, i requires 0 <= i < |lines| => ToText(lines[i]))
  }

  /** The file content as text lines. */
  function RenderText(c: Ifcfg): seq<string> {
    Texts(Render(c))
  }
}
