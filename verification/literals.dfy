/** The literal values of the define's examples and the facts that they are
    accepted: dotted quads, the example IPv6 addresses, the host facts. */
module Literals {
  import opened Wrappers
  import opened Text
  import opened Validators
  import opened Model
  import opened Builder

  // ---------------------------------------------------------------- literals

  /** Four octets joined with dots are a dotted quad. */
  lemma QuadAccepted(parts: seq<string>)
    requires |parts| == 4
    requires forall j :: 0 <= j < 4 ==> IsOctet(parts[j]) && '.' !in parts[j]
    ensures IsIPv4(Join(parts, '.'))
  {
    SplitJoin(parts, '.');
  }

  lemma OneDigitOctet(d: string)
    requires |d| == 1 && IsDigit(d[0])
    ensures IsOctet(d) && '.' !in d
  {
    assert d == [d[0]];
    assert DecimalValue(d) == d[0] as int - '0' as int;
  }

  /** The one-digit dotted quads of the examples (`1.2.3.4`, `1.2.3.1`,
      `3.4.5.6`, `5.6.7.8`) are accepted. */
  lemma SmallQuadValid(a: string, b: string, c: string, d: string)
    requires |a| == 1 && IsDigit(a[0]) && |b| == 1 && IsDigit(b[0])
    requires |c| == 1 && IsDigit(c[0]) && |d| == 1 && IsDigit(d[0])
    ensures IsIPv4(Join([a, b, c, d], '.'))
  {
    OneDigitOctet(a);
    OneDigitOctet(b);
    OneDigitOctet(c);
    OneDigitOctet(d);
    QuadAccepted([a, b, c, d]);
  }

  /** A dotted quad spelled with one-digit octets. */
  lemma DigitQuadValid(s: string, a: char, b: char, c: char, d: char)
    requires IsDigit(a) && IsDigit(b) && IsDigit(c) && IsDigit(d)
    requires s == [a, '.', b, '.', c, '.', d]
    ensures IsIPv4(s)
  {
    SmallQuadValid([a], [b], [c], [d]);
    assert Join([[c], [d]], '.') == [c, '.', d];
    assert Join([[b], [c], [d]], '.') == [b, '.', c, '.', d];
    assert Join([[a], [b], [c], [d]], '.') == s;
  }

  /** `1.2.3.4` is a dotted quad. */
  lemma HostAddressValid()
    ensures IsIPv4("1.2.3.4")
  {
    DigitQuadValid("1.2.3.4", '1', '2', '3', '4');
  }

  /** A full eight-group IPv6 literal written as the examples write them,
      `123:4567:89ab:cdef:123:4567:89ab:<last>`, nested group by group. */
  function Example6(last: string): string {
    "123" + ":" + ("4567" + ":" + ("89ab" + ":" + ("cdef" + ":" +
    ("123" + ":" + ("4567" + ":" + ("89ab" + ":" + last))))))
  }

  /** An example literal is the seven fixed groups as the examples write
      them, then the last group. */
  lemma Example6Spelled(last: string)
    ensures Example6(last) == "123:4567:89ab:cdef:123:4567:89ab:" + last
  {
  }

  /** The eight groups of an example literal. */
  function Groups6(last: string): seq<string> {
    ["123", "4567", "89ab", "cdef", "123", "4567", "89ab", last]
  }

  /** The example literal is its eight groups joined by colons. */
  lemma Example6Groups(last: string)
    ensures Example6(last) == Join(Groups6(last), ':')
  {
    var gs := [last];
    JoinFront("89ab", gs, ':');
    gs := ["89ab"] + gs;
    JoinFront("4567", gs, ':');
    gs := ["4567"] + gs;
    JoinFront("123", gs, ':');
    gs := ["123"] + gs;
    JoinFront("cdef", gs, ':');
    gs := ["cdef"] + gs;
    JoinFront("89ab", gs, ':');
    gs := ["89ab"] + gs;
    JoinFront("4567", gs, ':');
    gs := ["4567"] + gs;
    JoinFront("123", gs, ':');
    gs := ["123"] + gs;
    assert gs == Groups6(last);
  }

  /** The last groups the examples use are hexadecimal groups. */
  lemma ExampleGroup(g: string)
    requires g == "cded" || g == "cdee" || g == "cdef" || g == "1"
    ensures IsHexGroup(g)
  {
  }

  /** Whatever its last group, an example literal is a full-form address. */
  lemma Example6Valid(last: string)
    requires IsHexGroup(last)
    ensures IsIPv6(Example6(last)) && IsIPv6Address(Example6(last))
  {
    var gs := Groups6(last);
    forall j | 0 <= j < 8
      ensures IsHexGroup(gs[j])
    {
    }
    FullFormAccepted(gs);
    Example6Groups(last);
  }


  /** An `up` or `down` declaration of address `1.2.3.4/255.255.255.0`. */
  function Addressed(ensure: string, device: Option<string>): Params {
    Declare(ensure, "1.2.3.4", "255.255.255.0").(device := device)
  }

  /** The host facts of the examples: the OS family and one discovered MAC. */
  function Facts(factKey: string, mac: string): map<string, string> {
    map["osfamily" := "RedHat", factKey := mac]
  }

  /** The MAC the examples' host reports for `eth1`. */
  const FactMac := "fe:fe:fe:aa:aa:aa"

  /** The fact for a device without a VLAN tag is keyed by its own name. */
  lemma PlainFact(dev: string, mac: string)
    requires dev == "eth1"
    ensures MacFactKey(dev) in Facts("macaddress_eth1", mac) && Facts("macaddress_eth1", mac)[MacFactKey(dev)] == mac
  {
    StripVlanPlain(dev);
    assert MacFactKey(dev) == "macaddress_eth1";
  }

  lemma AddressedAcceptable(ensure: string, device: Option<string>)
    requires ensure == "up" || ensure == "down"
    ensures Acceptable(Addressed(ensure, device))
  {
    HostAddressValid();
  }
}
