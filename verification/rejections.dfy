/** The declarations the define rejects in its examples, run through the
    model: each lemma states the error and message the example expects. */
module Rejections {
  import opened Wrappers
  import opened Text
  import opened Validators
  import opened Errors
  import opened Model
  import opened Builder
  import opened Literals

  /** The base declaration of the rejection examples: interface `eth77`,
      up, with the given address. */
  function Rejected(ipaddress: string, ipv6: Option<IPv6Param>): Params {
    Declare("up", ipaddress, "255.255.255.0").(device := Some("eth77"), ipv6address := ipv6)
  }

  // ---------------------------------------------------------------- rejections
  // The rejections hold whatever facts the host reports. Each example's
  // preconditions are established apart from the call to `Build`.

  lemma NotAnIPv4Facts(p: Params, bad: string)
    requires bad == "notAnIP" && p == Rejected(bad, None)
    ensures StateKnown(p) && Paired(p) && p.ipaddress == Some(bad) && !IsIPv4(bad)
  {
    NoDotNotIPv4(bad);
  }

  /** `ipaddress => 'notAnIP'` fails with the IPv4 message naming it. */
  lemma NotAnIPv4Rejected(p: Params, facts: map<string, string>, bad: string)
    requires bad == "notAnIP" && p == Rejected(bad, None)
    ensures Build("test77", p, facts) == Err(InvalidIPv4(bad))
  {
    NotAnIPv4Facts(p, bad);
  }

  /** The rejection examples with a good IPv4 address pass the state,
      pairing and IPv4 checks. */
  lemma RejectedBaseValid(p: Params, v6: Option<IPv6Param>)
    requires p == Rejected("1.2.3.4", v6)
    ensures StateKnown(p) && Paired(p) && AddressesValid(p) && p.ipv6address == v6
  {
    HostAddressValid();
  }

  lemma NotAnIPv6Facts(bad: string)
    requires bad == "notAnIP"
    ensures !IsIPv6(bad)
  {
    NoColonNotIPv6(bad);
  }

  /** `ipv6address => 'notAnIP'` fails with the IPv6 message naming it. */
  lemma NotAnIPv6Rejected(p: Params, facts: map<string, string>, bad: string)
    requires bad == "notAnIP" && p == Rejected("1.2.3.4", Some(Single(bad)))
    ensures Build("test77", p, facts) == Err(InvalidIPv6(bad))
  {
    RejectedBaseValid(p, Some(Single(bad)));
    NotAnIPv6Facts(bad);
    SingleIPv6Rejected("test77", p, facts, bad);
  }

  /** `ipv6address => { 'notAn' => 'IP' }` fails with the IPv6 message, and
      the message shows the key and the value. */
  lemma MappingRejected(p: Params, facts: map<string, string>)
    requires p == Rejected("1.2.3.4", Some(Mapping([("notAn", "IP")])))
    ensures Build("test77", p, facts) == Err(InvalidIPv6(ShowMapping([("notAn", "IP")])))
    ensures var m := Message(InvalidIPv6(ShowMapping([("notAn", "IP")])));
            && Contains(m, "notAn") && Contains(m, "IP")
            && m == ShowMapping([("notAn", "IP")]) + " is not an IPv6 address."
  {
    RejectedBaseValid(p, Some(Mapping([("notAn", "IP")])));
    MappingIPv6Rejected("test77", p, facts, [("notAn", "IP")]);
    MappingMessageShowsEntries([("notAn", "IP")], 0);
  }

  /** The list example's first element is good and its second is not. */
  lemma ListFirstBad(a1: string, bad: string, a3: string)
    requires IsIPv6(a1) && bad == "notAnIP"
    ensures var xs := [a1, bad, a3];
            !IsIPv6(xs[1]) && forall j :: 0 <= j < 1 ==> IsIPv6(xs[j])
  {
    NoColonNotIPv6(bad);
  }

  /** A list with one bad element between good ones names only that element,
      with the list message. The good elements differ in their last group. */
  lemma ListElementRejected(p: Params, facts: map<string, string>, g1: string, bad: string, g3: string)
    requires g1 == "cdee" && bad == "notAnIP" && g3 == "cdef"
    requires p == Rejected("1.2.3.4", Some(List([Example6(g1), bad, Example6(g3)])))
    ensures Build("test77", p, facts) == Err(InvalidIPv6InList(bad))
  {
    var xs := [Example6(g1), bad, Example6(g3)];
    RejectedBaseValid(p, Some(List(xs)));
    ExampleGroup(g1);
    Example6Valid(g1);
    ListFirstBad(xs[0], bad, xs[2]);
    ListIPv6Rejected("test77", p, facts, xs, 1);
  }

  /** The message the IPv4 rejection example matches. */
  lemma NotAnIPv4Message()
    ensures Message(InvalidIPv4("notAnIP")) == "notAnIP is not an IP address."
  {
  }

  /** The message the single IPv6 rejection example matches. */
  lemma NotAnIPv6Message()
    ensures Message(InvalidIPv6("notAnIP")) == "notAnIP is not an IPv6 address."
  {
  }

  /** The message the list rejection example matches. */
  lemma ListElementMessage()
    ensures Message(InvalidIPv6InList("notAnIP")) == "notAnIP is not an IP(v6) address."
  {
  }
}
