/** The model builder: validates a declaration against the facts of the
    host and assembles the interface model, failing on the first violation
    with no partial result. */
module Builder {
  import opened Wrappers
  import opened Text
  import opened Validators
  import opened Errors
  import opened Model

  function ParseState(ensure: string): Result<State, ValidationError> {
    if ensure == "up" then Ok(Up)
    else if ensure == "down" then Ok(Down)
    else Err(InvalidState(ensure))
  }

  /** An address and its netmask are declared together or not at all. */
  function CheckPaired(ipaddress: Option<string>, netmask: Option<string>): Result<bool, ValidationError> {
    if ipaddress.Some? && netmask.None? then Err(MissingPairedField("ipaddress", "netmask"))
    else if ipaddress.None? && netmask.Some? then Err(MissingPairedField("netmask", "ipaddress"))
    else Ok(true)
  }

  function CheckIPv4(v: Option<string>): Result<bool, ValidationError> {
    if v.Some? && !IsIPv4(v.value) then Err(InvalidIPv4(v.value)) else Ok(true)
  }

  function CheckMac(v: Option<string>): Result<bool, ValidationError> {
    if v.Some? && !IsMac(v.value) then Err(InvalidMAC(v.value)) else Ok(true)
  }

  function CheckIPv6(v: Option<string>): Result<bool, ValidationError> {
    if v.Some? && !IsIPv6(v.value) then Err(InvalidIPv6(v.value)) else Ok(true)
  }

  /** Validates list elements one by one and stops at the first bad one,
      naming only that element. */
  function ValidateIPv6List(xs: seq<string>): (r: Result<seq<string>, ValidationError>)
    ensures r.Ok? <==> forall i :: 0 <= i < |xs| ==> IsIPv6(xs[i])
    ensures r.Ok? ==> r.value == xs
    ensures r.Err? ==> exists i :: 0 <= i < |xs| && !IsIPv6(xs[i])
                                   && (forall j :: 0 <= j < i ==> IsIPv6(xs[j]))
                                   && r.error == InvalidIPv6InList(xs[i])
  {
    if |xs| == 0 then Ok([])
    else if !IsIPv6(xs[0]) then Err(InvalidIPv6InList(xs[0]))
    else
      match ValidateIPv6List(xs[1..])
      case Ok(rest) => Ok([xs[0]] + rest)
      case Err(e) =>
        assert forall i :: 1 <= i < |xs| ==> xs[i] == xs[1..][i - 1];
        Err(e)
  }

  /** The IPv6-or-list validator: a single value, a list whose order is
      kept, or a mapping, which is rejected with its content shown. */
  function ValidateIPv6Param(v: IPv6Param): Result<seq<string>, ValidationError> {
    match v
    case Single(a) => if IsIPv6(a) then Ok([a]) else Err(InvalidIPv6(a))
    case List(xs) => ValidateIPv6List(xs)
    case Mapping(entries) => Err(InvalidIPv6(ShowMapping(entries)))
  }

  function CoerceField(field: string, v: Option<RawBool>): Result<Option<bool>, ValidationError> {
    match v
    case None => Ok(None)
    case Some(raw) =>
      match CoerceBool(raw)
      case Some(b) => Ok(Some(b))
      case None => Err(InvalidBoolean(field, ShowRawBool(raw)))
  }

  /** The hardware address to pin: none when `manage_hwaddr` is off, else an
      explicit `macaddress`, else the fact for the base device, if any. */
  function HardwareAddress(p: Params, device: string, facts: map<string, string>): Option<string> {
    if !p.manageHwaddr then None
    else if p.macaddress.Some? then p.macaddress
    else if MacFactKey(device) in facts then Some(facts[MacFactKey(device)])
    else None
  }

  // ---------------------------------------------------------------- acceptance

  predicate ValidIPv6Param(v: IPv6Param) {
    match v
    case Single(a) => IsIPv6(a)
    case List(xs) => forall i :: 0 <= i < |xs| ==> IsIPv6(xs[i])
    case Mapping(_) => false
  }

  /** A declared boolean after coercion; absent when not declared. */
  function CoerceOpt(v: Option<RawBool>): Option<bool> {
    match v
    case None => None
    case Some(raw) => CoerceBool(raw)
  }

  predicate CoercibleField(v: Option<RawBool>) {
    v.Some? ==> CoerceBool(v.value).Some?
  }

  predicate StateKnown(p: Params) {
    p.ensure == "up" || p.ensure == "down"
  }

  predicate Paired(p: Params) {
    p.ipaddress.Some? == p.netmask.Some?
  }

  /** An IPv4 field that is absent or holds a dotted quad. */
  predicate IPv4Ok(v: Option<string>) {
    v.Some? ==> IsIPv4(v.value)
  }

  /** The IPv4 fields hold dotted quads and an explicit MAC is a MAC. */
  predicate AddressesValid(p: Params) {
    && IPv4Ok(p.ipaddress) && IPv4Ok(p.gateway) && IPv4Ok(p.dns1) && IPv4Ok(p.dns2)
    && (p.macaddress.Some? ==> IsMac(p.macaddress.value))
  }

  /** The IPv6 address parameter, when declared, is accepted. */
  predicate IPv6AddressOk(p: Params) {
    p.ipv6address.Some? ==> ValidIPv6Param(p.ipv6address.value)
  }

  predicate IPv6FieldsValid(p: Params) {
    && IPv6AddressOk(p)
    && (p.ipv6gateway.Some? ==> IsIPv6(p.ipv6gateway.value))
  }

  predicate FlagsCoercible(p: Params) {
    && CoercibleField(p.userctl)
    && CoercibleField(p.peerdns)
    && CoercibleField(p.ipv6init)
    && CoercibleField(p.ipv6autoconf)
    && CoercibleField(p.ipv6peerdns)
  }

  /** What a declaration must satisfy to be accepted, stated field by field. */
  predicate Acceptable(p: Params) {
    StateKnown(p) && Paired(p) && AddressesValid(p) && IPv6FieldsValid(p) && FlagsCoercible(p)
  }

  /** Whether a declaration is accepted does not depend on `flush`. */
  lemma AcceptableIgnoresFlush(p: Params, flush: bool)
    ensures Acceptable(p.(flush := flush)) == Acceptable(p)
  {
    var q := p.(flush := flush);
    assert StateKnown(q) == StateKnown(p) && Paired(q) == Paired(p);
    assert AddressesValid(q) == AddressesValid(p) && IPv6FieldsValid(q) == IPv6FieldsValid(p);
    assert FlagsCoercible(q) == FlagsCoercible(p);
  }

  /** The ordered IPv6 addresses a declared `ipv6address` stands for. */
  function IPv6Addresses(v: Option<IPv6Param>): seq<string> {
    match v
    case Some(Single(a)) => [a]
    case Some(List(xs)) => xs
    case _ => []
  }

  /** The explicitly declared booleans after coercion. */
  datatype Flags = Flags(
    userctl: Option<bool>,
    peerdns: Option<bool>,
    ipv6init: Option<bool>,
    ipv6autoconf: Option<bool>,
    ipv6peerdns: Option<bool>)

  /** Coerces each declared boolean in turn; a field that was not declared
      stays absent. */
  function CoerceFlags(p: Params): (r: Result<Flags, ValidationError>)
    ensures r.Ok? <==> FlagsCoercible(p)
    // the first field that does not coerce is named, with its value as declared
    ensures !CoercibleField(p.userctl) ==> r == Err(InvalidBoolean("userctl", ShowRawBool(p.userctl.value)))
    ensures CoercibleField(p.userctl) && !CoercibleField(p.peerdns) ==>
              r == Err(InvalidBoolean("peerdns", ShowRawBool(p.peerdns.value)))
    ensures CoercibleField(p.userctl) && CoercibleField(p.peerdns) && !CoercibleField(p.ipv6init) ==>
              r == Err(InvalidBoolean("ipv6init", ShowRawBool(p.ipv6init.value)))
    ensures CoercibleField(p.userctl) && CoercibleField(p.peerdns) && CoercibleField(p.ipv6init)
            && !CoercibleField(p.ipv6autoconf) ==>
              r == Err(InvalidBoolean("ipv6autoconf", ShowRawBool(p.ipv6autoconf.value)))
    ensures CoercibleField(p.userctl) && CoercibleField(p.peerdns) && CoercibleField(p.ipv6init)
            && CoercibleField(p.ipv6autoconf) && !CoercibleField(p.ipv6peerdns) ==>
              r == Err(InvalidBoolean("ipv6peerdns", ShowRawBool(p.ipv6peerdns.value)))
    ensures r.Ok? ==> r.value.userctl == CoerceOpt(p.userctl) && r.value.peerdns == CoerceOpt(p.peerdns)
                      && r.value.ipv6init == CoerceOpt(p.ipv6init) && r.value.ipv6autoconf == CoerceOpt(p.ipv6autoconf)
                      && r.value.ipv6peerdns == CoerceOpt(p.ipv6peerdns)
  {
    var userctl :- CoerceField("userctl", p.userctl);
    var peerdns :- CoerceField("peerdns", p.peerdns);
    var ipv6init :- CoerceField("ipv6init", p.ipv6init);
    var ipv6autoconf :- CoerceField("ipv6autoconf", p.ipv6autoconf);
    var ipv6peerdns :- CoerceField("ipv6peerdns", p.ipv6peerdns);
    Ok(Flags(userctl, peerdns, ipv6init, ipv6autoconf, ipv6peerdns))
  }

  /** The IPv4 and MAC type checks, in declaration order. */
  function CheckAddresses(p: Params): (r: Result<bool, ValidationError>)
    ensures r.Ok? <==> AddressesValid(p)
    // the first bad field is named: ipaddress, gateway, dns1, dns2, then the MAC
    ensures !IPv4Ok(p.ipaddress) ==> r == Err(InvalidIPv4(p.ipaddress.value))
    ensures IPv4Ok(p.ipaddress) && !IPv4Ok(p.gateway) ==> r == Err(InvalidIPv4(p.gateway.value))
    ensures IPv4Ok(p.ipaddress) && IPv4Ok(p.gateway) && !IPv4Ok(p.dns1) ==> r == Err(InvalidIPv4(p.dns1.value))
    ensures IPv4Ok(p.ipaddress) && IPv4Ok(p.gateway) && IPv4Ok(p.dns1) && !IPv4Ok(p.dns2) ==>
              r == Err(InvalidIPv4(p.dns2.value))
    ensures IPv4Ok(p.ipaddress) && IPv4Ok(p.gateway) && IPv4Ok(p.dns1) && IPv4Ok(p.dns2)
            && p.macaddress.Some? && !IsMac(p.macaddress.value) ==>
              r == Err(InvalidMAC(p.macaddress.value))
  {
    var _ :- CheckIPv4(p.ipaddress);
    var _ :- CheckIPv4(p.gateway);
    var _ :- CheckIPv4(p.dns1);
    var _ :- CheckIPv4(p.dns2);
    CheckMac(p.macaddress)
  }

  /** The IPv6 type checks: the addresses, then the gateway. */
  function CheckIPv6Fields(p: Params): (r: Result<seq<string>, ValidationError>)
    ensures r.Ok? <==> IPv6FieldsValid(p)
    ensures r.Ok? ==> r.value == IPv6Addresses(p.ipv6address)
    // a single value is named with the IPv6 message
    ensures p.ipv6address.Some? && p.ipv6address.value.Single? && !IsIPv6(p.ipv6address.value.address) ==>
              r == Err(InvalidIPv6(p.ipv6address.value.address))
    // a list names its first bad element with the list message
    ensures p.ipv6address.Some? && p.ipv6address.value.List? && !ValidIPv6Param(p.ipv6address.value) ==>
              var xs := p.ipv6address.value.addresses;
              exists i :: 0 <= i < |xs| && !IsIPv6(xs[i]) && (forall j :: 0 <= j < i ==> IsIPv6(xs[j]))
                          && r == Err(InvalidIPv6InList(xs[i]))
    // a mapping is rejected with its content shown
    ensures p.ipv6address.Some? && p.ipv6address.value.Mapping? ==>
              r == Err(InvalidIPv6(ShowMapping(p.ipv6address.value.entries)))
    // the gateway is checked once the addresses pass, and named with the IPv6 message
    ensures IPv6AddressOk(p) && p.ipv6gateway.Some? && !IsIPv6(p.ipv6gateway.value) ==>
              r == Err(InvalidIPv6(p.ipv6gateway.value))
    ensures r.Ok? ==> forall i :: 0 <= i < |r.value| ==> |r.value[i]| > 0 && ' ' !in r.value[i]
  {
    var v6 :- match p.ipv6address
              case None => Ok([])
              case Some(v) => ValidateIPv6Param(v);
    var _ :- CheckIPv6(p.ipv6gateway);
    assert forall i :: 0 <= i < |v6| ==> |v6[i]| > 0 && ' ' !in v6[i] by {
      forall i | 0 <= i < |v6|
        ensures |v6[i]| > 0 && ' ' !in v6[i]
      {
        IPv6HasNoSpace(v6[i]);
      }
    }
    Ok(v6)
  }

  /** The interface model of validated parameters. */
  function Assemble(title: string, p: Params, facts: map<string, string>,
                    state: State, v6: seq<string>, flags: Flags): Interface
  {
    var device := ResolveDevice(title, p.device);
    Interface(
      title,
      Ifcfg(
        device, state, HardwareAddress(p, device, facts),
        p.ipaddress, p.netmask, p.gateway, p.mtu, p.ethtoolOpts, flags.peerdns == Some(true),
        p.dns1, p.dns2, p.domain, flags.userctl, flags.ipv6init, flags.ipv6autoconf, v6,
        p.ipv6gateway, flags.ipv6peerdns, p.linkdelay, p.scope, p.defroute, p.zone, p.metric),
      p.flush)
  }

  /** What validation hands to assembly: the state, the IPv6 addresses and
      the coerced booleans. */
  datatype Validated = Validated(state: State, v6: seq<string>, flags: Flags)

  /** The checks of a declaration in the order they run: the state, the
      address/netmask pairing, the IPv4 and MAC fields, the IPv6 fields,
      then the booleans. The first failing check gives the error. */
  function Validate(p: Params): (r: Result<Validated, ValidationError>)
    ensures r.Ok? <==> Acceptable(p)
    ensures !StateKnown(p) ==> r == Err(InvalidState(p.ensure))
    ensures StateKnown(p) && p.ipaddress.Some? && p.netmask.None? ==>
              r == Err(MissingPairedField("ipaddress", "netmask"))
    ensures StateKnown(p) && p.ipaddress.None? && p.netmask.Some? ==>
              r == Err(MissingPairedField("netmask", "ipaddress"))
    ensures StateKnown(p) && Paired(p) && !AddressesValid(p) ==> r == Err(CheckAddresses(p).error)
    ensures StateKnown(p) && Paired(p) && AddressesValid(p) && !IPv6FieldsValid(p) ==>
              r == Err(CheckIPv6Fields(p).error)
    ensures StateKnown(p) && Paired(p) && AddressesValid(p) && IPv6AddressOk(p)
            && p.ipv6gateway.Some? && !IsIPv6(p.ipv6gateway.value) ==>
              r == Err(InvalidIPv6(p.ipv6gateway.value))
    ensures StateKnown(p) && Paired(p) && AddressesValid(p) && IPv6FieldsValid(p) && !FlagsCoercible(p) ==>
              r == Err(CoerceFlags(p).error)
    ensures r.Ok? ==> (r.value.state == Up <==> p.ensure == "up")
    ensures r.Ok? ==> r.value.v6 == IPv6Addresses(p.ipv6address)
    ensures r.Ok? ==> r.value.flags == Flags(CoerceOpt(p.userctl), CoerceOpt(p.peerdns), CoerceOpt(p.ipv6init),
                                             CoerceOpt(p.ipv6autoconf), CoerceOpt(p.ipv6peerdns))
  {
    var state :- ParseState(p.ensure);
    var _ :- CheckPaired(p.ipaddress, p.netmask);
    var _ :- CheckAddresses(p);
    var v6 :- CheckIPv6Fields(p);
    var flags :- CoerceFlags(p);
    Ok(Validated(state, v6, flags))
  }

  /** The checks that run before the IPv4 and MAC fields, passed. */
  predicate StatePaired(p: Params) {
    StateKnown(p) && Paired(p)
  }

  /** The checks that run before the booleans, passed. */
  predicate TypesValid(p: Params) {
    StateKnown(p) && Paired(p) && AddressesValid(p) && IPv6FieldsValid(p)
  }

  function Build(title: string, p: Params, facts: map<string, string>): (r: Result<Interface, ValidationError>)
    requires title != ""
    // no partial models: construction succeeds exactly when every check passes
    ensures r.Ok? <==> Acceptable(p)
    // the state check comes first, the address/netmask pairing second
    ensures !StateKnown(p) ==> r == Err(InvalidState(p.ensure))
    ensures StateKnown(p) && p.ipaddress.Some? && p.netmask.None? ==>
              r == Err(MissingPairedField("ipaddress", "netmask"))
    ensures StateKnown(p) && p.ipaddress.None? && p.netmask.Some? ==>
              r == Err(MissingPairedField("netmask", "ipaddress"))
    // then the IPv4 fields in declaration order and the MAC
    ensures StatePaired(p) && !IPv4Ok(p.ipaddress) ==> r == Err(InvalidIPv4(p.ipaddress.value))
    ensures StatePaired(p) && IPv4Ok(p.ipaddress) && !IPv4Ok(p.gateway) ==> r == Err(InvalidIPv4(p.gateway.value))
    ensures StatePaired(p) && IPv4Ok(p.ipaddress) && IPv4Ok(p.gateway) && !IPv4Ok(p.dns1) ==>
              r == Err(InvalidIPv4(p.dns1.value))
    ensures StatePaired(p) && IPv4Ok(p.ipaddress) && IPv4Ok(p.gateway) && IPv4Ok(p.dns1) && !IPv4Ok(p.dns2) ==>
              r == Err(InvalidIPv4(p.dns2.value))
    ensures StatePaired(p) && IPv4Ok(p.ipaddress) && IPv4Ok(p.gateway) && IPv4Ok(p.dns1) && IPv4Ok(p.dns2)
            && p.macaddress.Some? && !IsMac(p.macaddress.value) ==>
              r == Err(InvalidMAC(p.macaddress.value))
    // then IPv6
    ensures StatePaired(p) && AddressesValid(p) && !IPv6FieldsValid(p) ==> r == Err(CheckIPv6Fields(p).error)
    ensures StatePaired(p) && AddressesValid(p) && IPv6AddressOk(p)
            && p.ipv6gateway.Some? && !IsIPv6(p.ipv6gateway.value) ==>
              r == Err(InvalidIPv6(p.ipv6gateway.value))
    // then the booleans, in declaration order
    ensures TypesValid(p) && !CoercibleField(p.userctl) ==>
              r == Err(InvalidBoolean("userctl", ShowRawBool(p.userctl.value)))
    ensures TypesValid(p) && CoercibleField(p.userctl) && !CoercibleField(p.peerdns) ==>
              r == Err(InvalidBoolean("peerdns", ShowRawBool(p.peerdns.value)))
    ensures TypesValid(p) && CoercibleField(p.userctl) && CoercibleField(p.peerdns) && !CoercibleField(p.ipv6init) ==>
              r == Err(InvalidBoolean("ipv6init", ShowRawBool(p.ipv6init.value)))
    ensures TypesValid(p) && CoercibleField(p.userctl) && CoercibleField(p.peerdns) && CoercibleField(p.ipv6init)
            && !CoercibleField(p.ipv6autoconf) ==>
              r == Err(InvalidBoolean("ipv6autoconf", ShowRawBool(p.ipv6autoconf.value)))
    ensures TypesValid(p) && CoercibleField(p.userctl) && CoercibleField(p.peerdns) && CoercibleField(p.ipv6init)
            && CoercibleField(p.ipv6autoconf) && !CoercibleField(p.ipv6peerdns) ==>
              r == Err(InvalidBoolean("ipv6peerdns", ShowRawBool(p.ipv6peerdns.value)))
    ensures r.Ok? ==> WellFormed(r.value.cfg)
    // the interface has a name and a device
    ensures r.Ok? ==> r.value.name == title && r.value.flush == p.flush
    ensures r.Ok? ==> r.value.name != "" && r.value.cfg.device != ""
    // DEVICE is the declared device or the title, unstripped
    ensures r.Ok? ==> r.value.cfg.device == ResolveDevice(title, p.device)
    // ONBOOT and HOTPLUG follow from `ensure`
    ensures r.Ok? ==> (r.value.cfg.state == Up <==> p.ensure == "up")
    // hardware address: switched off, explicit, or from the base device's fact
    ensures r.Ok? && !p.manageHwaddr ==> r.value.cfg.hwaddr.None?
    ensures r.Ok? && p.manageHwaddr && p.macaddress.Some? ==> r.value.cfg.hwaddr == p.macaddress
    ensures r.Ok? && p.manageHwaddr && p.macaddress.None? ==>
              r.value.cfg.hwaddr == (if MacFactKey(ResolveDevice(title, p.device)) in facts
                                     then Some(facts[MacFactKey(ResolveDevice(title, p.device))]) else None)
    // IPv6 addresses keep declaration order; a single value is a one-element list
    ensures r.Ok? ==> r.value.cfg.ipv6addresses == IPv6Addresses(p.ipv6address)
    // peerdns defaults to false; other booleans stay absent unless declared
    ensures r.Ok? ==> r.value.cfg.peerdns == (p.peerdns.Some? && CoerceBool(p.peerdns.value) == Some(true))
    ensures r.Ok? ==> r.value.cfg.userctl == CoerceOpt(p.userctl)
    ensures r.Ok? ==> r.value.cfg.ipv6init == CoerceOpt(p.ipv6init)
    ensures r.Ok? ==> r.value.cfg.ipv6autoconf == CoerceOpt(p.ipv6autoconf)
    ensures r.Ok? ==> r.value.cfg.ipv6peerdns == CoerceOpt(p.ipv6peerdns)
    // free-text and pass-through fields are carried unchanged
    ensures r.Ok? ==> r.value.cfg.ipaddress == p.ipaddress && r.value.cfg.netmask == p.netmask
    ensures r.Ok? ==> r.value.cfg.ethtoolOpts == p.ethtoolOpts && r.value.cfg.domain == p.domain
                      && r.value.cfg.scope == p.scope
    ensures r.Ok? ==> r.value.cfg.gateway == p.gateway && r.value.cfg.mtu == p.mtu
                      && r.value.cfg.dns1 == p.dns1 && r.value.cfg.dns2 == p.dns2
                      && r.value.cfg.ipv6gateway == p.ipv6gateway && r.value.cfg.linkdelay == p.linkdelay
                      && r.value.cfg.defroute == p.defroute && r.value.cfg.zone == p.zone
                      && r.value.cfg.metric == p.metric
  {
    var v :- Validate(p);
    Ok(Assemble(title, p, facts, v.state, v.v6, v.flags))
  }

  // ---------------------------------------------------------------- IPv6 rejections

  /** Once the earlier checks pass, a bad single IPv6 value is the error. */
  lemma SingleIPv6Rejected(title: string, p: Params, facts: map<string, string>, a: string)
    requires title != ""
    requires StateKnown(p) && Paired(p) && AddressesValid(p)
    requires p.ipv6address == Some(Single(a)) && !IsIPv6(a)
    ensures Build(title, p, facts) == Err(InvalidIPv6(a))
  {
  }

  /** Once the earlier checks pass, a list is rejected at its first bad
      element, whatever follows it. */
  lemma ListIPv6Rejected(title: string, p: Params, facts: map<string, string>, xs: seq<string>, i: nat)
    requires title != ""
    requires StateKnown(p) && Paired(p) && AddressesValid(p)
    requires p.ipv6address == Some(List(xs))
    requires i < |xs| && !IsIPv6(xs[i]) && forall j :: 0 <= j < i ==> IsIPv6(xs[j])
    ensures Build(title, p, facts) == Err(InvalidIPv6InList(xs[i]))
  {
    var r := ValidateIPv6List(xs);
    var k :| 0 <= k < |xs| && !IsIPv6(xs[k]) && (forall j :: 0 <= j < k ==> IsIPv6(xs[j]))
             && r.error == InvalidIPv6InList(xs[k]);
    assert k == i;
  }

  /** Once the earlier checks pass, a mapping is rejected with its content. */
  lemma MappingIPv6Rejected(title: string, p: Params, facts: map<string, string>, entries: seq<(string, string)>)
    requires title != ""
    requires StateKnown(p) && Paired(p) && AddressesValid(p)
    requires p.ipv6address == Some(Mapping(entries))
    ensures Build(title, p, facts) == Err(InvalidIPv6(ShowMapping(entries)))
  {
  }
}
