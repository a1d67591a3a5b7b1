/** The data of one `network::if::static` declaration: the raw parameters
    as declared, and the validated interface model built from them. */
module Model {
  import opened Wrappers
  import opened Text
  import opened Validators

  // ---------------------------------------------------------------- declared

  /** The shapes an `ipv6address` parameter can be declared in; a keyed
      mapping is not a supported shape and is always rejected. */
  datatype IPv6Param =
    | Single(address: string)
    | List(addresses: seq<string>)
    | Mapping(entries: seq<(string, string)>)

  /** The parameters of the define, as declared; `None` means "not declared". */
  datatype Params = Params(
    ensure: string,
    device: Option<string>,
    ipaddress: Option<string>,
    netmask: Option<string>,
    gateway: Option<string>,
    macaddress: Option<string>,
    manageHwaddr: bool,
    userctl: Option<RawBool>,
    mtu: Option<string>,
    ethtoolOpts: Option<string>,
    peerdns: Option<RawBool>,
    dns1: Option<string>,
    dns2: Option<string>,
    domain: Option<string>,
    ipv6init: Option<RawBool>,
    ipv6autoconf: Option<RawBool>,
    ipv6peerdns: Option<RawBool>,
    ipv6address: Option<IPv6Param>,
    ipv6gateway: Option<string>,
    linkdelay: Option<string>,
    scope: Option<string>,
    defroute: Option<string>,
    metric: Option<string>,
    zone: Option<string>,
    flush: bool)

  /** A declaration of the required parameters only; every optional
      parameter keeps its default (`manage_hwaddr` true, `flush` false). */
  function Declare(ensure: string, ipaddress: string, netmask: string): Params {
    Params(ensure, None, Some(ipaddress), Some(netmask), None, None, true, None, None, None, None,
           None, None, None, None, None, None, None, None, None, None, None, None, None, false)
  }

  // ---------------------------------------------------------------- validated

  datatype State = Up | Down

  /** Everything the `ifcfg-<name>` file says about the interface. */
  datatype Ifcfg = Ifcfg(
    device: string,
    state: State,
    hwaddr: Option<string>,
    ipaddress: Option<string>,
    netmask: Option<string>,
    gateway: Option<string>,
    mtu: Option<string>,
    ethtoolOpts: Option<string>,
    peerdns: bool,
    dns1: Option<string>,
    dns2: Option<string>,
    domain: Option<string>,
    userctl: Option<bool>,
    ipv6init: Option<bool>,
    ipv6autoconf: Option<bool>,
    ipv6addresses: seq<string>,
    ipv6gateway: Option<string>,
    ipv6peerdns: Option<bool>,
    linkdelay: Option<string>,
    scope: Option<string>,
    defroute: Option<string>,
    zone: Option<string>,
    metric: Option<string>)

  /** A well-formed file model: every IPv6 address is non-empty and free of
      spaces, so the secondaries line can be read back. */
  predicate WellFormed(c: Ifcfg) {
    forall i :: 0 <= i < |c.ipv6addresses| ==> |c.ipv6addresses[i]| > 0 && ' ' !in c.ipv6addresses[i]
  }

  /** A validated interface: its title, the file content, and the `flush`
      flag that only the action planner reads. */
  datatype Interface = Interface(name: string, cfg: Ifcfg, flush: bool)

  // ---------------------------------------------------------------- device names

  predicate IsWordChar(c: char) {
    'a' <= c <= 'z' || 'A' <= c <= 'Z' || IsDigit(c) || c == '_'
  }

  /** The base device of a VLAN interface name: `eth6.203` becomes `eth6`.
      A name that is not word characters, a dot and digits is kept whole. */
  function StripVlan(name: string): (base: string)
    ensures base <= name
  {
    if '.' !in name then name
    else
      var i := FirstIndex(name, '.');
      if 0 < i && i + 1 < |name|
         && (forall k :: 0 <= k < i ==> IsWordChar(name[k]))
         && AllDigits(name[i + 1..])
      then name[..i]
      else name
  }

  /** A VLAN name, word characters then a dot then digits, loses exactly
      its `.tag` suffix. */
  lemma StripVlanTag(base: string, tag: string)
    requires |base| > 0 && forall k :: 0 <= k < |base| ==> IsWordChar(base[k])
    requires |tag| > 0 && AllDigits(tag)
    ensures StripVlan(base + "." + tag) == base
  {
    var name := base + "." + tag;
    assert name[|base|] == '.';
    var i := FirstIndex(name, '.');
    assert forall k :: 0 <= k < |base| ==> name[k] == base[k];
    assert forall k :: 0 <= k < i ==> name[k] == name[..i][k];
    assert i == |base|;
    assert name[..i] == base;
    assert name[i + 1..] == tag;
  }

  /** A name without a dot is its own base device. */
  lemma StripVlanPlain(name: string)
    requires '.' !in name
    ensures StripVlan(name) == name
  {
  }

  /** Conversely, a name is shortened only when it is VLAN-shaped: what is
      kept is non-empty word characters, and what is cut is a dot followed
      by one or more digits. So `br-ex.100`, `eth6.` and `eth6.abc` stay whole. */
  lemma StripVlanShape(name: string)
    requires StripVlan(name) != name
    ensures var base := StripVlan(name);
            && |base| > 0 && (forall k :: 0 <= k < |base| ==> IsWordChar(base[k]))
            && |name| > |base| + 1 && name[|base|] == '.'
            && AllDigits(name[|base| + 1..])
            && name == base + "." + name[|base| + 1..]
  {
  }

  /** The name the interface is configured under: the declared `device`
      when there is a non-empty one, the title otherwise. */
  function ResolveDevice(title: string, device: Option<string>): (d: string)
    // a declared, non-empty device wins; otherwise the title, which is never empty
    ensures device.Some? && device.value != "" ==> d == device.value
    ensures (device.None? || device.value == "") ==> d == title
    ensures title != "" ==> d != ""
  {
    if device.Some? && device.value != "" then device.value else title
  }

  /** The fact that holds the discovered hardware address of a device. */
  function MacFactKey(device: string): string {
    "macaddress_" + StripVlan(device)
  }
}
