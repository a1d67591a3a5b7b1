# network::if::static — a Dafny model

This project models the behaviour the Puppet define `network::if::static`
promises for one statically addressed network interface. Its rspec suite
asserts this behaviour. The manifest and the ERB template behind the define
are not part of this model, so the model is built from what the suite asserts.
It covers four parts:

- **Validators** (`validators.dfy`, `errors.dfy`). An IPv4 dotted-quad check
  rejects with `<v> is not an IP address.`. An IPv6 check accepts an optional
  `/prefixlen` and rejects with `<v> is not an IPv6 address.`. The list form
  names the first bad element with `<v> is not an IP(v6) address.`. A keyed
  mapping is rejected with its content shown in the message.
- **The model builder** (`model.dfy`, `builder.dfy`). It turns the declared
  parameters and the host's facts into an interface model, or into the first
  validation error. ONBOOT and HOTPLUG follow `ensure`. The hardware address
  is resolved in this order:
  - none when `manage_hwaddr` is false;
  - the explicit `macaddress` when one is declared;
  - otherwise the `macaddress_<base>` fact, where the base is the device name
    without its VLAN `.<tag>` suffix.
- **The renderer** (`render.dfy`). It writes the model as `KEY=value` lines
  in a fixed key order:
  - free text (ETHTOOL_OPTS, DOMAIN, SCOPE) is quoted;
  - booleans are written `yes`/`no`;
  - an IPv6 list is split into IPV6ADDR (the first address) and
    IPV6ADDR_SECONDARIES (the rest, space-joined and quoted).
- **The action planner** (`planner.dfy`). It lists what the host must do
  after writing the file: an optional `ip addr flush dev <device>`, strictly
  before the NetworkManager manage step.

Several files give each part a partner:
- `contents.dfy` states what a file-content expectation checks: expected
  lines occur in the file in their relative order, with other lines allowed
  between them. It proves that the renderer's order meets any rank-ordered
  selection of the model's lines.
- `readback.dfy` is an independent reader of the rendered text. It proves
  that reading the text back gives the model again, including the IPv6 list
  and the quoted fields.
- `expected.dfy` holds the expected line lists of the examples.
- `spelling.dfy` states each expected line as the literal string the suite
  writes. Each example's `…Text` lemma then shows that its expected lines
  are exactly those strings, so key names and quoting are checked without
  going through the renderer's own key table.
- `rejections.dfy`, `accepted.dfy`, `ipv6lists.dfy` and `optional.dfy` state
  the outcome of every example of the suite for `Build`, `RenderText` and
  `Plan`.
- `literals.dfy` proves that the example literals pass their validators.

Which device name is used where:
- **DEVICE for a VLAN title.** The VLAN example
  (`spec/defines/network_if_static_spec.rb:186-218`) expects
  `DEVICE=eth6.203` together with the MAC from `macaddress_eth6`. So DEVICE
  keeps the title (or the declared device) whole, and only the MAC fact key
  strips the VLAN suffix.
- **Fact and flush device.** Both use the resolved device, not the title.
  With title `test1` and `device => 'eth1'`, the fact is `macaddress_eth1`
  and the command is `ip addr flush dev eth1`.

## Model

| member | source | states |
|---|---|---|
| Rejections.NotAnIPv4Rejected | spec/defines/network_if_static_spec.rb:7-17 | `ipaddress => 'notAnIP'` on `eth77` makes the build fail with the IPv4 error naming `notAnIP`, whatever the facts |
| Rejections.NotAnIPv4Message | spec/defines/network_if_static_spec.rb:17 | that error reads exactly `notAnIP is not an IP address.` |
| Validators.NoDotNotIPv4 | spec/defines/network_if_static_spec.rb:12 | no value without a dot, `notAnIP` among them, is a dotted quad |
| Validators.FormatIPv4Accepted | spec/defines/network_if_static_spec.rb:77-78 | every quad written from four octets 0..255 is accepted, and reading it back gives the same octets |
| Literals.HostAddressValid | spec/defines/network_if_static_spec.rb:77 | the example address `1.2.3.4` is accepted as a dotted quad |
| Rejections.NotAnIPv6Rejected | spec/defines/network_if_static_spec.rb:21-32 | a single `ipv6address => 'notAnIP'` fails with the IPv6 error naming it, after the state, pairing and IPv4 checks pass |
| Rejections.NotAnIPv6Message | spec/defines/network_if_static_spec.rb:32 | that error reads exactly `notAnIP is not an IPv6 address.` |
| Validators.NoColonNotIPv6 | spec/defines/network_if_static_spec.rb:28 | no value without a colon is an IPv6 value, with or without a prefix |
| Validators.PrefixStripped | spec/defines/network_if_static_spec.rb:130 | `a/p` passes the IPv6 check exactly when `a` is an IPv6 address and `p` a prefix length of at most 128 (both directions) |
| Validators.AddressWithPrefixAccepted | spec/defines/network_if_static_spec.rb:130 | any IPv6 address followed by `/n` with n ≤ 128 is accepted |
| Validators.FullFormAccepted | spec/defines/network_if_static_spec.rb:130-131 | any eight hexadecimal groups joined by colons are an IPv6 address |
| Literals.Example6Valid | spec/defines/network_if_static_spec.rb:61-63 | `123:4567:89ab:cdef:123:4567:89ab:<g>` is accepted for any hexadecimal group `g` |
| Validators.IPv6HasNoSpace | spec/defines/network_if_static_spec.rb:365 | an accepted IPv6 value is non-empty and has no space, so the space-joined secondaries can be split again |
| Builder.CheckIPv6Fields | spec/defines/network_if_static_spec.rb:21-68 | the IPv6 fields pass exactly when valid; the result is the ordered address list; a bad single value gets the IPv6 error, a list its first bad element with the list error, a mapping its spelled-out content; once the addresses pass, a bad `ipv6gateway` gets the IPv6 error naming its value |
| Builder.MappingIPv6Rejected | spec/defines/network_if_static_spec.rb:36-49 | once the earlier checks pass, a mapping `ipv6address` fails with the IPv6 error over its spelled-out content |
| Errors.MappingMessageShowsEntries | spec/defines/network_if_static_spec.rb:47-49 | the mapping message is its spelling followed by ` is not an IPv6 address.`, and it contains each entry's key and value |
| Rejections.MappingRejected | spec/defines/network_if_static_spec.rb:36-50 | `{ 'notAn' => 'IP' }` fails, and the message contains `notAn`, `IP` and the IPv6 wording |
| Builder.ValidateIPv6List | spec/defines/network_if_static_spec.rb:53-68 | a list passes exactly when every element does, keeping its order; otherwise the error names the first bad element with the list message |
| Builder.ListIPv6Rejected | spec/defines/network_if_static_spec.rb:53-68 | once the earlier checks pass, a list fails at its first bad element whatever follows it |
| Rejections.ListElementRejected | spec/defines/network_if_static_spec.rb:53-69 | the example list with `notAnIP` between two valid addresses fails naming only `notAnIP` |
| Rejections.ListElementMessage | spec/defines/network_if_static_spec.rb:68 | that error reads exactly `notAnIP is not an IP(v6) address.` |
| Builder.Build | spec/defines/network_if_static_spec.rb:72-109 | a build succeeds exactly when every check passes; otherwise the first failing check names the error: the state, the ipaddress/netmask pairing, then ipaddress, gateway, dns1, dns2 (IPv4 error naming the value), the MAC, the IPv6 addresses, ipv6gateway (IPv6 error naming the value), then userctl, peerdns, ipv6init, ipv6autoconf, ipv6peerdns (boolean error naming the field); on success the name and DEVICE are non-empty, DEVICE is the device or title, the state is Up exactly for `ensure => up`, the MAC is off, explicit, or the base device's fact, and every other field is carried or coerced as declared |
| Builder.Validate | spec/defines/network_if_static_spec.rb:7-68 | validation passes exactly when every check passes; the state error comes first, then the pairing error, then the address errors, the IPv6 errors (the gateway's naming its value) and the boolean errors in that order; on success it yields the state, the ordered IPv6 addresses and the coerced booleans |
| Builder.CheckAddresses | spec/defines/network_if_static_spec.rb:7-17 | the IPv4 and MAC fields pass exactly when each declared one is well formed; the first bad field in the order ipaddress, gateway, dns1, dns2, macaddress is the one reported |
| Builder.CoerceFlags | spec/defines/network_if_static_spec.rb:120-129 | the five boolean fields coerce exactly when each declared one is a boolean word; each coerces to its own value, and the first field that does not is reported by name |
| Model.ResolveDevice | spec/defines/network_if_static_spec.rb:186-196 | the device is the declared non-empty device, otherwise the title whole, and so never empty when the title is not |
| Model.StripVlanTag | spec/defines/network_if_static_spec.rb:187-196 | a name made of word characters, a dot and digits loses exactly its `.tag` suffix: `eth6.203` becomes `eth6` |
| Model.StripVlanPlain | spec/defines/network_if_static_spec.rb:76-83 | a name without a dot is its own base device, so `eth1` reads fact `macaddress_eth1` |
| Model.StripVlanShape | spec/defines/network_if_static_spec.rb:187-196 | conversely, a name is shortened only when it is word characters, a dot and one or more digits, and then exactly the dot and digits are cut; any other dotted name is kept whole |
| Renderer.Render | spec/defines/network_if_static_spec.rb:153-180 | the rendered lines come in strictly increasing key rank, each key at most once; every line carries the model's value for its key, and every key with a value has its line |
| Contents.RenderContains | spec/defines/network_if_static_spec.rb:95-106 | any rank-ordered selection of the model's lines occurs, in that order, in the rendered text |
| Contents.RequiredContents | spec/defines/network_if_static_spec.rb:95-106 | any addressed interface's file has DEVICE, BOOTPROTO=none, HWADDR (when pinned), ONBOOT, HOTPLUG, TYPE=Ethernet, IPADDR, NETMASK, PEERDNS and NM_CONTROLLED=yes in that order |
| Expected.Shows | spec/defines/network_if_static_spec.rb:95-106 | an expected line list whose keys ascend and whose values are the model's occurs in order in the file |
| Accepted.RequiredText | spec/defines/network_if_static_spec.rb:95-106 | the required example's expected lines are exactly the ten strings `DEVICE=eth1` … `NM_CONTROLLED=yes`, character for character |
| Accepted.VlanText | spec/defines/network_if_static_spec.rb:208-218 | the VLAN example's expected lines are exactly the nine strings `DEVICE=eth6.203`, `HWADDR=bb:cc:bb:cc:bb:cc`, … `NM_CONTROLLED=yes` |
| Accepted.UnpinnedText | spec/defines/network_if_static_spec.rb:247-256 | the `manage_hwaddr => false` example's expected lines are exactly the eight strings `DEVICE=eth0` … `NM_CONTROLLED=yes`, with no HWADDR |
| IPv6Lists.SingleListText | spec/defines/network_if_static_spec.rb:306-319 | the one-element list example's expected lines are exactly its twelve strings, the address written as `IPV6ADDR=<address>` |
| IPv6Lists.MultipleListText | spec/defines/network_if_static_spec.rb:353-367 | the three-element list example's expected lines are exactly its thirteen strings, with `IPV6ADDR=<first>` and `IPV6ADDR_SECONDARIES="<second> <third>"` |
| OptionalParameters.OptionalText | spec/defines/network_if_static_spec.rb:153-181 | the optional-parameters example's expected lines are exactly its twenty-seven strings, including the quoted `ETHTOOL_OPTS`, `DOMAIN` and `SCOPE` values and the two IPv6 literals |
| Literals.Example6Spelled | spec/defines/network_if_static_spec.rb:61-63 | an example IPv6 literal is `123:4567:89ab:cdef:123:4567:89ab:` followed by its last group |
| ReadBack.ReadRenderText | spec/defines/network_if_static_spec.rb:153-181 | reading the rendered text back gives the model itself: no field is lost or written under another key |
| ReadBack.ReadIPv6Addresses | spec/defines/network_if_static_spec.rb:364-365 | IPV6ADDR and IPV6ADDR_SECONDARIES read back to the ordered address list |
| ReadBack.ParseTexts | spec/defines/network_if_static_spec.rb:153-181 | each written `KEY=value` line parses back to its key and value, even when the value holds `=` |
| ReadBack.UnquoteQuoteOpt | spec/defines/network_if_static_spec.rb:164-176 | a quoted free-text field reads back to the declared text |
| Validators.CoerceYesNo | spec/defines/network_if_static_spec.rb:120-129 | `true`/`false` coerce to the boolean that is written as `yes`/`no`, and the written word coerces back to it |
| Validators.CoerceBoolCaseInsensitive | spec/defines/network_if_static_spec.rb:120-129 | boolean coercion ignores letter case |
| Accepted.RequiredParameters | spec/defines/network_if_static_spec.rb:72-109 | the required-parameters example is accepted, its file has the ten expected lines in order, and the plan is the manage step alone |
| Accepted.RequiredBuilt | spec/defines/network_if_static_spec.rb:72-85 | `test1` with `device => 'eth1'` is up, its DEVICE is `eth1`, it pins the MAC of `macaddress_eth1` and has PEERDNS off |
| Accepted.Vlan | spec/defines/network_if_static_spec.rb:186-221 | title `eth6.203` without a device is written as `DEVICE=eth6.203` with the MAC of `macaddress_eth6`, the lines in order |
| Accepted.VlanFact | spec/defines/network_if_static_spec.rb:187-211 | for title `eth6.203` the device stays `eth6.203` while the MAC fact is `macaddress_eth6` |
| Accepted.Unpinned | spec/defines/network_if_static_spec.rb:223-259 | with `manage_hwaddr => false` the expected lines occur in order and no HWADDR line is written, although the fact exists |
| Accepted.UnpinnedBuilt | spec/defines/network_if_static_spec.rb:223-237 | with `manage_hwaddr => false` no MAC is pinned |
| Accepted.FlushPlanned | spec/defines/network_if_static_spec.rb:261-277 | `flush => true` plans the flush of `eth1` with command `ip addr flush dev eth1`, strictly before the manage step |
| Planner.Plan | spec/defines/network_if_static_spec.rb:261-276 | the plan ends with the manage step and holds it once; it has exactly one flush when `flush` is set and none otherwise, the flush names the device and comes before the manage step |
| Planner.PlanWithoutFlush | spec/defines/network_if_static_spec.rb:261-276 | switching `flush` off removes the flush action and changes nothing else |
| Planner.FlushCommandTarget | spec/defines/network_if_static_spec.rb:276 | the flush command names exactly the interface's device |
| Planner.WithoutFlushes | spec/defines/network_if_static_spec.rb:276 | removing the flushes leaves exactly the plan's other actions, in their original order, none of them a flush, shorter by the number removed |
| IPv6Lists.SingleList | spec/defines/network_if_static_spec.rb:279-322 | a one-element list is written as IPV6ADDR alone, after PEERDNS=no and IPV6INIT=yes, with no secondaries line |
| IPv6Lists.SingleHasNoSecondaries | spec/defines/network_if_static_spec.rb:305-319 | a one-address model has no IPV6ADDR_SECONDARIES value or line |
| IPv6Lists.MultipleList | spec/defines/network_if_static_spec.rb:324-370 | a three-element list writes the first as IPV6ADDR and the other two, quoted and space-joined in order, as IPV6ADDR_SECONDARIES |
| IPv6Lists.SecondariesLine | spec/defines/network_if_static_spec.rb:365 | the secondaries value of `[a1, a2, a3]` is `"a2 a3"` |
| IPv6Lists.V6ListBuilt | spec/defines/network_if_static_spec.rb:279-296 | an accepted IPv6 list is kept in declaration order in the model |
| OptionalParameters.Optional | spec/defines/network_if_static_spec.rb:111-184 | the all-optional example, declared down, has ONBOOT=no, HOTPLUG=no and every optional line in the expected order, with quoted free text and yes/no booleans |
| OptionalParameters.OptionalBuilt | spec/defines/network_if_static_spec.rb:111-143 | the explicit `macaddress` wins over the `macaddress_eth1` fact and every optional parameter is carried into the model |
| OptionalParameters.WrittenValid | spec/defines/network_if_static_spec.rb:118-131 | the example's gateway, DNS servers, MAC, prefixed IPv6 address and IPv6 gateway pass their validators |

## Left out

- The file resource attributes (`ensure`, `mode`, `owner`, `group`, `path`, `notify`) belong to the catalogue and the filesystem, not to the logic.
- The NetworkManager service and the running of the flush and nmcli commands are host side effects. The planner returns only the ordered actions.
- The `osfamily` fact and the choice of file path are environment plumbing. The facts are a plain map, and only `macaddress_<device>` is read.
- Ruby's exact spelling of a hash differs between Ruby versions. The model spells a mapping as `{key=>value,...}` and claims only that the key and value appear in the message.
- `verify_contents` does not assert that a line is absent. The absence of HWADDR under `manage_hwaddr => false`, and of IPV6ADDR_SECONDARIES for one address, are choices of this model.
- `netmask`, `mtu`, `linkdelay`, `metric`, `defroute` and `zone` are carried as text without type checks. The suite shows no validation of them.
- The manifest and the template are not part of this model. The key order, the `{k=>v}` spelling and the wording of the non-IP error messages are this model's choices.
- ResolveDevice: a declared empty `device => ''` counts as absent, and the title is used. Every other optional field counts once declared. The model does this so that DEVICE is never written empty.
- Build: requires a non-empty title. A resource title is never empty where the define is declared, so the model does not say what an empty one would do.
