/** The validation failures of an interface declaration and the messages
    they are reported with. Every message starts with the offending value so
    that a caller can match the guilty text inside it. */
module Errors {
  import opened Text

  datatype ValidationError =
    | InvalidState(value: string)
    | MissingPairedField(declared: string, missing: string)
    | InvalidIPv4(value: string)
    | InvalidMAC(value: string)
    | InvalidIPv6(value: string)
    | InvalidIPv6InList(value: string)
    | InvalidBoolean(field: string, value: string)

  /** The value the failure is about. */
  function Offending(e: ValidationError): string {
    match e
    case MissingPairedField(declared, _) => declared
    case _ => e.value
  }

  /** The human-readable message; the three IP wordings are the ones callers
      match on: plain IPv4, plain IPv6, and "IP(v6)" for a list element. */
  function Message(e: ValidationError): (m: string)
    ensures Offending(e) <= m
  {
    Offending(e) + match e
      case InvalidState(_) => " is not a valid interface state."
      case MissingPairedField(_, missing) => " is declared without " + missing + "."
      case InvalidIPv4(_) => " is not an IP address."
      case InvalidMAC(_) => " is not a MAC address."
      case InvalidIPv6(_) => " is not an IPv6 address."
      case InvalidIPv6InList(_) => " is not an IP(v6) address."
      case InvalidBoolean(_, _) => " is not a boolean."
  }

  /** A keyed mapping spelled out for an error message: `{key=>value,...}`. */
  function ShowMapping(entries: seq<(string, string)>): string {
    "{" + Join(seq(|entries|, i requires 0 <= i < |entries| => ShowEntry(entries[i])), ',') + "}"
  }

  function ShowEntry(entry: (string, string)): string {
    entry.0 + "=>" + entry.1
  }

  /** Each entry of a mapping is visible in its spelling. */
  lemma ShowMappingShowsEntry(entries: seq<(string, string)>, j: nat)
    requires j < |entries|
    ensures Contains(ShowMapping(entries), ShowEntry(entries[j]))
  {
    var shown := seq(|entries|, i requires 0 <= i < |entries| => ShowEntry(entries[i]));
    var body := Join(shown, ',');
    JoinContains(shown, ',', j);
    ContainsMiddle("{", body, "}");
    ContainsTransitive(ShowMapping(entries), body, shown[j]);
  }

  /** An entry's spelling shows its key and then its value. */
  lemma ShowEntryShowsKeyAndValue(entry: (string, string))
    ensures Contains(ShowEntry(entry), entry.0)
    ensures Contains(ShowEntry(entry), entry.1)
  {
    ContainsMiddle("", entry.0, "=>" + entry.1);
    assert "" + entry.0 + ("=>" + entry.1) == ShowEntry(entry);
    ContainsMiddle(entry.0 + "=>", entry.1, "");
    assert entry.0 + "=>" + entry.1 + "" == ShowEntry(entry);
  }

  /** The IPv6 rejection message shows the rejected value whole. */
  lemma IPv6MessageShowsValue(v: string)
    ensures Message(InvalidIPv6(v)) == v + " is not an IPv6 address."
    ensures Contains(Message(InvalidIPv6(v)), v)
  {
    ContainsMiddle("", v, " is not an IPv6 address.");
    assert "" + v + " is not an IPv6 address." == v + " is not an IPv6 address.";
  }

  /** The rejection message for a mapping passed where an IPv6 value is
      expected shows each entry, key before value, followed by the IPv6
      wording. */
  lemma MappingMessageShowsEntries(entries: seq<(string, string)>, j: nat)
    requires j < |entries|
    ensures Message(InvalidIPv6(ShowMapping(entries))) == ShowMapping(entries) + " is not an IPv6 address."
    ensures Contains(Message(InvalidIPv6(ShowMapping(entries))), entries[j].0 + "=>" + entries[j].1)
    ensures Contains(Message(InvalidIPv6(ShowMapping(entries))), entries[j].0)
    ensures Contains(Message(InvalidIPv6(ShowMapping(entries))), entries[j].1)
  {
    var shown := ShowMapping(entries);
    var m := Message(InvalidIPv6(shown));
    var entry := ShowEntry(entries[j]);
    IPv6MessageShowsValue(shown);
    ShowMappingShowsEntry(entries, j);
    ContainsTransitive(m, shown, entry);
    ShowEntryShowsKeyAndValue(entries[j]);
    ContainsTransitive(m, entry, entries[j].0);
    ContainsTransitive(m, entry, entries[j].1);
  }
}
