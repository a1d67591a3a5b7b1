/** The type validators of the interface declaration: IPv4 dotted quads,
    IPv6 literals with an optional prefix length, MAC addresses and the
    boolean-like words. Each is a predicate over the raw text, paired with a
    constructor of well-formed values that it accepts. */
module Validators {
  import opened Wrappers
  import opened Text

  // ---------------------------------------------------------------- IPv4

  /** One decimal component of a dotted quad: one to three digits, at most 255. */
  predicate IsOctet(s: string) {
    1 <= |s| <= 3 && AllDigits(s) && DecimalValue(s) <= 255
  }

  /** Exactly four dot-separated octets. */
  predicate IsIPv4(s: string) {
    var parts := Split(s, '.');
    |parts| == 4 && forall j :: 0 <= j < 4 ==> IsOctet(parts[j])
  }

  /** The numeric octets of an accepted address, in writing order. */
  function Octets(s: string): (q: seq<nat>)
    requires IsIPv4(s)
    ensures |q| == 4 && forall j :: 0 <= j < 4 ==> q[j] <= 255
  {
    var parts := Split(s, '.');
    [DecimalValue(parts[0]), DecimalValue(parts[1]), DecimalValue(parts[2]), DecimalValue(parts[3])]
  }

  /** The canonical dotted-quad spelling of four octet values. */
  function FormatIPv4(a: nat, b: nat, c: nat, d: nat): string
    requires a <= 255 && b <= 255 && c <= 255 && d <= 255
  {
    Join([NatToDecimal(a), NatToDecimal(b), NatToDecimal(c), NatToDecimal(d)], '.')
  }

  /** Every canonically written quad is accepted, and reading it back gives
      the octets it was written from. */
  lemma FormatIPv4Accepted(a: nat, b: nat, c: nat, d: nat)
    requires a <= 255 && b <= 255 && c <= 255 && d <= 255
    ensures IsIPv4(FormatIPv4(a, b, c, d))
    ensures Octets(FormatIPv4(a, b, c, d)) == [a, b, c, d]
  {
    var parts := [NatToDecimal(a), NatToDecimal(b), NatToDecimal(c), NatToDecimal(d)];
    forall j | 0 <= j < 4
      ensures '.' !in parts[j] && IsOctet(parts[j])
    {
      assert AllDigits(parts[j]);
    }
    SplitJoin(parts, '.');
  }

  /** A value without any dot, such as `notAnIP`, is never an IPv4 address. */
  lemma NoDotNotIPv4(s: string)
    requires '.' !in s
    ensures !IsIPv4(s)
  {
    assert Split(s, '.') == [s];
  }

  // ---------------------------------------------------------------- IPv6

  /** One to four hexadecimal digits: a 16-bit group. */
  predicate IsHexGroup(g: string) {
    1 <= |g| <= 4 && forall i :: 0 <= i < |g| ==> IsHexDigit(g[i])
  }

  predicate IsIPv6Char(c: char) {
    IsHexDigit(c) || c == ':' || c == '.'
  }

  /** Colon-separated groups written on one side of a `::`; none when that
      side is empty. */
  function Groups(s: string): seq<string> {
    if s == "" then [] else Split(s, ':')
  }

  /** Hexadecimal groups, except that the last may be an embedded dotted quad
      (as in `::ffff:1.2.3.4`) when `tail` allows it. */
  predicate WellFormedGroups(gs: seq<string>, tail: bool) {
    forall j :: 0 <= j < |gs| ==>
      IsHexGroup(gs[j]) || (tail && j == |gs| - 1 && IsIPv4(gs[j]))
  }

  /** The number of 16-bit groups the written groups stand for: an embedded
      dotted quad stands for two. */
  function Weight(gs: seq<string>): nat {
    if |gs| > 0 && IsIPv4(gs[|gs| - 1]) then |gs| + 1 else |gs|
  }

  /** An IPv6 address in the text form of section 2.2 of RFC 4291: eight
      groups, or fewer with a single `::` standing for at least one zero
      group. */
  predicate IsIPv6Address(s: string) {
    && (forall k :: 0 <= k < |s| ==> IsIPv6Char(s[k]))
    && match DoubleColon(s)
       case None =>
         var gs := Split(s, ':');
         WellFormedGroups(gs, true) && Weight(gs) == 8
       case Some(i) =>
         var left := Groups(s[..i]);
         var right := Groups(s[i + 2..]);
         && DoubleColon(s[i + 2..]).None?
         && WellFormedGroups(left, false)
         && WellFormedGroups(right, true)
         && Weight(left) + Weight(right) <= 7
  }

  /** A prefix length: one to three digits, at most 128. */
  predicate IsPrefixLength(p: string) {
    1 <= |p| <= 3 && AllDigits(p) && DecimalValue(p) <= 128
  }

  /** The IPv6 validator: an address, optionally followed by `/` and a
      prefix length, which is stripped before the address is checked. */
  predicate IsIPv6(s: string) {
    if '/' in s then
      var i := FirstIndex(s, '/');
      IsIPv6Address(s[..i]) && IsPrefixLength(s[i + 1..])
    else IsIPv6Address(s)
  }

  /** Prefix stripping: `a/p` is accepted exactly when `a` is an address and
      `p` a prefix length. */
  lemma PrefixStripped(a: string, p: string)
    requires '/' !in a
    ensures IsIPv6(a + "/" + p) <==> IsIPv6Address(a) && IsPrefixLength(p)
  {
    var s := a + "/" + p;
    assert s[|a|] == '/';
    var i := FirstIndex(s, '/');
    assert forall k :: 0 <= k < |a| ==> s[k] == a[k];
    assert forall k :: 0 <= k < i ==> s[k] == s[..i][k];
    assert i == |a|;
    assert s[..i] == a;
    assert s[i + 1..] == p;
  }

  /** Neighbouring groups of a join of non-empty, colon-free groups are
      separated by exactly one colon, so the join has no `::`. */
  lemma {:induction false} JoinHasNoDoubleColon(gs: seq<string>)
    requires forall j :: 0 <= j < |gs| ==> |gs[j]| > 0 && ':' !in gs[j]
    ensures DoubleColon(Join(gs, ':')).None?
    ensures |gs| > 0 ==> |Join(gs, ':')| > 0 && Join(gs, ':')[0] == gs[0][0]
    decreases |gs|
  {
    if |gs| > 1 {
      var rest := Join(gs[1..], ':');
      JoinHasNoDoubleColon(gs[1..]);
      var s := Join(gs, ':');
      assert s == gs[0] + [':'] + rest;
      forall k | 0 <= k < |s| - 1
        ensures !(s[k] == ':' && s[k + 1] == ':')
      {
        if k < |gs[0]| {
          assert s[k] == gs[0][k];
        } else if k > |gs[0]| {
          assert s[k] == rest[k - |gs[0]| - 1];
          assert s[k + 1] == rest[k - |gs[0]|];
        } else {
          assert s[k + 1] == rest[0];
        }
      }
    }
  }

  /** Every character of a join comes from a piece or is the separator. */
  lemma {:induction false} JoinChars(gs: seq<string>, sep: char, k: nat)
    requires k < |Join(gs, sep)|
    ensures Join(gs, sep)[k] == sep || exists j, m :: 0 <= j < |gs| && 0 <= m < |gs[j]| && Join(gs, sep)[k] == gs[j][m]
    decreases |gs|
  {
    if |gs| == 1 {
      assert Join(gs, sep)[k] == gs[0][k];
    } else if |gs| > 1 {
      var rest := Join(gs[1..], sep);
      assert Join(gs, sep) == gs[0] + [sep] + rest;
      if k < |gs[0]| {
        assert Join(gs, sep)[k] == gs[0][k];
      } else if k > |gs[0]| {
        JoinChars(gs[1..], sep, k - |gs[0]| - 1);
        assert Join(gs, sep)[k] == rest[k - |gs[0]| - 1];
        if rest[k - |gs[0]| - 1] != sep {
          var j, m :| 0 <= j < |gs[1..]| && 0 <= m < |gs[1..][j]| && rest[k - |gs[0]| - 1] == gs[1..][j][m];
          assert Join(gs, sep)[k] == gs[j + 1][m];
        }
      }
    }
  }

  /** The full, uncompressed form is accepted: any eight hexadecimal groups
      joined by colons. */
  lemma FullFormAccepted(gs: seq<string>)
    requires |gs| == 8
    requires forall j :: 0 <= j < 8 ==> IsHexGroup(gs[j])
    ensures IsIPv6(Join(gs, ':'))
    ensures IsIPv6Address(Join(gs, ':'))
  {
    var s := Join(gs, ':');
    forall j | 0 <= j < 8
      ensures |gs[j]| > 0 && ':' !in gs[j] && '.' !in gs[j] && '/' !in gs[j]
    {
      assert forall m :: 0 <= m < |gs[j]| ==> IsHexDigit(gs[j][m]);
    }
    JoinHasNoDoubleColon(gs);
    SplitJoin(gs, ':');
    forall j | 0 <= j < 8
      ensures !IsIPv4(gs[j])
    {
      NoDotNotIPv4(gs[j]);
    }
    forall k | 0 <= k < |s|
      ensures IsIPv6Char(s[k])
    {
      JoinChars(gs, ':', k);
    }
    assert '/' !in s by {
      forall k | 0 <= k < |s|
        ensures s[k] != '/'
      {
        assert IsIPv6Char(s[k]);
      }
    }
  }

  /** An address followed by a prefix length is accepted. */
  lemma AddressWithPrefixAccepted(a: string, n: nat)
    requires IsIPv6Address(a) && n <= 128
    ensures IsIPv6(a + "/" + NatToDecimal(n))
  {
    assert '/' !in a by {
      forall k | 0 <= k < |a|
        ensures a[k] != '/'
      {
        assert IsIPv6Char(a[k]);
      }
    }
    PrefixStripped(a, NatToDecimal(n));
  }

  /** A value without any colon, such as `notAnIP`, is never an IPv6 address,
      with or without a prefix length. */
  lemma NoColonNotIPv6(s: string)
    requires ':' !in s
    ensures !IsIPv6(s)
  {
    if '/' in s {
      var i := FirstIndex(s, '/');
      assert ':' !in s[..i] by {
        forall k | 0 <= k < i
          ensures s[..i][k] != ':'
        {
          assert s[..i][k] == s[k];
        }
      }
      NoColonNotIPv6Address(s[..i]);
    } else {
      NoColonNotIPv6Address(s);
    }
  }

  lemma EmptyNotIPv6Address()
    ensures !IsIPv6Address("")
  {
    NoColonNotIPv6Address("");
  }

  lemma NoColonNotIPv6Address(s: string)
    requires ':' !in s
    ensures !IsIPv6Address(s)
  {
    assert DoubleColon(s).None?;
    assert Split(s, ':') == [s];
  }

  /** An IPv6 address is never empty and holds only hexadecimal digits,
      colons and dots. */
  lemma AddressHasNoSpace(s: string)
    requires IsIPv6Address(s)
    ensures |s| > 0 && ' ' !in s
  {
    EmptyNotIPv6Address();
    forall k | 0 <= k < |s|
      ensures s[k] != ' '
    {
      assert IsIPv6Char(s[k]);
    }
  }

  /** A prefix length is all digits. */
  lemma PrefixHasNoSpace(p: string)
    requires AllDigits(p)
    ensures ' ' !in p
  {
    forall k | 0 <= k < |p|
      ensures p[k] != ' '
    {
      assert IsDigit(p[k]);
    }
  }

  /** Two space-free pieces either side of a slash make a space-free value. */
  lemma SlashedHasNoSpace(s: string, i: nat)
    requires i < |s| && s[i] == '/' && ' ' !in s[..i] && ' ' !in s[i + 1..]
    ensures ' ' !in s
  {
    forall k | 0 <= k < |s|
      ensures s[k] != ' '
    {
      if k < i {
        assert s[k] == s[..i][k];
      } else if k > i {
        assert s[k] == s[i + 1..][k - i - 1];
      }
    }
  }

  /** An accepted IPv6 value is never empty and never holds a space, so a
      space-joined list of them can be cut apart again. */
  lemma IPv6HasNoSpace(s: string)
    requires IsIPv6(s)
    ensures |s| > 0 && ' ' !in s
  {
    if '/' in s {
      var i := FirstIndex(s, '/');
      AddressHasNoSpace(s[..i]);
      PrefixHasNoSpace(s[i + 1..]);
      SlashedHasNoSpace(s, i);
    } else {
      AddressHasNoSpace(s);
    }
  }

  // ---------------------------------------------------------------- MAC

  predicate IsHexPair(g: string) {
    |g| == 2 && IsHexDigit(g[0]) && IsHexDigit(g[1])
  }

  /** Six colon-separated pairs of hexadecimal digits. */
  predicate IsMac(s: string) {
    var parts := Split(s, ':');
    |parts| == 6 && forall j :: 0 <= j < 6 ==> IsHexPair(parts[j])
  }

  /** Any six hexadecimal pairs joined by colons are a MAC address. */
  lemma MacFormAccepted(pairs: seq<string>)
    requires |pairs| == 6 && forall j :: 0 <= j < 6 ==> IsHexPair(pairs[j])
    ensures IsMac(Join(pairs, ':'))
  {
    forall j | 0 <= j < 6
      ensures ':' !in pairs[j]
    {
      assert IsHexDigit(pairs[j][0]) && IsHexDigit(pairs[j][1]);
    }
    SplitJoin(pairs, ':');
  }

  // ---------------------------------------------------------------- booleans

  /** A boolean-typed parameter as declared: a real boolean or a word. */
  datatype RawBool = Flag(b: bool) | Word(w: string)

  /** Boolean-like coercion: real booleans, or the words true/false/yes/no in
      any letter case. */
  function CoerceBool(v: RawBool): Option<bool> {
    match v
    case Flag(b) => Some(b)
    case Word(w) =>
      var l := Lower(w);
      if l == "true" || l == "yes" then Some(true)
      else if l == "false" || l == "no" then Some(false)
      else None
  }

  /** How a declared boolean is quoted back in an error message. */
  function ShowRawBool(v: RawBool): string {
    match v
    case Flag(b) => if b then "true" else "false"
    case Word(w) => w
  }

  /** The coercion ignores letter case. */
  lemma CoerceBoolCaseInsensitive(w: string)
    ensures CoerceBool(Word(w)) == CoerceBool(Word(Lower(w)))
  {
  }

  /** `yes`/`no`, as the renderer writes booleans, coerce back to the boolean. */
  lemma CoerceYesNo(b: bool)
    ensures CoerceBool(Word(if b then "yes" else "no")) == Some(b)
    ensures CoerceBool(Word(ShowRawBool(Flag(b)))) == Some(b)
  {
  }
}
