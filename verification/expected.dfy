/** Expected file lines, written as a chain of lines so that each line can
    be checked against a file model as it is put in front of the lines
    after it. */
module Expected {
  import opened Wrappers
  import opened Model
  import opened Renderer
  import opened Contents

  /** A chain of expected `KEY=value` lines. */
  datatype Lines = End | Cons(key: Key, value: string, rest: Lines)

  /** The text of a chain, written line by line. */
  function TextsOf(l: Lines): seq<string> {
    match l
    case End => []
    case Cons(k, v, rest) => [ToText(Line(k, v))] + TextsOf(rest)
  }

  /** The lines of a chain, first to last. */
  function Listed(l: Lines): (xs: seq<Line>)
    ensures l.Cons? <==> |xs| > 0
    ensures l.Cons? ==> xs[0] == Line(l.key, l.value) && xs[1..] == Listed(l.rest)
  {
    match l
    case End => []
    case Cons(k, v, rest) => [Line(k, v)] + Listed(rest)
  }

  /** Writing a chain line by line gives the text of its listed lines. */
  lemma {:induction false} TextsOfListed(l: Lines)
    ensures TextsOf(l) == Texts(Listed(l))
  {
    match l
    case End =>
    case Cons(k, v, rest) =>
      TextsOfListed(rest);
      assert Texts(Listed(l))[1..] == Texts(Listed(rest));
  }

  /** Every line of the chain is one the model writes, and each key ranks
      below the next one's. */
  predicate Shown(c: Ifcfg, l: Lines) {
    match l
    case End => true
    case Cons(k, v, rest) =>
      && FieldValue(c, k) == Some(v)
      && (rest.Cons? ==> Rank(k) < Rank(rest.key))
      && Shown(c, rest)
  }

  /** A line the model writes, put in front of a shown chain starting
      above its key, is shown. */
  lemma ShownCons(c: Ifcfg, k: Key, v: string, rest: Lines)
    requires FieldValue(c, k) == Some(v) && Shown(c, rest)
    requires rest.Cons? ==> Rank(k) < Rank(rest.key)
    ensures Shown(c, Cons(k, v, rest))
  {
  }

  /** Each line's key ranks below the next line's. */
  predicate StepOrdered(xs: seq<Line>) {
    forall i :: 0 <= i < |xs| - 1 ==> Rank(xs[i].key) < Rank(xs[i + 1].key)
  }

  /** Each line holds the value the model writes for its key. */
  predicate ValuesShown(c: Ifcfg, xs: seq<Line>) {
    forall i :: 0 <= i < |xs| ==> FieldValue(c, xs[i].key) == Some(xs[i].value)
  }

  /** A shown chain lists rank-ordered lines holding the model's values. */
  lemma {:induction false} ShownListed(c: Ifcfg, l: Lines)
    requires Shown(c, l)
    ensures StepOrdered(Listed(l)) && ValuesShown(c, Listed(l))
  {
    match l
    case End =>
    case Cons(k, v, rest) =>
      ShownListed(c, rest);
      var xs := Listed(rest);
      var ys := Listed(l);
      forall i | 0 <= i < |ys| - 1
        ensures Rank(ys[i].key) < Rank(ys[i + 1].key)
      {
        if i > 0 {
          assert ys[i] == xs[i - 1] && ys[i + 1] == xs[i];
        }
      }
      forall i | 0 <= i < |ys|
        ensures FieldValue(c, ys[i].key) == Some(ys[i].value)
      {
        if i > 0 {
          assert ys[i] == xs[i - 1];
        }
      }
  }

  /** A shown chain appears, in order, in the model's file. */
  lemma Shows(c: Ifcfg, l: Lines)
    requires Shown(c, l)
    ensures VerifyContents(RenderText(c), Texts(Listed(l)))
  {
    ShownListed(c, l);
    StepwiseOrdered(Listed(l));
    RenderContains(c, Listed(l));
  }

  /** HWADDR in front of `rest` when a hardware address is pinned. */
  function Pinned(hwaddr: Option<string>, rest: Lines): Lines {
    if hwaddr.Some? then Cons(HwAddr, hwaddr.value, rest) else rest
  }

  /** The lines every accepted example starts with: DEVICE, BOOTPROTO=none,
      HWADDR when pinned, ONBOOT, HOTPLUG, TYPE=Ethernet and the example
      address `1.2.3.4/255.255.255.0`, followed by `rest`. */
  function Front(device: string, hwaddr: Option<string>, onboot: string, rest: Lines): Lines {
    Cons(Device, device,
    Cons(BootProto, "none",
    Pinned(hwaddr,
    Cons(OnBoot, onboot,
    Cons(HotPlug, onboot,
    Cons(Type, "Ethernet",
    Cons(IpAddr, "1.2.3.4",
    Cons(Netmask, "255.255.255.0", rest))))))))
  }

  /** The front lines of a model with the example address, followed by a
      shown chain starting above NETMASK, are shown. */
  lemma FrontShown(c: Ifcfg, device: string, hwaddr: Option<string>, onboot: string, rest: Lines)
    requires c.device == device && c.hwaddr == hwaddr && onboot == YesNo(c.state == Up)
    requires c.ipaddress == Some("1.2.3.4") && c.netmask == Some("255.255.255.0")
    requires Shown(c, rest) && rest.Cons? && Rank(Netmask) < Rank(rest.key)
    ensures Shown(c, Front(device, hwaddr, onboot, rest))
  {
    ShownCons(c, Netmask, "255.255.255.0", rest);
    var t := Cons(Netmask, "255.255.255.0", rest);
    ShownCons(c, IpAddr, "1.2.3.4", t);
    t := Cons(IpAddr, "1.2.3.4", t);
    ShownCons(c, Type, "Ethernet", t);
    t := Cons(Type, "Ethernet", t);
    ShownCons(c, HotPlug, onboot, t);
    t := Cons(HotPlug, onboot, t);
    ShownCons(c, OnBoot, onboot, t);
    t := Cons(OnBoot, onboot, t);
    if hwaddr.Some? {
      ShownCons(c, HwAddr, hwaddr.value, t);
    }
    t := Pinned(hwaddr, t);
    ShownCons(c, BootProto, "none", t);
    t := Cons(BootProto, "none", t);
    ShownCons(c, Device, device, t);
  }
}
