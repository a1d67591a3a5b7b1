/** What a file-content expectation checks: the expected lines occur in the
    rendered file in the given relative order, other lines may come between
    them. The lemmas here show that the renderer's fixed key order meets the
    expectations for the required parameters. */
module Contents {
  import opened Wrappers
  import opened Model
  import opened Renderer

  /** `xs` occurs in `ys` in order, possibly with other elements between. */
  predicate IsSubsequence<T(==)>(xs: seq<T>, ys: seq<T>)
    decreases |ys|
  {
    if |xs| == 0 then true
    else if |ys| == 0 then false
    else if xs[0] == ys[0] then IsSubsequence(xs[1..], ys[1..])
    else IsSubsequence(xs, ys[1..])
  }

  /** The expected lines occur in the file text in the given relative order. */
  predicate VerifyContents(text: seq<string>, expected: seq<string>) {
    IsSubsequence(expected, text)
  }

  lemma {:induction false} SubsequenceTail<T>(xs: seq<T>, ys: seq<T>)
    requires |xs| > 0 && IsSubsequence(xs, ys)
    ensures IsSubsequence(xs[1..], ys)
    decreases |ys|, 1
  {
    if xs[0] == ys[0] {
      SubsequenceSkip(xs[1..], ys);
    } else {
      SubsequenceTail(xs, ys[1..]);
      SubsequenceSkip(xs[1..], ys);
    }
  }

  lemma {:induction false} SubsequenceSkip<T>(xs: seq<T>, ys: seq<T>)
    requires |ys| > 0 && IsSubsequence(xs, ys[1..])
    ensures IsSubsequence(xs, ys)
    decreases |ys|, 0
  {
    if |xs| > 0 && xs[0] == ys[0] {
      SubsequenceTail(xs, ys[1..]);
    }
  }

  /** Writing both sides as text keeps the order relation. */
  lemma {:induction false} SubsequenceTexts(xs: seq<Line>, ys: seq<Line>)
    requires IsSubsequence(xs, ys)
    ensures IsSubsequence(Texts(xs), Texts(ys))
    decreases |ys|
  {
    if |xs| > 0 {
      assert Texts(ys)[1..] == Texts(ys[1..]);
      if xs[0] == ys[0] {
        SubsequenceTexts(xs[1..], ys[1..]);
        assert Texts(xs)[1..] == Texts(xs[1..]);
      } else {
        SubsequenceTexts(xs, ys[1..]);
        if Texts(xs)[0] == Texts(ys)[0] {
          SubsequenceTail(Texts(xs), Texts(ys[1..]));
        }
      }
    }
  }

  /** Lines of rank `n` or more, each carrying the value of its rank. */
  predicate CarriedFrom(xs: seq<Line>, values: seq<Option<string>>, n: nat)
    requires |values| == KeyCount
  {
    forall i :: 0 <= i < |xs| ==> n <= Rank(xs[i].key) && values[Rank(xs[i].key)] == Some(xs[i].value)
  }

  /** Behind the first line, the remaining lines are of rank above `n`. */
  lemma CarriedTail(xs: seq<Line>, values: seq<Option<string>>, n: nat)
    requires |values| == KeyCount && |xs| > 0
    requires RankOrdered(xs) && CarriedFrom(xs, values, n)
    ensures RankOrdered(xs[1..]) && CarriedFrom(xs[1..], values, n + 1)
  {
    forall i | 0 <= i < |xs[1..]|
      ensures n + 1 <= Rank(xs[1..][i].key)
    {
      assert xs[1..][i] == xs[i + 1];
      assert Rank(xs[0].key) < Rank(xs[i + 1].key);
    }
  }

  /** When the first line is not of rank `n`, no line is. */
  lemma CarriedAbove(xs: seq<Line>, values: seq<Option<string>>, n: nat)
    requires |values| == KeyCount && |xs| > 0 && Rank(xs[0].key) != n
    requires RankOrdered(xs) && CarriedFrom(xs, values, n)
    ensures CarriedFrom(xs, values, n + 1)
  {
    forall i | 0 < i < |xs|
      ensures n < Rank(xs[i].key)
    {
      assert Rank(xs[0].key) < Rank(xs[i].key);
    }
  }

  /** The line of rank `n`, emitted in front of the lines above it, keeps
      the expected lines in order. */
  lemma EmitContainsStep(xs: seq<Line>, values: seq<Option<string>>, n: nat, kn: Key, rest: seq<Line>)
    requires |values| == KeyCount && n < KeyCount && Rank(kn) == n && |xs| > 0
    requires n <= Rank(xs[0].key) && values[Rank(xs[0].key)] == Some(xs[0].value)
    requires Rank(xs[0].key) == n ==> IsSubsequence(xs[1..], rest)
    requires Rank(xs[0].key) != n ==> IsSubsequence(xs, rest)
    ensures var head := if values[n].Some? then [Line(kn, values[n].value)] else [];
            IsSubsequence(xs, head + rest)
  {
    var head := if values[n].Some? then [Line(kn, values[n].value)] else [];
    if Rank(xs[0].key) == n {
      RankInjective(kn, xs[0].key);
      assert (head + rest)[0] == xs[0];
      assert (head + rest)[1..] == rest;
    } else if values[n].Some? {
      assert (head + rest)[1..] == rest;
      SubsequenceSkip(xs, head + rest);
    } else {
      assert head + rest == rest;
    }
  }

  /** A rank-ordered list of lines, each carrying the value of its rank,
      occurs in order in the emitted lines. */
  lemma {:induction false} EmitContains(xs: seq<Line>, values: seq<Option<string>>, n: nat)
    requires |values| == KeyCount
    requires RankOrdered(xs) && CarriedFrom(xs, values, n)
    ensures IsSubsequence(xs, Emit(values, n))
    decreases KeyCount - n
  {
    if |xs| > 0 {
      if Rank(xs[0].key) == n {
        CarriedTail(xs, values, n);
        EmitContains(xs[1..], values, n + 1);
      } else {
        CarriedAbove(xs, values, n);
        EmitContains(xs, values, n + 1);
      }
      EmitContainsStep(xs, values, n, KeyAt(n), Emit(values, n + 1));
    }
  }

  /** Any rank-ordered selection of the model's lines occurs in the rendered
      file in that order, as structured lines and as text. */
  lemma RenderContains(c: Ifcfg, xs: seq<Line>)
    requires RankOrdered(xs)
    requires forall i :: 0 <= i < |xs| ==> FieldValue(c, xs[i].key) == Some(xs[i].value)
    ensures IsSubsequence(xs, Render(c))
    ensures VerifyContents(RenderText(c), Texts(xs))
  {
    var values := Slots(c);
    EmitContains(xs, values, 0);
    assert Render(c) == Emit(values, 0);
    SubsequenceTexts(xs, Render(c));
  }

  /** Ranks that increase between neighbours increase throughout. */
  lemma {:induction false} StepwiseOrdered(xs: seq<Line>)
    requires forall i :: 0 <= i < |xs| - 1 ==> Rank(xs[i].key) < Rank(xs[i + 1].key)
    ensures RankOrdered(xs)
    decreases |xs|
  {
    if |xs| > 1 {
      StepwiseOrdered(xs[1..]);
      forall p, q | 0 <= p < q < |xs|
        ensures Rank(xs[p].key) < Rank(xs[q].key)
      {
        assert xs[q] == xs[1..][q - 1];
        if p > 0 {
          assert xs[p] == xs[1..][p - 1];
        } else if q > 1 {
          assert xs[1] == xs[1..][0];
        }
      }
    }
  }

  /** The lines every file with an address has, in the order they must
      appear; HWADDR only when a hardware address is pinned. */
  function RequiredLines(c: Ifcfg): seq<Line>
    requires c.ipaddress.Some? && c.netmask.Some?
  {
    if c.hwaddr.Some? then
      [Line(Device, c.device), Line(BootProto, "none"), Line(HwAddr, c.hwaddr.value),
       Line(OnBoot, YesNo(c.state == Up)), Line(HotPlug, YesNo(c.state == Up)),
       Line(Type, "Ethernet"), Line(IpAddr, c.ipaddress.value), Line(Netmask, c.netmask.value),
       Line(PeerDns, YesNo(c.peerdns)), Line(NmControlled, "yes")]
    else
      [Line(Device, c.device), Line(BootProto, "none"),
       Line(OnBoot, YesNo(c.state == Up)), Line(HotPlug, YesNo(c.state == Up)),
       Line(Type, "Ethernet"), Line(IpAddr, c.ipaddress.value), Line(Netmask, c.netmask.value),
       Line(PeerDns, YesNo(c.peerdns)), Line(NmControlled, "yes")]
  }

  /** The rendered file of any interface with an address contains DEVICE,
      BOOTPROTO=none, HWADDR (when pinned), ONBOOT, HOTPLUG, TYPE=Ethernet,
      IPADDR, NETMASK, PEERDNS and NM_CONTROLLED=yes, in that order, with
      ONBOOT and HOTPLUG `yes` exactly when the interface is up. */
  lemma RequiredContents(c: Ifcfg)
    requires c.ipaddress.Some? && c.netmask.Some?
    ensures VerifyContents(RenderText(c), Texts(RequiredLines(c)))
  {
    RequiredOrdered(c);
    RequiredValues(c);
    StepwiseOrdered(RequiredLines(c));
    RenderContains(c, RequiredLines(c));
  }

  lemma RequiredOrdered(c: Ifcfg)
    requires c.ipaddress.Some? && c.netmask.Some?
    ensures var xs := RequiredLines(c);
            forall i :: 0 <= i < |xs| - 1 ==> Rank(xs[i].key) < Rank(xs[i + 1].key)
  {
  }

  lemma RequiredValues(c: Ifcfg)
    requires c.ipaddress.Some? && c.netmask.Some?
    ensures var xs := RequiredLines(c);
            forall i :: 0 <= i < |xs| ==> FieldValue(c, xs[i].key) == Some(xs[i].value)
  {
  }
}
