/** The actions a validated interface asks of the host once its file is
    written: an optional address flush, then the NetworkManager manage step.
    The planner only returns the ordered intent; running the commands and
    managing the service belong to the host. */
module Planner {
  import opened Wrappers
  import opened Model
  import opened Contents

  datatype Action =
    | FlushAddresses(device: string)  // `ip addr flush dev <device>`
    | ManageConnections                // the nmcli manage step

  /** The shell command an action runs, when it is one this define owns. */
  function Command(a: Action): Option<string> {
    match a
    case FlushAddresses(d) => Some(FlushPrefix + d)
    case ManageConnections => None
  }

  const FlushPrefix := "ip addr flush dev "

  /** The device a flush command names, read back from its text. */
  function FlushTarget(cmd: string): Option<string> {
    if FlushPrefix <= cmd then Some(cmd[|FlushPrefix|..]) else None
  }

  /** `a` occurs at some position strictly before an occurrence of `b`. */
  predicate Before(plan: seq<Action>, a: Action, b: Action) {
    exists i, j :: 0 <= i < j < |plan| && plan[i] == a && plan[j] == b
  }

  /** Number of flush actions in a plan. */
  function Flushes(plan: seq<Action>): nat {
    if |plan| == 0 then 0
    else (if plan[0].FlushAddresses? then 1 else 0) + Flushes(plan[1..])
  }

  /** Flushes of a joined plan are the flushes of its parts. */
  lemma {:induction false} FlushesConcat(a: seq<Action>, b: seq<Action>)
    ensures Flushes(a + b) == Flushes(a) + Flushes(b)
    decreases |a|
  {
    if |a| == 0 {
      assert a + b == b;
    } else {
      assert (a + b)[0] == a[0];
      assert (a + b)[1..] == a[1..] + b;
      FlushesConcat(a[1..], b);
    }
  }

  /** The plan with every flush action removed. */
  function WithoutFlushes(plan: seq<Action>): (rest: seq<Action>)
    ensures Flushes(rest) == 0
    ensures |rest| + Flushes(plan) == |plan|
    // exactly the non-flush actions survive, in their original order
    ensures forall a :: a in rest <==> a in plan && !a.FlushAddresses?
    ensures IsSubsequence(rest, plan)
  {
    if |plan| == 0 then []
    else
      var head := if plan[0].FlushAddresses? then [] else [plan[0]];
      var tail := WithoutFlushes(plan[1..]);
      FlushesConcat(head, tail);
      assert plan == [plan[0]] + plan[1..];
      if plan[0].FlushAddresses? then
        SubsequenceSkip(tail, plan);
        assert head + tail == tail;
        head + tail
      else
        assert (head + tail)[1..] == tail;
        head + tail
  }

  /** The actions of one interface, in the order they must run. */
  function Plan(i: Interface): (plan: seq<Action>)
    ensures |plan| > 0 && plan[|plan| - 1] == ManageConnections
    ensures forall k :: 0 <= k < |plan| - 1 ==> plan[k] != ManageConnections
    ensures Flushes(plan) == (if i.flush then 1 else 0)
    ensures forall k :: 0 <= k < |plan| ==> plan[k] == ManageConnections || plan[k] == FlushAddresses(i.cfg.device)
    ensures i.flush ==> Before(plan, FlushAddresses(i.cfg.device), ManageConnections)
  {
    var plan := (if i.flush then [FlushAddresses(i.cfg.device)] else []) + [ManageConnections];
    assert i.flush ==> plan[0] == FlushAddresses(i.cfg.device) && plan[1] == ManageConnections;
    assert Flushes(plan[|plan| - 1..]) == 0;
    plan
  }

  /** Switching `flush` off removes the flush action and nothing else. */
  lemma PlanWithoutFlush(i: Interface)
    ensures WithoutFlushes(Plan(i)) == Plan(i.(flush := false))
  {
    var p := Plan(i);
    if i.flush {
      assert p == [FlushAddresses(i.cfg.device), ManageConnections];
      assert WithoutFlushes(p[1..]) == [ManageConnections];
    } else {
      assert p == [ManageConnections];
    }
  }

  /** The flush command names exactly the interface's device. */
  lemma FlushCommandTarget(d: string)
    ensures Command(FlushAddresses(d)).Some?
    ensures FlushTarget(Command(FlushAddresses(d)).value) == Some(d)
  {
    var cmd := FlushPrefix + d;
    assert cmd[|FlushPrefix|..] == d;
  }
}
