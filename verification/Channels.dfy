/** Buffered channels as histories: everything ever enqueued, and how much of it has been received. */
module Channels {
  import opened States

  /** The number of control values among the first `k` of a history. */
  function Controls(h: seq<nat>, k: nat): nat
    requires k <= |h|
  {
    if k == 0 then 0 else Controls(h, k - 1) + if h[k - 1] == TEST_END then 0 else 1
  }

  /** Go's `make(chan uint, 5)`: `sent` is every value enqueued so far, the first `taken` have been received. */
  datatype Chan = Chan(sent: seq<nat>, taken: nat) {
    predicate Valid() { taken <= |sent| <= taken + CTRL_CHAN_CAPACITY }

    predicate Empty() { taken >= |sent| }

    predicate Full() { |sent| >= taken + CTRL_CHAN_CAPACITY }

    function Push(v: nat): Chan { Chan(sent + [v], taken) }

    function Head(): nat
      requires !Empty()
    {
      sent[taken]
    }

    function Pop(): Chan { Chan(sent, taken + 1) }

    /** Control values, that is, values other than TEST_END, enqueued and received so far. */
    function Pushed(): nat { Controls(sent, |sent|) }

    function Popped(): nat
      requires Valid()
    {
      Controls(sent, taken)
    }

    /** TEST_ENDs enqueued and received so far. */
    function EndsPushed(): int { |sent| - Pushed() }

    function EndsPopped(): int
      requires Valid()
    {
      taken - Popped()
    }
  }

  lemma {:induction false} ControlsOfPush(h: seq<nat>, v: nat, k: nat)
    requires k <= |h|
    ensures Controls(h + [v], k) == Controls(h, k)
  {
    if k > 0 {
      ControlsOfPush(h, v, k - 1);
    }
  }

  /** Control values and TEST_ENDs both only accumulate. */
  lemma {:induction false} ControlsGrow(h: seq<nat>, i: nat, k: nat)
    requires i <= k <= |h|
    ensures Controls(h, i) <= Controls(h, k)
    ensures i - Controls(h, i) <= k - Controls(h, k)
  {
    if i < k {
      ControlsGrow(h, i, k - 1);
    }
  }

  /** Enqueueing counts one more value and leaves what has been received alone. */
  lemma PushFacts(c: Chan, v: nat)
    requires c.Valid()
    ensures c.Push(v).Pushed() == c.Pushed() + (if v == TEST_END then 0 else 1)
    ensures c.Push(v).EndsPushed() == c.EndsPushed() + (if v == TEST_END then 1 else 0)
    ensures !c.Full() ==>
              c.Push(v).Valid() && c.Push(v).Popped() == c.Popped() && c.Push(v).EndsPopped() == c.EndsPopped()
    ensures c.Popped() <= c.Pushed() && 0 <= c.EndsPopped() <= c.EndsPushed()
    ensures forall k :: 0 <= k <= |c.sent| ==> Controls(c.Push(v).sent, k) == Controls(c.sent, k)
  {
    forall k | 0 <= k <= |c.sent| ensures Controls(c.Push(v).sent, k) == Controls(c.sent, k) {
      ControlsOfPush(c.sent, v, k);
    }
    ControlsGrow(c.sent, c.taken, |c.sent|);
    ControlsGrow(c.sent, 0, c.taken);
  }

  /** Receiving takes a TEST_END or the next control value, and never overtakes what was enqueued. */
  lemma PopFacts(c: Chan)
    requires c.Valid() && !c.Empty()
    ensures c.Pop().Valid() && c.Pop().Pushed() == c.Pushed() && c.Pop().EndsPushed() == c.EndsPushed()
    ensures c.Pop().Popped() == c.Popped() + (if c.Head() == TEST_END then 0 else 1)
    ensures c.Pop().EndsPopped() == c.EndsPopped() + (if c.Head() == TEST_END then 1 else 0)
    ensures c.Pop().Popped() <= c.Pushed() && c.Pop().EndsPopped() <= c.EndsPushed()
  {
    ControlsGrow(c.sent, c.taken + 1, |c.sent|);
  }
}
