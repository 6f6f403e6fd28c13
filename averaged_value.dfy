/** A value averaged over the last `n` readings (lib/AveragedValue/AveragedValue.hpp),
    with readings as reals (the firmware uses it with float; rounding is not
    modelled). Until `n` readings have arrived, each
    reading also fills every slot not yet written, so the average is never
    diluted by the initial zeros. */
module Averaging {
  import opened Common

  /** `k` copies of `x`. */
  function Repeat(x: real, k: nat): (r: seq<real>)
    ensures |r| == k && forall i :: 0 <= i < k ==> r[i] == x
  {
    if k == 0 then [] else Repeat(x, k - 1) + [x]
  }

  /** std::accumulate from 0. */
  function Sum(s: seq<real>): real
  {
    if |s| == 0 then 0.0 else Sum(s[..|s| - 1]) + s[|s| - 1]
  }

  /** The slots after the readings `inputs`: all 0 before the first reading;
      while fewer than `n` readings have come, the earlier readings followed by
      the latest one in every remaining slot; then the last `n` readings. */
  function Window(inputs: seq<real>, n: nat): (w: seq<real>)
    requires n > 0
    ensures |w| == n
  {
    if |inputs| == 0 then Repeat(0.0, n)
    else if |inputs| <= n then inputs[..|inputs| - 1] + Repeat(inputs[|inputs| - 1], n - |inputs| + 1)
    else inputs[|inputs| - n..]
  }

  /** The count of slots the next reading still fills (`initialReads`). */
  function InitialReads(count: nat, n: nat): nat
  {
    if count <= n then n - count else 0
  }

  /** One reading changes the window as `update` does: while slots are left
      to fill, the reading is written from slot |inputs| to the end; after
      that, the window shifts left by one and the reading is appended. */
  lemma {:induction false} WindowStep(inputs: seq<real>, n: nat, x: real)
    requires n > 0
    ensures |inputs| < n ==> Window(inputs + [x], n) == Window(inputs, n)[..|inputs|] + Repeat(x, n - |inputs|)
    ensures |inputs| >= n ==> Window(inputs + [x], n) == Window(inputs, n)[1..] + [x]
  {
    var ins := inputs + [x];
    assert ins[..|ins| - 1] == inputs;
    if |inputs| < n {
      if |inputs| > 0 {
        assert Window(inputs, n)[..|inputs|] == inputs by {
          assert Window(inputs, n)[..|inputs| - 1] == inputs[..|inputs| - 1];
        }
      }
    } else if |inputs| == n {
      assert Window(inputs, n) == inputs;
      assert Window(ins, n) == ins[1..];
    } else {
      assert ins[|ins| - n..] == inputs[|inputs| - n..][1..] + [x];
    }
  }

  /** The window holds the last n readings once n readings have arrived. */
  lemma WindowHoldsLastReadings(inputs: seq<real>, n: nat)
    requires n > 0 && |inputs| >= n
    ensures Window(inputs, n) == inputs[|inputs| - n..]
  {
  }

  lemma {:induction false} SumAppend(s: seq<real>, x: real)
    ensures Sum(s + [x]) == Sum(s) + x
  {
    assert (s + [x])[..|s|] == s;
  }

  /** k copies of a reading sum to k times it. */
  lemma {:induction false} SumRepeat(x: real, k: nat)
    ensures Sum(Repeat(x, k)) == (k as real) * x
  {
    if k > 0 {
      SumRepeat(x, k - 1);
      SumRepeatStep(x, k);
      MulSucc(k - 1, x);
    }
  }

  /** One more copy adds the reading once. */
  lemma SumRepeatStep(x: real, k: nat)
    requires k > 0
    ensures Sum(Repeat(x, k)) == Sum(Repeat(x, k - 1)) + x
  {
    assert Repeat(x, k) == Repeat(x, k - 1) + [x];
    SumAppend(Repeat(x, k - 1), x);
  }

  /** `(j + 1) * x` is `j * x + x`. */
  lemma MulSucc(j: nat, x: real)
    ensures (j as real) * x + x == ((j + 1) as real) * x
  {
  }

  /** The first reading fills every slot, so the average is that reading. */
  lemma FirstReadingIsAverage(x: real, n: nat)
    requires n > 0
    ensures Window([x], n) == Repeat(x, n)
    ensures Sum(Window([x], n)) / (n as real) == x
  {
    assert Window([x], n) == [] + Repeat(x, n);
    SumRepeat(x, n);
  }

  class AveragedValue {
    const n: nat
    const values: array<real>
    var value: real
    var initialReads: nat
    ghost var inputs: seq<real>

    /** The slots are the window of the readings so far, `value` is their
        average, and `initialReads` counts the slots still to be filled. */
    ghost predicate Valid()
      reads this, values
    {
      n > 0 && values.Length == n &&
      values[..] == Window(inputs, n) &&
      initialReads == InitialReads(|inputs|, n) &&
      value == Sum(values[..]) / (n as real)
    }

    /** AveragedValue(): slots and value are 0, all n slots still to fill. */
    constructor (n: nat)
      requires n > 0
      ensures Valid() && fresh(values) && this.n == n && inputs == []
      ensures value == 0.0 && initialReads == n
    {
      this.n := n;
      values := new real[n](_ => 0.0);
      value := 0.0;
      initialReads := n;
      inputs := [];
      new;
      assert values[..] == Repeat(0.0, n);
      SumRepeat(0.0, n);
    }

    function Get(): (v: real)
      reads this, values
      requires Valid()
      ensures v == Sum(Window(inputs, n)) / (n as real)
    {
      value
    }

    /** update: fill the unwritten slots or shift, then average. */
    method Update(newValue: real)
      requires Valid()
      modifies this, values
      ensures Valid() && inputs == old(inputs) + [newValue]
      ensures old(initialReads) > 0 ==> initialReads == old(initialReads) - 1
      ensures old(initialReads) == 0 ==> initialReads == 0
      ensures old(initialReads) > 0 ==>
        values[..] == old(values[..])[..n - old(initialReads)] + Repeat(newValue, old(initialReads))
      ensures old(initialReads) == 0 ==> values[..] == old(values[..])[1..] + [newValue]
    {
      Store(newValue);
      var sum := Accumulate();
      value := sum / (n as real);
    }

    /** The slot part of update: the reading fills the unwritten slots, or
        the slots shift and take it at the end. */
    method Store(newValue: real)
      requires Valid()
      modifies this, values
      ensures n > 0 && values.Length == n && inputs == old(inputs) + [newValue]
      ensures values[..] == Window(inputs, n) && initialReads == InitialReads(|inputs|, n)
      ensures old(initialReads) > 0 ==> initialReads == old(initialReads) - 1
      ensures old(initialReads) == 0 ==> initialReads == 0
      ensures old(initialReads) > 0 ==>
        values[..] == old(values[..])[..n - old(initialReads)] + Repeat(newValue, old(initialReads))
      ensures old(initialReads) == 0 ==> values[..] == old(values[..])[1..] + [newValue]
    {
      ghost var before := inputs;
      WindowStep(before, n, newValue);
      if initialReads > 0 {
        Fill(n - initialReads, newValue);
        initialReads := initialReads - 1;
      } else {
        ShiftIn(newValue);
      }
      inputs := before + [newValue];
    }

    /** `for (i = start; i < n; ++i) values[i] = x`. */
    method Fill(start: nat, x: real)
      requires start <= values.Length
      modifies values
      ensures values[..] == old(values[..])[..start] + Repeat(x, values.Length - start)
    {
      var i := start;
      while i < values.Length
        invariant start <= i <= values.Length
        invariant values[..start] == old(values[..start])
        invariant forall j :: start <= j < i ==> values[j] == x
      {
        values[i] := x;
        i := i + 1;
      }
    }

    /** `std::copy(values + 1, end, values); values[n - 1] = x`. */
    method ShiftIn(x: real)
      requires values.Length > 0
      modifies values
      ensures values[..] == old(values[..])[1..] + [x]
    {
      var i := 0;
      while i < values.Length - 1
        invariant 0 <= i <= values.Length - 1
        invariant forall j :: 0 <= j < i ==> values[j] == old(values[j + 1])
        invariant forall j :: i <= j < values.Length ==> values[j] == old(values[j])
      {
        values[i] := values[i + 1];
        i := i + 1;
      }
      values[values.Length - 1] := x;
      assert forall j :: 0 <= j < values.Length - 1 ==> values[j] == old(values[j + 1]);
    }

    /** `std::accumulate(values, end, 0)`. */
    method Accumulate() returns (sum: real)
      ensures sum == Sum(values[..])
    {
      sum := 0.0;
      var k := 0;
      while k < values.Length
        invariant 0 <= k <= values.Length && sum == Sum(values[..k])
      {
        assert values[..k + 1] == values[..k] + [values[k]];
        SumAppend(values[..k], values[k]);
        sum := sum + values[k];
        k := k + 1;
      }
      assert values[..k] == values[..];
    }

    /** operator=(T): `update`. */
    method Assign(newValue: real)
      requires Valid()
      modifies this, values
      ensures Valid() && inputs == old(inputs) + [newValue]
    {
      Update(newValue);
    }
  }
}
