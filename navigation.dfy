/** The five touch pads (lib/AlarmClock/src/navigation.h). `read` is called
    once per main-loop pass with the pads' touch states; it reports a
    direction only on the pass where the pads go from all released to
    touched, choosing the first touched pad in the order Center, Left,
    Right, Up, Down. */
module Navigation {

  datatype Direction = Center | Left | Right | Up | Down | None

  /** The pads in priority order (`navPads`). */
  const PAD_ORDER: seq<Direction> := [Center, Left, Right, Up, Down]

  /** The touch states of the five pads, in PAD_ORDER. */
  type Pads = p: seq<bool> | |p| == 5 witness [false, false, false, false, false]

  predicate AnyTouched(pads: Pads)
  {
    exists i :: 0 <= i < 5 && pads[i]
  }

  /** The first touched pad's direction, or None. */
  function FirstTouched(pads: Pads): (d: Direction)
    ensures d == None <==> !AnyTouched(pads)
    ensures d != None ==> exists i :: 0 <= i < 5 && pads[i] && PAD_ORDER[i] == d && forall j :: 0 <= j < i ==> !pads[j]
  {
    if pads[0] then Center
    else if pads[1] then Left
    else if pads[2] then Right
    else if pads[3] then Up
    else if pads[4] then Down
    else None
  }

  /** One call of `read`: (the direction returned, the new latch). */
  function Step(touched: bool, pads: Pads): (Direction, bool)
  {
    var dir := FirstTouched(pads);
    if !touched && dir != None then (dir, true)
    else if touched && dir == None then (None, false)
    else (None, touched)
  }

  /** After any call the latch says whether some pad is touched. */
  lemma LatchFollowsPads(touched: bool, pads: Pads)
    ensures Step(touched, pads).1 == AnyTouched(pads)
  {
  }

  /** A direction is returned exactly when the latch was released and some
      pad is touched, and it is then the highest-priority touched pad. */
  lemma EmitsOnlyOnTouchDown(touched: bool, pads: Pads)
    ensures Step(touched, pads).0 != None <==> !touched && AnyTouched(pads)
    ensures Step(touched, pads).0 != None ==> Step(touched, pads).0 == FirstTouched(pads)
  {
  }

  /** The directions returned over a trace of pad states. */
  function Run(touched: bool, trace: seq<Pads>): (out: seq<Direction>)
    ensures |out| == |trace|
    decreases |trace|
  {
    if |trace| == 0 then []
    else
      var (d, t) := Step(touched, trace[0]);
      [d] + Run(t, trace[1..])
  }

  /** The number of non-None directions in a sequence. */
  function Emissions(out: seq<Direction>): nat
  {
    if |out| == 0 then 0 else (if out[0] != None then 1 else 0) + Emissions(out[1..])
  }

  /** The number of released-to-touched transitions in a trace, starting
      from `touched`. */
  function TouchDowns(touched: bool, trace: seq<Pads>): nat
    decreases |trace|
  {
    if |trace| == 0 then 0
    else (if !touched && AnyTouched(trace[0]) then 1 else 0) + TouchDowns(AnyTouched(trace[0]), trace[1..])
  }

  /** Over any trace, one direction is returned per touch-down. */
  lemma {:induction false} EmissionsCountTouchDowns(touched: bool, trace: seq<Pads>)
    ensures Emissions(Run(touched, trace)) == TouchDowns(touched, trace)
    decreases |trace|
  {
    if |trace| > 0 {
      var (d, t) := Step(touched, trace[0]);
      LatchFollowsPads(touched, trace[0]);
      EmitsOnlyOnTouchDown(touched, trace[0]);
      EmissionsCountTouchDowns(t, trace[1..]);
      assert Run(touched, trace)[1..] == Run(t, trace[1..]);
    }
  }

  /** While some pad stays touched, every call after the first returns None. */
  lemma {:induction false} HeldPadsEmitNothing(trace: seq<Pads>)
    requires forall k :: 0 <= k < |trace| ==> AnyTouched(trace[k])
    ensures forall k :: 0 <= k < |trace| ==> Run(true, trace)[k] == None
    decreases |trace|
  {
    if |trace| > 0 {
      HeldPadsEmitNothing(trace[1..]);
      assert Step(true, trace[0]) == (None, true);
      assert Run(true, trace) == [None] + Run(true, trace[1..]);
    }
  }

  /** The pads module with its static latch `touched`. */
  class Navigator {
    var touched: bool

    constructor ()
      ensures !touched
    {
      touched := false;
    }

    /** read: scans the pads in priority order, then updates the latch. */
    method Read(pads: Pads) returns (dir: Direction)
      modifies this
      ensures (dir, touched) == Step(old(touched), pads)
    {
      dir := None;
      var i := 0;
      while i < 5
        invariant 0 <= i <= 5
        invariant dir == None ==> forall j :: 0 <= j < i ==> !pads[j]
        invariant dir != None ==> dir == FirstTouched(pads)
      {
        if pads[i] {
          dir := PAD_ORDER[i];
          break;
        }
        i := i + 1;
      }
      if !touched && dir != None {
        touched := true;
        return dir;
      }
      if touched && dir == None {
        touched := false;
      }
      return None;
    }
  }
}
