/**
 * `GrabValue`: a control value that, after `Lock`, ignores a physical
 * control until the control has been moved back to it ("catch-up"), so
 * that the value does not jump.
 */
module GrabValue {
  import opened DSP

  /** `GrabDir`: not catching up, or waiting for the control to come up or down to the value. */
  datatype Direction = Neutral | Up | Down

  datatype Grab = Grab(locked: bool, direction: Direction, value: real)

  /** A jump larger than this after `Lock` starts a catch-up. */
  const Threshold: real := 0.1

  /** The constructor: unlocked, not catching up, holding `init`. */
  function New(init: real): (g: Grab)
    ensures !g.locked && g.direction == Neutral && g.value == init
  {
    Grab(false, Neutral, init)
  }

  function Lock(g: Grab): (r: Grab)
    ensures r.locked && r.direction == g.direction && r.value == g.value
  {
    g.(locked := true)
  }

  function Get(g: Grab): (r: real)
    ensures r == g.value
  {
    g.value
  }

  /**
   * `Update`: the first update after `Lock` starts a catch-up if the control
   * is more than 0.1 away; a catch-up ends when the control reaches the
   * value from its side; only when not catching up does the value follow
   * the control.
   */
  function Update(g: Grab, input: real): (r: Grab)
    ensures !r.locked
    ensures r.direction == Neutral ==> r.value == input
    ensures r.direction != Neutral ==> r.value == g.value
    ensures r.direction == Up ==> input < g.value
    ensures r.direction == Down ==> input > g.value
    ensures g.locked && Abs(input - g.value) > Threshold ==> r.direction == (if input < g.value then Up else Down)
    ensures var pending := (g.direction == Up && input < g.value) || (g.direction == Down && input > g.value);
      !(g.locked && Abs(input - g.value) > Threshold) && pending ==> r == g.(locked := false)
  {
    var d1 := if g.locked && Abs(input - g.value) > Threshold then (if input < g.value then Up else Down) else g.direction;
    var d2 := if (d1 == Up && input >= g.value) || (d1 == Down && input <= g.value) then Neutral else d1;
    Grab(false, d2, if d2 == Neutral then input else g.value)
  }

  /** Without a lock or a pending catch-up, the value is the control's. */
  lemma FollowsWhenFree(g: Grab, input: real)
    requires !g.locked && g.direction == Neutral
    ensures Get(Update(g, input)) == input
  {
  }

  /** A catch-up ends, and the value is taken again, once the control reaches the value from its side. */
  lemma CatchUpEnds(g: Grab, input: real)
    requires !g.locked
    requires (g.direction == Up && input >= g.value) || (g.direction == Down && input <= g.value)
    ensures Update(g, input).direction == Neutral && Get(Update(g, input)) == input
  {
  }

  /** A lock followed by a jump holds the old value; a small move after a lock is taken. */
  lemma LockHolds(g: Grab, input: real)
    requires g.direction == Neutral
    ensures Abs(input - g.value) > Threshold ==> Get(Update(Lock(g), input)) == g.value
    ensures Abs(input - g.value) <= Threshold ==> Get(Update(Lock(g), input)) == input
  {
  }
}
