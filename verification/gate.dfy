/**
 * `Gate`: a gate that opens on a rising edge and, once the input falls,
 * stays open until more than `min` ticks have passed since it opened.
 * Times are `uint32_t` tick counts that may wrap around.
 */
module Gate {
  import opened Uint32

  datatype Gate = Gate(state: bool, prev: bool, start: U32, min: U32)

  /** The default minimum length. */
  const DefaultMin: U32 := 12

  /** The constructor: closed, no previous input, started at 0. */
  function New(min: U32): (g: Gate)
    ensures !g.state && !g.prev && g.start == 0 && g.min == min
  {
    Gate(false, false, 0, min)
  }

  /** The time elapsed since the gate opened, in wrapping tick arithmetic. */
  function Elapsed(g: Gate, now: U32): U32
  {
    Sub(now, g.start)
  }

  /** `Update`: open on a rising edge, close on a low input once the minimum length has passed. */
  function Update(g: Gate, val: bool, now: U32): (r: Gate)
    ensures r.prev == val && r.min == g.min
    ensures val && !g.prev ==> r.state && r.start == now
    ensures val && g.prev ==> r.state == g.state && r.start == g.start
    ensures !val ==> r.start == g.start
    ensures !val ==> (r.state <==> g.state && Elapsed(g, now) <= g.min)
  {
    if val then
      (if !g.prev then g.(start := now, state := true, prev := val) else g.(prev := val))
    else if g.state && Sub(now, g.start) > g.min then g.(state := false, prev := val)
    else g.(prev := val)
  }

  /** `SetMin`. */
  function SetMin(g: Gate, min: U32): (r: Gate)
    ensures r == g.(min := min)
  {
    g.(min := min)
  }

  /** A gate opened at `start` is still open at every later tick within its minimum length, across a wrap-around too. */
  lemma OpenForMin(g: Gate, val: bool, now: U32)
    requires g.state && Elapsed(g, now) <= g.min
    ensures Update(g, val, now).state
  {
  }

  /** A rising edge always opens the gate, whatever its state. */
  lemma RisingEdgeOpens(g: Gate, now: U32)
    requires !g.prev
    ensures Update(g, true, now).state && Elapsed(Update(g, true, now), now) == 0
  {
  }

  /** A low input closes an open gate once more than `min` ticks have passed. */
  lemma ClosesAfterMin(g: Gate, now: U32)
    requires Elapsed(g, now) > g.min
    ensures !Update(g, false, now).state
  {
  }
}
