/**
 * `DoubleClicker`: detects two rising edges of a button within an interval
 * of ticks. A timestamp of 0 means no click; times are `uint32_t` tick
 * counts that wrap around.
 *
 * `UpdateAsWritten` is the timeout test of the source, `now > first + interval`
 * with the sum computed in 32 bits; `Update` is the wrap-safe test on the
 * elapsed time, `now - first > interval`, which is what the timeout means.
 */
module DoubleClicker {
  import opened Uint32

  datatype Clicker = Clicker(first: U32, last: U32, state: bool, interval: U32)

  /** The default interval. */
  const DefaultInterval: U32 := 1000

  /** The constructor: no click, input low. */
  function New(interval: U32): (c: Clicker)
    ensures c.first == 0 && c.last == 0 && !c.state && c.interval == interval
  {
    Clicker(0, 0, false, interval)
  }

  /** `reset`: forget both clicks. */
  function Reset(c: Clicker): (r: Clicker)
    ensures r.first == 0 && r.last == 0 && r.state == c.state && r.interval == c.interval
  {
    c.(first := 0, last := 0)
  }

  /** A rising edge stores the first click, or the second one once a first is stored. */
  function Click(c: Clicker, state: bool, now: U32): (r: Clicker)
    ensures r.state == c.state && r.interval == c.interval
    ensures !(state && !c.state) ==> r == c
    ensures state && !c.state && c.first == 0 ==> r.first == now && r.last == c.last
    ensures state && !c.state && c.first != 0 ==> r.first == c.first && r.last == now
  {
    if state && !c.state then (if c.first == 0 then c.(first := now) else c.(last := now)) else c
  }

  /** The timeout test as the source writes it: the sum wraps. */
  predicate ExpiredAsWritten(c: Clicker, now: U32)
  {
    c.first != 0 && now > Add(c.first, c.interval)
  }

  /** The timeout test on the elapsed time. */
  predicate Expired(c: Clicker, now: U32)
  {
    c.first != 0 && Sub(now, c.first) > c.interval
  }

  /** `Update` as written: count a click, time out, remember the input. */
  function UpdateAsWritten(c: Clicker, state: bool, now: U32): (r: Clicker)
    ensures r.state == state && r.interval == c.interval
    ensures ExpiredAsWritten(Click(c, state, now), now) ==> r.first == 0 && r.last == 0
    ensures !ExpiredAsWritten(Click(c, state, now), now) ==> r == Click(c, state, now).(state := state)
  {
    var k := Click(c, state, now);
    (if ExpiredAsWritten(k, now) then Reset(k) else k).(state := state)
  }

  /** `Update` with the wrap-safe timeout. */
  function Update(c: Clicker, state: bool, now: U32): (r: Clicker)
    ensures r.state == state && r.interval == c.interval
    ensures Expired(Click(c, state, now), now) ==> r.first == 0 && r.last == 0
    ensures !Expired(Click(c, state, now), now) ==> r == Click(c, state, now).(state := state)
  {
    var k := Click(c, state, now);
    (if Expired(k, now) then Reset(k) else k).(state := state)
  }

  /** `DoubleClick`: report a second click and forget both; otherwise nothing changes. */
  function DoubleClick(c: Clicker): (r: (Clicker, bool))
    ensures r.1 <==> c.last != 0
    ensures r.1 ==> r.0 == Reset(c)
    ensures !r.1 ==> r.0 == c
  {
    if c.last != 0 then (Reset(c), true) else (c, false)
  }

  /** A double click is reported once: an immediate second query reports nothing. */
  lemma ReportedOnce(c: Clicker)
    ensures !DoubleClick(DoubleClick(c).0).1
  {
  }

  /** Away from the wrap-around the two timeout tests agree. */
  lemma AgreesAwayFromWrap(c: Clicker, now: U32)
    requires c.first + c.interval < Modulus && now >= c.first
    ensures ExpiredAsWritten(c, now) <==> Expired(c, now)
  {
  }

  /**
   * With the wrap-safe timeout, a press, a release and a second press all
   * within the interval of the first press are reported as a double click,
   * wherever the ticks lie in the 32-bit range.
   */
  lemma DoubleClickWithinInterval(c: Clicker, t0: U32, t1: U32, t2: U32)
    requires c.first == 0 && c.last == 0 && !c.state
    requires t0 != 0 && t2 != 0
    requires Sub(t1, t0) <= c.interval && Sub(t2, t0) <= c.interval
    ensures DoubleClick(Update(Update(Update(c, true, t0), false, t1), true, t2)).1
  {
    var c0 := Update(c, true, t0);
    assert Sub(t0, t0) == 0;
    assert c0.first == t0;
    var c1 := Update(c0, false, t1);
    assert c1.first == t0;
    var c2 := Update(c1, true, t2);
    assert c2.last == t2;
  }

  /**
   * As written, a click ten ticks before the counter wraps is forgotten on
   * the very tick it arrives, because first + interval wraps to 990: the same
   * press, release, press sequence as above is not reported.
   */
  lemma AsWrittenMissesNearWrap()
    ensures var t0: U32 := Modulus - 10;
      var c := UpdateAsWritten(UpdateAsWritten(UpdateAsWritten(New(DefaultInterval), true, t0), false, t0 + 1), true, t0 + 2);
      !DoubleClick(c).1
    ensures var t0: U32 := Modulus - 10;
      DoubleClick(Update(Update(Update(New(DefaultInterval), true, t0), false, t0 + 1), true, t0 + 2)).1
  {
    var t0: U32 := Modulus - 10;
    var c0 := UpdateAsWritten(New(DefaultInterval), true, t0);
    assert Add(t0, DefaultInterval) == 990;
    assert c0.first == 0;
    var c1 := UpdateAsWritten(c0, false, t0 + 1);
    assert c1.first == 0 && c1.last == 0;
    var c2 := UpdateAsWritten(c1, true, t0 + 2);
    assert ExpiredAsWritten(Click(c1, true, t0 + 2), t0 + 2);
    assert c2.last == 0;
    DoubleClickWithinInterval(New(DefaultInterval), t0, t0 + 1, t0 + 2);
  }
}
