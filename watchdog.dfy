/**
 * The stall watchdog of the field-test loop. Each receiver has the time of
 * its last message; the time is refreshed only when a poll of the receiver
 * returned a message. When re-opening is enabled and more than five seconds
 * have passed since then, the receiver is closed and set up again with its
 * log opened for appending, and its time is reset to the moment the new
 * session is ready.
 */
module Watchdog {
  import opened Common

  /** Seconds of silence after which a receiver is re-opened (the comparison is strict). */
  const StallTimeout: real := 5.0

  /** A receiver session as the set-up routine opens it. */
  datatype Session = Session(port: string, log: Option<string>, append: bool)

  /** What happens to the receiver links: a session closed, or set up at a clock reading. */
  datatype LinkEvent = Closed(device: DeviceId) | Opened(device: DeviceId, append: bool, at: real)

  predicate StallDue(reopen: bool, last: real, now: real) {
    reopen && now > last + StallTimeout
  }

  /**
   * One loop iteration as one receiver sees it: whether its poll returned a
   * message and the clock reading taken after handling it, then the reading
   * taken for the stall check and the one taken after a re-open.
   */
  datatype Tick = Tick(got: bool, gotAt: real, checkAt: real, resetAt: real)

  datatype Step = Step(last: real, reopened: bool)

  /**
   * The receiver's time after one iteration, and whether the iteration
   * re-opened it. A re-open needs re-opening enabled and resets the time to
   * the reading after the new session; otherwise the time is that of the
   * latest message. With re-opening enabled, the receiver is kept exactly
   * when the check comes within the timeout of that time.
   */
  function LinkStep(reopen: bool, last: real, t: Tick): (s: Step)
    ensures s.reopened ==> reopen && s.last == t.resetAt
    ensures !s.reopened ==> s.last == (if t.got then t.gotAt else last)
    ensures reopen ==> (s.reopened <==> t.checkAt > (if t.got then t.gotAt else last) + StallTimeout)
  {
    var seen := if t.got then t.gotAt else last;
    if StallDue(reopen, seen, t.checkAt) then Step(t.resetAt, true) else Step(seen, false)
  }

  /** The link events one iteration's stall check adds for a receiver. */
  function StepEvents(d: DeviceId, s: Step): seq<LinkEvent> {
    if s.reopened then [Closed(d), Opened(d, true, s.last)] else []
  }

  /** The receiver's time after a run of iterations, and the clock readings of its re-opens. */
  datatype Run = Run(last: real, reopens: seq<real>)

  /** The receiver's time and re-open readings over a run of iterations, one `LinkStep` per tick. */
  function RunLink(reopen: bool, last: real, ticks: seq<Tick>): Run
    decreases |ticks|
  {
    if ticks == [] then Run(last, [])
    else
      var n := |ticks| - 1;
      var prev := RunLink(reopen, last, ticks[..n]);
      var s := LinkStep(reopen, prev.last, ticks[n]);
      Run(s.last, if s.reopened then prev.reopens + [s.last] else prev.reopens)
  }

  /** At most one re-open per iteration, each at the reset reading of some iteration. */
  lemma {:induction false} RunLinkBounds(reopen: bool, last: real, ticks: seq<Tick>)
    ensures var r := RunLink(reopen, last, ticks);
      && |r.reopens| <= |ticks|
      && forall k :: 0 <= k < |r.reopens| ==> exists i :: 0 <= i < |ticks| && r.reopens[k] == ticks[i].resetAt
    decreases |ticks|
  {
    if ticks != [] {
      var n := |ticks| - 1;
      RunLinkBounds(reopen, last, ticks[..n]);
      assert forall i :: 0 <= i < n ==> ticks[..n][i] == ticks[i];
    }
  }

  /** A run one iteration longer is the shorter run followed by one step. */
  lemma RunLinkExtend(reopen: bool, last: real, ticks: seq<Tick>, t: Tick)
    ensures var p := RunLink(reopen, last, ticks);
      var s := LinkStep(reopen, p.last, t);
      RunLink(reopen, last, ticks + [t]) == Run(s.last, if s.reopened then p.reopens + [s.last] else p.reopens)
  {
    assert (ticks + [t])[..|ticks|] == ticks;
  }

  /**
   * The ticks' readings form a chain from `last`: each tick's readings are
   * ordered, no earlier than the previous tick's reset, and the last reset
   * is no later than `clock`.
   */
  ghost predicate Chain(last: real, ticks: seq<Tick>, clock: real)
    decreases |ticks|
  {
    if ticks == [] then last <= clock
    else
      var t := ticks[|ticks| - 1];
      Chain(last, ticks[..|ticks| - 1], t.gotAt) && t.gotAt <= t.checkAt <= t.resetAt <= clock
  }

  /** A chain up to `clock` is also one up to any later reading. */
  lemma {:induction false} ChainLater(last: real, ticks: seq<Tick>, clock: real, later: real)
    requires Chain(last, ticks, clock) && clock <= later
    ensures Chain(last, ticks, later)
  {
  }

  /** A chain's readings are ordered in the sense of `Ordered`, and all before its end. */
  lemma {:induction false} ChainOrdered(last: real, ticks: seq<Tick>, clock: real)
    requires Chain(last, ticks, clock)
    ensures Ordered(last, ticks) && last <= clock
    ensures forall i :: 0 <= i < |ticks| ==> ticks[i].resetAt <= clock
    decreases |ticks|
  {
    if ticks != [] {
      var n := |ticks| - 1;
      var init := ticks[..n];
      ChainOrdered(last, init, ticks[n].gotAt);
      forall i | 0 <= i < n ensures ticks[i] == init[i] {
      }
    }
  }

  /** The clock readings of the re-opens of `d` (openings for appending) in a sequence of link events. */
  function ReopenTimes(events: seq<LinkEvent>, d: DeviceId): seq<real>
    decreases |events|
  {
    if events == [] then []
    else
      var e := events[|events| - 1];
      ReopenTimes(events[..|events| - 1], d) + (if e.Opened? && e.device == d && e.append then [e.at] else [])
  }

  lemma {:induction false} ReopenTimesAppend(a: seq<LinkEvent>, b: seq<LinkEvent>, d: DeviceId)
    ensures ReopenTimes(a + b, d) == ReopenTimes(a, d) + ReopenTimes(b, d)
    decreases |b|
  {
    if b == [] {
      assert a + b == a;
    } else {
      var n := |b| - 1;
      assert (a + b)[..|a + b| - 1] == a + b[..n];
      ReopenTimesAppend(a, b[..n], d);
    }
  }

  /** Events with no opening for appending contain no re-open. */
  lemma {:induction false} NoReopens(events: seq<LinkEvent>, d: DeviceId)
    requires forall i :: 0 <= i < |events| ==> !(events[i].Opened? && events[i].append)
    ensures ReopenTimes(events, d) == []
    decreases |events|
  {
    if events != [] {
      var n := |events| - 1;
      assert forall i :: 0 <= i < n ==> events[..n][i] == events[i];
      NoReopens(events[..n], d);
    }
  }

  /** One iteration's events re-open only the receiver they belong to, at its new time. */
  lemma StepEventsReopens(d: DeviceId, s: Step, e: DeviceId)
    ensures ReopenTimes(StepEvents(d, s), e) == if d == e && s.reopened then [s.last] else []
  {
    if s.reopened {
      var ev := StepEvents(d, s);
      assert ev[..1] == [Closed(d)] && ev[..1][..0] == [];
      assert ReopenTimes(ev[..1], e) == [];
      assert ReopenTimes(ev, e) == ReopenTimes(ev[..1], e) + (if d == e then [s.last] else []);
    }
  }

  /** Clock readings never go backwards: within an iteration, between iterations, and from the start. */
  ghost predicate Ordered(last: real, ticks: seq<Tick>) {
    && (forall i :: 0 <= i < |ticks| ==>
          last <= ticks[i].gotAt <= ticks[i].checkAt <= ticks[i].resetAt)
    && (forall i, j :: 0 <= i < j < |ticks| ==> ticks[i].resetAt <= ticks[j].gotAt)
  }

  /**
   * One re-open per stall episode: with a non-decreasing clock, two re-opens
   * of a receiver are more than the stall timeout apart; the receiver's time
   * never goes back and is never before its last re-open.
   */
  lemma {:induction false} ReopensSpaced(reopen: bool, last: real, ticks: seq<Tick>)
    requires Ordered(last, ticks)
    ensures var r := RunLink(reopen, last, ticks);
      && last <= r.last
      && (ticks != [] ==> r.last <= ticks[|ticks| - 1].resetAt)
      && (forall k :: 0 <= k < |r.reopens| ==> r.reopens[k] <= r.last)
      && (forall i, j :: 0 <= i < j < |r.reopens| ==> r.reopens[j] > r.reopens[i] + StallTimeout)
    decreases |ticks|
  {
    if ticks != [] {
      var n := |ticks| - 1;
      var init := ticks[..n];
      assert Ordered(last, init) by {
        forall i | 0 <= i < n ensures init[i] == ticks[i] { }
      }
      ReopensSpaced(reopen, last, init);
      var prev := RunLink(reopen, last, init);
      var t := ticks[n];
      if n > 0 {
        assert init[n - 1] == ticks[n - 1];
        assert prev.last <= t.gotAt;
      }
      var s := LinkStep(reopen, prev.last, t);
      if s.reopened {
        var rs := prev.reopens + [s.last];
        forall i, j | 0 <= i < j < |rs|
          ensures rs[j] > rs[i] + StallTimeout
        {
          if j < |prev.reopens| {
            assert rs[i] == prev.reopens[i] && rs[j] == prev.reopens[j];
          } else {
            assert rs[i] == prev.reopens[i] <= prev.last;
          }
        }
      }
    }
  }

  /**
   * A receiver that never answers, with re-opening enabled, is re-opened
   * once some stall check comes more than the timeout after its time.
   */
  lemma {:induction false} SilentLinkReopened(last: real, ticks: seq<Tick>, k: nat)
    requires forall i :: 0 <= i < |ticks| ==> !ticks[i].got
    requires k < |ticks| && ticks[k].checkAt > last + StallTimeout
    ensures |RunLink(true, last, ticks).reopens| > 0
    decreases |ticks|
  {
    var n := |ticks| - 1;
    var init := ticks[..n];
    var prev := RunLink(true, last, init);
    if k < n {
      assert init[k] == ticks[k];
      SilentLinkReopened(last, init, k);
    } else if |prev.reopens| == 0 {
      SilentNoReopenKeepsTime(true, last, init);
    }
  }

  /** A receiver that never returns a message and is never re-opened keeps its time. */
  lemma {:induction false} SilentNoReopenKeepsTime(reopen: bool, last: real, ticks: seq<Tick>)
    requires forall i :: 0 <= i < |ticks| ==> !ticks[i].got
    ensures var r := RunLink(reopen, last, ticks); |r.reopens| == 0 ==> r.last == last
    decreases |ticks|
  {
    if ticks != [] {
      var n := |ticks| - 1;
      var init := ticks[..n];
      assert forall i :: 0 <= i < n ==> init[i] == ticks[i];
      SilentNoReopenKeepsTime(reopen, last, init);
    }
  }

  /**
   * A receiver whose every poll returns a message, each stall check
   * following the message by at most the timeout, is never re-opened; its
   * time is that of its latest message.
   */
  lemma {:induction false} ActiveLinkKept(reopen: bool, last: real, ticks: seq<Tick>)
    requires forall i :: 0 <= i < |ticks| ==> ticks[i].got && ticks[i].checkAt <= ticks[i].gotAt + StallTimeout
    ensures var r := RunLink(reopen, last, ticks);
      r.reopens == [] && r.last == if ticks == [] then last else ticks[|ticks| - 1].gotAt
    decreases |ticks|
  {
    if ticks != [] {
      var n := |ticks| - 1;
      var init := ticks[..n];
      assert forall i :: 0 <= i < n ==> init[i] == ticks[i];
      ActiveLinkKept(reopen, last, init);
    }
  }

  /** Without re-opening enabled the watchdog never acts: the time only follows messages. */
  lemma {:induction false} DisabledNeverReopens(last: real, ticks: seq<Tick>)
    ensures RunLink(false, last, ticks).reopens == []
    decreases |ticks|
  {
    if ticks != [] {
      DisabledNeverReopens(last, ticks[..|ticks| - 1]);
    }
  }

  /**
   * The receivers' sessions, their times of last message and the link events
   * so far; the third receiver exists only when a port was given for it.
   * `clock` is the latest clock reading seen.
   */
  class Watchdog {
    const reopen: bool
    const port1: string
    const port2: string
    const port3: Option<string>
    const log1: Option<string>
    const log2: Option<string>
    const log3: Option<string>
    var dev1: Session
    var dev2: Session
    var dev3: Option<Session>
    var last1: real
    var last2: real
    var last3: real
    var events: seq<LinkEvent>
    ghost var clock: real

    function Last(d: DeviceId): real
      reads this
    {
      match d
      case Dev1 => last1
      case Dev2 => last2
      case Dev3 => last3
    }

    predicate Present(d: DeviceId)
      reads this
    {
      d != Dev3 || dev3.Some?
    }

    ghost predicate Valid()
      reads this
    {
      && last1 <= clock && last2 <= clock && last3 <= clock
      && (dev3.Some? <==> port3.Some?)
    }

    /**
     * Start-up: the sessions are opened without appending at `openedAt`, then
     * the three times are read.
     */
    constructor (reopen: bool, port1: string, port2: string, port3: Option<string>,
                 log1: Option<string>, log2: Option<string>, log3: Option<string>,
                 openedAt: real, t1: real, t2: real, t3: real)
      requires openedAt <= t1 <= t2 <= t3
      ensures Valid() && clock == t3
      ensures this.reopen == reopen && this.port3 == port3
      ensures dev1 == Session(port1, log1, false) && dev2 == Session(port2, log2, false)
      ensures dev3 == if port3.Some? then Some(Session(port3.value, log3, false)) else None
      ensures last1 == t1 && last2 == t2 && last3 == t3
      ensures events == [Opened(Dev1, false, openedAt), Opened(Dev2, false, openedAt)]
                        + (if port3.Some? then [Opened(Dev3, false, openedAt)] else [])
    {
      this.reopen := reopen;
      this.port1, this.port2, this.port3 := port1, port2, port3;
      this.log1, this.log2, this.log3 := log1, log2, log3;
      dev1 := Session(port1, log1, false);
      dev2 := Session(port2, log2, false);
      events := [Opened(Dev1, false, openedAt), Opened(Dev2, false, openedAt)];
      if port3.Some? {
        dev3 := Some(Session(port3.value, log3, false));
        events := events + [Opened(Dev3, false, openedAt)];
      } else {
        dev3 := None;
      }
      last1, last2, last3 := t1, t2, t3;
      clock := t3;
    }

    /** A poll of `d` returned a message, handled by `now`. */
    method Touch(d: DeviceId, now: real)
      requires Valid() && clock <= now
      modifies this
      ensures Valid() && clock == now
      ensures last1 == (if d == Dev1 then now else old(last1))
      ensures last2 == (if d == Dev2 then now else old(last2))
      ensures last3 == (if d == Dev3 then now else old(last3))
      ensures dev1 == old(dev1) && dev2 == old(dev2) && dev3 == old(dev3) && events == old(events)
    {
      match d {
        case Dev1 => last1 := now;
        case Dev2 => last2 := now;
        case Dev3 => last3 := now;
      }
      clock := now;
    }

    /**
     * The stall check of a present receiver at `now`; a re-opened session is
     * ready at `resetAt`.
     */
    method CheckStall(d: DeviceId, now: real, resetAt: real)
      requires Valid() && clock <= now <= resetAt
      requires Present(d)
      modifies this
      ensures Valid() && clock == resetAt
      ensures var s := LinkStep(reopen, old(Last(d)), Tick(false, now, now, resetAt));
        && Last(d) == s.last
        && events == old(events) + StepEvents(d, s)
      ensures forall e :: e != d ==> Last(e) == old(Last(e))
      ensures StallDue(reopen, old(Last(d)), now) ==>
                match d
                case Dev1 => dev1 == Session(port1, log1, true) && dev2 == old(dev2) && dev3 == old(dev3)
                case Dev2 => dev2 == Session(port2, log2, true) && dev1 == old(dev1) && dev3 == old(dev3)
                case Dev3 => dev3 == Some(Session(port3.value, log3, true)) && dev1 == old(dev1) && dev2 == old(dev2)
      ensures !StallDue(reopen, old(Last(d)), now) ==>
                dev1 == old(dev1) && dev2 == old(dev2) && dev3 == old(dev3)
    {
      if reopen && now > Last(d) + StallTimeout {
        events := events + [Closed(d)];
        match d {
          case Dev1 =>
            dev1 := Session(port1, log1, true);
            last1 := resetAt;
          case Dev2 =>
            dev2 := Session(port2, log2, true);
            last2 := resetAt;
          case Dev3 =>
            dev3 := Some(Session(port3.value, log3, true));
            last3 := resetAt;
        }
        events := events + [Opened(d, true, resetAt)];
      }
      clock := resetAt;
    }

    /**
     * The stall checks at the end of an iteration: the first receiver, the
     * second, then the third when it exists, each check reading the clock
     * at `checkN` and a re-open being ready at `resetN`.
     */
    method CheckAll(check1: real, reset1: real, check2: real, reset2: real, check3: real, reset3: real)
      requires Valid() && clock <= check1 <= reset1 <= check2 <= reset2 <= check3 <= reset3
      modifies this
      ensures Valid() && (dev3.Some? <==> old(dev3).Some?)
      ensures clock == if old(dev3).Some? then reset3 else reset2
      ensures var present := old(dev3).Some?;
        var s1 := LinkStep(reopen, old(last1), Tick(false, check1, check1, reset1));
        var s2 := LinkStep(reopen, old(last2), Tick(false, check2, check2, reset2));
        var s3 := LinkStep(reopen, old(last3), Tick(false, check3, check3, reset3));
        && last1 == s1.last
        && last2 == s2.last
        && last3 == (if present then s3.last else old(last3))
        && events == old(events) + StepEvents(Dev1, s1) + StepEvents(Dev2, s2)
                     + (if present then StepEvents(Dev3, s3) else [])
    {
      CheckStall(Dev1, check1, reset1);
      assert Last(Dev2) == old(last2) && Last(Dev3) == old(last3);
      CheckStall(Dev2, check2, reset2);
      assert Last(Dev3) == old(last3);
      if dev3.Some? {
        CheckStall(Dev3, check3, reset3);
      }
    }
  }
}
