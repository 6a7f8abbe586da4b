/**
 * One pass of the field-test loop: poll the reference receiver, the
 * corrected rover and (when configured) the uncorrected rover, hand each
 * message to its handler and refresh that receiver's time, then run the
 * stall checks in the order 1, 2, 3. An exception escaping a handler ends
 * the loop, which the pass reports as `Stop`.
 */
module MainLoop {
  import opened Common
  import opened EphemerisScheduler
  import opened Dispatch
  import opened Watchdog

  /**
   * The clock readings one pass takes, in the order it takes them: one per
   * scheduled raw-observation record, one after each handled message, and a
   * check and a reset reading per stall check.
   */
  datatype Clock = Clock(rxm: seq<real>, after1: real, after2: real, after3: real,
                         check1: real, reset1: real, check2: real, reset2: real,
                         check3: real, reset3: real)

  /** The readings of a pass never go backwards, starting from `start`. */
  ghost predicate ClockFrom(c: Clock, start: real) {
    && (forall i :: 0 <= i < |c.rxm| ==> start <= c.rxm[i] <= c.after1)
    && start <= c.after1 <= c.after2 <= c.after3
    && c.after3 <= c.check1 <= c.reset1 <= c.check2 <= c.reset2 <= c.check3 <= c.reset3
  }

  /** The reference receiver's stage of a pass: its handler, when the poll returned a message. */
  function First(st: RouterState, ext: Externals, nortcm: bool, in1: Option<Message>, rxm: seq<real>): Handled
    requires in1.Some? ==> |rxm| == |in1.value.recs|
  {
    if in1.Some? then Device1Step(st, ext, nortcm, in1.value, rxm) else Handled(Continue, st)
  }

  /** The corrected rover's stage: skipped once the pass has failed. */
  function Then2(h: Handled, in2: Option<Message>): Handled {
    if h.outcome.Stop? || in2.None? then h else Device2Step(h.state, in2.value)
  }

  /** The uncorrected rover's stage: skipped once the pass has failed, or without that receiver. */
  function Then3(h: Handled, in3: Option<Message>, present: bool): Handled {
    if h.outcome.Stop? || !present || in3.None? then h else Device3Step(h.state, in3.value)
  }

  /**
   * The handlers of one pass over the router state `st`: the reference
   * receiver's message, then the corrected rover's, then the uncorrected
   * rover's when that receiver is present; the first failure ends the pass
   * with the state reached so far.
   */
  function Pass(st: RouterState, ext: Externals, nortcm: bool,
                in1: Option<Message>, in2: Option<Message>, in3: Option<Message>,
                present: bool, rxm: seq<real>): Handled
    requires in1.Some? ==> |rxm| == |in1.value.recs|
  {
    Then3(Then2(First(st, ext, nortcm, in1, rxm), in2), in3, present)
  }

  /** A pass in which no receiver returned a message changes nothing. */
  lemma QuietPass(st: RouterState, ext: Externals, nortcm: bool, in3: Option<Message>, present: bool, rxm: seq<real>)
    requires in3.None? || !present
    ensures Pass(st, ext, nortcm, None, None, in3, present, rxm) == Handled(Continue, st)
  {
  }

  /** The reference receiver's stage fails only on the lookup of the raw message, after a raw message. */
  lemma FirstFaults(st: RouterState, ext: Externals, nortcm: bool, in1: Option<Message>, rxm: seq<real>)
    requires in1.Some? ==> |rxm| == |in1.value.recs|
    ensures var h := First(st, ext, nortcm, in1, rxm);
      h.outcome.Stop? ==> h.outcome.fault == MissingRawMessage && in1.Some? && in1.value.name == RxmRaw
  {
    if in1.Some? && in1.value.name == RxmRaw {
      var m := in1.value;
      var kept := Stored(m.name) && m.unpacks;
      var st1 := if kept then st.(messages := st.messages[m.name := m], satinfo := ext.addMessage(st.satinfo, m)) else st;
      var scan := ScanRecords(st1.seen, st1.ephemeris, m.recs, rxm);
      assert First(st, ext, nortcm, in1, rxm)
          == EstimateStep(st1.(seen := scan.seen, polls := st1.polls + scan.polls), ext, nortcm);
    }
  }

  /** The corrected rover's handler fails on an undecodable status or position, or on a missing receiver position. */
  lemma Device2Faults(st: RouterState, msg: Message)
    ensures var h := Device2Step(st, msg);
      h.outcome.Stop? ==>
        || (h.outcome.fault == UnpackFailed(Dev2) && (msg.name == NavDgps || msg.name == NavPosecef) && !msg.unpacks)
        || (h.outcome.fault == MissingReceiverPosition && msg.name == NavPosecef)
  {
  }

  /** The uncorrected rover's handler fails only on an undecodable position. */
  lemma Device3Faults(st: RouterState, msg: Message)
    ensures var h := Device3Step(st, msg);
      h.outcome.Stop? ==> h.outcome.fault == UnpackFailed(Dev3) && msg.name == NavPosecef && !msg.unpacks
  {
  }

  /** A failure names the handler it escaped from, and that receiver returned a message. */
  lemma PassFaultSource(st: RouterState, ext: Externals, nortcm: bool,
                        in1: Option<Message>, in2: Option<Message>, in3: Option<Message>,
                        present: bool, rxm: seq<real>)
    requires in1.Some? ==> |rxm| == |in1.value.recs|
    ensures var h := Pass(st, ext, nortcm, in1, in2, in3, present, rxm);
      h.outcome.Stop? ==>
        match h.outcome.fault
        case UnpackFailed(d) =>
          (d == Dev2 && in2.Some? && (in2.value.name == NavDgps || in2.value.name == NavPosecef) && !in2.value.unpacks)
          || (d == Dev3 && present && in3.Some? && in3.value.name == NavPosecef && !in3.value.unpacks)
        case MissingRawMessage => in1.Some? && in1.value.name == RxmRaw
        case MissingReceiverPosition => in2.Some? && in2.value.name == NavPosecef
  {
    var h1 := First(st, ext, nortcm, in1, rxm);
    FirstFaults(st, ext, nortcm, in1, rxm);
    if !h1.outcome.Stop? && in2.Some? {
      Device2Faults(h1.state, in2.value);
      var h2 := Then2(h1, in2);
      if !h2.outcome.Stop? && present && in3.Some? {
        Device3Faults(h2.state, in3.value);
      }
    }
  }

  /**
   * `r` extends `st`: the ephemeris table is the same, all outbound traffic
   * keeps what it had as a prefix, and no stored message is dropped.
   */
  ghost predicate Extends(st: RouterState, r: RouterState) {
    && r.ephemeris == st.ephemeris
    && st.polls <= r.polls && st.rtcmFile <= r.rtcmFile && st.dev2Writes <= r.dev2Writes
    && st.lines <= r.lines && st.errlog <= r.errlog
    && st.messages.Keys <= r.messages.Keys
  }

  lemma ExtendsTransitive(a: RouterState, b: RouterState, c: RouterState)
    requires Extends(a, b) && Extends(b, c)
    ensures Extends(a, c)
  {
  }

  /** The reference receiver's handler only extends the state, whether it finishes or fails. */
  lemma Device1Extends(st: RouterState, ext: Externals, nortcm: bool, msg: Message, times: seq<real>)
    requires |times| == |msg.recs|
    ensures Extends(st, Device1Step(st, ext, nortcm, msg, times).state)
  {
  }

  /** So do the rovers' handlers. */
  lemma RoverHandlersExtend(st: RouterState, msg: Message)
    ensures Extends(st, Device2Step(st, msg).state)
    ensures Extends(st, Device3Step(st, msg).state)
  {
  }

  /**
   * Nothing a pass does fills the ephemeris table, and all outbound traffic
   * only grows: the poll traffic, the correction file, the rover's writes,
   * the printed lines and the error log keep what they had as a prefix;
   * stored messages are never dropped.
   */
  lemma PassOnlyAppends(st: RouterState, ext: Externals, nortcm: bool,
                        in1: Option<Message>, in2: Option<Message>, in3: Option<Message>,
                        present: bool, rxm: seq<real>)
    requires in1.Some? ==> |rxm| == |in1.value.recs|
    ensures Extends(st, Pass(st, ext, nortcm, in1, in2, in3, present, rxm).state)
  {
    var h1 := First(st, ext, nortcm, in1, rxm);
    if in1.Some? {
      Device1Extends(st, ext, nortcm, in1.value, rxm);
    }
    var h2 := Then2(h1, in2);
    if !h1.outcome.Stop? && in2.Some? {
      RoverHandlersExtend(h1.state, in2.value);
      ExtendsTransitive(st, h1.state, h2.state);
    }
    if !h2.outcome.Stop? && present && in3.Some? {
      RoverHandlersExtend(h2.state, in3.value);
      ExtendsTransitive(st, h2.state, Then3(h2, in3, present).state);
    }
  }

  /** The start-up state and the loop body of the field-test script. */
  class DgpsTest {
    const router: Router
    const watchdog: Watchdog
    /** Each receiver's time of last message at start-up. */
    ghost const start1: real
    ghost const start2: real
    ghost const start3: real
    /** The ticks of each receiver over the passes so far (none for an absent third receiver). */
    ghost var history1: seq<Tick>
    ghost var history2: seq<Tick>
    ghost var history3: seq<Tick>

    ghost predicate Valid()
      reads this, router, router.scheduler, watchdog
    {
      router.Valid() && watchdog.Valid()
    }

    /** Every receiver follows its trace (see `LinkTrace`) from its start-up time. */
    ghost predicate TracedLinks()
      reads this, watchdog
    {
      var w := watchdog;
      && LinkTrace(w.reopen, start1, history1, w.last1, w.events, w.clock, Dev1)
      && LinkTrace(w.reopen, start2, history2, w.last2, w.events, w.clock, Dev2)
      && LinkTrace(w.reopen, start3, history3, w.last3, w.events, w.clock, Dev3)
    }

    /** The loop-level invariant: every link follows its trace, and the ephemeris table stays empty. */
    ghost predicate Traced()
      reads this, router, router.scheduler, watchdog
    {
      && router.scheduler.svidEphemeris == map[]
      && TracedLinks()
      && (watchdog.dev3.None? ==> history3 == [])
    }

    /**
     * Start-up: the receivers are opened at `openedAt`, the three times of
     * last message are read, then the aggregate is created with the
     * reference position and the thresholds.
     */
    constructor (ext: Externals, nortcm: bool, reopen: bool, reference: Option<Pos>,
                 minElevation: real, minQuality: int,
                 port1: string, port2: string, port3: Option<string>,
                 log1: Option<string>, log2: Option<string>, log3: Option<string>,
                 openedAt: real, t1: real, t2: real, t3: real)
      requires openedAt <= t1 <= t2 <= t3
      ensures Valid() && Traced() && fresh(router) && fresh(router.scheduler) && fresh(watchdog)
      ensures router.State() == RouterState(map[], InitialSatInfo(reference, minElevation, minQuality),
                                            map[], map[], [], [], [], [], [])
      ensures router.ext == ext && router.nortcm == nortcm && watchdog.reopen == reopen
      ensures watchdog.last1 == t1 && watchdog.last2 == t2 && watchdog.last3 == t3 && watchdog.clock == t3
      ensures watchdog.dev3.Some? <==> port3.Some?
      ensures watchdog.events == [Opened(Dev1, false, openedAt), Opened(Dev2, false, openedAt)]
                                 + (if port3.Some? then [Opened(Dev3, false, openedAt)] else [])
      ensures history1 == [] && history2 == [] && history3 == []
    {
      watchdog := new Watchdog(reopen, port1, port2, port3, log1, log2, log3, openedAt, t1, t2, t3);
      router := new Router(ext, nortcm, reference, minElevation, minQuality);
      start1, start2, start3 := t1, t2, t3;
      history1, history2, history3 := [], [], [];
      new;
      NoReopens(watchdog.events, Dev1);
      NoReopens(watchdog.events, Dev2);
      NoReopens(watchdog.events, Dev3);
    }

    /** The reference receiver's turn: its message, if any, is handled, then its time refreshed. */
    method Receive1(in1: Option<Message>, c: Clock) returns (o: Outcome)
      requires Valid()
      requires in1.Some? ==> |c.rxm| == |in1.value.recs|
      requires watchdog.clock <= c.after1
      modifies router, router.scheduler, watchdog
      ensures Valid() && old(watchdog.clock) <= watchdog.clock <= c.after1
      ensures Handled(o, router.State()) == First(old(router.State()), router.ext, router.nortcm, in1, c.rxm)
      ensures watchdog.dev3 == old(watchdog.dev3) && watchdog.events == old(watchdog.events)
      ensures watchdog.last2 == old(watchdog.last2) && watchdog.last3 == old(watchdog.last3)
      ensures o.Continue? ==> watchdog.last1 == if in1.Some? then c.after1 else old(watchdog.last1)
    {
      o := Continue;
      if in1.Some? {
        o := router.HandleDevice1(in1.value, c.rxm);
        if o.Continue? {
          watchdog.Touch(Dev1, c.after1);
        }
      }
    }

    /** The corrected rover's turn. */
    method Receive2(in2: Option<Message>, now: real) returns (o: Outcome)
      requires Valid() && watchdog.clock <= now
      modifies router, watchdog
      ensures Valid() && old(watchdog.clock) <= watchdog.clock <= now
      ensures Handled(o, router.State()) == Then2(Handled(Continue, old(router.State())), in2)
      ensures watchdog.dev3 == old(watchdog.dev3) && watchdog.events == old(watchdog.events)
      ensures watchdog.last1 == old(watchdog.last1) && watchdog.last3 == old(watchdog.last3)
      ensures o.Continue? ==> watchdog.last2 == if in2.Some? then now else old(watchdog.last2)
    {
      o := Continue;
      if in2.Some? {
        o := router.HandleDevice2(in2.value);
        if o.Continue? {
          watchdog.Touch(Dev2, now);
        }
      }
    }

    /** The uncorrected rover's turn, taken only when that receiver is configured. */
    method Receive3(in3: Option<Message>, now: real) returns (o: Outcome)
      requires Valid() && watchdog.clock <= now
      modifies router, watchdog
      ensures Valid() && old(watchdog.clock) <= watchdog.clock <= now
      ensures Handled(o, router.State()) == Then3(Handled(Continue, old(router.State())), in3, old(watchdog.dev3).Some?)
      ensures watchdog.dev3 == old(watchdog.dev3) && watchdog.events == old(watchdog.events)
      ensures watchdog.last1 == old(watchdog.last1) && watchdog.last2 == old(watchdog.last2)
      ensures o.Continue? ==>
                watchdog.last3 == if in3.Some? && old(watchdog.dev3).Some? then now else old(watchdog.last3)
    {
      o := Continue;
      if watchdog.dev3.Some? && in3.Some? {
        o := router.HandleDevice3(in3.value);
        if o.Continue? {
          watchdog.Touch(Dev3, now);
        }
      }
    }

    /**
     * The handler phase of a pass: each receiver that returned a message has
     * it handled and then its time refreshed; an escaping failure ends the
     * pass before anything further.
     */
    method Deliver(in1: Option<Message>, in2: Option<Message>, in3: Option<Message>, c: Clock)
      returns (o: Outcome)
      requires Valid()
      requires in1.Some? ==> |c.rxm| == |in1.value.recs|
      requires ClockFrom(c, watchdog.clock)
      modifies router, router.scheduler, watchdog
      ensures Valid() && old(watchdog.clock) <= watchdog.clock <= c.after3
      ensures Handled(o, router.State())
           == Pass(old(router.State()), router.ext, router.nortcm, in1, in2, in3, old(watchdog.dev3).Some?, c.rxm)
      ensures watchdog.dev3.Some? == old(watchdog.dev3).Some?
      ensures watchdog.events == old(watchdog.events)
      ensures o.Continue? ==>
                && watchdog.last1 == (if in1.Some? then c.after1 else old(watchdog.last1))
                && watchdog.last2 == (if in2.Some? then c.after2 else old(watchdog.last2))
                && watchdog.last3 == (if in3.Some? && old(watchdog.dev3).Some? then c.after3 else old(watchdog.last3))
    {
      ghost var st0 := router.State();
      o := Receive1(in1, c);
      if o.Stop? {
        return;
      }
      ghost var h1 := First(st0, router.ext, router.nortcm, in1, c.rxm);
      o := Receive2(in2, c.after2);
      if o.Stop? {
        return;
      }
      ghost var h2 := Then2(h1, in2);
      o := Receive3(in3, c.after3);
    }

    /**
     * One pass of the loop; `inN` is what the poll of receiver N returned
     * (the third receiver's poll is ignored when it is not configured). The
     * router's new state is `Pass`; the receivers' times and link events
     * follow `LinkStep` for each receiver, and a pass that continues extends
     * each present receiver's trace by its tick, keeping `Traced`.
     */
    method Iterate(in1: Option<Message>, in2: Option<Message>, in3: Option<Message>, c: Clock)
      returns (o: Outcome)
      requires Valid() && Traced()
      requires in1.Some? ==> |c.rxm| == |in1.value.recs|
      requires ClockFrom(c, watchdog.clock)
      modifies this, router, router.scheduler, watchdog
      ensures Valid()
      ensures Handled(o, router.State())
           == Pass(old(router.State()), router.ext, router.nortcm, in1, in2, in3, old(watchdog.dev3).Some?, c.rxm)
      ensures watchdog.dev3.Some? == old(watchdog.dev3).Some?
      ensures o.Continue? ==>
                var reopen, present := watchdog.reopen, old(watchdog.dev3).Some?;
                var s1 := LinkStep(reopen, old(watchdog.last1), Tick(in1.Some?, c.after1, c.check1, c.reset1));
                var s2 := LinkStep(reopen, old(watchdog.last2), Tick(in2.Some?, c.after2, c.check2, c.reset2));
                var s3 := LinkStep(reopen, old(watchdog.last3), Tick(in3.Some?, c.after3, c.check3, c.reset3));
                && watchdog.last1 == s1.last
                && watchdog.last2 == s2.last
                && watchdog.last3 == (if present then s3.last else old(watchdog.last3))
                && watchdog.events == old(watchdog.events) + StepEvents(Dev1, s1) + StepEvents(Dev2, s2)
                                      + (if present then StepEvents(Dev3, s3) else [])
      ensures o.Continue? ==>
                && Traced()
                && history1 == old(history1) + [Tick(in1.Some?, c.after1, c.check1, c.reset1)]
                && history2 == old(history2) + [Tick(in2.Some?, c.after2, c.check2, c.reset2)]
                && history3 == old(history3) + (if old(watchdog.dev3).Some? then [Tick(in3.Some?, c.after3, c.check3, c.reset3)] else [])
      ensures o.Continue? ==> watchdog.clock == if old(watchdog.dev3).Some? then c.reset3 else c.reset2
      ensures o.Stop? ==> watchdog.events == old(watchdog.events)
      ensures in1.None? && in2.None? && (in3.None? || old(watchdog.dev3).None?) ==>
                o == Continue && router.State() == old(router.State())
    {
      ghost var st0 := router.State();
      ghost var ev0, clock0 := watchdog.events, watchdog.clock;
      ghost var present := watchdog.dev3.Some?;
      ghost var l1, l2, l3 := watchdog.last1, watchdog.last2, watchdog.last3;
      o := Deliver(in1, in2, in3, c);
      if o.Stop? {
        return;
      }
      PassOnlyAppends(st0, router.ext, router.nortcm, in1, in2, in3, present, c.rxm);
      Supervise(in1.Some?, in2.Some?, in3.Some?, c, ev0, clock0, l1, l2, l3);
      if in1.None? && in2.None? && (in3.None? || !present) {
        QuietPass(st0, router.ext, router.nortcm, in3, present, c.rxm);
      }
    }

    /**
     * The stall-check phase of a continuing pass, after the handlers refreshed
     * the times `l1`, `l2`, `l3` of the receivers that returned a message:
     * each receiver's time and link events follow `LinkStep` over its tick,
     * and its trace is extended by that tick.
     */
    method Supervise(got1: bool, got2: bool, got3: bool, c: Clock, ghost ev0: seq<LinkEvent>, ghost clock0: real,
                     ghost l1: real, ghost l2: real, ghost l3: real)
      requires watchdog.Valid() && ClockFrom(c, clock0) && clock0 <= watchdog.clock <= c.after3
      requires watchdog.dev3.None? ==> history3 == []
      requires LinkTrace(watchdog.reopen, start1, history1, l1, ev0, clock0, Dev1)
      requires LinkTrace(watchdog.reopen, start2, history2, l2, ev0, clock0, Dev2)
      requires LinkTrace(watchdog.reopen, start3, history3, l3, ev0, clock0, Dev3)
      requires watchdog.events == ev0
      requires watchdog.last1 == (if got1 then c.after1 else l1)
      requires watchdog.last2 == (if got2 then c.after2 else l2)
      requires watchdog.last3 == (if got3 && watchdog.dev3.Some? then c.after3 else l3)
      modifies this, watchdog
      ensures watchdog.Valid() && watchdog.dev3.Some? == old(watchdog.dev3).Some?
      ensures watchdog.clock == if watchdog.dev3.Some? then c.reset3 else c.reset2
      ensures var reopen, present := watchdog.reopen, watchdog.dev3.Some?;
        var s1 := LinkStep(reopen, l1, Tick(got1, c.after1, c.check1, c.reset1));
        var s2 := LinkStep(reopen, l2, Tick(got2, c.after2, c.check2, c.reset2));
        var s3 := LinkStep(reopen, l3, Tick(got3, c.after3, c.check3, c.reset3));
        && watchdog.last1 == s1.last
        && watchdog.last2 == s2.last
        && watchdog.last3 == (if present then s3.last else l3)
        && watchdog.events == ev0 + StepEvents(Dev1, s1) + StepEvents(Dev2, s2)
                              + (if present then StepEvents(Dev3, s3) else [])
      ensures TracedLinks() && (watchdog.dev3.None? ==> history3 == [])
      ensures history1 == old(history1) + [Tick(got1, c.after1, c.check1, c.reset1)]
      ensures history2 == old(history2) + [Tick(got2, c.after2, c.check2, c.reset2)]
      ensures history3 == old(history3) + (if watchdog.dev3.Some? then [Tick(got3, c.after3, c.check3, c.reset3)] else [])
    {
      ghost var present := watchdog.dev3.Some?;
      ghost var w1, w2, w3 := watchdog.last1, watchdog.last2, watchdog.last3;
      watchdog.CheckAll(c.check1, c.reset1, c.check2, c.reset2, c.check3, c.reset3);
      TouchedStep(watchdog.reopen, l1, got1, c.after1, c.check1, c.reset1);
      TouchedStep(watchdog.reopen, l2, got2, c.after2, c.check2, c.reset2);
      TouchedStep(watchdog.reopen, l3, got3, c.after3, c.check3, c.reset3);
      RecordPass(got1, got2, got3, c, ev0, clock0, l1, l2, l3, present, w1, w2, w3);
    }

    /** Appends one continuing pass's ticks to the receivers' histories, keeping each trace. */
    ghost method RecordPass(got1: bool, got2: bool, got3: bool, c: Clock, ev0: seq<LinkEvent>, clock0: real,
                            l1: real, l2: real, l3: real, present: bool, w1: real, w2: real, w3: real)
      requires present == watchdog.dev3.Some? && (!present ==> history3 == [])
      requires clock0 <= c.after1 && ClockFrom(c, clock0)
      requires LinkTrace(watchdog.reopen, start1, history1, l1, ev0, clock0, Dev1)
      requires LinkTrace(watchdog.reopen, start2, history2, l2, ev0, clock0, Dev2)
      requires LinkTrace(watchdog.reopen, start3, history3, l3, ev0, clock0, Dev3)
      requires w1 == (if got1 then c.after1 else l1) && w2 == (if got2 then c.after2 else l2)
      requires w3 == (if got3 && present then c.after3 else l3)
      requires var reopen := watchdog.reopen;
        var s1 := LinkStep(reopen, w1, Tick(false, c.check1, c.check1, c.reset1));
        var s2 := LinkStep(reopen, w2, Tick(false, c.check2, c.check2, c.reset2));
        var s3 := LinkStep(reopen, w3, Tick(false, c.check3, c.check3, c.reset3));
        && watchdog.last1 == s1.last
        && watchdog.last2 == s2.last
        && watchdog.last3 == (if present then s3.last else w3)
        && watchdog.events == ev0 + StepEvents(Dev1, s1) + StepEvents(Dev2, s2)
                              + (if present then StepEvents(Dev3, s3) else [])
        && watchdog.clock == if present then c.reset3 else c.reset2
      modifies this
      ensures TracedLinks()
      ensures history1 == old(history1) + [Tick(got1, c.after1, c.check1, c.reset1)]
      ensures history2 == old(history2) + [Tick(got2, c.after2, c.check2, c.reset2)]
      ensures history3 == old(history3) + (if present then [Tick(got3, c.after3, c.check3, c.reset3)] else [])
    {
      var reopen := watchdog.reopen;
      var t1 := Tick(got1, c.after1, c.check1, c.reset1);
      var t2 := Tick(got2, c.after2, c.check2, c.reset2);
      var t3 := Tick(got3, c.after3, c.check3, c.reset3);
      var s1, s2, s3 := LinkStep(reopen, l1, t1), LinkStep(reopen, l2, t2), LinkStep(reopen, l3, t3);
      TouchedStep(reopen, l1, got1, c.after1, c.check1, c.reset1);
      TouchedStep(reopen, l2, got2, c.after2, c.check2, c.reset2);
      TouchedStep(reopen, l3, got3, c.after3, c.check3, c.reset3);
      var events', clock' := watchdog.events, watchdog.clock;
      PassReopens(ev0, s1, s2, s3, present, Dev1, s1);
      PassReopens(ev0, s1, s2, s3, present, Dev2, s2);
      PassReopens(ev0, s1, s2, s3, present, Dev3, s3);
      LinkTraceStep(reopen, start1, history1, l1, ev0, clock0, Dev1, t1, events', clock');
      LinkTraceStep(reopen, start2, history2, l2, ev0, clock0, Dev2, t2, events', clock');
      if present {
        LinkTraceStep(reopen, start3, history3, l3, ev0, clock0, Dev3, t3, events', clock');
        history3 := history3 + [t3];
      } else {
        LinkTraceIdle(reopen, start3, l3, ev0, clock0, Dev3, events', clock');
      }
      history1 := history1 + [t1];
      history2 := history2 + [t2];
    }
  }

  /**
   * A stall check after the time was refreshed at `gotAt` is the step of the
   * tick that records that message.
   */
  lemma TouchedStep(reopen: bool, last: real, got: bool, gotAt: real, checkAt: real, resetAt: real)
    ensures LinkStep(reopen, if got then gotAt else last, Tick(false, checkAt, checkAt, resetAt))
         == LinkStep(reopen, last, Tick(got, gotAt, checkAt, resetAt))
  {
  }

  /**
   * The re-opens a continuing pass records for receiver `d`: its own step
   * `s`'s re-open, if it has one and the receiver is present.
   */
  lemma PassReopens(ev0: seq<LinkEvent>, s1: Step, s2: Step, s3: Step, present: bool, d: DeviceId, s: Step)
    requires s == match d case Dev1 => s1 case Dev2 => s2 case Dev3 => s3
    ensures ReopenTimes(ev0 + StepEvents(Dev1, s1) + StepEvents(Dev2, s2)
                        + (if present then StepEvents(Dev3, s3) else []), d)
         == ReopenTimes(ev0, d) + (if s.reopened && (d != Dev3 || present) then [s.last] else [])
  {
    AppendStepReopens(ev0, Dev1, s1, d);
    AppendStepReopens(ev0 + StepEvents(Dev1, s1), Dev2, s2, d);
    if present {
      AppendStepReopens(ev0 + StepEvents(Dev1, s1) + StepEvents(Dev2, s2), Dev3, s3, d);
    } else {
      assert ev0 + StepEvents(Dev1, s1) + StepEvents(Dev2, s2) + [] == ev0 + StepEvents(Dev1, s1) + StepEvents(Dev2, s2);
    }
  }

  /** Appending one step's events of receiver `e` adds its re-open to `e`'s and nothing to the others'. */
  lemma AppendStepReopens(events: seq<LinkEvent>, e: DeviceId, s: Step, d: DeviceId)
    ensures ReopenTimes(events + StepEvents(e, s), d)
         == ReopenTimes(events, d) + if e == d && s.reopened then [s.last] else []
  {
    ReopenTimesAppend(events, StepEvents(e, s), d);
    StepEventsReopens(e, s, d);
  }

  /**
   * Receiver `d`'s trace: its time and the re-opens recorded in the link
   * events are those of `RunLink` over its ticks from its start-up time,
   * and the ticks' clock readings are ordered and not later than `clock`.
   */
  ghost predicate LinkTrace(reopen: bool, start: real, history: seq<Tick>, last: real,
                            events: seq<LinkEvent>, clock: real, d: DeviceId)
  {
    var r := RunLink(reopen, start, history);
    && last == r.last
    && ReopenTimes(events, d) == r.reopens
    && Chain(start, history, clock)
  }

  /**
   * One continuing pass extends receiver `d`'s trace by its tick when the
   * events it leaves record exactly its own step's re-open after the old ones.
   */
  lemma LinkTraceStep(reopen: bool, start: real, history: seq<Tick>, last: real,
                      events: seq<LinkEvent>, clock: real, d: DeviceId,
                      t: Tick, events': seq<LinkEvent>, clock': real)
    requires LinkTrace(reopen, start, history, last, events, clock, d)
    requires clock <= t.gotAt <= t.checkAt <= t.resetAt <= clock'
    requires var s := LinkStep(reopen, last, t);
      ReopenTimes(events', d) == ReopenTimes(events, d) + if s.reopened then [s.last] else []
    ensures LinkTrace(reopen, start, history + [t], LinkStep(reopen, last, t).last, events', clock', d)
  {
    RunLinkExtend(reopen, start, history, t);
    ChainLater(start, history, clock, t.gotAt);
    assert (history + [t])[..|history|] == history;
  }

  /** A pass that records nothing for an absent receiver keeps its trace. */
  lemma LinkTraceIdle(reopen: bool, start: real, last: real, events: seq<LinkEvent>, clock: real, d: DeviceId,
                      events': seq<LinkEvent>, clock': real)
    requires LinkTrace(reopen, start, [], last, events, clock, d)
    requires ReopenTimes(events', d) == ReopenTimes(events, d) + [] && clock <= clock'
    ensures LinkTrace(reopen, start, [], last, events', clock', d)
  {
    ChainLater(start, [], clock, clock');
  }

  /**
   * What a trace guarantees after any number of passes: the receiver's time
   * lies between its start-up time and the clock, it was re-opened at most
   * once per pass, and the re-opens recorded in the link events are more
   * than the stall timeout apart.
   */
  lemma TracedReopensSpaced(reopen: bool, start: real, history: seq<Tick>, last: real,
                            events: seq<LinkEvent>, clock: real, d: DeviceId)
    requires LinkTrace(reopen, start, history, last, events, clock, d)
    ensures start <= last <= clock
    ensures |ReopenTimes(events, d)| <= |history|
    ensures var times := ReopenTimes(events, d);
      forall i, j :: 0 <= i < j < |times| ==> times[j] > times[i] + StallTimeout
  {
    ChainOrdered(start, history, clock);
    ReopensSpaced(reopen, start, history);
    RunLinkBounds(reopen, start, history);
  }
}
