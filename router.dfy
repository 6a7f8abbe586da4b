/**
 * The message handlers of the field-test loop: the reference receiver's
 * handler (decode, store, schedule ephemeris polls, run the correction
 * pipeline), the corrected rover's handler (store its position, report the
 * divergence) and the uncorrected rover's handler (store its position).
 */
module Dispatch {
  import opened Common
  import opened EphemerisScheduler
  import opened CorrectionPipeline
  import opened Divergence

  /**
   * The reference receiver's message names that are decoded and stored
   * (the script's list names RXM_RAW and NAV_POSECEF twice).
   */
  predicate Stored(name: MsgName) {
    name == RxmRaw || name == NavPosecef || name == RxmSfrb || name == AidEph
  }

  function RowsOf(row: Option<ErrRow>): seq<ErrRow> {
    match row
    case None => []
    case Some(r) => [r]
  }

  /** The aggregate the script starts with: only the reference position and the thresholds are set. */
  function InitialSatInfo(reference: Option<Pos>, minElevation: real, minQuality: int): SatInfo {
    SatInfo(None, None, None, None, None, reference, minElevation, minQuality, [])
  }

  /**
   * The handlers' shared state as one value: the stored messages, the
   * aggregate, the scheduler's two tables and its poll traffic, the writes
   * to the correction file and to the rover, the printed divergence lines
   * and the error-log rows.
   */
  datatype RouterState = RouterState(
    messages: map<MsgName, Message>,
    satinfo: SatInfo,
    seen: map<SvId, real>,
    ephemeris: map<SvId, real>,
    polls: seq<EphPoll>,
    rtcmFile: seq<Payload>,
    dev2Writes: seq<Payload>,
    lines: seq<Line>,
    errlog: seq<ErrRow>)

  /** What a handler returns, with the state it leaves (also when it fails part-way). */
  datatype Handled = Handled(outcome: Outcome, state: RouterState)

  /** The position estimate and correction fan-out over state `st`. */
  function EstimateStep(st: RouterState, ext: Externals, nortcm: bool): Handled {
    if RxmRaw !in st.messages then Handled(Stop(MissingRawMessage), st)
    else
      var w := Corrections(st.satinfo, ext);
      Handled(Continue, st.(rtcmFile := st.rtcmFile + w, dev2Writes := st.dev2Writes + Forwarded(w, nortcm)))
  }

  /** The reference receiver's handler over state `st`. */
  function Device1Step(st: RouterState, ext: Externals, nortcm: bool, msg: Message, times: seq<real>): Handled
    requires |times| == |msg.recs|
  {
    var kept := Stored(msg.name) && msg.unpacks;
    var st1 := if kept then st.(messages := st.messages[msg.name := msg],
                                satinfo := ext.addMessage(st.satinfo, msg))
               else st;
    if msg.name != RxmRaw then Handled(Continue, st1)
    else
      var scan := ScanRecords(st1.seen, st1.ephemeris, msg.recs, times);
      EstimateStep(st1.(seen := scan.seen, polls := st1.polls + scan.polls), ext, nortcm)
  }

  /** The corrected rover's handler over state `st`; the position is stored before the report. */
  function Device2Step(st: RouterState, msg: Message): Handled {
    if (msg.name == NavDgps || msg.name == NavPosecef) && !msg.unpacks then Handled(Stop(UnpackFailed(Dev2)), st)
    else if msg.name != NavPosecef then Handled(Continue, st)
    else
      var st1 := st.(satinfo := WithRover(st.satinfo, msg.ecef));
      match RoverReport(st.satinfo, msg.ecef)
      case Quiet => Handled(Continue, st1)
      case NoReceiverFix => Handled(Stop(MissingReceiverPosition), st1)
      case Full(shown, row) => Handled(Continue, st1.(lines := st.lines + shown, errlog := st.errlog + RowsOf(row)))
  }

  /** The uncorrected rover's handler over state `st`. */
  function Device3Step(st: RouterState, msg: Message): Handled {
    if msg.name != NavPosecef then Handled(Continue, st)
    else if !msg.unpacks then Handled(Stop(UnpackFailed(Dev3)), st)
    else Handled(Continue, st.(satinfo := st.satinfo.(recv3Position := Some(msg.ecef))))
  }

  /**
   * The state the handlers share. `rtcmFile` is the sequence of writes to the
   * correction file, `dev2Writes` the corrections sent to the corrected
   * rover, `lines` the divergence lines printed and `errlog` the rows
   * written to the error log after its header.
   */
  class Router {
    const scheduler: Scheduler
    const ext: Externals
    const nortcm: bool
    var messages: map<MsgName, Message>
    var satinfo: SatInfo
    var rtcmFile: seq<Payload>
    var dev2Writes: seq<Payload>
    var lines: seq<Line>
    var errlog: seq<ErrRow>

    /**
     * The file never receives an empty payload, the rover receives exactly
     * what the file receives unless forwarding is off, and the message table
     * holds only decoded messages of the stored names, under their own names.
     */
    ghost predicate Valid()
      reads this, scheduler
    {
      && scheduler.Valid()
      && (forall i :: 0 <= i < |rtcmFile| ==> rtcmFile[i] != [])
      && dev2Writes == Forwarded(rtcmFile, nortcm)
      && (forall n :: n in messages ==> messages[n].name == n && Stored(n) && messages[n].unpacks)
    }

    /** The state above as one value. */
    ghost function State(): RouterState
      reads this, scheduler
    {
      RouterState(messages, satinfo, scheduler.svidSeen, scheduler.svidEphemeris, scheduler.polls,
                  rtcmFile, dev2Writes, lines, errlog)
    }

    constructor (ext: Externals, nortcm: bool, reference: Option<Pos>, minElevation: real, minQuality: int)
      ensures Valid() && fresh(scheduler)
      ensures this.ext == ext && this.nortcm == nortcm
      ensures scheduler.svidSeen == map[] && scheduler.svidEphemeris == map[] && scheduler.polls == []
      ensures messages == map[] && satinfo == InitialSatInfo(reference, minElevation, minQuality)
      ensures rtcmFile == [] && dev2Writes == [] && lines == [] && errlog == []
    {
      scheduler := new Scheduler();
      this.ext := ext;
      this.nortcm := nortcm;
      messages := map[];
      satinfo := InitialSatInfo(reference, minElevation, minQuality);
      rtcmFile, dev2Writes, lines, errlog := [], [], [], [];
    }

    /** Writes one generated payload to the file and, unless forwarding is off, to the rover. */
    method WritePayload(rtcm: Payload)
      requires Valid()
      modifies this
      ensures Valid()
      ensures rtcmFile == old(rtcmFile) + WriteIfNonEmpty(rtcm)
      ensures dev2Writes == old(dev2Writes) + Forwarded(WriteIfNonEmpty(rtcm), nortcm)
      ensures messages == old(messages) && satinfo == old(satinfo)
      ensures lines == old(lines) && errlog == old(errlog)
    {
      if |rtcm| != 0 {
        rtcmFile := rtcmFile + [rtcm];
        if !nortcm {
          dev2Writes := dev2Writes + [rtcm];
        }
      }
    }

    /**
     * The position estimate and correction fan-out. Looking up the stored
     * raw-observation message fails when none was ever stored.
     */
    method PositionEstimate() returns (o: Outcome, pos: Option<Pos>)
      requires Valid()
      modifies this
      ensures Valid()
      ensures messages == old(messages) && satinfo == old(satinfo)
      ensures lines == old(lines) && errlog == old(errlog)
      ensures RxmRaw !in messages ==>
                o == Stop(MissingRawMessage) && rtcmFile == old(rtcmFile) && dev2Writes == old(dev2Writes)
      ensures Handled(o, State()) == EstimateStep(old(State()), ext, nortcm)
      ensures RxmRaw in messages ==>
                && o == Continue && pos == ext.estimate(satinfo)
                && rtcmFile == old(rtcmFile) + Corrections(satinfo, ext)
                && dev2Writes == old(dev2Writes) + Forwarded(Corrections(satinfo, ext), nortcm)
    {
      if RxmRaw !in messages {
        return Stop(MissingRawMessage), None;
      }
      o := Continue;
      pos := ext.estimate(satinfo);
      if pos.None? {
        return;
      }
      WritePayload(ext.rtcm1(satinfo));
      WritePayload(ext.rtcm3(satinfo));
    }

    /**
     * A message from the reference receiver; `times[i]` is the clock reading
     * taken while scheduling `msg.recs[i]`. A stored name is decoded, kept
     * and added to the aggregate, and a decoding failure is only reported;
     * a raw-observation message then runs the scheduler and the position
     * estimate whether or not it decoded.
     */
    method HandleDevice1(msg: Message, times: seq<real>) returns (o: Outcome)
      requires Valid()
      requires |times| == |msg.recs|
      modifies this, scheduler
      ensures Valid()
      ensures Handled(o, State()) == Device1Step(old(State()), ext, nortcm, msg, times)
      ensures var kept := Stored(msg.name) && msg.unpacks;
        && messages == (if kept then old(messages)[msg.name := msg] else old(messages))
        && satinfo == (if kept then ext.addMessage(old(satinfo), msg) else old(satinfo))
      ensures lines == old(lines) && errlog == old(errlog)
      ensures scheduler.svidEphemeris == old(scheduler.svidEphemeris)
      ensures msg.name != RxmRaw ==>
                && o == Continue
                && rtcmFile == old(rtcmFile) && dev2Writes == old(dev2Writes)
                && scheduler.svidSeen == old(scheduler.svidSeen) && scheduler.polls == old(scheduler.polls)
      ensures msg.name == RxmRaw ==>
                var scan := ScanRecords(old(scheduler.svidSeen), scheduler.svidEphemeris, msg.recs, times);
                && scheduler.svidSeen == scan.seen
                && scheduler.polls == old(scheduler.polls) + scan.polls
      ensures msg.name == RxmRaw && RxmRaw !in messages ==>
                o == Stop(MissingRawMessage) && rtcmFile == old(rtcmFile) && dev2Writes == old(dev2Writes)
      ensures msg.name == RxmRaw && RxmRaw in messages ==>
                && o == Continue
                && rtcmFile == old(rtcmFile) + Corrections(satinfo, ext)
                && dev2Writes == old(dev2Writes) + Forwarded(Corrections(satinfo, ext), nortcm)
    {
      if Stored(msg.name) {
        if msg.unpacks {
          messages := messages[msg.name := msg];
          satinfo := ext.addMessage(satinfo, msg);
        }
      }
      o := Continue;
      if msg.name == RxmRaw {
        scheduler.HandleRxmRaw(msg.recs, times);
        var pos;
        o, pos := PositionEstimate();
      }
    }

    /**
     * A message from the corrected rover. Its status and position messages
     * are decoded outside any error handler, so a decoding failure ends the
     * loop. A position is stored, then reported.
     */
    method HandleDevice2(msg: Message) returns (o: Outcome)
      requires Valid()
      modifies this
      ensures Valid()
      ensures Handled(o, State()) == Device2Step(old(State()), msg)
      ensures messages == old(messages) && rtcmFile == old(rtcmFile) && dev2Writes == old(dev2Writes)
      ensures (msg.name == NavDgps || msg.name == NavPosecef) && !msg.unpacks ==>
                && o == Stop(UnpackFailed(Dev2))
                && satinfo == old(satinfo) && lines == old(lines) && errlog == old(errlog)
      ensures msg.name != NavPosecef && (msg.name == NavDgps ==> msg.unpacks) ==>
                o == Continue && satinfo == old(satinfo) && lines == old(lines) && errlog == old(errlog)
      ensures msg.name == NavPosecef && msg.unpacks ==>
                && satinfo == WithRover(old(satinfo), msg.ecef)
                && match RoverReport(old(satinfo), msg.ecef)
                   case Quiet => o == Continue && lines == old(lines) && errlog == old(errlog)
                   case NoReceiverFix =>
                     o == Stop(MissingReceiverPosition) && lines == old(lines) && errlog == old(errlog)
                   case Full(shown, row) =>
                     o == Continue && lines == old(lines) + shown && errlog == old(errlog) + RowsOf(row)
    {
      o := Continue;
      if msg.name == NavDgps {
        if !msg.unpacks {
          return Stop(UnpackFailed(Dev2));
        }
      }
      if msg.name == NavPosecef {
        if !msg.unpacks {
          return Stop(UnpackFailed(Dev2));
        }
        var report := RoverReport(satinfo, msg.ecef);
        satinfo := WithRover(satinfo, msg.ecef);
        match report {
          case Quiet =>
          case NoReceiverFix =>
            o := Stop(MissingReceiverPosition);
          case Full(shown, row) =>
            lines := lines + shown;
            errlog := errlog + RowsOf(row);
        }
      }
    }

    /** A message from the uncorrected rover: a position is decoded, outside any error handler, and stored. */
    method HandleDevice3(msg: Message) returns (o: Outcome)
      requires Valid()
      modifies this
      ensures Valid()
      ensures Handled(o, State()) == Device3Step(old(State()), msg)
      ensures messages == old(messages) && rtcmFile == old(rtcmFile) && dev2Writes == old(dev2Writes)
      ensures lines == old(lines) && errlog == old(errlog)
      ensures msg.name == NavPosecef && !msg.unpacks ==> o == Stop(UnpackFailed(Dev3)) && satinfo == old(satinfo)
      ensures msg.name == NavPosecef && msg.unpacks ==>
                o == Continue && satinfo == old(satinfo).(recv3Position := Some(msg.ecef))
      ensures msg.name != NavPosecef ==> o == Continue && satinfo == old(satinfo)
    {
      o := Continue;
      if msg.name == NavPosecef {
        if !msg.unpacks {
          return Stop(UnpackFailed(Dev3));
        }
        satinfo := satinfo.(recv3Position := Some(msg.ecef));
      }
    }
  }
}
