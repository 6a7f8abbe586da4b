/**
 * The divergence report printed when the corrected rover sends a position:
 * which labelled comparisons are printed, in which order, between which
 * positions, and which row is written to the error log. Distances are
 * floating-point results of the position type and are kept symbolic here:
 * a line or a column names the two positions it measures.
 */
module Divergence {
  import opened Common

  /** The first line of the error log, written when the log is created. */
  const ErrLogHeader: string := "normal DGPS normal-XY DGPS-XY"

  datatype Label = Recv1Recv2 | Recv2Avg | AvgRecv1 | AvgRecv2 | RefAvg | Recv1Ref | Recv2Ref | RtcmRef | Recv3Ref

  /** The caption printed at the head of a line. */
  function Caption(l: Label): string {
    match l
    case Recv1Recv2 => "RECV1<->RECV2"
    case Recv2Avg => "RECV2<->AVG"
    case AvgRecv1 => "AVG<->RECV1"
    case AvgRecv2 => "AVG<->RECV2"
    case RefAvg => "REF<->AVG"
    case Recv1Ref => "RECV1<->REF"
    case Recv2Ref => "RECV2<->REF"
    case RtcmRef => "RTCM<->REF"
    case Recv3Ref => "RECV3<->REF"
  }

  /** The fixed order in which labels may appear in one report. */
  function Rank(l: Label): nat {
    match l
    case Recv1Recv2 => 0
    case Recv2Avg => 1
    case AvgRecv1 => 2
    case AvgRecv2 => 3
    case RefAvg => 4
    case Recv1Ref => 5
    case Recv2Ref => 6
    case RtcmRef => 7
    case Recv3Ref => 8
  }

  /** One printed comparison: a distance and a horizontal distance from `left` to `right`. */
  datatype Line = Line(kind: Label, left: Pos, right: Pos)

  datatype Measure = Distance(left: Pos, right: Pos) | DistanceXY(left: Pos, right: Pos)

  /** One error-log row, its columns in the order of the log's header. */
  datatype ErrRow = ErrRow(normal: Measure, dgps: Measure, normalXY: Measure, dgpsXY: Measure)

  /**
   * The outcome of one rover position: no report before an averaged position
   * exists; a failure when the reference receiver has no position to print;
   * otherwise the lines and at most one error-log row.
   */
  datatype Report = Quiet | NoReceiverFix | Full(lines: seq<Line>, row: Option<ErrRow>)

  /**
   * The two positions the script prints under each caption, in print order.
   * "RECV2<->AVG" prints the reference receiver's position against the
   * average, as the script writes it.
   */
  function Operands(l: Label, s: SatInfo): (Option<Pos>, Option<Pos>) {
    match l
    case Recv1Recv2 => (s.receiverPosition, s.recv2Position)
    case Recv2Avg => (s.receiverPosition, s.averagePosition)
    case AvgRecv1 => (s.averagePosition, s.receiverPosition)
    case AvgRecv2 => (s.averagePosition, s.recv2Position)
    case RefAvg => (s.referencePosition, s.averagePosition)
    case Recv1Ref => (s.receiverPosition, s.referencePosition)
    case Recv2Ref => (s.recv2Position, s.referencePosition)
    case RtcmRef => (s.rtcmPosition, s.referencePosition)
    case Recv3Ref => (s.recv3Position, s.referencePosition)
  }

  /** Whether a full report includes a label: the reference lines need a reference position. */
  predicate Shown(l: Label, s: SatInfo) {
    match l
    case RefAvg | Recv1Ref | Recv2Ref => s.referencePosition.Some?
    case RtcmRef => s.referencePosition.Some? && s.rtcmPosition.Some?
    case Recv3Ref => s.referencePosition.Some? && s.recv3Position.Some?
    case _ => true
  }

  function Labels(lines: seq<Line>): set<Label> {
    set i | 0 <= i < |lines| :: lines[i].kind
  }

  /** The aggregate once the corrected rover's position `pos` has been stored. */
  function WithRover(s: SatInfo, pos: Pos): SatInfo {
    s.(recv2Position := Some(pos))
  }

  /**
   * The report for a rover position `pos` over the aggregate `s` it arrives
   * in; `RoverReportShape` states what it contains.
   */
  function RoverReport(s: SatInfo, pos: Pos): Report {
    if s.averagePosition.None? then Quiet
    else if s.receiverPosition.None? then NoReceiverFix
    else
      var lines := FullLines(s, pos);
      if s.referencePosition.None? then Full(lines, None)
      else
        var ref := s.referencePosition.value;
        var rover := if s.recv3Position.Some? then s.recv3Position.value else s.receiverPosition.value;
        Full(lines, Some(ErrRow(Distance(ref, rover), Distance(ref, pos), DistanceXY(ref, rover), DistanceXY(ref, pos))))
  }

  /**
   * No report before an average exists; a failure when there is an average
   * but no receiver position. A full report prints exactly the shown
   * labels, in rank order, each with the positions its caption names; it
   * writes a row exactly when a reference position exists, measuring the
   * reference against the uncorrected rover if there is one (else the
   * reference receiver) and against the corrected rover.
   */
  lemma RoverReportShape(s: SatInfo, pos: Pos)
    ensures var r := RoverReport(s, pos);
      && (r.Quiet? <==> s.averagePosition.None?)
      && (r.NoReceiverFix? <==> s.averagePosition.Some? && s.receiverPosition.None?)
      && (r.Full? ==> forall l :: l in Labels(r.lines) <==> Shown(l, WithRover(s, pos)))
      && (r.Full? ==> forall i, j :: 0 <= i < j < |r.lines| ==> Rank(r.lines[i].kind) < Rank(r.lines[j].kind))
      && (r.Full? ==> forall i :: 0 <= i < |r.lines| ==>
            Operands(r.lines[i].kind, WithRover(s, pos)) == (Some(r.lines[i].left), Some(r.lines[i].right)))
      && (r.Full? ==> (r.row.Some? <==> s.referencePosition.Some?))
      && (r.Full? && r.row.Some? ==>
            var ref := s.referencePosition.value;
            var rover := if s.recv3Position.Some? then s.recv3Position.value else s.receiverPosition.value;
            r.row.value == ErrRow(Distance(ref, rover), Distance(ref, pos), DistanceXY(ref, rover), DistanceXY(ref, pos)))
  {
    if s.averagePosition.Some? && s.receiverPosition.Some? {
      FullLinesShape(s, pos);
    }
  }

  /** The lines of a full report, in the order the script prints them. */
  function FullLines(s: SatInfo, pos: Pos): seq<Line>
    requires s.averagePosition.Some? && s.receiverPosition.Some?
  {
    var recv1, avg := s.receiverPosition.value, s.averagePosition.value;
    var base := [Line(Recv1Recv2, recv1, pos), Line(Recv2Avg, recv1, avg),
                 Line(AvgRecv1, avg, recv1), Line(AvgRecv2, avg, pos)];
    if s.referencePosition.None? then base
    else
      var ref := s.referencePosition.value;
      var refLines := [Line(RefAvg, ref, avg), Line(Recv1Ref, recv1, ref), Line(Recv2Ref, pos, ref)];
      var rtcmLine := if s.rtcmPosition.Some? then [Line(RtcmRef, s.rtcmPosition.value, ref)] else [];
      var recv3Line := if s.recv3Position.Some? then [Line(Recv3Ref, s.recv3Position.value, ref)] else [];
      base + refLines + rtcmLine + recv3Line
  }

  /** The label facts of a full report, established from the lines it is built from. */
  lemma FullLinesShape(s: SatInfo, pos: Pos)
    requires s.averagePosition.Some? && s.receiverPosition.Some?
    ensures var lines := FullLines(s, pos);
      && (forall l :: l in Labels(lines) <==> Shown(l, WithRover(s, pos)))
      && (forall i, j :: 0 <= i < j < |lines| ==> Rank(lines[i].kind) < Rank(lines[j].kind))
      && (forall i :: 0 <= i < |lines| ==>
            Operands(lines[i].kind, WithRover(s, pos)) == (Some(lines[i].left), Some(lines[i].right)))
  {
    var lines := FullLines(s, pos);
    var t := WithRover(s, pos);
    forall l ensures l in Labels(lines) <==> Shown(l, t) {
      if Shown(l, t) {
        var i := match l
          case Recv1Recv2 => 0
          case Recv2Avg => 1
          case AvgRecv1 => 2
          case AvgRecv2 => 3
          case RefAvg => 4
          case Recv1Ref => 5
          case Recv2Ref => 6
          case RtcmRef => 7
          case Recv3Ref => if s.rtcmPosition.Some? then 8 else 7;
        assert lines[i].kind == l;
      }
    }
  }
}
