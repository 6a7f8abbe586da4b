/**
 * Values shared by every part of the DGPS field-test loop: receiver
 * messages as the loop sees them once decoded, the satellite aggregate it
 * keeps, and the external collaborators (aggregator, position estimator,
 * RTCM encoders) that the loop calls but does not define.
 */
module Common {

  datatype Option<+T> = None | Some(value: T)

  /** A satellite identifier as carried in a raw-observation record (one byte). */
  type SvId = x: int | 0 <= x < 256

  /** An opaque correction payload produced by an RTCM encoder. */
  type Payload = seq<bv8>

  /** An earth-centred earth-fixed position sample; its components are never inspected here. */
  datatype Pos = Pos(x: real, y: real, z: real)

  /** The names the loop compares a message's name against. */
  predicate KnownName(text: string) {
    text in {"RXM_RAW", "NAV_POSECEF", "RXM_SFRB", "AID_EPH", "NAV_DGPS"}
  }

  /** A name the loop does not act on. */
  type OtherName = text: string | !KnownName(text) witness ""

  /** The message names the loop distinguishes; every other name is carried verbatim. */
  datatype MsgName = RxmRaw | NavPosecef | RxmSfrb | AidEph | NavDgps | OtherMsg(text: OtherName)

  /** The name a message reports for itself. */
  function WireName(n: MsgName): string {
    match n
    case RxmRaw => "RXM_RAW"
    case NavPosecef => "NAV_POSECEF"
    case RxmSfrb => "RXM_SFRB"
    case AidEph => "AID_EPH"
    case NavDgps => "NAV_DGPS"
    case OtherMsg(text) => text
  }

  /**
   * The name as the loop classifies it. Every reported name has exactly one
   * classification, and classifying a message's reported name gives back
   * that message's name.
   */
  function Classify(text: string): (n: MsgName)
    ensures WireName(n) == text
    ensures KnownName(text) <==> !n.OtherMsg?
  {
    if text == "RXM_RAW" then RxmRaw
    else if text == "NAV_POSECEF" then NavPosecef
    else if text == "RXM_SFRB" then RxmSfrb
    else if text == "AID_EPH" then AidEph
    else if text == "NAV_DGPS" then NavDgps
    else OtherMsg(text)
  }

  lemma ClassifyWireName(n: MsgName)
    ensures Classify(WireName(n)) == n
  {
    if n.OtherMsg? {
      assert !KnownName(n.text);
    }
  }

  /**
   * A message returned by a receiver poll. `unpacks` says whether decoding its
   * payload succeeds; `recs` are the satellite identifiers of the first `numSV`
   * raw-observation records (meaningful for RxmRaw); `ecef` is the position a
   * NavPosecef message carries, already scaled from centimetres.
   */
  datatype Message = Message(name: MsgName, unpacks: bool, recs: seq<SvId>, ecef: Pos)

  /**
   * The satellite aggregate shared by the handlers: the positions they read
   * and write, the thresholds set at start-up, and `data`, the observation
   * state that the external aggregator keeps and the estimator reads.
   */
  datatype SatInfo = SatInfo(
    receiverPosition: Option<Pos>,
    averagePosition: Option<Pos>,
    rtcmPosition: Option<Pos>,
    recv2Position: Option<Pos>,
    recv3Position: Option<Pos>,
    referencePosition: Option<Pos>,
    minElevation: real,
    minQuality: int,
    data: seq<Message>)

  /** The collaborators whose code is not part of this model, as uninterpreted functions. */
  datatype Externals = Externals(
    addMessage: (SatInfo, Message) -> SatInfo,
    estimate: SatInfo -> Option<Pos>,
    rtcm1: SatInfo -> Payload,
    rtcm3: SatInfo -> Payload)

  /** The receivers: reference (1), corrected rover (2), uncorrected rover (3). */
  datatype DeviceId = Dev1 | Dev2 | Dev3

  /** Exceptions that escape a handler and end the loop. */
  datatype Fault =
    | UnpackFailed(device: DeviceId)  // msg.unpack() outside a try
    | MissingRawMessage              // messages['RXM_RAW'] before any was stored
    | MissingReceiverPosition        // display_diff on an absent receiver position

  datatype Outcome = Continue | Stop(fault: Fault)
}
