/**
 * The correction pipeline's decision: after a raw-observation message of the
 * reference receiver, which RTCM payloads are written to the correction file
 * and forwarded to the corrected rover, and in which order.
 */
module CorrectionPipeline {
  import opened Common

  /** The bytes of a sequence of writes, as they end up in an append-only file or link. */
  function Flatten(ps: seq<Payload>): Payload
    decreases |ps|
  {
    if ps == [] then [] else ps[0] + Flatten(ps[1..])
  }

  lemma {:induction false} FlattenAppend(a: seq<Payload>, b: seq<Payload>)
    ensures Flatten(a + b) == Flatten(a) + Flatten(b)
    decreases |a|
  {
    if a != [] {
      assert (a + b)[0] == a[0] && (a + b)[1..] == a[1..] + b;
      FlattenAppend(a[1..], b);
    } else {
      assert a + b == b;
    }
  }

  /** A generated payload is written only when it is not empty. */
  function WriteIfNonEmpty(p: Payload): seq<Payload> {
    if |p| != 0 then [p] else []
  }

  /**
   * The payloads written, in order, when the position estimate is computed
   * over `s`: nothing without a fix; otherwise the type-1 message, then the
   * type-3 message, each only if the encoder produced bytes.
   */
  function Corrections(s: SatInfo, ext: Externals): seq<Payload> {
    if ext.estimate(s).None? then []
    else WriteIfNonEmpty(ext.rtcm1(s)) + WriteIfNonEmpty(ext.rtcm3(s))
  }

  /**
   * Without a fix nothing is written. With one, every write is non-empty,
   * the bytes written are the type-1 message followed by the type-3
   * message, there is one write per non-empty message, and a non-empty
   * type-1 message comes first and a non-empty type-3 message last.
   */
  lemma CorrectionsContent(s: SatInfo, ext: Externals)
    ensures var r := Corrections(s, ext);
      && (ext.estimate(s).None? ==> r == [])
      && (forall i :: 0 <= i < |r| ==> r[i] != [])
      && (ext.estimate(s).Some? ==> Flatten(r) == ext.rtcm1(s) + ext.rtcm3(s))
      && |r| == (if ext.estimate(s).None? then 0
                 else (if ext.rtcm1(s) == [] then 0 else 1) + (if ext.rtcm3(s) == [] then 0 else 1))
      && (ext.estimate(s).Some? && ext.rtcm1(s) != [] ==> r[0] == ext.rtcm1(s))
      && (ext.estimate(s).Some? && ext.rtcm3(s) != [] ==> r[|r| - 1] == ext.rtcm3(s))
  {
    if ext.estimate(s).Some? {
      FlattenAppend(WriteIfNonEmpty(ext.rtcm1(s)), WriteIfNonEmpty(ext.rtcm3(s)));
    }
  }

  /** What the corrected rover receives of the written payloads: all of them, unless forwarding is off. */
  function Forwarded(written: seq<Payload>, nortcm: bool): seq<Payload> {
    if nortcm then [] else written
  }
}
