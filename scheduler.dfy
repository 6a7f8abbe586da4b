/**
 * The ephemeris-poll scheduler run for every raw-observation message of the
 * reference receiver: per satellite, an AID_EPH poll is sent unless one was
 * sent in the last 30 seconds, or unless an ephemeris record for it was
 * received more than 1800 seconds ago (the age test as the script writes it).
 */
module EphemerisScheduler {
  import opened Common

  /** Seconds that must pass, strictly, before a satellite is polled again. */
  const PollInterval: real := 30.0
  /** Age, in seconds, beyond which an ephemeris record makes the scheduler skip a satellite. */
  const EphemerisMaxAge: real := 1800.0

  /** One AID_EPH poll sent to the reference receiver, and the clock reading it was sent at. */
  datatype EphPoll = EphPoll(sv: SvId, at: real)

  predicate Debounced(seen: map<SvId, real>, sv: SvId, now: real) {
    sv !in seen || now > seen[sv] + PollInterval
  }

  /** `ephemeris` maps a satellite to the time its ephemeris record was received. */
  predicate EphemerisAged(ephemeris: map<SvId, real>, sv: SvId, now: real) {
    sv in ephemeris && ephemeris[sv] + EphemerisMaxAge < now
  }

  predicate PollDue(seen: map<SvId, real>, ephemeris: map<SvId, real>, sv: SvId, now: real) {
    Debounced(seen, sv, now) && !EphemerisAged(ephemeris, sv, now)
  }

  /** The poll table and the polls sent after a prefix of a message's records. */
  datatype Scan = Scan(seen: map<SvId, real>, polls: seq<EphPoll>)

  /**
   * The records of one message, taken in order; `times[i]` is the clock
   * reading taken while handling `recs[i]`.
   */
  function ScanRecords(seen: map<SvId, real>, ephemeris: map<SvId, real>,
                       recs: seq<SvId>, times: seq<real>): Scan
    requires |times| == |recs|
    decreases |recs|
  {
    if recs == [] then Scan(seen, [])
    else
      var n := |recs| - 1;
      var prev := ScanRecords(seen, ephemeris, recs[..n], times[..n]);
      if PollDue(prev.seen, ephemeris, recs[n], times[n]) then
        Scan(prev.seen[recs[n] := times[n]], prev.polls + [EphPoll(recs[n], times[n])])
      else
        prev
  }

  /**
   * A message never causes more polls than it has records; table entries
   * are never removed; only satellites already in the table or named in the
   * message have entries afterwards; every poll is for a satellite named in
   * the message.
   */
  lemma {:induction false} ScanBounds(seen: map<SvId, real>, ephemeris: map<SvId, real>,
                                      recs: seq<SvId>, times: seq<real>)
    requires |times| == |recs|
    ensures var r := ScanRecords(seen, ephemeris, recs, times);
      && |r.polls| <= |recs|
      && seen.Keys <= r.seen.Keys
      && (forall sv :: sv in r.seen ==> sv in seen || sv in recs)
      && (forall k :: 0 <= k < |r.polls| ==> r.polls[k].sv in recs)
    decreases |recs|
  {
    if recs != [] {
      var n := |recs| - 1;
      ScanBounds(seen, ephemeris, recs[..n], times[..n]);
      assert forall sv :: sv in recs[..n] ==> sv in recs;
    }
  }

  /** Extending the records by one handles that record against the table the prefix left. */
  lemma ScanStep(seen: map<SvId, real>, ephemeris: map<SvId, real>,
                 recs: seq<SvId>, times: seq<real>, i: nat)
    requires |times| == |recs| && i < |recs|
    ensures var prev := ScanRecords(seen, ephemeris, recs[..i], times[..i]);
      ScanRecords(seen, ephemeris, recs[..i + 1], times[..i + 1])
        == if PollDue(prev.seen, ephemeris, recs[i], times[i])
           then Scan(prev.seen[recs[i] := times[i]], prev.polls + [EphPoll(recs[i], times[i])])
           else prev
  {
    assert recs[..i + 1][..i] == recs[..i] && times[..i + 1][..i] == times[..i];
  }

  /** The poll table obtained by recording each poll of `polls`, in order, over `seen`. */
  function Replay(seen: map<SvId, real>, polls: seq<EphPoll>): map<SvId, real>
    decreases |polls|
  {
    if polls == [] then seen
    else
      var last := polls[|polls| - 1];
      Replay(seen, polls[..|polls| - 1])[last.sv := last.at]
  }

  function Lookup(m: map<SvId, real>, sv: SvId): Option<real> {
    if sv in m then Some(m[sv]) else None
  }

  predicate PolledIn(polls: seq<EphPoll>, sv: SvId) {
    exists k :: 0 <= k < |polls| && polls[k].sv == sv
  }

  /** Polls of one satellite are more than the poll interval apart. */
  ghost predicate Spaced(polls: seq<EphPoll>) {
    forall i, j :: 0 <= i < j < |polls| && polls[i].sv == polls[j].sv ==>
      polls[j].at > polls[i].at + PollInterval
  }

  /** Every poll is recorded in the table, at a time no later than the table says. */
  ghost predicate Covers(seen: map<SvId, real>, polls: seq<EphPoll>) {
    forall i :: 0 <= i < |polls| ==> polls[i].sv in seen && polls[i].at <= seen[polls[i].sv]
  }

  /** Issuing a poll is the only way the table changes: it records exactly the polls sent. */
  lemma {:induction false} ScanSeenIsReplay(seen: map<SvId, real>, ephemeris: map<SvId, real>,
                                            recs: seq<SvId>, times: seq<real>)
    requires |times| == |recs|
    ensures ScanRecords(seen, ephemeris, recs, times).seen
         == Replay(seen, ScanRecords(seen, ephemeris, recs, times).polls)
    decreases |recs|
  {
    if recs != [] {
      var n := |recs| - 1;
      var prev := ScanRecords(seen, ephemeris, recs[..n], times[..n]);
      ScanSeenIsReplay(seen, ephemeris, recs[..n], times[..n]);
      if PollDue(prev.seen, ephemeris, recs[n], times[n]) {
        var ps := prev.polls + [EphPoll(recs[n], times[n])];
        assert ps[..|ps| - 1] == prev.polls;
        assert Replay(seen, ps) == Replay(seen, prev.polls)[recs[n] := times[n]];
      }
    }
  }

  /** A satellite that was never polled keeps its table entry, or its absence from the table. */
  lemma {:induction false} ReplayFrame(seen: map<SvId, real>, polls: seq<EphPoll>, sv: SvId)
    requires !PolledIn(polls, sv)
    ensures sv in Replay(seen, polls) <==> sv in seen
    ensures sv in seen ==> Replay(seen, polls)[sv] == seen[sv]
    decreases |polls|
  {
    if polls != [] {
      var init := polls[..|polls| - 1];
      assert forall k :: 0 <= k < |init| ==> init[k] == polls[k];
      ReplayFrame(seen, init, sv);
    }
  }

  /** A polled satellite's entry is the time of its last poll. */
  lemma {:induction false} ReplayLastPoll(seen: map<SvId, real>, polls: seq<EphPoll>, k: nat)
    requires k < |polls|
    requires forall j :: k < j < |polls| ==> polls[j].sv != polls[k].sv
    ensures polls[k].sv in Replay(seen, polls) && Replay(seen, polls)[polls[k].sv] == polls[k].at
    decreases |polls|
  {
    if k < |polls| - 1 {
      var init := polls[..|polls| - 1];
      assert init[k] == polls[k];
      ReplayLastPoll(seen, init, k);
    }
  }

  /**
   * Frame of one message: entries of satellites that got no poll (those not
   * in the message, and those every record of which was skipped) are
   * unchanged, and so is the absence of an entry. Entries are never removed
   * (`ScanRecords` states that one).
   */
  lemma {:induction false} ScanFrame(seen: map<SvId, real>, ephemeris: map<SvId, real>,
                                     recs: seq<SvId>, times: seq<real>, sv: SvId)
    requires |times| == |recs|
    requires !PolledIn(ScanRecords(seen, ephemeris, recs, times).polls, sv)
    ensures Lookup(ScanRecords(seen, ephemeris, recs, times).seen, sv) == Lookup(seen, sv)
  {
    var r := ScanRecords(seen, ephemeris, recs, times);
    ScanSeenIsReplay(seen, ephemeris, recs, times);
    ReplayFrame(seen, r.polls, sv);
  }

  /** A polled satellite's entry after one message is the time of its last poll in the message. */
  lemma {:induction false} ScanLastPoll(seen: map<SvId, real>, ephemeris: map<SvId, real>,
                                        recs: seq<SvId>, times: seq<real>, k: nat)
    requires |times| == |recs|
    requires var r := ScanRecords(seen, ephemeris, recs, times);
      k < |r.polls| && forall j :: k < j < |r.polls| ==> r.polls[j].sv != r.polls[k].sv
    ensures var r := ScanRecords(seen, ephemeris, recs, times);
      Lookup(r.seen, r.polls[k].sv) == Some(r.polls[k].at)
  {
    var r := ScanRecords(seen, ephemeris, recs, times);
    ScanSeenIsReplay(seen, ephemeris, recs, times);
    ReplayLastPoll(seen, r.polls, k);
  }

  /** A satellite missing from the message is never polled. */
  lemma {:induction false} AbsentSatelliteNotPolled(seen: map<SvId, real>, ephemeris: map<SvId, real>,
                                                    recs: seq<SvId>, times: seq<real>, sv: SvId)
    requires |times| == |recs|
    requires sv !in recs
    ensures !PolledIn(ScanRecords(seen, ephemeris, recs, times).polls, sv)
  {
    var r := ScanRecords(seen, ephemeris, recs, times);
    ScanBounds(seen, ephemeris, recs, times);
    assert forall k :: 0 <= k < |r.polls| ==> r.polls[k].sv != sv;
  }

  /**
   * The ephemeris-age skip: a satellite whose ephemeris record is older than
   * the maximum age at every one of its records is never polled, so its
   * table entry is untouched.
   */
  lemma {:induction false} AgedSatelliteSkipped(seen: map<SvId, real>, ephemeris: map<SvId, real>,
                                                recs: seq<SvId>, times: seq<real>, sv: SvId)
    requires |times| == |recs|
    requires forall i :: 0 <= i < |recs| && recs[i] == sv ==> EphemerisAged(ephemeris, sv, times[i])
    ensures !PolledIn(ScanRecords(seen, ephemeris, recs, times).polls, sv)
    decreases |recs|
  {
    if recs != [] {
      var n := |recs| - 1;
      var prefix, ptimes := recs[..n], times[..n];
      forall i | 0 <= i < |prefix| && prefix[i] == sv
        ensures EphemerisAged(ephemeris, sv, ptimes[i])
      {
        assert recs[i] == prefix[i] && times[i] == ptimes[i];
      }
      AgedSatelliteSkipped(seen, ephemeris, prefix, ptimes, sv);
      var prev := ScanRecords(seen, ephemeris, prefix, ptimes);
      if PollDue(prev.seen, ephemeris, recs[n], times[n]) {
        assert recs[n] != sv;
        var ps := prev.polls + [EphPoll(recs[n], times[n])];
        forall k | 0 <= k < |ps|
          ensures ps[k].sv != sv
        {
          if k < |prev.polls| {
            assert ps[k] == prev.polls[k];
          }
        }
      }
    }
  }

  /**
   * Debounce across messages and within one: if the table covers every
   * earlier poll and the earlier polls are spaced, then after this message
   * the table still covers them all and all polls, old and new, are spaced.
   * No non-decreasing clock is needed: a poll is sent only after the
   * interval since the table's entry, which is at least the last poll's time.
   */
  lemma {:induction false} ScanKeepsSpacing(seen: map<SvId, real>, ephemeris: map<SvId, real>,
                                            recs: seq<SvId>, times: seq<real>, history: seq<EphPoll>)
    requires |times| == |recs|
    requires Covers(seen, history) && Spaced(history)
    ensures var r := ScanRecords(seen, ephemeris, recs, times);
      Covers(r.seen, history + r.polls) && Spaced(history + r.polls)
    decreases |recs|
  {
    if recs != [] {
      var n := |recs| - 1;
      var prev := ScanRecords(seen, ephemeris, recs[..n], times[..n]);
      ScanKeepsSpacing(seen, ephemeris, recs[..n], times[..n], history);
      var h := history + prev.polls;
      var sv, now := recs[n], times[n];
      if PollDue(prev.seen, ephemeris, sv, now) {
        var seen' := prev.seen[sv := now];
        var h' := h + [EphPoll(sv, now)];
        assert h' == history + (prev.polls + [EphPoll(sv, now)]);
        forall i | 0 <= i < |h| && h[i].sv == sv
          ensures now > h[i].at + PollInterval
        {
          assert h[i].at <= prev.seen[sv];
        }
        forall i | 0 <= i < |h'|
          ensures h'[i].sv in seen' && h'[i].at <= seen'[h'[i].sv]
        {
          if i < |h| {
            assert h'[i] == h[i];
          }
        }
        forall i, j | 0 <= i < j < |h'| && h'[i].sv == h'[j].sv
          ensures h'[j].at > h'[i].at + PollInterval
        {
          if j == |h| {
            assert h'[i] == h[i];
          } else {
            assert h'[i] == h[i] && h'[j] == h[j];
          }
        }
      }
    }
  }

  /**
   * Satellites seen for the first time, distinct within the message and with
   * no aged ephemeris record, are each polled exactly once, in message order.
   */
  lemma {:induction false} NewSatellitesPolledOnce(seen: map<SvId, real>, ephemeris: map<SvId, real>,
                                                   recs: seq<SvId>, times: seq<real>)
    requires |times| == |recs|
    requires forall i :: 0 <= i < |recs| ==> recs[i] !in seen && !EphemerisAged(ephemeris, recs[i], times[i])
    requires forall i, j :: 0 <= i < j < |recs| ==> recs[i] != recs[j]
    ensures var r := ScanRecords(seen, ephemeris, recs, times);
      |r.polls| == |recs| && forall i :: 0 <= i < |recs| ==> r.polls[i] == EphPoll(recs[i], times[i])
    decreases |recs|
  {
    if recs != [] {
      var n := |recs| - 1;
      var prefix, ptimes := recs[..n], times[..n];
      forall i | 0 <= i < n
        ensures prefix[i] !in seen && !EphemerisAged(ephemeris, prefix[i], ptimes[i])
        ensures prefix[i] != recs[n]
      {
        assert prefix[i] == recs[i] && ptimes[i] == times[i];
      }
      forall i, j | 0 <= i < j < n
        ensures prefix[i] != prefix[j]
      {
        assert prefix[i] == recs[i] && prefix[j] == recs[j];
      }
      NewSatellitesPolledOnce(seen, ephemeris, prefix, ptimes);
      var prev := ScanRecords(seen, ephemeris, prefix, ptimes);
      ScanBounds(seen, ephemeris, prefix, ptimes);
      assert recs[n] !in prefix;
      assert recs[n] !in prev.seen;
      assert PollDue(prev.seen, ephemeris, recs[n], times[n]);
      var r := ScanRecords(seen, ephemeris, recs, times);
      assert r.polls == prev.polls + [EphPoll(recs[n], times[n])];
      forall i | 0 <= i < n
        ensures prev.polls[i] == EphPoll(recs[i], times[i])
      {
        assert prefix[i] == recs[i] && ptimes[i] == times[i];
      }
      AppendedPollMatches(prev.polls, recs, times);
    }
  }

  lemma AppendedPollMatches(polls: seq<EphPoll>, recs: seq<SvId>, times: seq<real>)
    requires |times| == |recs| == |polls| + 1
    requires forall i :: 0 <= i < |polls| ==> polls[i] == EphPoll(recs[i], times[i])
    ensures var all := polls + [EphPoll(recs[|polls|], times[|polls|])];
      forall i :: 0 <= i < |recs| ==> all[i] == EphPoll(recs[i], times[i])
  {
  }

  /** The polls sent for a prefix of the records are a prefix of the polls sent for all of them. */
  lemma {:induction false} ScanPrefix(seen: map<SvId, real>, ephemeris: map<SvId, real>,
                                      recs: seq<SvId>, times: seq<real>, i: nat)
    requires |times| == |recs| && i <= |recs|
    ensures ScanRecords(seen, ephemeris, recs[..i], times[..i]).polls
         <= ScanRecords(seen, ephemeris, recs, times).polls
    decreases |recs|
  {
    if i < |recs| {
      var n := |recs| - 1;
      assert recs[..n][..i] == recs[..i] && times[..n][..i] == times[..i];
      ScanPrefix(seen, ephemeris, recs[..n], times[..n], i);
      var p := ScanRecords(seen, ephemeris, recs[..i], times[..i]).polls;
      var prev := ScanRecords(seen, ephemeris, recs[..n], times[..n]).polls;
      var all := ScanRecords(seen, ephemeris, recs, times).polls;
      assert prev <= all;
      assert p <= prev;
    } else {
      assert recs[..i] == recs && times[..i] == times;
    }
  }

  /**
   * The poll rule, "due implies polled": a record whose satellite is due
   * against the table the earlier records left gets its poll, at that
   * record's clock reading.
   */
  lemma DuePollIssued(seen: map<SvId, real>, ephemeris: map<SvId, real>,
                      recs: seq<SvId>, times: seq<real>, i: nat)
    requires |times| == |recs| && i < |recs|
    requires PollDue(ScanRecords(seen, ephemeris, recs[..i], times[..i]).seen, ephemeris, recs[i], times[i])
    ensures EphPoll(recs[i], times[i]) in ScanRecords(seen, ephemeris, recs, times).polls
  {
    ScanStep(seen, ephemeris, recs, times, i);
    ScanPrefix(seen, ephemeris, recs, times, i + 1);
    var p := ScanRecords(seen, ephemeris, recs[..i + 1], times[..i + 1]).polls;
    assert p[|p| - 1] == EphPoll(recs[i], times[i]);
  }

  /**
   * The poll rule, "polled implies due": every poll of a message comes from
   * one of its records, at that record's reading, and that record's
   * satellite was due against the table the earlier records left.
   */
  lemma {:induction false} PollSource(seen: map<SvId, real>, ephemeris: map<SvId, real>,
                                      recs: seq<SvId>, times: seq<real>, k: nat)
      returns (i: nat)
    requires |times| == |recs|
    requires k < |ScanRecords(seen, ephemeris, recs, times).polls|
    ensures i < |recs| && ScanRecords(seen, ephemeris, recs, times).polls[k] == EphPoll(recs[i], times[i])
    ensures PollDue(ScanRecords(seen, ephemeris, recs[..i], times[..i]).seen, ephemeris, recs[i], times[i])
    decreases |recs|
  {
    var n := |recs| - 1;
    var prev := ScanRecords(seen, ephemeris, recs[..n], times[..n]);
    var all := ScanRecords(seen, ephemeris, recs, times).polls;
    if k < |prev.polls| {
      assert all[k] == prev.polls[k] by {
        assert prev.polls <= all;
      }
      i := PollSource(seen, ephemeris, recs[..n], times[..n], k);
      assert recs[..n][..i] == recs[..i] && times[..n][..i] == times[..i];
      assert recs[..n][i] == recs[i] && times[..n][i] == times[i];
    } else {
      assert PollDue(prev.seen, ephemeris, recs[n], times[n]) && all == prev.polls + [EphPoll(recs[n], times[n])];
      i := n;
    }
  }

  /**
   * As written, a recent ephemeris record does not suppress a poll: a record
   * whose satellite has an ephemeris at most 1800 s old, and whose last
   * poll is more than 30 s back (or absent), is polled.
   */
  lemma FreshEphemerisStillPolled(seen: map<SvId, real>, ephemeris: map<SvId, real>,
                                  recs: seq<SvId>, times: seq<real>, i: nat)
    requires |times| == |recs| && i < |recs|
    requires Debounced(ScanRecords(seen, ephemeris, recs[..i], times[..i]).seen, recs[i], times[i])
    requires recs[i] in ephemeris && ephemeris[recs[i]] + EphemerisMaxAge >= times[i]
    ensures EphPoll(recs[i], times[i]) in ScanRecords(seen, ephemeris, recs, times).polls
  {
    DuePollIssued(seen, ephemeris, recs, times, i);
  }

  /**
   * The reference receiver's poll table. `svidEphemeris` is the table of
   * ephemeris receive times that the age test reads; the script creates it
   * empty and nothing here writes it. `polls` is the AID_EPH traffic sent
   * to the reference receiver, in order.
   */
  class Scheduler {
    var svidSeen: map<SvId, real>
    var svidEphemeris: map<SvId, real>
    var polls: seq<EphPoll>

    ghost predicate Valid()
      reads this
    {
      Covers(svidSeen, polls) && Spaced(polls)
    }

    constructor ()
      ensures Valid()
      ensures svidSeen == map[] && svidEphemeris == map[] && polls == []
    {
      svidSeen := map[];
      svidEphemeris := map[];
      polls := [];
    }

    /** Handles the records of one raw-observation message; `times[i]` is read for `recs[i]`. */
    method HandleRxmRaw(recs: seq<SvId>, times: seq<real>)
      requires Valid()
      requires |times| == |recs|
      modifies this
      ensures Valid()
      ensures svidEphemeris == old(svidEphemeris)
      ensures var r := ScanRecords(old(svidSeen), svidEphemeris, recs, times);
        svidSeen == r.seen && polls == old(polls) + r.polls
    {
      var i := 0;
      while i < |recs|
        invariant 0 <= i <= |recs|
        invariant svidEphemeris == old(svidEphemeris)
        invariant var r := ScanRecords(old(svidSeen), svidEphemeris, recs[..i], times[..i]);
          svidSeen == r.seen && polls == old(polls) + r.polls
      {
        ScanStep(old(svidSeen), svidEphemeris, recs, times, i);
        ghost var prev := ScanRecords(old(svidSeen), svidEphemeris, recs[..i], times[..i]);
        var sv := recs[i];
        var now := times[i];
        if sv !in svidSeen || now > svidSeen[sv] + PollInterval {
          if sv in svidEphemeris && svidEphemeris[sv] + EphemerisMaxAge < now {
            i := i + 1;
            continue;
          }
          assert PollDue(prev.seen, svidEphemeris, sv, now);
          polls := polls + [EphPoll(sv, now)];
          svidSeen := svidSeen[sv := now];
          assert polls == old(polls) + (prev.polls + [EphPoll(sv, now)]);
        }
        i := i + 1;
      }
      assert recs[..i] == recs && times[..i] == times;
      ScanKeepsSpacing(old(svidSeen), svidEphemeris, recs, times, old(polls));
    }
  }
}
