# Two-receiver DGPS field test: a Dafny model of the control core

`dgps_test.py` drives a differential-GPS field test. A reference receiver
(device 1) produces raw observations. From them the script computes a
position and generates RTCM v2 type 1 and type 3 corrections. The
corrections are written to `rtcm2.dat` and forwarded to a rover (device 2).
An optional second rover (device 3) runs without corrections. Each time
the corrected rover reports a position, the script prints how far the
receivers are from each other and from a known reference position, and
appends a row to `errlog.txt`.

This project models four parts of the script:

- **The ephemeris-poll scheduler** (`EphemerisScheduler`). For each
  satellite record of a raw-observation message, it decides whether to send
  an AID_EPH poll. A poll is sent unless the satellite was polled at most
  30 s ago, or unless an ephemeris record for it arrived more than 1800 s
  ago.
- **The message handlers** (`Dispatch`). They cover decoding and storing
  the reference receiver's messages, the scheduler call, and the correction
  fan-out (`CorrectionPipeline`). They also cover the corrected rover's
  position report (`Divergence`) and the uncorrected rover's position.
- **The stall watchdog** (`Watchdog`). With `--reopen`, a receiver that
  has been silent for more than 5 s is closed and set up again, with its log
  opened for appending. Its time of last message is then reset.
- **One pass of the main loop** (`MainLoop`). It polls the receivers in the
  order 1, 2, 3, handles each message, refreshes that receiver's time, and
  then runs the stall checks in the same order.

The modelling choices:

- **Imperative state becomes classes.** The script's global state becomes
  fields of `Scheduler`, `Router`, `Watchdog` and `DgpsTest`.
- **Outbound traffic becomes appended sequences.** This covers the AID_EPH
  polls, the correction file, the writes to the rover, the printed
  divergence lines, the error-log rows and the link close/open events.
- **Clock readings become parameters.** Every `time.time()` reading is a
  `real` parameter, one per reading, in the order the script takes them.
- **Library routines are uninterpreted functions.** The decoder's
  success, satellite aggregation, position estimation and the RTCM encoders
  are fields of the `Externals` datatype. Their results are not
  interpreted.
- **Uncaught exceptions become `Stop`.** An exception that the script
  does not catch ends its loop. The model returns `Stop(fault)` instead.

### Behaviour as written

The model follows the code wherever the code differs from what it evidently
means to do:

- **Ephemeris age.** The table holds ephemeris receive times, so the
  evident intent is to skip satellites whose ephemeris is fresh. The code
  instead skips a satellite whose
  ephemeris record is *older* than 1800 s (`dgps_test.py:144`). It still
  polls one with a recent record. `FreshEphemerisStillPolled` proves this
  for any record of any message. The script never fills `svid_ephemeris`, so in practice
  the test never fires. The model keeps the table and the test as they
  are written.
- **Decode failures.** They are caught only on the reference receiver
  (`dgps_test.py:166-171`). On the two rovers, `msg.unpack()` is called
  outside any handler (`dgps_test.py:185`, `188`, `223`), so a failure there
  ends the loop (`Stop(UnpackFailed(d))`).
- **Missing raw message.** The position estimate looks up
  `messages['RXM_RAW']` (`dgps_test.py:109`). That lookup fails when no
  raw-observation message ever decoded (`Stop(MissingRawMessage)`). This
  happens whenever the first raw message fails to decode.
- **Missing receiver position.** Once an averaged position exists, the
  rover report uses the reference receiver's position at once
  (`dgps_test.py:194`). If that position is still unset, the report fails
  (`Stop(MissingReceiverPosition)`).
- **The "RECV2<->AVG" line.** It prints the reference receiver's position
  against the average (`dgps_test.py:195`), not the rover's.
  `Divergence.Operands` records this.
- **The stored-name list.** It names RXM_RAW and NAV_POSECEF twice
  (`dgps_test.py:165`). Only membership matters (`Dispatch.Stored`).

## Model

| member | source | states |
|---|---|---|
| Common.Classify | dgps_test.py:165-222 | Each reported name has exactly one classification. The names the loop compares against get their own constructor, and every other name is carried verbatim. |
| Common.ClassifyWireName | dgps_test.py:165-222 | Classifying a message's reported name gives back that message's name, so no other name can pass for a known one. |
| EphemerisScheduler.ScanRecords | dgps_test.py:140-147 | The reference definition of the loop: the records are taken in order, and each is polled, with its own clock reading written into the table, exactly when its satellite is due against the table the earlier records left (not polled within the last 30 s, and no ephemeris record older than 1800 s). |
| EphemerisScheduler.ScanBounds | dgps_test.py:136-147 | A message never causes more polls than it has records. Table entries are never removed. Only satellites already in the table or named in the message have entries afterwards. Every poll is for a satellite named in the message. |
| EphemerisScheduler.ScanSeenIsReplay | dgps_test.py:143-147 | The poll table changes only by recording the polls sent: it equals the old table with each poll's time written in, in order. |
| EphemerisScheduler.ScanFrame | dgps_test.py:140-147 | A satellite that got no poll from this message keeps its exact entry, or its absence from the table. |
| EphemerisScheduler.ScanLastPoll | dgps_test.py:146-147 | A polled satellite's entry is the time of its last poll in the message. |
| EphemerisScheduler.ScanPrefix | dgps_test.py:140-147 | The polls sent for the first records of a message are a prefix of the polls sent for the whole message. |
| EphemerisScheduler.DuePollIssued | dgps_test.py:140-147 | Due implies polled: a record whose satellite is due against the table the earlier records left is polled at that record's clock reading. |
| EphemerisScheduler.PollSource | dgps_test.py:140-147 | Polled implies due: every poll comes from some record, at that record's reading, and that record's satellite was due against the table the earlier records left. |
| EphemerisScheduler.AbsentSatelliteNotPolled | dgps_test.py:140-146 | A satellite with no record in the message is not polled. |
| EphemerisScheduler.AgedSatelliteSkipped | dgps_test.py:144-145 | A satellite whose ephemeris record is older than 1800 s at each of its records' readings is never polled. |
| EphemerisScheduler.ScanKeepsSpacing | dgps_test.py:143-147 | Debounce across and within messages. If the table covers all earlier polls and those are spaced, then afterwards the table covers all polls, and any two polls of one satellite are more than 30 s apart. |
| EphemerisScheduler.NewSatellitesPolledOnce | dgps_test.py:140-147 | Consider distinct satellites absent from the table, none with an aged ephemeris record. Each is polled exactly once, in message order, at its own clock reading. |
| EphemerisScheduler.FreshEphemerisStillPolled | dgps_test.py:143-146 | For any record of any message: if its satellite's last poll is more than 30 s back or absent, and its ephemeris record is at most 1800 s old, the record is polled. The age test only suppresses old records. |
| EphemerisScheduler.Scheduler.constructor | dgps_test.py:132-134 | Both tables and the poll traffic start empty. |
| EphemerisScheduler.Scheduler.HandleRxmRaw | dgps_test.py:136-147 | The loop's new table and poll traffic are those of `ScanRecords`. Coverage and spacing of all polls so far are preserved (`Valid`). The ephemeris table is untouched. |
| CorrectionPipeline.Corrections | dgps_test.py:111-128 | The writes of one estimate: none without a fix; otherwise the type-1 payload, then the type-3 payload, each only when non-empty. |
| CorrectionPipeline.CorrectionsContent | dgps_test.py:111-128 | Without a fix, nothing is written. With a fix, the bytes written are the type-1 bytes followed by the type-3 bytes, as separate non-empty writes. The count of writes is the number of non-empty messages. |
| Divergence.RoverReport | dgps_test.py:191-218 | The report for a rover position: quiet without an average, a failure without a receiver position, else the printed lines and, when a reference exists, the error-log row against the uncorrected rover (else the reference receiver) and the corrected rover. |
| Divergence.FullLines | dgps_test.py:193-205 | The lines of a full report in print order: the four fixed comparisons, then the reference comparisons, the RTCM one and the uncorrected-rover one only when those positions exist. |
| Divergence.RoverReportShape | dgps_test.py:190-218 | No report while no average exists. It fails when an average exists but the receiver position does not. A full report prints exactly the labels its positions allow, in print order, each with the positions its caption pairs. It writes an error-log row exactly when a reference exists. The row measures the reference against the uncorrected rover, else the reference receiver, and against the corrected rover. |
| Dispatch.EstimateStep | dgps_test.py:105-130 | The estimate over a router state: a failure with the state unchanged when no raw message is stored, else the correction writes appended to the file and, unless forwarding is off, to the rover. |
| Dispatch.Device1Step | dgps_test.py:161-174 | The reference handler over a router state: a stored name that decodes is kept and aggregated; a raw-observation message then runs `ScanRecords` on the poll table and the estimate. |
| Dispatch.Device2Step | dgps_test.py:182-218 | The corrected rover's handler over a router state: an undecodable status or position message fails with the state unchanged; a position is stored, then `RoverReport` gives the lines, the row or the failure. |
| Dispatch.Device3Step | dgps_test.py:220-225 | The uncorrected rover's handler over a router state: an undecodable position message fails; a decodable one stores the uncorrected rover's position. |
| Dispatch.Router.constructor | dgps_test.py:153-159 | The aggregate starts with only the reference position and the thresholds. No message, write or report exists yet. |
| Dispatch.Router.WritePayload | dgps_test.py:116-128 | A non-empty payload is appended to the file. It is forwarded to the rover unless forwarding is off. An empty payload is dropped. |
| Dispatch.Router.PositionEstimate | dgps_test.py:105-130 | The whole new state is `EstimateStep` of the old one. The lookup of the raw message fails when none is stored; nothing is then written. Otherwise the file receives `Corrections`. The rover receives the same unless forwarding is off. The estimate is returned. |
| Dispatch.Router.HandleDevice1 | dgps_test.py:161-174 | The whole new state and outcome are `Device1Step` of the old state. A stored name that decodes is kept under its name and added to the aggregate; any other message changes neither. A raw-observation message runs the scheduler even when it did not decode, then the estimate. |
| Dispatch.Router.HandleDevice2 | dgps_test.py:182-218 | The whole new state and outcome are `Device2Step` of the old state. A status or position message that does not decode ends the loop. A position is stored as the corrected rover's, then `RoverReport` decides what is printed and logged, or the failure. |
| Dispatch.Router.HandleDevice3 | dgps_test.py:220-225 | The whole new state and outcome are `Device3Step` of the old state. A position message that does not decode ends the loop. Otherwise the uncorrected rover's position is stored and nothing else changes. |
| Watchdog.LinkStep | dgps_test.py:246-262 | With re-opening on, a receiver is re-opened exactly when the stall check comes more than 5 s after its latest message. A re-opened receiver's time is the reset reading; otherwise it is the time of its latest message. |
| Watchdog.RunLink | dgps_test.py:228-262 | The reference definition of a receiver's link over many iterations: one `LinkStep` per tick, collecting the readings of its re-opens. |
| Watchdog.RunLinkBounds | dgps_test.py:246-262 | Over any run, a receiver is re-opened at most once per iteration, and each re-open is at the reset reading of some iteration. |
| Watchdog.RunLinkExtend | dgps_test.py:228-262 | A run one iteration longer is the shorter run followed by one `LinkStep`. |
| Watchdog.ReopensSpaced | dgps_test.py:246-262 | Over any run with a non-decreasing clock, the receiver's time never moves back. Successive re-opens of one receiver are more than 5 s apart. |
| Watchdog.SilentLinkReopened | dgps_test.py:246-249 | A silent receiver, with re-opening on, is re-opened once a stall check comes more than 5 s after its time. |
| Watchdog.SilentNoReopenKeepsTime | dgps_test.py:230-249 | With re-opening on or off, a receiver that never returns a message and is never re-opened keeps its time. |
| Watchdog.ActiveLinkKept | dgps_test.py:230-249 | A receiver whose every stall check follows a message within 5 s is never re-opened. Its time is that of its latest message. |
| Watchdog.DisabledNeverReopens | dgps_test.py:246 | Without `--reopen`, no receiver is ever re-opened. |
| Watchdog.Watchdog.constructor | dgps_test.py:53-59 | The two receivers, and the third one only when a port is given, are opened without appending. It then records the three times of last message (`dgps_test.py:149-151`). |
| Watchdog.Watchdog.Touch | dgps_test.py:231-244 | Receiving a message sets that receiver's time to the reading after handling it. Nothing else changes. |
| Watchdog.Watchdog.CheckStall | dgps_test.py:246-262 | A stalled receiver is closed, set up again with its own port and log in append mode, and its time reset. Otherwise nothing changes. The new time and events are those of `LinkStep`. |
| Watchdog.Watchdog.CheckAll | dgps_test.py:246-262 | Stall checks run in the order 1, 2, 3, the third only if present. Each receiver's time and events follow `LinkStep`. |
| MainLoop.First | dgps_test.py:229-232 | The reference receiver's stage: its handler when the poll returned a message, else nothing. |
| MainLoop.Then2 | dgps_test.py:235-237 | The corrected rover's stage, skipped once the pass has failed or when its poll returned nothing. |
| MainLoop.Then3 | dgps_test.py:240-243 | The uncorrected rover's stage, skipped once the pass has failed, without that receiver, or when its poll returned nothing. |
| MainLoop.Pass | dgps_test.py:228-244 | The reference definition of a pass's handlers: stages 1, 2, 3, each on the state the previous one left; the first failure ends the pass with the state reached so far. |
| MainLoop.QuietPass | dgps_test.py:228-244 | A pass in which no receiver returned a message leaves the router state unchanged. |
| MainLoop.FirstFaults | dgps_test.py:161-174 | The reference receiver's handler fails only on a raw-observation message, and only because no raw message is stored. |
| MainLoop.Device2Faults | dgps_test.py:182-218 | The corrected rover's handler fails only on an undecodable status or position message, or on a position report without a receiver position. |
| MainLoop.Device3Faults | dgps_test.py:220-225 | The uncorrected rover's handler fails only on an undecodable position message. |
| MainLoop.PassFaultSource | dgps_test.py:228-244 | A failed pass names the handler the failure escaped from, and that receiver returned a message of the kind that can fail. |
| MainLoop.PassOnlyAppends | dgps_test.py:136-244 | A pass never fills the ephemeris table and never drops stored messages. All outbound traffic keeps what it had as a prefix: polls, correction file, rover writes, printed lines and error-log rows. |
| MainLoop.DgpsTest.constructor | dgps_test.py:53-159 | The start-up state: receivers opened, times read, and an initial aggregate. The router state is exactly that of no message, no poll, an empty poll table and ephemeris table, and no traffic. `Traced` holds with empty histories, and the watchdog's clock is the last start-up reading. |
| MainLoop.DgpsTest.Receive1 | dgps_test.py:229-233 | The reference receiver's message, if any, is handled (`First`), and then its time is refreshed unless the handler failed. |
| MainLoop.DgpsTest.Receive2 | dgps_test.py:235-238 | The corrected rover's message, if any, is handled, and then its time is refreshed unless the handler failed. |
| MainLoop.DgpsTest.Receive3 | dgps_test.py:240-244 | The uncorrected rover's message is handled only when that receiver is configured, and then its time is refreshed unless the handler failed. |
| MainLoop.DgpsTest.Deliver | dgps_test.py:228-244 | The router's new state and the outcome are `Pass`: handlers in the order 1, 2, 3, each on the state the previous one left, and the first failure ends the pass. Each receiver that returned a message has its time refreshed. No link event is added. |
| MainLoop.DgpsTest.Iterate | dgps_test.py:228-264 | A full pass. The router's new state is `Pass`. On a continuing pass, every receiver's time and link events are those of `LinkStep` over its tick, and each present receiver's history grows by that tick while `Traced` is kept. The watchdog's clock after a continuing pass is the last reset reading, so the next pass can start from it. A stopped pass adds no link events. |
| MainLoop.DgpsTest.Supervise | dgps_test.py:246-262 | The stall checks of a continuing pass follow `LinkStep` per receiver from its time before the handlers, and extend each receiver's trace by its tick. The clock they leave is the last reset reading taken. |
| MainLoop.PassReopens | dgps_test.py:246-262 | The re-opens a pass records for a receiver are exactly its own step's re-open, if any, and none for an absent receiver. |
| MainLoop.LinkTraceStep | dgps_test.py:228-262 | One more pass extends a receiver's trace: `RunLink` over the longer history gives the new time and the recorded re-opens. |
| MainLoop.TracedReopensSpaced | dgps_test.py:228-262 | After any number of passes that keep `Traced`, each receiver's time lies between its start-up time and the clock. It was re-opened at most once per pass, and its recorded re-opens are more than 5 s apart. |

## Left out

- Serial I/O and receiver set-up are not modelled. This covers `ublox.UBlox`, the port and message-rate configuration, the dynamic-model, DGPS-timeout and PPP settings and `receive_message_noerror`, which is modelled as a message or none. A re-open is a `Closed`/`Opened` event pair.
- A `setup_port` call that raises during a re-open (`dgps_test.py:248`, `254`, `260`) is not modelled: a re-open always succeeds.
- Option parsing is not modelled: the options are constructor parameters. `setup.py` is packaging and is not modelled.
- Floating-point arithmetic is not modelled. Distances are kept symbolic as `Distance`/`DistanceXY` of two positions. The centimetre scaling of `ecefX/Y/Z` (`* 0.01`) and `PosVector` are not modelled: a message carries its position directly.
- `util.ParseLLH`, `ToECEF` and `ToLLH` are not modelled; the reference position is a parameter.
- `satelliteData.add_message`, `positionEstimate` and the RTCM encoders are not part of this model. They appear as uninterpreted functions in `Externals`.
- `positionEstimate` is modelled as leaving the aggregate unchanged. So only `add_message` can set the average position or the RTCM position that the rover report reads.
- The text printed by `display_diff` and the other prints is left out, and so are the `R1`/`R2`/`R3` markers and flushes. Printed lines are `Line` values. The error-log header is the constant `Divergence.ErrLogHeader`.
- HandleDevice1: `add_message` raising `UBloxError` after the message was stored is not modelled. The model assumes the aggregation step succeeds.
- HandleDevice1: a raw message that failed to decode is still scheduled over its records. What the decoder leaves in such a message is not part of this model.
- The satellite count `numSV` is taken to be the number of records.
- The `while True` loop itself is not modelled: `MainLoop.DgpsTest.Iterate` is one pass. Its `Traced` invariant ties every pass so far to `RunLink` over each receiver's ticks. `MainLoop.TracedReopensSpaced` states what that gives after any number of passes.
- The poll payload (`struct.pack('<B', sv)`), the message classes and the receive timeouts are not modelled. A poll is `EphPoll(sv, at)`.
