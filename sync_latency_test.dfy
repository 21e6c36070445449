/**
 * The DrumBot/MechBass synchronisation test
 * (python_tools/drumbot_mechsync_latency_test.py): play crossed note pairs
 * on two MIDI players, log one oracle time per pair, and reduce the
 * detector's onsets to per-pair offsets from the oracle.
 */
module SyncLatencyTest {
  import opened Helpers

  /** Passes over the note list. */
  const REPETITIONS: nat := 5
  /** Batch width of `display`: one `note_factory` sequence. */
  const DISPLAY_BATCH: nat := 14 * 2 + 1

  /** The note list `r` times over. */
  function Repeat(notes: seq<(int, int)>, r: nat): seq<(int, int)>
  {
    if r == 0 then [] else Repeat(notes, r - 1) + notes
  }

  lemma {:induction false} RepeatLength(notes: seq<(int, int)>, r: nat)
    ensures |Repeat(notes, r)| == r * |notes|
  {
    if r > 0 {
      RepeatLength(notes, r - 1);
      MulStep(r, |notes|);
    }
  }

  /** The note pairs in playing order. */
  function Schedule(notes: seq<(int, int)>): seq<(int, int)>
  {
    Repeat(notes, REPETITIONS)
  }

  lemma MulStep(k: nat, n: nat)
    requires k > 0
    ensures (k - 1) * n + n == k * n
  {
  }

  /** The pair played `idx`-th in pass `rep` sits at `rep * |notes| + idx`. */
  lemma {:induction false} RepeatAt(notes: seq<(int, int)>, r: nat, rep: nat, idx: nat)
    requires rep < r && idx < |notes|
    ensures rep * |notes| + idx < |Repeat(notes, r)|
    ensures Repeat(notes, r)[rep * |notes| + idx] == notes[idx]
  {
    var n := |notes|;
    MulStep(rep + 1, n);
    MulStep(r, n);
    RepeatLength(notes, r - 1);
    if rep < r - 1 {
      RepeatAt(notes, r - 1, rep, idx);
    } else {
      assert Repeat(notes, r)[(r - 1) * n + idx] == notes[idx];
    }
  }

  /** Note-on, the way `play_note` builds it with its defaults. */
  function On(note: int): Message
  {
    Message(NoteOn, note, 0, 127)
  }

  /** Note-off, the way `play_note(note, False)` builds it. */
  function Off(note: int): Message
  {
    Message(NoteOff, note, 0, 127)
  }

  /** What the left player sends for a run of pairs: note-on of the first note, note-off of the second. */
  function LeftSends(s: seq<(int, int)>): (m: seq<Message>)
    ensures |m| == 2 * |s|
  {
    if |s| == 0 then [] else LeftSends(s[..|s| - 1]) + [On(s[|s| - 1].0), Off(s[|s| - 1].1)]
  }

  /** What the right player sends: note-on of the second note, note-off of the first. */
  function RightSends(s: seq<(int, int)>): (m: seq<Message>)
    ensures |m| == 2 * |s|
  {
    if |s| == 0 then [] else RightSends(s[..|s| - 1]) + [On(s[|s| - 1].1), Off(s[|s| - 1].0)]
  }

  /** The notes are crossed: for the `p`-th pair, each player releases the note the other one struck. */
  lemma {:induction false} CrossedRelease(s: seq<(int, int)>, p: nat)
    requires p < |s|
    ensures LeftSends(s)[2 * p] == On(s[p].0) && LeftSends(s)[2 * p + 1] == Off(s[p].1)
    ensures RightSends(s)[2 * p] == On(s[p].1) && RightSends(s)[2 * p + 1] == Off(s[p].0)
  {
    if p < |s| - 1 {
      CrossedRelease(s[..|s| - 1], p);
    }
  }

  /**
   * The clock: `clock(k)` is the `k`-th reading of `time.time()` during the
   * run. Each pair takes five readings: the two note-ons, the oracle, and
   * the two note-offs; `Reading(clock, p, k)` is reading `k` of pair `p`.
   */
  function Reading(clock: nat -> real, p: nat, k: nat): real
  {
    clock(5 * p + k)
  }

  /** The oracle log: one time per pair played. */
  function Oracle(clock: nat -> real, count: nat): (o: seq<real>)
    ensures |o| == count
  {
    if count == 0 then [] else Oracle(clock, count - 1) + [Reading(clock, count - 1, 2)]
  }

  /** The oracle holds one time per pair: the third clock reading of that pair. */
  lemma {:induction false} OracleAt(clock: nat -> real, count: nat, p: nat)
    requires p < count
    ensures Oracle(clock, count)[p] == clock(5 * p + 2)
  {
    if p < count - 1 {
      OracleAt(clock, count - 1, p);
    }
  }

  /** The left player's note-on log for a run of pairs: each first note, stamped with its pair's first reading. */
  function LeftLog(s: seq<(int, int)>, clock: nat -> real): (log: seq<(Message, real)>)
    ensures |log| == |s|
  {
    if |s| == 0 then [] else LeftLog(s[..|s| - 1], clock) + [(On(s[|s| - 1].0), Reading(clock, |s| - 1, 0))]
  }

  /** The right player's note-on log: each second note, stamped with its pair's second reading. */
  function RightLog(s: seq<(int, int)>, clock: nat -> real): (log: seq<(Message, real)>)
    ensures |log| == |s|
  {
    if |s| == 0 then [] else RightLog(s[..|s| - 1], clock) + [(On(s[|s| - 1].1), Reading(clock, |s| - 1, 1))]
  }

  /** Only note-ons are logged, one per pair, with the time `play_note` read just before sending. */
  lemma {:induction false} LogsAt(s: seq<(int, int)>, clock: nat -> real, p: nat)
    requires p < |s|
    ensures LeftLog(s, clock)[p] == (On(s[p].0), clock(5 * p))
    ensures RightLog(s, clock)[p] == (On(s[p].1), clock(5 * p + 1))
  {
    if p < |s| - 1 {
      LogsAt(s[..|s| - 1], clock, p);
    }
  }

  predicate ValidNote(n: int)
  {
    0 <= n < 128
  }

  /**
   * What two players have sent and logged, and the oracle, after playing the
   * pairs `done`, given what they had sent and logged before.
   */
  predicate Records(sent: (seq<Message>, seq<Message>), logged: (seq<(Message, real)>, seq<(Message, real)>),
                    oracle: seq<real>, before: (seq<Message>, seq<Message>),
                    logs: (seq<(Message, real)>, seq<(Message, real)>), done: seq<(int, int)>, clock: nat -> real)
  {
    oracle == Oracle(clock, |done|) &&
    sent.0 == before.0 + LeftSends(done) && sent.1 == before.1 + RightSends(done) &&
    logged.0 == logs.0 + LeftLog(done, clock) && logged.1 == logs.1 + RightLog(done, clock)
  }

  ghost predicate Played(left: MidiPlayer, right: MidiPlayer, before: (seq<Message>, seq<Message>),
                         logs: (seq<(Message, real)>, seq<(Message, real)>), oracle: seq<real>,
                         done: seq<(int, int)>, clock: nat -> real)
    reads left, right
  {
    left.Valid() && right.Valid() &&
    Records((left.sent, right.sent), (left.notes, right.notes), oracle, before, logs, done, clock)
  }

  /** Playing one more pair extends every record by that pair's sends, log entries and oracle time. */
  lemma RecordsStep(sent: (seq<Message>, seq<Message>), logged: (seq<(Message, real)>, seq<(Message, real)>),
                    oracle: seq<real>, before: (seq<Message>, seq<Message>),
                    logs: (seq<(Message, real)>, seq<(Message, real)>), done: seq<(int, int)>, clock: nat -> real,
                    mNote: int, dNote: int)
    requires Records(sent, logged, oracle, before, logs, done, clock)
    ensures var p := |oracle|;
            Records((sent.0 + [On(mNote), Off(dNote)], sent.1 + [On(dNote), Off(mNote)]),
                    (logged.0 + [(On(mNote), Reading(clock, p, 0))], logged.1 + [(On(dNote), Reading(clock, p, 1))]),
                    oracle + [Reading(clock, p, 2)], before, logs, done + [(mNote, dNote)], clock)
  {
    var pair := (mNote, dNote);
    SendsStep(done, pair);
    LeftLogGrows(done, pair, clock);
    RightLogGrows(done, pair, clock);
    Grows(before.0, LeftSends(done), [On(mNote), Off(dNote)]);
    Grows(before.1, RightSends(done), [On(dNote), Off(mNote)]);
    Grows(logs.0, LeftLog(done, clock), [(On(mNote), Reading(clock, |done|, 0))]);
    Grows(logs.1, RightLog(done, clock), [(On(dNote), Reading(clock, |done|, 1))]);
  }

  /**
   * The playing loop of `test_latency_differences`: for every pair of every
   * pass, strike the first note on `left` and the second on `right`, log an
   * oracle time, then release them crossed.
   */
  method PlayPairs(left: MidiPlayer, right: MidiPlayer, notes: seq<(int, int)>, clock: nat -> real)
    returns (oracle: seq<real>)
    requires left != right && left.Valid() && right.Valid()
    requires forall k :: 0 <= k < |notes| ==> ValidNote(notes[k].0) && ValidNote(notes[k].1)
    modifies left, right
    ensures Played(left, right, old((left.sent, right.sent)), old((left.notes, right.notes)), oracle,
                   Schedule(notes), clock)
  {
    ghost var before := (left.sent, right.sent);
    ghost var logs := (left.notes, right.notes);
    oracle := [];
    for rep := 0 to REPETITIONS
      invariant Played(left, right, before, logs, oracle, Repeat(notes, rep), clock)
    {
      oracle := PlayPass(left, right, notes, clock, before, logs, oracle, Repeat(notes, rep));
    }
  }

  /** One pass over the note list, after the pairs `done` have been played. */
  method PlayPass(left: MidiPlayer, right: MidiPlayer, notes: seq<(int, int)>, clock: nat -> real,
                  ghost before: (seq<Message>, seq<Message>), ghost logs: (seq<(Message, real)>, seq<(Message, real)>),
                  oracle0: seq<real>, ghost done: seq<(int, int)>)
    returns (oracle: seq<real>)
    requires left != right && Played(left, right, before, logs, oracle0, done, clock)
    requires forall k :: 0 <= k < |notes| ==> ValidNote(notes[k].0) && ValidNote(notes[k].1)
    modifies left, right
    ensures Played(left, right, before, logs, oracle, done + notes, clock)
  {
    oracle := oracle0;
    assert done + notes[..0] == done;
    for idx := 0 to |notes|
      invariant Played(left, right, before, logs, oracle, done + notes[..idx], clock)
    {
      var (mNote, dNote) := notes[idx];
      ghost var sent := (left.sent, right.sent);
      ghost var logged := (left.notes, right.notes);
      RecordsStep(sent, logged, oracle, before, logs, done + notes[..idx], clock, mNote, dNote);
      PlayStep(left, right, mNote, dNote, |oracle|, clock);
      oracle := oracle + [Reading(clock, |oracle|, 2)];
      PrefixStep(done, notes, idx);
    }
    assert notes[..|notes|] == notes;
  }

  /** What each player sends grows by the next pair's note-on and crossed note-off. */
  lemma SendsStep(done: seq<(int, int)>, pair: (int, int))
    ensures LeftSends(done + [pair]) == LeftSends(done) + [On(pair.0), Off(pair.1)]
    ensures RightSends(done + [pair]) == RightSends(done) + [On(pair.1), Off(pair.0)]
  {
    assert (done + [pair])[..|done|] == done;
  }

  /** The left player's log grows by the next pair's first note and its first clock reading. */
  lemma LeftLogGrows(done: seq<(int, int)>, pair: (int, int), clock: nat -> real)
    ensures LeftLog(done + [pair], clock) == LeftLog(done, clock) + [(On(pair.0), Reading(clock, |done|, 0))]
  {
    var s := done + [pair];
    assert s[..|s| - 1] == done && s[|s| - 1] == pair;
  }

  /** The right player's log grows by the next pair's second note and its second clock reading. */
  lemma RightLogGrows(done: seq<(int, int)>, pair: (int, int), clock: nat -> real)
    ensures RightLog(done + [pair], clock) == RightLog(done, clock) + [(On(pair.1), Reading(clock, |done|, 1))]
  {
    var s := done + [pair];
    assert s[..|s| - 1] == done && s[|s| - 1] == pair;
  }

  lemma PrefixStep<T>(done: seq<T>, xs: seq<T>, idx: nat)
    requires idx < |xs|
    ensures done + xs[..idx + 1] == (done + xs[..idx]) + [xs[idx]]
  {
    assert xs[..idx + 1] == xs[..idx] + [xs[idx]];
  }

  lemma Grows<T>(a: seq<T>, b: seq<T>, c: seq<T>)
    ensures (a + b) + c == a + (b + c)
  {
  }

  /** One pair of the playing loop, the `p`-th of the run: strike both notes, then release them crossed. */
  method PlayStep(left: MidiPlayer, right: MidiPlayer, mNote: int, dNote: int, p: nat, clock: nat -> real)
    requires left != right && left.Valid() && right.Valid()
    requires ValidNote(mNote) && ValidNote(dNote)
    modifies left, right
    ensures left.Valid() && right.Valid()
    ensures left.sent == old(left.sent) + [On(mNote), Off(dNote)]
    ensures right.sent == old(right.sent) + [On(dNote), Off(mNote)]
    ensures left.notes == old(left.notes) + [(On(mNote), Reading(clock, p, 0))]
    ensures right.notes == old(right.notes) + [(On(dNote), Reading(clock, p, 1))]
  {
    Strike(left, Reading(clock, p, 0), mNote, Reading(clock, p, 3), dNote);
    Strike(right, Reading(clock, p, 1), dNote, Reading(clock, p, 4), mNote);
  }

  /** One player's part of a pair: the note-on of `on` at `onTime`, later the note-off of `off`. */
  method Strike(player: MidiPlayer, onTime: real, on: int, offTime: real, off: int)
    requires player.Valid() && ValidNote(on) && ValidNote(off)
    modifies player
    ensures player.Valid()
    ensures player.sent == old(player.sent) + [On(on), Off(off)]
    ensures player.notes == old(player.notes) + [(On(on), onTime)]
  {
    player.PlayNote(onTime, on);
    player.PlayNote(offTime, off, false);
  }

  /** One stereo buffer: each channel's piece energies and the clock reading its scan took. */
  datatype StereoBuffer = StereoBuffer(left: seq<real>, tsLeft: real, right: seq<real>, tsRight: real)

  /** Every buffer splits into the detector's number of pieces on both channels. */
  predicate Split(s: Settings, buffers: seq<StereoBuffer>)
  {
    forall k :: 0 <= k < |buffers| ==> |buffers[k].left| == s.chunks && |buffers[k].right| == s.chunks
  }

  /** The onsets one channel's `PeakState` collects over a run of buffers, from latch `st`. */
  function Detected(s: Settings, st: Latch, buffers: seq<StereoBuffer>, leftChannel: bool): Scan
    requires s.Valid() && Split(s, buffers)
  {
    if |buffers| == 0 then Scan(st, [])
    else
      var before := Detected(s, st, buffers[..|buffers| - 1], leftChannel);
      var last := buffers[|buffers| - 1];
      var r := if leftChannel then ScanFrom(s, last.left, last.tsLeft, 0, before.latch)
               else ScanFrom(s, last.right, last.tsRight, 0, before.latch);
      Scan(r.latch, before.onsets + r.onsets)
  }

  /** With a non-negative debounce window, a channel collects at most one onset per buffer. */
  lemma {:induction false} DetectedAtMostOnePerBuffer(s: Settings, st: Latch, buffers: seq<StereoBuffer>, leftChannel: bool)
    requires s.Valid() && s.peakDuration >= 0.0 && Split(s, buffers)
    ensures |Detected(s, st, buffers, leftChannel).onsets| <= |buffers|
  {
    if |buffers| > 0 {
      var before := Detected(s, st, buffers[..|buffers| - 1], leftChannel);
      var last := buffers[|buffers| - 1];
      DetectedAtMostOnePerBuffer(s, st, buffers[..|buffers| - 1], leftChannel);
      if leftChannel {
        AtMostOneOnset(s, last.left, last.tsLeft, 0, before.latch);
      } else {
        AtMostOneOnset(s, last.right, last.tsRight, 0, before.latch);
      }
    }
  }

  /** The detector `test_latency_differences` builds: the default settings. */
  const DETECTOR: Settings := Settings(16, 44100, 1.25, 0.050)

  /** A fresh default detector listening to a run of stereo buffers; the result is its `peaks`. */
  method Listen(buffers: seq<StereoBuffer>) returns (leftDelays: seq<real>, rightDelays: seq<real>)
    requires Split(DETECTOR, buffers)
    ensures leftDelays == Detected(DETECTOR, Latch(false, 0.0), buffers, true).onsets
    ensures rightDelays == Detected(DETECTOR, Latch(false, 0.0), buffers, false).onsets
  {
    var detector := new PeakDetector();
    for k := 0 to |buffers|
      invariant detector.Valid() && detector.settings == DETECTOR
      invariant fresh(detector.leftPeaks) && fresh(detector.rightPeaks)
      invariant var l := Detected(DETECTOR, Latch(false, 0.0), buffers[..k], true);
                detector.leftPeaks.peaks == l.onsets && detector.leftPeaks.CurrentLatch() == l.latch
      invariant var r := Detected(DETECTOR, Latch(false, 0.0), buffers[..k], false);
                detector.rightPeaks.peaks == r.onsets && detector.rightPeaks.CurrentLatch() == r.latch
    {
      var b := buffers[k];
      detector.OnBuffer(b.left, b.tsLeft, b.right, b.tsRight);
      assert buffers[..k + 1][..k] == buffers[..k];
    }
    assert buffers[..|buffers|] == buffers;
    leftDelays, rightDelays := detector.Peaks().0, detector.Peaks().1;
  }

  /** Python's `zip` of three lists: as long as the shortest. */
  function Zip3<A, B, C>(a: seq<A>, b: seq<B>, c: seq<C>): (z: seq<(A, B, C)>)
    ensures |z| <= |a| && |z| <= |b| && |z| <= |c|
    ensures |z| == |a| || |z| == |b| || |z| == |c|
    ensures forall i :: 0 <= i < |z| ==> z[i] == (a[i], b[i], c[i])
  {
    if |a| == 0 || |b| == 0 || |c| == 0 then []
    else [(a[0], b[0], c[0])] + Zip3(a[1..], b[1..], c[1..])
  }

  /** How `test_latency_differences` ends: the exit on a count mismatch, or the per-pair offsets. */
  datatype Outcome = Exited(leftLen: nat, rightLen: nat, oracleLen: nat) | Offsets(values: seq<(real, real)>)

  /**
   * The count gate and the reduction: unless both channels saw exactly one
   * onset per oracle time the run exits reporting the three counts;
   * otherwise each index yields both onsets' offsets from its oracle time.
   */
  function LatencyDifferences(leftDelays: seq<real>, rightDelays: seq<real>, oracle: seq<real>): (out: Outcome)
    ensures out.Offsets? <==> |leftDelays| == |rightDelays| == |oracle|
    ensures out.Exited? ==> out == Exited(|leftDelays|, |rightDelays|, |oracle|)
    ensures out.Offsets? ==>
              |out.values| == |oracle| &&
              forall i :: 0 <= i < |oracle| ==>
                leftDelays[i] == oracle[i] + out.values[i].0 && rightDelays[i] == oracle[i] + out.values[i].1
  {
    if !(|leftDelays| == |rightDelays| == |oracle|) then Exited(|leftDelays|, |rightDelays|, |oracle|)
    else
      var z := Zip3(leftDelays, rightDelays, oracle);
      Offsets(seq(|z|, i requires 0 <= i < |z| => (z[i].0 - z[i].2, z[i].1 - z[i].2)))
  }

  /**
   * A run that delivered fewer stereo buffers than pairs played cannot pass
   * the count gate: each buffer yields at most one onset per channel.
   */
  lemma TooFewBuffersExit(buffers: seq<StereoBuffer>, oracle: seq<real>)
    requires Split(DETECTOR, buffers) && |buffers| < |oracle|
    ensures LatencyDifferences(Detected(DETECTOR, Latch(false, 0.0), buffers, true).onsets,
                               Detected(DETECTOR, Latch(false, 0.0), buffers, false).onsets, oracle).Exited?
  {
    DetectedAtMostOnePerBuffer(DETECTOR, Latch(false, 0.0), buffers, true);
  }

  /**
   * `test_latency_differences`: a fresh detector listens while every pair is
   * played; `buffers` are the stereo buffers the audio stream delivered to it.
   */
  method TestLatencyDifferences(left: MidiPlayer, right: MidiPlayer, notes: seq<(int, int)>, clock: nat -> real,
                                buffers: seq<StereoBuffer>)
    returns (out: Outcome, oracle: seq<real>)
    requires left != right && left.Valid() && right.Valid()
    requires forall k :: 0 <= k < |notes| ==> ValidNote(notes[k].0) && ValidNote(notes[k].1)
    requires Split(DETECTOR, buffers)
    modifies left, right
    ensures Played(left, right, old((left.sent, right.sent)), old((left.notes, right.notes)), oracle,
                   Schedule(notes), clock)
    ensures out == LatencyDifferences(Detected(DETECTOR, Latch(false, 0.0), buffers, true).onsets,
                                      Detected(DETECTOR, Latch(false, 0.0), buffers, false).onsets, oracle)
  {
    oracle := PlayPairs(left, right, notes, clock);
    var leftDelays, rightDelays := Listen(buffers);
    out := LatencyDifferences(leftDelays, rightDelays, oracle);
  }

  function Alternating(base: int, n: nat): (s: seq<(int, int)>)
    ensures |s| == 2 * n
  {
    if n == 0 then [] else Alternating(base, n - 1) + [(base, 50), (base + n - 1, 50)]
  }

  /** `note_factory(base)`: `(base, 50)`, then `(base, 50), (base + i, 50)` for `i` in `0..14`. */
  function NoteFactory(base: int): (s: seq<(int, int)>)
    ensures |s| == DISPLAY_BATCH
  {
    [(base, 50)] + Alternating(base, 14)
  }

  lemma {:induction false} AlternatingShape(base: int, n: nat)
    ensures forall i :: 0 <= i < n ==>
              Alternating(base, n)[2 * i] == (base, 50) && Alternating(base, n)[2 * i + 1] == (base + i, 50)
  {
    if n > 0 {
      AlternatingShape(base, n - 1);
    }
  }

  /**
   * `note_factory` yields one `display` batch: 29 pairs, the base note at
   * position 0 and at every odd position, the `i`-th fret above it at
   * position `2i + 2`, and always 50 as the second note.
   */
  lemma NoteFactoryShape(base: int)
    ensures NoteFactory(base)[0] == (base, 50)
    ensures forall i :: 0 <= i < 14 ==>
              NoteFactory(base)[2 * i + 1] == (base, 50) && NoteFactory(base)[2 * i + 2] == (base + i, 50)
    ensures forall k :: 0 <= k < DISPLAY_BATCH ==> NoteFactory(base)[k].1 == 50
  {
    AlternatingShape(base, 14);
    var f := NoteFactory(base);
    forall k | 0 <= k < DISPLAY_BATCH
      ensures f[k].1 == 50
    {
      if k > 0 {
        var i := (k - 1) / 2;
        assert k == 2 * i + 1 || k == 2 * i + 2;
      }
    }
  }

  /** `itertools.batched(xs, n)`: consecutive batches of `n`, the last possibly shorter. */
  function Batched<T>(xs: seq<T>, n: nat): seq<seq<T>>
    requires n > 0
    decreases |xs|
  {
    if |xs| == 0 then []
    else if |xs| <= n then [xs]
    else [xs[..n]] + Batched(xs[n..], n)
  }

  function Shortest<T>(batches: seq<seq<T>>): (m: nat)
    requires |batches| > 0
    ensures forall b :: 0 <= b < |batches| ==> m <= |batches[b]|
    ensures exists b :: 0 <= b < |batches| && m == |batches[b]|
  {
    if |batches| == 1 then |batches[0]|
    else
      var rest := Shortest(batches[1..]);
      assert forall b :: 1 <= b < |batches| ==> batches[1..][b - 1] == batches[b];
      if |batches[0]| <= rest then |batches[0]| else rest
  }

  /** `zip(*batches)`: row `j` takes the `j`-th element of every batch; as many rows as the shortest batch. */
  function Transposed<T>(batches: seq<seq<T>>): (rows: seq<seq<T>>)
    ensures |batches| > 0 ==> |rows| == Shortest(batches)
    ensures forall j :: 0 <= j < |rows| ==> |rows[j]| == |batches|
    ensures forall j, b :: 0 <= j < |rows| && 0 <= b < |batches| ==> j < |batches[b]| && rows[j][b] == batches[b][j]
  {
    if |batches| == 0 then []
    else
      var width := Shortest(batches);
      seq(width, j requires 0 <= j < width => seq(|batches|, b requires 0 <= b < |batches| => batches[b][j]))
  }

  /** The rows `display` prints. */
  function DisplayRows(values: seq<(real, real)>): seq<seq<(real, real)>>
  {
    Transposed(Batched(values, DISPLAY_BATCH))
  }

  /** Batching `29 * k` elements yields `k` full batches; element `j` of batch `b` is element `29 * b + j`. */
  lemma {:induction false} BatchedFull<T>(xs: seq<T>, k: nat)
    requires |xs| == 29 * k
    ensures |Batched(xs, 29)| == k
    ensures forall b :: 0 <= b < k ==> |Batched(xs, 29)[b]| == 29
    ensures forall b, j :: 0 <= b < k && 0 <= j < 29 ==> Batched(xs, 29)[b][j] == xs[29 * b + j]
    decreases k
  {
    var bs := Batched(xs, 29);
    if k == 1 {
      assert bs == [xs];
    } else if k > 1 {
      var rest := xs[29..];
      BatchedFull(rest, k - 1);
      assert bs == [xs[..29]] + Batched(rest, 29);
      forall b, j | 0 <= b < k && 0 <= j < 29
        ensures bs[b][j] == xs[29 * b + j]
      {
        if b > 0 {
          assert bs[b] == Batched(rest, 29)[b - 1];
        }
      }
    }
  }

  /**
   * When a run of `reps` passes over a `note_factory` list passed the count
   * gate, `display` prints 29 rows: row `j` holds pair `j`'s offsets from
   * every pass, in pass order.
   */
  lemma DisplayRowPerPair(values: seq<(real, real)>, reps: nat)
    requires reps > 0 && |values| == 29 * reps
    ensures |DisplayRows(values)| == 29
    ensures forall j, rep :: 0 <= j < 29 && 0 <= rep < reps ==>
              |DisplayRows(values)[j]| == reps && DisplayRows(values)[j][rep] == values[29 * rep + j]
  {
    BatchedFull(values, reps);
    var batches := Batched(values, DISPLAY_BATCH);
    var b :| 0 <= b < |batches| && Shortest(batches) == |batches[b]|;
  }

  /** Row `j` of the display belongs to the `j`-th pair of `note_factory` in every pass of the schedule. */
  lemma DisplayRowsFollowNoteFactory(base: int, rep: nat, j: nat)
    requires rep < REPETITIONS && j < DISPLAY_BATCH
    ensures |Schedule(NoteFactory(base))| == REPETITIONS * DISPLAY_BATCH
    ensures Schedule(NoteFactory(base))[29 * rep + j] == NoteFactory(base)[j]
  {
    RepeatLength(NoteFactory(base), REPETITIONS);
    RepeatAt(NoteFactory(base), REPETITIONS, rep, j);
  }
}
