/**
 * MechBass latency calibration (python_tools/mechbass/calibrate_latency.py):
 * a mono onset handler fed by the audio stream, the two-onset check of one
 * latency trial, the matrix of note pairs and the sweep that measures every
 * pair and collects the pairs whose trials fail.
 */
module CalibrateLatency {
  import opened Wrappers
  import opened Helpers

  const TUNING: seq<int> := [43, 38, 33, 28]
  const FRETS: int := 13
  const SAMPLE_RATE: nat := 44100
  const CHUNKS: nat := 16
  /** Milliseconds between the two notes of a trial. */
  const ORACLE_TIME: nat := 500
  /** Trials per note pair. */
  const SAMPLES: nat := 5

  /** The handler's fixed settings: 16 pieces at 44.1 kHz, threshold 2.5, 20 ms debounce. */
  const HANDLER: Settings := Settings(CHUNKS, SAMPLE_RATE, 2.5, 0.020)

  /** One audio buffer: the energy of each of its pieces, oldest first, and its arrival time. */
  datatype Buffer = Buffer(energies: seq<real>, ts: real)

  /**
   * The loop of `ImpulseHandler.__call__`, from the piece `i` places from the
   * newest on: the first piece inside the debounce window ends the scan; a
   * quiet piece clears the latch but keeps `last_peak`; a loud piece while
   * latched is passed over; otherwise it is an onset handed to the callback.
   */
  function ImpulseScan(energies: seq<real>, ts: real, i: nat, st: Latch): (r: Scan)
    requires i <= |energies|
    ensures |r.onsets| <= |energies| - i
    decreases |energies| - i
  {
    if i == |energies| then Scan(st, [])
    else
      var t := ChunkTime(HANDLER, ts, i);
      if t < st.lastPeak + HANDLER.peakDuration then Scan(st, [])
      else if Quiet(HANDLER, energies, i) then ImpulseScan(energies, ts, i + 1, Latch(false, st.lastPeak))
      else if st.triggered then ImpulseScan(energies, ts, i + 1, st)
      else
        var rest := ImpulseScan(energies, ts, i + 1, Latch(true, t));
        Scan(rest.latch, [t] + rest.onsets)
  }

  /**
   * At most one callback per buffer. With one, the latch holds it and it is
   * the back-dated time of a scanned piece; with none, `last_peak` is kept.
   */
  lemma {:induction false} ImpulseAtMostOne(energies: seq<real>, ts: real, i: nat, st: Latch)
    requires i <= |energies|
    ensures var r := ImpulseScan(energies, ts, i, st);
            |r.onsets| <= 1 &&
            (|r.onsets| == 1 ==>
               r.latch == Latch(true, r.onsets[0]) &&
               exists j :: i <= j < |energies| && r.onsets[0] == ChunkTime(HANDLER, ts, j)) &&
            (r.onsets == [] ==> r.latch.lastPeak == st.lastPeak)
    decreases |energies| - i
  {
    if i < |energies| {
      var t := ChunkTime(HANDLER, ts, i);
      if t < st.lastPeak + HANDLER.peakDuration {
      } else if Quiet(HANDLER, energies, i) {
        ImpulseAtMostOne(energies, ts, i + 1, Latch(false, st.lastPeak));
      } else if st.triggered {
        ImpulseAtMostOne(energies, ts, i + 1, st);
      } else if i + 1 < |energies| {
        ChunkTimeDecreases(HANDLER, ts, i, i + 1);
      }
    }
  }

  /**
   * The two detectors are not the same: after a quiet piece the stereo
   * detector has reset `last_peak` to 0 and accepts a loud piece that the
   * mono handler, still debouncing against the old `last_peak`, never reaches.
   */
  lemma SilenceHandlingDiffers()
    ensures var e := seq(16, k => if k == 14 then 3.0 else 0.0);
            var st := Latch(false, 1.0 - 0.020 - 20.0 / 44100.0);
            ImpulseScan(e, 1.0, 0, st).onsets == [] &&
            ScanFrom(HANDLER, e, 1.0, 0, st).onsets == [ChunkTime(HANDLER, 1.0, 1)]
  {
    var e := seq(16, k => if k == 14 then 3.0 else 0.0);
    var st := Latch(false, 1.0 - 0.020 - 20.0 / 44100.0);
    assert ChunkTime(HANDLER, 1.0, 0) == 1.0 - 16.0 / 44100.0;
    assert ChunkTime(HANDLER, 1.0, 1) == 1.0 - 32.0 / 44100.0;
    assert Quiet(HANDLER, e, 0) && !Quiet(HANDLER, e, 1);
    assert ImpulseScan(e, 1.0, 1, Latch(false, st.lastPeak)) == Scan(Latch(false, st.lastPeak), []);
    BurstTimestamp(HANDLER, e, 1.0, 0, 1, st);
  }

  /** The handler's state across a run of buffers: the latch and every onset, in order. */
  function Feed(st: Latch, buffers: seq<Buffer>): Scan
  {
    if |buffers| == 0 then Scan(st, [])
    else
      var before := Feed(st, buffers[..|buffers| - 1]);
      var last := buffers[|buffers| - 1];
      var r := ImpulseScan(last.energies, last.ts, 0, before.latch);
      Scan(r.latch, before.onsets + r.onsets)
  }

  /** A run of buffers yields at most one onset per buffer. */
  lemma {:induction false} FeedAtMostOnePerBuffer(st: Latch, buffers: seq<Buffer>)
    ensures |Feed(st, buffers).onsets| <= |buffers|
  {
    if |buffers| > 0 {
      var before := Feed(st, buffers[..|buffers| - 1]);
      var last := buffers[|buffers| - 1];
      FeedAtMostOnePerBuffer(st, buffers[..|buffers| - 1]);
      ImpulseAtMostOne(last.energies, last.ts, 0, before.latch);
    }
  }

  /** `ImpulseHandler`: the mono onset handler; `received` is what its callback has been given. */
  class ImpulseHandler {
    const sensitivity: real
    const peakDelay: real
    var triggered: bool
    var lastPeak: real
    /** Whether a callback is installed (`self.callback` is not `None`). */
    var hasCallback: bool
    /** The list the installed callback appends to. */
    var received: seq<real>

    ghost predicate Valid()
      reads this
    {
      sensitivity == HANDLER.sensitivity && peakDelay == HANDLER.peakDuration
    }

    function CurrentLatch(): Latch
      reads this
    {
      Latch(triggered, lastPeak)
    }

    constructor ()
      ensures Valid() && !triggered && lastPeak == 0.0 && !hasCallback && received == []
    {
      sensitivity := 2.5;
      peakDelay := 0.020;
      triggered := false;
      lastPeak := 0.0;
      hasCallback := false;
      received := [];
    }

    /** `__call__`: without a callback nothing happens; otherwise scan the buffer newest piece first. */
    method Call(energies: seq<real>, ts: real)
      requires Valid() && |energies| == CHUNKS
      modifies this
      ensures Valid() && hasCallback == old(hasCallback)
      ensures !old(hasCallback) ==> CurrentLatch() == old(CurrentLatch()) && received == old(received)
      ensures old(hasCallback) ==>
                var r := ImpulseScan(energies, ts, 0, old(CurrentLatch()));
                CurrentLatch() == r.latch && received == old(received) + r.onsets
    {
      if !hasCallback {
        return;
      }
      ghost var full := ImpulseScan(energies, ts, 0, CurrentLatch());
      ghost var appended: seq<real> := [];
      for i := 0 to CHUNKS
        invariant Valid() && hasCallback
        invariant received == old(received) + appended
        invariant var rest := ImpulseScan(energies, ts, i, CurrentLatch());
                  full == Scan(rest.latch, appended + rest.onsets)
      {
        ghost var before := CurrentLatch();
        var tsOffset := ts - (i + 1) as real * (CHUNKS as real / SAMPLE_RATE as real);
        assert tsOffset == ChunkTime(HANDLER, ts, i);
        if tsOffset < lastPeak + peakDelay {
          return;
        }
        var volume := energies[CHUNKS - 1 - i];
        if volume < sensitivity {
          triggered := false;
          assert ImpulseScan(energies, ts, i, before) == ImpulseScan(energies, ts, i + 1, CurrentLatch());
          continue;
        }
        if triggered {
          assert ImpulseScan(energies, ts, i, before) == ImpulseScan(energies, ts, i + 1, before);
          continue;
        }
        triggered := true;
        lastPeak := tsOffset;
        received := received + [tsOffset];
        ghost var rest := ImpulseScan(energies, ts, i + 1, CurrentLatch());
        assert ImpulseScan(energies, ts, i, before) == Scan(rest.latch, [tsOffset] + rest.onsets);
        assert appended + [tsOffset] + rest.onsets == appended + ([tsOffset] + rest.onsets);
        appended := appended + [tsOffset];
      }
    }
  }

  /** Why a trial fails: the wrong number of onsets, or any other exception. */
  datatype Failure = WrongNoteCount(found: seq<real>) | Raised(message: string)

  /** The result check of `test_latency`: exactly two onsets, else an error naming what was found. */
  function LatencyOf(notes: seq<real>): (r: Result<real, Failure>)
    ensures r.Ok? <==> |notes| == 2
    ensures r.Err? ==> r.error == WrongNoteCount(notes)
    ensures r.Ok? ==> notes[1] == notes[0] + ORACLE_TIME as real / 1000.0 + r.value
  {
    if |notes| != 2 then Err(WrongNoteCount(notes))
    else Ok((notes[1] - notes[0]) - ORACLE_TIME as real / 1000.0)
  }

  /**
   * `test_latency` from the moment the callback is installed: a fresh list
   * collects the onsets of the buffers that arrive while the two notes sound.
   */
  method TestLatency(h: ImpulseHandler, buffers: seq<Buffer>) returns (r: Result<real, Failure>)
    requires h.Valid() && forall k :: 0 <= k < |buffers| ==> |buffers[k].energies| == CHUNKS
    modifies h
    ensures h.Valid() && h.hasCallback
    ensures var f := Feed(old(h.CurrentLatch()), buffers);
            h.CurrentLatch() == f.latch && h.received == f.onsets
    ensures r == LatencyOf(h.received)
  {
    h.received := [];
    h.hasCallback := true;
    ghost var start := h.CurrentLatch();
    for k := 0 to |buffers|
      invariant h.Valid() && h.hasCallback
      invariant var f := Feed(start, buffers[..k]);
                h.CurrentLatch() == f.latch && h.received == f.onsets
    {
      h.Call(buffers[k].energies, buffers[k].ts);
      assert buffers[..k + 1][..k] == buffers[..k];
    }
    assert buffers[..|buffers|] == buffers;
    r := LatencyOf(h.received);
  }

  /** A trial succeeds only if at least two buffers arrived while the callback was installed. */
  lemma TooFewBuffersFail(st: Latch, buffers: seq<Buffer>)
    requires |buffers| < 2
    ensures LatencyOf(Feed(st, buffers).onsets).Err?
  {
    FeedAtMostOnePerBuffer(st, buffers);
  }

  /**
   * `dist`: how far apart two notes are along the string. `ratio(x)` is the
   * length ratio `2 ** (x / 12)` of a note `x` semitones below the open string.
   */
  function Dist(ratio: int -> real, lowest: int, first: int, second: int): (d: real)
    ensures d >= 0.0
    ensures first == second ==> d == 0.0
    ensures d == 0.0 <==> ratio(lowest - first) == ratio(lowest - second)
  {
    var dFirst := ratio(lowest - first);
    var dSecond := ratio(lowest - second);
    if dFirst >= dSecond then dFirst - dSecond else dSecond - dFirst
  }

  /** `dist` does not depend on the order of the two notes. */
  lemma DistSymmetric(ratio: int -> real, lowest: int, first: int, second: int)
    ensures Dist(ratio, lowest, first, second) == Dist(ratio, lowest, second, first)
  {
  }

  /** Lexicographic order on note pairs, as `sorted` orders tuples. */
  predicate PairLess(p: (int, int), q: (int, int))
  {
    p.0 < q.0 || (p.0 == q.0 && p.1 < q.1)
  }

  /** The test matrix: every ordered pair of the `FRETS + 1` notes from `lowest` up, sorted. */
  function Perms(lowest: int): (p: seq<(int, int)>)
    ensures |p| == (FRETS + 1) * (FRETS + 1)
  {
    seq((FRETS + 1) * (FRETS + 1), k requires 0 <= k => (lowest + k / (FRETS + 1), lowest + k % (FRETS + 1)))
  }

  /** A pair is in the matrix exactly when both notes are in `range(lowest, lowest + FRETS + 1)`. */
  lemma PermsMembership(lowest: int, first: int, second: int)
    ensures (first, second) in Perms(lowest) <==>
              lowest <= first < lowest + FRETS + 1 && lowest <= second < lowest + FRETS + 1
  {
    var p := Perms(lowest);
    var n := FRETS + 1;
    if lowest <= first < lowest + n && lowest <= second < lowest + n {
      var k := (first - lowest) * n + (second - lowest);
      assert 0 <= k < n * n;
      assert k / n == first - lowest && k % n == second - lowest;
      assert p[k] == (first, second);
    }
  }

  /** The matrix is strictly increasing, so it holds no pair twice. */
  lemma PermsSorted(lowest: int, i: nat, j: nat)
    requires i < j < |Perms(lowest)|
    ensures PairLess(Perms(lowest)[i], Perms(lowest)[j])
  {
    var n := FRETS + 1;
    assert i == n * (i / n) + i % n && j == n * (j / n) + j % n;
  }

  /** The pairs in the order the sweep visits them: the matrix reversed. */
  function Reversed<T>(s: seq<T>): (r: seq<T>)
    ensures |r| == |s| && forall k :: 0 <= k < |s| ==> r[k] == s[|s| - 1 - k]
  {
    if |s| == 0 then [] else [s[|s| - 1]] + Reversed(s[..|s| - 1])
  }

  /** One written CSV row: the pair, its latencies, their distance and the mean latency. */
  datatype Row = Row(first: int, second: int, latencies: seq<real>, distance: real, average: real)

  /** One entry of `errors`: the pair and the exception its trials raised. */
  datatype SweepError = SweepError(first: int, second: int, error: Failure)

  function Sum(xs: seq<real>): real
  {
    if |xs| == 0 then 0.0 else Sum(xs[..|xs| - 1]) + xs[|xs| - 1]
  }

  /** The first `k` trials of a pair all return a latency. */
  predicate Succeeds(trial: (int, int, nat) -> Result<real, Failure>, first: int, second: int, k: nat)
  {
    forall j :: 0 <= j < k ==> trial(first, second, j).Ok?
  }

  /**
   * The first `n` trials of a pair, stopping at the first that raises.
   * `trial(first, second, i)` is the outcome of the `i`-th `test_latency` call.
   */
  function RunSamples(trial: (int, int, nat) -> Result<real, Failure>, first: int, second: int, n: nat)
    : (r: Result<seq<real>, Failure>)
    ensures r.Ok? ==> |r.value| == n && forall i :: 0 <= i < n ==> trial(first, second, i) == Ok(r.value[i])
    ensures r.Err? ==> exists i :: 0 <= i < n && trial(first, second, i) == Err(r.error) && Succeeds(trial, first, second, i)
    ensures Succeeds(trial, first, second, n) ==> r.Ok?
  {
    if n == 0 then Ok([])
    else
      match RunSamples(trial, first, second, n - 1)
      case Err(e) => Err(e)
      case Ok(acc) =>
        match trial(first, second, n - 1)
        case Err(e) => Err(e)
        case Ok(l) => Ok(acc + [l])
  }

  /** Measure one pair: a row when all `SAMPLES` trials succeed, else the first exception. */
  function Measure(trial: (int, int, nat) -> Result<real, Failure>, ratio: int -> real, lowest: int, pair: (int, int))
    : (m: Result<Row, SweepError>)
    ensures m.Ok? <==> RunSamples(trial, pair.0, pair.1, SAMPLES).Ok?
    ensures m.Ok? ==> (m.value.first, m.value.second) == pair &&
                      m.value.latencies == RunSamples(trial, pair.0, pair.1, SAMPLES).value
    ensures m.Err? ==> (m.error.first, m.error.second) == pair &&
                       m.error.error == RunSamples(trial, pair.0, pair.1, SAMPLES).error
  {
    match RunSamples(trial, pair.0, pair.1, SAMPLES)
    case Ok(ls) => Ok(Row(pair.0, pair.1, ls, Dist(ratio, lowest, pair.0, pair.1), Sum(ls) / SAMPLES as real))
    case Err(e) => Err(SweepError(pair.0, pair.1, e))
  }

  /** The sweep over `pairs`: the rows written and the errors collected, each in visiting order. */
  function SweepSpec(trial: (int, int, nat) -> Result<real, Failure>, ratio: int -> real, lowest: int,
                     pairs: seq<(int, int)>): (seq<Row>, seq<SweepError>)
  {
    if |pairs| == 0 then ([], [])
    else
      var (rows, errors) := SweepSpec(trial, ratio, lowest, pairs[..|pairs| - 1]);
      match Measure(trial, ratio, lowest, pairs[|pairs| - 1])
      case Ok(row) => (rows + [row], errors)
      case Err(e) => (rows, errors + [e])
  }

  /** A failing pair never stops the sweep: every pair yields exactly one row or one error. */
  lemma {:induction false} SweepCounts(trial: (int, int, nat) -> Result<real, Failure>, ratio: int -> real,
                                       lowest: int, pairs: seq<(int, int)>)
    ensures var (rows, errors) := SweepSpec(trial, ratio, lowest, pairs);
            |rows| + |errors| == |pairs|
  {
    if |pairs| > 0 {
      SweepCounts(trial, ratio, lowest, pairs[..|pairs| - 1]);
    }
  }

  /**
   * Every row is for a visited pair whose trials all succeeded and holds their
   * latencies; every error is for a visited pair and carries the first
   * exception its trials raised.
   */
  lemma {:induction false} SweepSound(trial: (int, int, nat) -> Result<real, Failure>, ratio: int -> real,
                                      lowest: int, pairs: seq<(int, int)>)
    ensures var (rows, errors) := SweepSpec(trial, ratio, lowest, pairs);
            (forall r :: r in rows ==>
               (r.first, r.second) in pairs && RunSamples(trial, r.first, r.second, SAMPLES) == Ok(r.latencies)) &&
            (forall e :: e in errors ==>
               (e.first, e.second) in pairs && RunSamples(trial, e.first, e.second, SAMPLES) == Err(e.error))
  {
    if |pairs| > 0 {
      var init := pairs[..|pairs| - 1];
      SweepSound(trial, ratio, lowest, init);
      assert forall p :: p in init ==> p in pairs;
    }
  }

  /** Every visited pair shows up: its row when its trials succeed, its error when they fail. */
  lemma {:induction false} SweepComplete(trial: (int, int, nat) -> Result<real, Failure>, ratio: int -> real,
                                         lowest: int, pairs: seq<(int, int)>)
    ensures var (rows, errors) := SweepSpec(trial, ratio, lowest, pairs);
            forall p :: p in pairs ==>
              var m := Measure(trial, ratio, lowest, p);
              (m.Ok? ==> m.value in rows) && (m.Err? ==> m.error in errors)
  {
    if |pairs| > 0 {
      var init := pairs[..|pairs| - 1];
      SweepComplete(trial, ratio, lowest, init);
      forall p | p in pairs
        ensures p in init || p == pairs[|pairs| - 1]
      {
        var k :| 0 <= k < |pairs| && pairs[k] == p;
        if k < |pairs| - 1 {
          assert init[k] == p;
        }
      }
    }
  }

  /** The calibration sweep reaches all `(FRETS + 1)^2` pairs of channel 0. */
  lemma SweepCoversMatrix(trial: (int, int, nat) -> Result<real, Failure>, ratio: int -> real)
    ensures var (rows, errors) := SweepSpec(trial, ratio, TUNING[0], Reversed(Perms(TUNING[0])));
            |rows| + |errors| == 196
  {
    SweepCounts(trial, ratio, TUNING[0], Reversed(Perms(TUNING[0])));
  }

  /** One pass of the sweep's body: `SAMPLES` trials of a pair, or the first exception they raise. */
  method MeasurePair(trial: (int, int, nat) -> Result<real, Failure>, ratio: int -> real, lowest: int,
                     first: int, second: int)
    returns (m: Result<Row, SweepError>)
    ensures m == Measure(trial, ratio, lowest, (first, second))
  {
    var latencyAcc: seq<real> := [];
    for i := 0 to SAMPLES
      invariant RunSamples(trial, first, second, i) == Ok(latencyAcc)
    {
      var latency := trial(first, second, i);
      if latency.Err? {
        FailureIsFinal(trial, first, second, i + 1, SAMPLES);
        return Err(SweepError(first, second, latency.error));
      }
      latencyAcc := latencyAcc + [latency.value];
    }
    var distance := Dist(ratio, lowest, first, second);
    var avgLatency := Sum(latencyAcc) / SAMPLES as real;
    m := Ok(Row(first, second, latencyAcc, distance, avgLatency));
  }

  /** The sweep loop of the script, for channel 0: each pair in reverse order, `SAMPLES` trials each. */
  method Sweep(trial: (int, int, nat) -> Result<real, Failure>, ratio: int -> real)
    returns (rows: seq<Row>, errors: seq<SweepError>)
    ensures (rows, errors) == SweepSpec(trial, ratio, TUNING[0], Reversed(Perms(TUNING[0])))
  {
    var lowest := TUNING[0];
    var pairs := Reversed(Perms(lowest));
    rows, errors := [], [];
    for itt := 0 to |pairs|
      invariant (rows, errors) == SweepSpec(trial, ratio, lowest, pairs[..itt])
    {
      var m := MeasurePair(trial, ratio, lowest, pairs[itt].0, pairs[itt].1);
      assert pairs[..itt + 1][..itt] == pairs[..itt];
      match m {
        case Ok(row) => rows := rows + [row];
        case Err(e) => errors := errors + [e];
      }
    }
    assert pairs[..|pairs|] == pairs;
  }

  /** Once a trial has raised, running more trials keeps the same error. */
  lemma {:induction false} FailureIsFinal(trial: (int, int, nat) -> Result<real, Failure>, first: int, second: int,
                                          m: nat, n: nat)
    requires m <= n && RunSamples(trial, first, second, m).Err?
    ensures RunSamples(trial, first, second, n) == RunSamples(trial, first, second, m)
    decreases n - m
  {
    if m < n {
      FailureIsFinal(trial, first, second, m, n - 1);
    }
  }
}
