/**
 * Measurement helpers (python_tools/helpers.py): the stereo onset detector
 * that turns audio buffers into onset timestamps, and the MIDI player that
 * logs the note-ons it sends.
 *
 * Each buffer is split into `chunks` pieces; the model receives the energy
 * (L2 norm) of every piece, oldest first, and the clock reading taken when
 * the buffer arrived.
 */
module Helpers {

  /** The per-channel latch of `PeakState`: inside an onset, and when the last onset was accepted. */
  datatype Latch = Latch(triggered: bool, lastPeak: real)

  /** What scanning one buffer does: the latch it leaves behind and the onsets it appends. */
  datatype Scan = Scan(latch: Latch, onsets: seq<real>)

  /** `PeakDetector.__init__` settings. */
  datatype Settings = Settings(chunks: nat, sampleRate: nat, sensitivity: real, peakDuration: real)
  {
    /** `np.array_split` needs at least one piece and the back-dating divides by the rate. */
    predicate Valid()
    {
      chunks > 0 && sampleRate > 0
    }
  }

  /** Back-dated timestamp of the piece `i` places from the newest (0 = newest). */
  function ChunkTime(s: Settings, ts: real, i: nat): real
    requires s.Valid()
  {
    ts - (i + 1) as real * (s.chunks as real / s.sampleRate as real)
  }

  /** Older pieces get strictly earlier timestamps. */
  lemma ChunkTimeDecreases(s: Settings, ts: real, i: nat, j: nat)
    requires s.Valid() && i < j
    ensures ChunkTime(s, ts, j) < ChunkTime(s, ts, i)
  {
    var w := s.chunks as real / s.sampleRate as real;
    assert w > 0.0;
    assert (j + 1) as real * w - (i + 1) as real * w == (j - i) as real * w;
  }

  /** The piece `i` places from the newest is below the sensitivity threshold. */
  predicate Quiet(s: Settings, energies: seq<real>, i: nat)
    requires i < |energies|
  {
    energies[|energies| - 1 - i] < s.sensitivity
  }

  /**
   * The loop of `find_peaks`, from the piece `i` places from the newest on:
   * a piece inside the debounce window is passed over; a quiet piece clears
   * the latch and resets `last_peak` to 0 (`False`); a loud piece while
   * latched is passed over; otherwise it is a new onset.
   */
  function ScanFrom(s: Settings, energies: seq<real>, ts: real, i: nat, st: Latch): Scan
    requires s.Valid() && i <= |energies|
    decreases |energies| - i
  {
    if i == |energies| then Scan(st, [])
    else
      var t := ChunkTime(s, ts, i);
      if t < st.lastPeak + s.peakDuration then ScanFrom(s, energies, ts, i + 1, st)
      else if Quiet(s, energies, i) then ScanFrom(s, energies, ts, i + 1, Latch(false, 0.0))
      else if st.triggered then ScanFrom(s, energies, ts, i + 1, st)
      else
        var rest := ScanFrom(s, energies, ts, i + 1, Latch(true, t));
        Scan(rest.latch, [t] + rest.onsets)
  }

  /**
   * Once a piece falls inside the debounce window, so does every older one:
   * the rest of the buffer changes nothing. The `continue` of the source
   * therefore acts as a `return`.
   */
  lemma {:induction false} SkipIsFinal(s: Settings, energies: seq<real>, ts: real, i: nat, st: Latch)
    requires s.Valid() && i < |energies|
    requires ChunkTime(s, ts, i) < st.lastPeak + s.peakDuration
    ensures ScanFrom(s, energies, ts, i, st) == Scan(st, [])
    decreases |energies| - i
  {
    if i + 1 < |energies| {
      ChunkTimeDecreases(s, ts, i, i + 1);
      SkipIsFinal(s, energies, ts, i + 1, st);
    }
  }

  /** Every appended onset is the back-dated timestamp of one of the scanned pieces. */
  lemma {:induction false} OnsetsAreChunkTimes(s: Settings, energies: seq<real>, ts: real, i: nat, st: Latch)
    requires s.Valid() && i <= |energies|
    ensures forall t :: t in ScanFrom(s, energies, ts, i, st).onsets ==>
              exists j :: i <= j < |energies| && t == ChunkTime(s, ts, j)
    decreases |energies| - i
  {
    if i < |energies| {
      var t := ChunkTime(s, ts, i);
      if t < st.lastPeak + s.peakDuration {
        OnsetsAreChunkTimes(s, energies, ts, i + 1, st);
      } else if Quiet(s, energies, i) {
        OnsetsAreChunkTimes(s, energies, ts, i + 1, Latch(false, 0.0));
      } else if st.triggered {
        OnsetsAreChunkTimes(s, energies, ts, i + 1, st);
      } else {
        OnsetsAreChunkTimes(s, energies, ts, i + 1, Latch(true, t));
      }
    }
  }

  /**
   * With a non-negative debounce window a buffer yields at most one onset;
   * after it the latch holds that onset, and every older piece lies inside
   * the window it opened.
   */
  lemma {:induction false} AtMostOneOnset(s: Settings, energies: seq<real>, ts: real, i: nat, st: Latch)
    requires s.Valid() && i <= |energies| && s.peakDuration >= 0.0
    ensures var r := ScanFrom(s, energies, ts, i, st);
            |r.onsets| <= 1 &&
            (|r.onsets| == 1 ==>
               r.latch == Latch(true, r.onsets[0]) &&
               exists j :: i <= j < |energies| && r.onsets[0] == ChunkTime(s, ts, j) &&
                 forall k :: j < k < |energies| ==> ChunkTime(s, ts, k) < r.onsets[0] + s.peakDuration)
    decreases |energies| - i
  {
    if i < |energies| {
      var t := ChunkTime(s, ts, i);
      if t < st.lastPeak + s.peakDuration {
        AtMostOneOnset(s, energies, ts, i + 1, st);
      } else if Quiet(s, energies, i) {
        AtMostOneOnset(s, energies, ts, i + 1, Latch(false, 0.0));
      } else if st.triggered {
        AtMostOneOnset(s, energies, ts, i + 1, st);
      } else {
        if i + 1 < |energies| {
          ChunkTimeDecreases(s, ts, i, i + 1);
          SkipIsFinal(s, energies, ts, i + 1, Latch(true, t));
        }
        forall k | i < k < |energies| ensures ChunkTime(s, ts, k) < t + s.peakDuration {
          ChunkTimeDecreases(s, ts, i, k);
        }
      }
    }
  }

  /** Debounce: while latched, a buffer that stays loud adds no onset and leaves the latch alone. */
  lemma {:induction false} SustainedOnsetAddsNothing(s: Settings, energies: seq<real>, ts: real, i: nat, st: Latch)
    requires s.Valid() && i <= |energies| && st.triggered
    requires forall j :: i <= j < |energies| ==> !Quiet(s, energies, j)
    ensures ScanFrom(s, energies, ts, i, st) == Scan(st, [])
    decreases |energies| - i
  {
    if i < |energies| {
      SustainedOnsetAddsNothing(s, energies, ts, i + 1, st);
    }
  }

  /**
   * A quiet buffer adds no onset; unless its newest piece is inside the
   * debounce window it leaves the latch cleared with `last_peak` at 0.
   */
  lemma {:induction false} QuietBufferAddsNothing(s: Settings, energies: seq<real>, ts: real, i: nat, st: Latch)
    requires s.Valid() && i <= |energies|
    requires forall j :: i <= j < |energies| ==> Quiet(s, energies, j)
    ensures var r := ScanFrom(s, energies, ts, i, st);
            r.onsets == [] && (r.latch == st || r.latch == Latch(false, 0.0)) &&
            (i < |energies| && ChunkTime(s, ts, i) >= st.lastPeak + s.peakDuration ==> r.latch == Latch(false, 0.0))
    decreases |energies| - i
  {
    if i < |energies| {
      if ChunkTime(s, ts, i) < st.lastPeak + s.peakDuration {
        SkipIsFinal(s, energies, ts, i, st);
      } else {
        QuietBufferAddsNothing(s, energies, ts, i + 1, Latch(false, 0.0));
      }
    }
  }

  /**
   * Sub-chunk resolution: when the pieces newer than piece `k` are quiet and
   * piece `k` is loud, the onset is stamped with piece `k`'s back-dated time
   * (provided the scan reaches it: the newest piece is outside the window and,
   * once `last_peak` has been reset to 0, so is piece `k`).
   */
  lemma {:induction false} BurstTimestamp(s: Settings, energies: seq<real>, ts: real, i: nat, k: nat, st: Latch)
    requires s.Valid() && i <= k < |energies| && s.peakDuration >= 0.0
    requires forall j :: i <= j < k ==> Quiet(s, energies, j)
    requires !Quiet(s, energies, k)
    requires ChunkTime(s, ts, i) >= st.lastPeak + s.peakDuration
    requires i == k ==> !st.triggered
    requires i < k ==> ChunkTime(s, ts, k) >= s.peakDuration
    ensures ScanFrom(s, energies, ts, i, st).onsets == [ChunkTime(s, ts, k)]
    decreases k - i
  {
    if i < k {
      if i + 1 < k {
        ChunkTimeDecreases(s, ts, i + 1, k);
      }
      BurstTimestamp(s, energies, ts, i + 1, k, Latch(false, 0.0));
    } else {
      var t := ChunkTime(s, ts, k);
      if k + 1 < |energies| {
        ChunkTimeDecreases(s, ts, k, k + 1);
        SkipIsFinal(s, energies, ts, k + 1, Latch(true, t));
      }
    }
  }

  /** `PeakDetector.PeakState`: one channel's onsets and latch. */
  class PeakState {
    var peaks: seq<real>
    var triggered: bool
    var lastPeak: real

    constructor ()
      ensures peaks == [] && !triggered && lastPeak == 0.0
    {
      peaks := [];
      triggered := false;
      lastPeak := 0.0;
    }

    function CurrentLatch(): Latch
      reads this
    {
      Latch(triggered, lastPeak)
    }
  }

  /** `PeakDetector`: a stereo onset detector, one `PeakState` per channel. */
  class PeakDetector {
    const leftPeaks: PeakState
    const rightPeaks: PeakState
    const settings: Settings

    ghost predicate Valid()
    {
      settings.Valid() && leftPeaks != rightPeaks
    }

    constructor (chunks: nat := 16, sampleRate: nat := 44100, sensitivity: real := 1.25, peakDuration: real := 0.050)
      requires chunks > 0 && sampleRate > 0
      ensures Valid() && fresh(leftPeaks) && fresh(rightPeaks)
      ensures settings == Settings(chunks, sampleRate, sensitivity, peakDuration)
      ensures leftPeaks.peaks == [] && !leftPeaks.triggered && leftPeaks.lastPeak == 0.0
      ensures rightPeaks.peaks == [] && !rightPeaks.triggered && rightPeaks.lastPeak == 0.0
    {
      leftPeaks := new PeakState();
      rightPeaks := new PeakState();
      settings := Settings(chunks, sampleRate, sensitivity, peakDuration);
    }

    /** `find_peaks`: scan one buffer's pieces newest first into `state`. */
    method FindPeaks(energies: seq<real>, ts: real, state: PeakState)
      requires Valid() && |energies| == settings.chunks
      modifies state
      ensures var r := ScanFrom(settings, energies, ts, 0, old(state.CurrentLatch()));
              state.peaks == old(state.peaks) + r.onsets && state.CurrentLatch() == r.latch
    {
      ghost var full := ScanFrom(settings, energies, ts, 0, state.CurrentLatch());
      ghost var appended: seq<real> := [];
      for i := 0 to settings.chunks
        invariant state.peaks == old(state.peaks) + appended
        invariant var rest := ScanFrom(settings, energies, ts, i, state.CurrentLatch());
                  full == Scan(rest.latch, appended + rest.onsets)
      {
        ghost var before := state.CurrentLatch();
        var tsOffset := ts - (i + 1) as real * (settings.chunks as real / settings.sampleRate as real);
        assert tsOffset == ChunkTime(settings, ts, i);
        if tsOffset < state.lastPeak + settings.peakDuration {
          assert ScanFrom(settings, energies, ts, i, before) == ScanFrom(settings, energies, ts, i + 1, before);
          continue;
        }
        var volume := energies[settings.chunks - 1 - i];
        if volume < settings.sensitivity {
          state.triggered := false;
          state.lastPeak := 0.0;
          assert ScanFrom(settings, energies, ts, i, before) == ScanFrom(settings, energies, ts, i + 1, state.CurrentLatch());
          continue;
        }
        if state.triggered {
          assert ScanFrom(settings, energies, ts, i, before) == ScanFrom(settings, energies, ts, i + 1, before);
          continue;
        }
        state.triggered := true;
        state.lastPeak := tsOffset;
        state.peaks := state.peaks + [tsOffset];
        ghost var rest := ScanFrom(settings, energies, ts, i + 1, state.CurrentLatch());
        assert ScanFrom(settings, energies, ts, i, before) == Scan(rest.latch, [tsOffset] + rest.onsets);
        assert appended + [tsOffset] + rest.onsets == appended + ([tsOffset] + rest.onsets);
        appended := appended + [tsOffset];
      }
    }

    /** `on_buffer`: the left buffer, then the right one, each against its own state. */
    method OnBuffer(left: seq<real>, tsLeft: real, right: seq<real>, tsRight: real)
      requires Valid() && |left| == settings.chunks && |right| == settings.chunks
      modifies leftPeaks, rightPeaks
      ensures var l := ScanFrom(settings, left, tsLeft, 0, old(leftPeaks.CurrentLatch()));
              leftPeaks.peaks == old(leftPeaks.peaks) + l.onsets && leftPeaks.CurrentLatch() == l.latch
      ensures var r := ScanFrom(settings, right, tsRight, 0, old(rightPeaks.CurrentLatch()));
              rightPeaks.peaks == old(rightPeaks.peaks) + r.onsets && rightPeaks.CurrentLatch() == r.latch
    {
      FindPeaks(left, tsLeft, leftPeaks);
      FindPeaks(right, tsRight, rightPeaks);
    }

    /** `peaks`: both channels' onsets. */
    function Peaks(): (p: (seq<real>, seq<real>))
      reads this, leftPeaks, rightPeaks
      ensures p.0 == leftPeaks.peaks && p.1 == rightPeaks.peaks
    {
      (leftPeaks.peaks, rightPeaks.peaks)
    }
  }

  /** A MIDI message as `mido.Message` builds it. */
  datatype MessageKind = NoteOn | NoteOff
  datatype Message = Message(kind: MessageKind, note: int, channel: int, velocity: int)

  /** The note-on messages of a send history, in order. */
  function NoteOns(sent: seq<Message>): (ons: seq<Message>)
    ensures forall m :: m in ons ==> m in sent && m.kind == NoteOn
    ensures |ons| <= |sent|
  {
    if |sent| == 0 then []
    else NoteOns(sent[..|sent| - 1]) + (if sent[|sent| - 1].kind == NoteOn then [sent[|sent| - 1]] else [])
  }

  /** The messages of a note log, in order. */
  function Logged(notes: seq<(Message, real)>): seq<Message>
  {
    if |notes| == 0 then [] else Logged(notes[..|notes| - 1]) + [notes[|notes| - 1].0]
  }

  /** `MidiPlayer`: sends to one output port and logs each note-on with its send time. */
  class MidiPlayer {
    var sent: seq<Message>
    var notes: seq<(Message, real)>

    /** The log holds exactly the note-ons sent, in order. */
    ghost predicate Valid()
      reads this
    {
      Logged(notes) == NoteOns(sent)
    }

    constructor ()
      ensures Valid() && sent == [] && notes == []
    {
      sent := [];
      notes := [];
    }

    /** `play_note`: send a note-on (or a note-off) and log it, with `now`, only if it is a note-on. */
    method PlayNote(now: real, note: int, play: bool := true, channel: int := 0, velocity: int := 127)
      requires Valid() && 0 <= note < 128 && 0 <= channel < 16 && 0 <= velocity < 128
      modifies this
      ensures Valid()
      ensures sent == old(sent) + [Message(if play then NoteOn else NoteOff, note, channel, velocity)]
      ensures notes == if play then old(notes) + [(Message(NoteOn, note, channel, velocity), now)] else old(notes)
    {
      var msg := Message(if play then NoteOn else NoteOff, note, channel, velocity);
      sent := sent + [msg];
      if play {
        notes := notes + [(msg, now)];
      }
      assert sent[..|sent| - 1] == old(sent);
      assert play ==> notes[..|notes| - 1] == old(notes);
    }
  }
}
