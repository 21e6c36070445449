/**
 * The MechBass routing node (src/instruments/mechbass.rs). Four strings
 * (channels) with fixed tunings; a sounding note-on is sent to a free string
 * that can reach it, preferring the one with the largest panning delay (the
 * one whose picker is closest), else a string is stolen. A release goes to the
 * string playing that note. Each string keeps one `PlayedNote` record. The
 * panics of the debug build (a `u8` or `Duration` subtraction that underflows)
 * are outcomes of `call`.
 */
module MechBassInstrument {
  import opened Wrappers
  import opened Data

  /** Open-string note of each channel, and the frets each string reaches above it. */
  const TUNING: seq<Byte> := [43, 38, 33, 28]
  const FRETS: Byte := 13

  /** The record kept per string; `delay` is a `Duration`, `ts` an `Instant` (both in clock ticks). */
  datatype PlayedNote = PlayedNote(playing: bool, note: Byte, delay: nat, ts: int)

  /** What one `call` does: nothing, forward one message after sleeping `after`, or panic. */
  datatype CallResult = Ignored | Forwarded(msg: MidiData, after: nat) | Panicked(reason: string)

  /** Panic message of a `u8` subtraction that underflows (debug build). */
  const SUBTRACT_OVERFLOW := "attempt to subtract with overflow"
  /** Panic message of a `Duration` subtraction whose result would be negative. */
  const DURATION_OVERFLOW := "overflow when subtracting durations"

  /** Channel `ch` can play `note`: it lies on that string's fretboard. */
  predicate Eligible(ch: nat, note: Byte)
    requires ch < 4
  {
    TUNING[ch] <= note && TUNING[ch] + FRETS > note
  }

  /** Every string's record holds a note at or above its tuning, so its last fret is never a `u8` underflow. */
  ghost predicate Tuned(s: seq<PlayedNote>)
  {
    |s| == 4 && forall ch :: 0 <= ch < 4 ==> TUNING[ch] <= s[ch].note
  }

  /**
   * `panning_delay(note, ch)`. `travel(a, b)` stands for
   * `Duration::from_secs_f32(time(note_distance(a, b)))`, in clock ticks: the
   * time the picker takes from fret `a` to fret `b`. `MAX_PAN_TIME` is
   * `travel(0, FRETS)`, the move across the whole fretboard. The delay is what
   * is left of `MAX_PAN_TIME` after this string's move from its last note to
   * `note`: a note below the tuning underflows the `u8` subtraction, and a move
   * that outlasts the whole-fretboard move underflows the `Duration` one.
   */
  function PanningDelay(travel: (Byte, Byte) -> nat, s: seq<PlayedNote>, note: Byte, ch: nat): (r: Result<nat, string>)
    requires Tuned(s) && ch < 4
    ensures note < TUNING[ch] ==> r == Err(SUBTRACT_OVERFLOW)
    ensures TUNING[ch] <= note ==>
              (r.Ok? <==> travel(s[ch].note - TUNING[ch], note - TUNING[ch]) <= travel(0, FRETS)) &&
              (r.Err? ==> r.error == DURATION_OVERFLOW)
    ensures r.Ok? ==> r.value + travel(s[ch].note - TUNING[ch], note - TUNING[ch]) == travel(0, FRETS)
  {
    if note < TUNING[ch] then Err(SUBTRACT_OVERFLOW)
    else
      var move := travel(s[ch].note - TUNING[ch], note - TUNING[ch]);
      if move <= travel(0, FRETS) then Ok(travel(0, FRETS) - move) else Err(DURATION_OVERFLOW)
  }

  /** String `ch` has a panning delay for `note`, is not playing, and will have finished its last move by the time it would start this one. */
  predicate Free(travel: (Byte, Byte) -> nat, s: seq<PlayedNote>, note: Byte, ch: nat, now: int)
    requires Tuned(s) && ch < 4
  {
    var d := PanningDelay(travel, s, note, ch);
    d.Ok? && !s[ch].playing && now + d.value > s[ch].ts + s[ch].delay
  }

  /** Ranking the strings that can reach `note` computes every such string's panning delay; none underflows. */
  ghost predicate Rankable(travel: (Byte, Byte) -> nat, s: seq<PlayedNote>, note: Byte)
    requires Tuned(s)
  {
    forall ch :: 0 <= ch < 4 && Eligible(ch, note) ==> PanningDelay(travel, s, note, ch).Ok?
  }

  ghost predicate SomeFree(travel: (Byte, Byte) -> nat, s: seq<PlayedNote>, note: Byte, now: int)
    requires Tuned(s)
  {
    exists ch :: 0 <= ch < 4 && Eligible(ch, note) && Free(travel, s, note, ch, now)
  }

  /** The string stolen when none is free: the lowest tuned at or below `note`, else the fallback string 0. */
  function StealTarget(note: Byte): (ch: nat)
    ensures ch < 4
    ensures note >= TUNING[3] ==> TUNING[ch] <= note && forall c :: 0 <= c < ch ==> TUNING[c] > note
    ensures note < TUNING[3] ==> ch == 0 && forall c :: 0 <= c < 4 ==> TUNING[c] > note
  {
    if TUNING[0] <= note then 0
    else if TUNING[1] <= note then 1
    else if TUNING[2] <= note then 2
    else if TUNING[3] <= note then 3
    else 0
  }

  /**
   * The outcome of `dispatch_channel`: a panic when ranking the strings that
   * can reach the note underflows; else the first free such string in
   * descending panning-delay order (so one whose delay is largest among them);
   * else the stolen string with its panning delay, or that delay's panic.
   */
  ghost predicate Dispatched(travel: (Byte, Byte) -> nat, s: seq<PlayedNote>, note: Byte, now: int,
                             r: Result<(nat, nat), string>)
    requires Tuned(s)
  {
    if !Rankable(travel, s, note) then r == Err(DURATION_OVERFLOW)
    else if SomeFree(travel, s, note, now) then
      r.Ok? && r.value.0 < 4 && Eligible(r.value.0, note) && Free(travel, s, note, r.value.0, now) &&
      PanningDelay(travel, s, note, r.value.0) == Ok(r.value.1) &&
      forall c :: 0 <= c < 4 && Eligible(c, note) && Free(travel, s, note, c, now) ==>
        PanningDelay(travel, s, note, c).value <= r.value.1
    else
      var ch := StealTarget(note);
      r == match PanningDelay(travel, s, note, ch)
           case Ok(d) => Ok((ch, d))
           case Err(e) => Err(e)
  }

  /** What a sounding note-on does, given the outcome of `dispatch_channel`: panic, or record and forward. */
  predicate Pressed(before: seq<PlayedNote>, after: seq<PlayedNote>, data: MidiData, now: int,
                    r: Result<(nat, nat), string>, out: CallResult)
  {
    match r
    case Err(e) => out == Panicked(e) && after == before
    case Ok((ch, delay)) =>
      ch < 4 && ch < |before| && after == before[ch := PlayedNote(true, data.note, delay, now)] &&
      out == Forwarded(data.(channel := ch as Byte), delay)
  }

  /** String `ch` is sounding `note`. */
  predicate Sounding(s: seq<PlayedNote>, note: Byte, ch: nat)
    requires ch < |s|
  {
    s[ch].playing && s[ch].note == note
  }

  class MechBass {
    const prevNotes: array<PlayedNote>
    const travel: (Byte, Byte) -> nat

    ghost predicate Valid()
      reads this, prevNotes
    {
      Tuned(prevNotes[..])
    }

    /** `MechBass::new`: every string idle at its open note, no delay, stamped `now`. */
    constructor (travel: (Byte, Byte) -> nat, now: int)
      ensures Valid() && fresh(prevNotes) && this.travel == travel
      ensures forall ch :: 0 <= ch < 4 ==> prevNotes[ch] == PlayedNote(false, TUNING[ch], 0, now)
    {
      this.travel := travel;
      prevNotes := new PlayedNote[4](ch requires 0 <= ch < 4 => PlayedNote(false, TUNING[ch], 0, now));
    }

    /**
     * First loop of `dispatch_channel`: the strings that can reach `note` are
     * ranked by panning delay (every such delay is computed, so one that
     * underflows panics), and the free one with the largest delay is taken.
     */
    method BestFreeChannel(note: Byte, now: int) returns (r: Result<Option<(nat, nat)>, string>)
      requires Valid()
      ensures r.Err? <==> !Rankable(travel, prevNotes[..], note)
      ensures r.Err? ==> r.error == DURATION_OVERFLOW
      ensures r.Ok? ==> (r.value.None? <==> !SomeFree(travel, prevNotes[..], note, now))
      ensures r.Ok? && r.value.Some? ==>
                var (best, delay) := r.value.value;
                best < 4 && Eligible(best, note) && Free(travel, prevNotes[..], note, best, now) &&
                PanningDelay(travel, prevNotes[..], note, best) == Ok(delay) &&
                forall c :: 0 <= c < 4 && Eligible(c, note) && Free(travel, prevNotes[..], note, c, now) ==>
                  PanningDelay(travel, prevNotes[..], note, c).value <= delay
    {
      var s := prevNotes[..];
      var best: Option<(nat, nat)> := None;
      for ch := 0 to 4
        invariant forall c :: 0 <= c < ch && Eligible(c, note) ==> PanningDelay(travel, s, note, c).Ok?
        invariant best.Some? ==> best.value.0 < ch && Eligible(best.value.0, note) &&
                                 Free(travel, s, note, best.value.0, now) &&
                                 PanningDelay(travel, s, note, best.value.0) == Ok(best.value.1)
        invariant best.Some? ==> forall c :: 0 <= c < ch && Eligible(c, note) && Free(travel, s, note, c, now) ==>
                                   PanningDelay(travel, s, note, c).value <= best.value.1
        invariant best.None? ==> forall c :: 0 <= c < ch && Eligible(c, note) ==> !Free(travel, s, note, c, now)
      {
        if Eligible(ch, note) {
          var delay := PanningDelay(travel, s, note, ch);
          if delay.Err? {
            return Err(delay.error);
          }
          if !s[ch].playing && now + delay.value > s[ch].ts + s[ch].delay && (best.None? || delay.value > best.value.1) {
            best := Some((ch, delay.value));
          }
        }
      }
      return Ok(best);
    }

    /** Second loop of `dispatch_channel`: the lowest-index string tuned at or below `note`. */
    method StolenChannel(note: Byte) returns (ch: Option<nat>)
      ensures ch.Some? ==> ch.value < 4 && TUNING[ch.value] <= note &&
                           forall c :: 0 <= c < ch.value ==> TUNING[c] > note
      ensures ch.None? <==> note < 28
    {
      for c := 0 to 4
        invariant forall c' :: 0 <= c' < c ==> TUNING[c'] > note
      {
        if TUNING[c] <= note {
          return Some(c);
        }
      }
      assert TUNING[3] > note;
      return None;
    }

    /** `dispatch_channel`: the string a sounding note-on goes to and its panning delay, or the panic met on the way. */
    method DispatchChannel(note: Byte, now: int) returns (r: Result<(nat, nat), string>)
      requires Valid()
      ensures Dispatched(travel, prevNotes[..], note, now, r)
      ensures r.Ok? ==> r.value.0 < 4 && TUNING[r.value.0] <= note &&
                        PanningDelay(travel, prevNotes[..], note, r.value.0) == Ok(r.value.1)
    {
      var ranked := BestFreeChannel(note, now);
      if ranked.Err? {
        return Err(ranked.error);
      }
      if ranked.value.Some? {
        return Ok(ranked.value.value);
      }
      var stolen := StolenChannel(note);
      var ch := if stolen.Some? then stolen.value else 0;
      assert ch == StealTarget(note);
      var delay := PanningDelay(travel, prevNotes[..], note, ch);
      if delay.Err? {
        return Err(delay.error);
      }
      return Ok((ch, delay.value));
    }

    /** `find_playing`: the lowest string sounding `note`, with its stored delay. */
    method FindPlaying(note: Byte) returns (r: Option<(nat, nat)>)
      requires Valid()
      ensures r.Some? ==> r.value.0 < 4 && Sounding(prevNotes[..], note, r.value.0) &&
                          r.value.1 == prevNotes[r.value.0].delay &&
                          forall c :: 0 <= c < r.value.0 ==> !Sounding(prevNotes[..], note, c)
      ensures r.None? <==> forall c :: 0 <= c < 4 ==> !Sounding(prevNotes[..], note, c)
    {
      for ch := 0 to 4
        invariant forall c :: 0 <= c < ch ==> !Sounding(prevNotes[..], note, c)
      {
        if prevNotes[ch].playing && prevNotes[ch].note == note {
          return Some((ch, prevNotes[ch].delay));
        }
      }
      return None;
    }

    /** `MechBass::call` for one incoming message at time `now`. */
    method Call(data: MidiData, now: int) returns (out: CallResult)
      requires Valid()
      modifies prevNotes
      ensures Valid()
      ensures data.instruction != NOTE_OFF && data.instruction != NOTE_ON ==>
                out == Ignored && prevNotes[..] == old(prevNotes[..])
      ensures SoundsNote(data) ==>
                exists r :: Dispatched(travel, old(prevNotes[..]), data.note, now, r) &&
                            Pressed(old(prevNotes[..]), prevNotes[..], data, now, r, out)
      ensures data.instruction == NOTE_OFF || (data.instruction == NOTE_ON && data.velocity == 0) ==>
                if forall c :: 0 <= c < 4 ==> !Sounding(old(prevNotes[..]), data.note, c) then
                  out == Ignored && prevNotes[..] == old(prevNotes[..])
                else
                  exists ch: nat :: ch < 4 && Sounding(old(prevNotes[..]), data.note, ch) &&
                    (forall c :: 0 <= c < ch ==> !Sounding(old(prevNotes[..]), data.note, c)) &&
                    prevNotes[..] == old(prevNotes[..])[ch := old(prevNotes[ch]).(playing := false, ts := now)] &&
                    out == Forwarded(data.(channel := ch as Byte), old(prevNotes[ch]).delay)
    {
      if data.instruction != NOTE_OFF && data.instruction != NOTE_ON {
        return Ignored;
      }
      if data.instruction == NOTE_ON && data.velocity != 0 {
        out := Press(data, now);
      } else {
        out := Release(data, now);
      }
    }

    /** The note-on branch of `call`: dispatch, record the string as playing the note, forward on its channel; or panic. */
    method Press(data: MidiData, now: int) returns (out: CallResult)
      requires Valid() && SoundsNote(data)
      modifies prevNotes
      ensures Valid()
      ensures exists r :: Dispatched(travel, old(prevNotes[..]), data.note, now, r) &&
                          Pressed(old(prevNotes[..]), prevNotes[..], data, now, r, out)
    {
      ghost var before := prevNotes[..];
      var chosen := DispatchChannel(data.note, now);
      if chosen.Err? {
        out := Panicked(chosen.error);
        assert Pressed(before, prevNotes[..], data, now, chosen, out);
        return;
      }
      var (channel, delay) := chosen.value;
      var pressed := PlayedNote(true, data.note, delay, now);
      prevNotes[channel] := pressed;
      out := Forwarded(MidiData(data.instruction, channel as Byte, data.note, data.velocity), delay);
      assert prevNotes[..] == before[channel := pressed];
      assert Pressed(before, prevNotes[..], data, now, chosen, out);
      TunedUpdate(before, channel, pressed);
    }

    /** The release branch of `call`: mark the string sounding the note as idle and forward on its channel. */
    method Release(data: MidiData, now: int) returns (out: CallResult)
      requires Valid()
      modifies prevNotes
      ensures Valid()
      ensures if forall c :: 0 <= c < 4 ==> !Sounding(old(prevNotes[..]), data.note, c) then
                out == Ignored && prevNotes[..] == old(prevNotes[..])
              else
                exists ch: nat :: ch < 4 && Sounding(old(prevNotes[..]), data.note, ch) &&
                  (forall c :: 0 <= c < ch ==> !Sounding(old(prevNotes[..]), data.note, c)) &&
                  prevNotes[..] == old(prevNotes[..])[ch := old(prevNotes[ch]).(playing := false, ts := now)] &&
                  out == Forwarded(data.(channel := ch as Byte), old(prevNotes[ch]).delay)
    {
      var playing := FindPlaying(data.note);
      if playing.None? {
        return Ignored;
      }
      var (channel, delay) := playing.value;
      ghost var before := prevNotes[..];
      var released := prevNotes[channel].(playing := false, ts := now);
      prevNotes[channel] := released;
      out := Forwarded(MidiData(data.instruction, channel as Byte, data.note, data.velocity), delay);
      assert prevNotes[..] == before[channel := released];
      TunedUpdate(before, channel, released);
    }
  }

  /** Replacing one string's record by one at or above its tuning keeps every string tuned. */
  lemma TunedUpdate(s: seq<PlayedNote>, ch: nat, r: PlayedNote)
    requires Tuned(s) && ch < 4 && TUNING[ch] <= r.note
    ensures Tuned(s[ch := r])
  {
  }

  /** Eligibility in plain integers: `note` lies in `[TUNING[ch], TUNING[ch] + FRETS)` (no `u8` wrap-around). */
  lemma EligibleOnFretboard(ch: nat, note: Byte)
    requires ch < 4
    ensures Eligible(ch, note) <==> TUNING[ch] as int <= note as int < TUNING[ch] as int + FRETS as int
  {
  }

  /**
   * Ranking cannot underflow while every string's last note lies within
   * `FRETS` of its tuning, provided no move between two such frets outlasts
   * the whole-fretboard move.
   */
  lemma RankableOnFretboard(travel: (Byte, Byte) -> nat, s: seq<PlayedNote>, note: Byte)
    requires Tuned(s) && forall ch :: 0 <= ch < 4 ==> s[ch].note - TUNING[ch] <= FRETS
    requires forall a: Byte, b: Byte :: a <= FRETS && b <= FRETS ==> travel(a, b) <= travel(0, FRETS)
    ensures Rankable(travel, s, note)
  {
  }

  /**
   * A fresh MechBass panics on note 60 when moving from fret 0 to fret 17
   * outlasts the whole-fretboard move: no string reaches the note, string 0 is
   * stolen, and its panning delay underflows.
   */
  method HighNotePanicsOnNewMechBass(travel: (Byte, Byte) -> nat, now: int) returns (out: CallResult)
    requires travel(0, FRETS) < travel(0, 17)
    ensures out == Panicked(DURATION_OVERFLOW)
  {
    var bass := new MechBass(travel, now);
    ghost var s := bass.prevNotes[..];
    assert forall ch :: 0 <= ch < 4 ==> !Eligible(ch, 60);
    assert StealTarget(60) == 0;
    assert PanningDelay(travel, s, 60, 0) == Err(DURATION_OVERFLOW);
    out := bass.Call(MidiData(NOTE_ON, 0, 60, 100), now);
  }
}
