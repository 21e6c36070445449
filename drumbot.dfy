/**
 * The DrumBot routing node (src/instruments/drumbot.rs). Each arm maps
 * incoming notes to the drum it can strike; a note-on is sent to the arm that
 * is already at that drum, else to the mapped arm idle for longest, else it
 * passes through unchanged.
 */
module DrumBotInstrument {
  import opened Wrappers
  import opened Data

  /** One arm: its note mapping, the last note it played and when (an `Instant`). */
  datatype Arm = Arm(mapping: seq<(Byte, Byte)>, lastPlayed: Byte, ts: int)

  /** What one `call` does: nothing, forward one message downstream, or panic. */
  datatype CallResult = Ignored | Forwarded(msg: MidiData) | Panicked(reason: string)

  /** `Arm::new`: the arm starts at its first mapped note (or 0) at time `now`. */
  function NewArm(mapping: seq<(Byte, Byte)>, now: int): (a: Arm)
    ensures a.mapping == mapping && a.ts == now
    ensures |mapping| > 0 ==> a.lastPlayed == mapping[0].0
    ensures |mapping| == 0 ==> a.lastPlayed == 0
  {
    Arm(mapping, if |mapping| > 0 then mapping[0].0 else 0, now)
  }

  /** Pair `i` is the first whose key is `key`. */
  predicate FirstKey(mapping: seq<(Byte, Byte)>, key: Byte, i: nat)
  {
    i < |mapping| && mapping[i].0 == key && forall j :: 0 <= j < i ==> mapping[j].0 != key
  }

  /** The keys a mapping holds. */
  function Keys(mapping: seq<(Byte, Byte)>): set<Byte>
  {
    if |mapping| == 0 then {} else {mapping[0].0} + Keys(mapping[1..])
  }

  /** `Arm::get`: the value of the first pair whose key is `key`. */
  function Get(mapping: seq<(Byte, Byte)>, key: Byte): (r: Option<Byte>)
    ensures r.None? <==> forall i :: 0 <= i < |mapping| ==> mapping[i].0 != key
    ensures r.Some? <==> key in Keys(mapping)
    ensures r.Some? ==> exists i: nat :: FirstKey(mapping, key, i) && mapping[i].1 == r.value
  {
    if |mapping| == 0 then None
    else if mapping[0].0 == key then Some(mapping[0].1)
    else
      var r := Get(mapping[1..], key);
      assert forall i :: 1 <= i < |mapping| ==> mapping[i] == mapping[1..][i - 1];
      assert forall i: nat :: FirstKey(mapping[1..], key, i) ==> FirstKey(mapping, key, i + 1);
      r
  }

  /** Arm `k` is the lowest-index arm standing at `note`. */
  ghost predicate FirstAt(arms: seq<Arm>, note: Byte, k: nat)
  {
    k < |arms| && arms[k].lastPlayed == note &&
    forall j :: 0 <= j < k ==> arms[j].lastPlayed != note
  }

  /** Arm `k` maps `note` and has been idle at least as long as every other arm mapping it. */
  ghost predicate LeastRecentlyUsed(arms: seq<Arm>, note: Byte, k: nat)
  {
    k < |arms| && note in Keys(arms[k].mapping) &&
    forall j :: 0 <= j < |arms| && note in Keys(arms[j].mapping) ==> arms[k].ts <= arms[j].ts
  }

  /** The selection after scanning the first `i` arms: none maps `note`, or `k` is the idlest of those that do. */
  ghost predicate IdlestSoFar(arms: seq<Arm>, note: Byte, i: nat, k: Option<nat>)
  {
    i <= |arms| &&
    (k.None? <==> forall j :: 0 <= j < i ==> note !in Keys(arms[j].mapping)) &&
    (k.Some? ==> k.value < i && note in Keys(arms[k.value].mapping) &&
                 forall j :: 0 <= j < i && note in Keys(arms[j].mapping) ==> arms[k.value].ts <= arms[j].ts)
  }

  /** One step of the selection: arm `i` is taken when it maps `note` and is strictly idler than the current pick. */
  lemma IdlestStep(arms: seq<Arm>, note: Byte, i: nat, k: Option<nat>)
    requires i < |arms| && IdlestSoFar(arms, note, i, k)
    ensures IdlestSoFar(arms, note, i + 1,
                        if note in Keys(arms[i].mapping) && (k.None? || arms[i].ts < arms[k.value].ts) then Some(i) else k)
  {
  }

  class DrumBot {
    const arms: array<Arm>

    /** `DrumBot::new`: three arms with empty mappings. */
    constructor New(now: int)
      ensures fresh(arms)
      ensures arms.Length == 3 && forall i :: 0 <= i < 3 ==> arms[i] == Arm([], 0, now)
    {
      arms := new Arm[3](_ => NewArm([], now));
    }

    /** The same construction over given per-arm mappings (`DrumBot::new` fixes them to three empty ones). */
    constructor WithMappings(mappings: seq<seq<(Byte, Byte)>>, now: int)
      ensures fresh(arms) && arms.Length == |mappings|
      ensures forall i :: 0 <= i < |mappings| ==> arms[i] == NewArm(mappings[i], now)
    {
      arms := new Arm[|mappings|](i requires 0 <= i < |mappings| => NewArm(mappings[i], now));
    }

    /** The reuse scan of `call`: the first arm whose last note is `note`. */
    method FindArmAt(note: Byte) returns (k: Option<nat>)
      ensures k.Some? ==> FirstAt(arms[..], note, k.value)
      ensures k.None? <==> forall j :: 0 <= j < arms.Length ==> arms[j].lastPlayed != note
    {
      for i := 0 to arms.Length
        invariant forall j :: 0 <= j < i ==> arms[j].lastPlayed != note
      {
        if arms[i].lastPlayed == note {
          return Some(i);
        }
      }
      return None;
    }

    /** The selection of `call`: among arms mapping `note`, one idle for longest. */
    method FindIdlestArm(note: Byte) returns (k: Option<nat>)
      ensures k.Some? ==> LeastRecentlyUsed(arms[..], note, k.value)
      ensures k.None? <==> forall j :: 0 <= j < arms.Length ==> note !in Keys(arms[j].mapping)
    {
      k := None;
      for i := 0 to arms.Length
        invariant IdlestSoFar(arms[..], note, i, k)
      {
        IdlestStep(arms[..], note, i, k);
        if Get(arms[i].mapping, note).Some? && (k.None? || arms[i].ts < arms[k.value].ts) {
          k := Some(i);
        }
      }
    }

    /** `DrumBot::call` for one incoming message at time `now`. */
    method Call(data: MidiData, now: int) returns (out: CallResult)
      modifies arms
      ensures data.instruction != NOTE_ON ==> out == Ignored && arms[..] == old(arms[..])
      ensures data.instruction == NOTE_ON && (exists k: nat :: FirstAt(old(arms[..]), data.note, k)) ==>
                arms[..] == old(arms[..]) &&
                exists k: nat :: FirstAt(old(arms[..]), data.note, k) &&
                  out == match Get(old(arms[k].mapping), data.note)
                         case Some(n) => Forwarded(data.(note := n))
                         case None => Panicked("called `Option::unwrap()` on a `None` value")
      ensures data.instruction == NOTE_ON && (forall j :: 0 <= j < arms.Length ==> old(arms[j].lastPlayed) != data.note) &&
              (exists k: nat :: LeastRecentlyUsed(old(arms[..]), data.note, k)) ==>
                exists k: nat :: LeastRecentlyUsed(old(arms[..]), data.note, k) &&
                  arms[..] == old(arms[..])[k := old(arms[k]).(ts := now, lastPlayed := data.note)] &&
                  out == Forwarded(data.(note := Get(old(arms[k].mapping), data.note).value))
      ensures data.instruction == NOTE_ON && (forall j :: 0 <= j < arms.Length ==> old(arms[j].lastPlayed) != data.note) &&
              (forall j :: 0 <= j < arms.Length ==> Get(old(arms[j].mapping), data.note).None?) ==>
                out == Forwarded(data) && arms[..] == old(arms[..])
    {
      if data.instruction != NOTE_ON {
        return Ignored;
      }
      var at := FindArmAt(data.note);
      if at.Some? {
        var mapped := Get(arms[at.value].mapping, data.note);
        if mapped.None? {
          return Panicked("called `Option::unwrap()` on a `None` value");
        }
        return Forwarded(MidiData(data.instruction, data.channel, mapped.value, data.velocity));
      }
      var idle := FindIdlestArm(data.note);
      if idle.Some? {
        var k := idle.value;
        arms[k] := arms[k].(ts := now, lastPlayed := data.note);
        var note := Get(arms[k].mapping, data.note).value;
        return Forwarded(MidiData(data.instruction, data.channel, note, data.velocity));
      }
      return Forwarded(data);
    }
  }

  /** A freshly built DrumBot panics on note 0: every arm stands at 0 but maps nothing. */
  method NoteZeroPanicsOnNewDrumBot(now: int) returns (out: CallResult)
    ensures out.Panicked?
  {
    var bot := new DrumBot.New(now);
    assert FirstAt(bot.arms[..], 0, 0);
    out := bot.Call(MidiData(NOTE_ON, 0, 0, 100), now);
  }

  /**
   * A note no arm stands at goes to an arm that maps it, translated by that
   * arm's mapping: with two arms standing at 35 and 37 that both map 36 (to 1
   * and to 2), a note-on for 36 comes out as 1 or as 2.
   */
  method UnplayedNoteUsesMapping(now: int) returns (out: CallResult)
    ensures out == Forwarded(MidiData(NOTE_ON, 0, 1, 100)) || out == Forwarded(MidiData(NOTE_ON, 0, 2, 100))
  {
    var bot := new DrumBot.WithMappings([[(35, 0), (36, 1)], [(37, 0), (36, 2)]], now);
    assert bot.arms[0].mapping == [(35, 0), (36, 1)] && bot.arms[1].mapping == [(37, 0), (36, 2)];
    assert Get(bot.arms[0].mapping, 36) == Some(1) && Get(bot.arms[1].mapping, 36) == Some(2);
    assert LeastRecentlyUsed(bot.arms[..], 36, 0);
    out := bot.Call(MidiData(NOTE_ON, 0, 36, 100), now);
  }
}
