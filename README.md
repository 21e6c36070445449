# MechSync core, modelled in Dafny

MechSync routes MIDI between instruments so that two robotic instruments sound
in sync. This project models its core and proves properties of the model:

- **The message record** (`src/data.rs`, module `Data`): the three-byte MIDI
  message unpacked into instruction, channel, note and velocity, and packed back.
  Bytes are `bv8`.
- **The DrumBot node** (`src/instruments/drumbot.rs`, module
  `DrumBotInstrument`): a class over an array of arms. A note-on goes to the arm
  already standing at that note; otherwise it goes to the mapped arm that has been
  idle for longest; otherwise it passes through. An `unwrap` on a missing mapping
  is modelled as a `Panicked` outcome.
- **The MechBass node** (`src/instruments/mechbass.rs`, module
  `MechBassInstrument`): a class over an array of four string records. A sounding
  note-on is dispatched to a free string that can reach the note and has the
  largest panning delay. When no string is free, a string is stolen. A release
  goes to the lowest string sounding that note. The panning delay subtracts
  twice, and either subtraction can underflow. The first is a `u8` subtraction,
  for a note below the string's tuning. The second is a `Duration` subtraction,
  for a move that outlasts the move across the whole fretboard. Each underflow
  is a `Panicked` outcome, in the free-string ranking as well as for the stolen
  string.
- **The node table** (`src/config/graph.rs`, module `ConfigGraph`): a class
  holding a map from names to node objects. Binding sets a node's `next`
  reference.
- **Configuration loading** (`src/config/config.rs`, module `ConfigLoader`):
  deserialising entries, then `build`. Its first pass creates every node, or
  panics on an unregistered type or a failing constructor. Its second pass binds
  the `next` links, so a link may name a node declared later.
- **The measurement helpers** (`python_tools/helpers.py`, module `Helpers`): the
  stereo onset detector (`PeakDetector` with one `PeakState` per channel) and the
  `MidiPlayer` that logs the note-ons it sends. Each scan is specified by the
  function `ScanFrom`, and the methods are proved against it.
- **The MechBass calibration script** (`python_tools/mechbass/calibrate_latency.py`,
  module `CalibrateLatency`): the mono `ImpulseHandler`, the two-onset check of one
  trial, `dist`, the sorted pair matrix, and the sweep. The sweep writes a row per
  pair, or collects the pair's first error and goes on.
- **The DrumBot/MechBass synchronisation test**
  (`python_tools/drumbot_mechsync_latency_test.py`, module `SyncLatencyTest`):
  the crossed playing loop and its oracle log, the count gate, the zip that
  reduces onsets to offsets, `note_factory`, and the batching of `display`.

Some things outside the model become parameters:

- The wall clock: a `now` value, or a `clock: nat -> real` whose `k`-th value is
  the `k`-th reading of the run.
- Each audio buffer: the energy of each of its pieces, plus the reading taken on
  arrival.
- Each calibration trial: a function `trial(first, second, i)`.
- The float formulas. `travel(a, b)` is the MechBass picker's time from fret
  `a` to fret `b`, as a `Duration`, and `MAX_PAN_TIME` is `travel(0, FRETS)`.
  `ratio` stands for `2 ** (x / 12)` in `dist`.
- Whether a node's port opens: `opens`.

## Model

| member | source | states |
|---|---|---|
| Data.FromSlice | src/data.rs:10-24 | both nibbles are below 16; the instruction is byte 0 divided by 16 and the channel is byte 0 mod 16; an empty slice gives the all-zero record |
| Data.ToArray | src/data.rs:26-32 | three bytes, and the status byte is `instruction * 16 + channel` when both fit a nibble |
| Data.BytesRoundTrip | src/data.rs:10-32 | packing an unpacked slice of three or more bytes gives back its first three bytes |
| Data.RecordRoundTrip | src/data.rs:10-32 | unpacking a packed record whose nibbles fit gives back the record |
| Data.PassThroughBytes | src/data.rs:26-32 | note and velocity are bytes 1 and 2 of the packed message |
| Data.ShortInputDefaults | src/data.rs:16-17 | bytes missing from a short slice read as 0 |
| Data.WideInstructionTruncates | src/data.rs:10-32 | for every record whose channel fits a nibble, unpacking the packed record gives back the instruction modulo 16 and every other field unchanged |
| Data.WideNoteOnExample | src/data.rs:28 | instruction 0x19 comes back as a note-on |
| DrumBotInstrument.NewArm | src/instruments/drumbot.rs:21-28 | the arm keeps its mapping, starts at its first key (0 when the mapping is empty) and is stamped `now` |
| DrumBotInstrument.Get | src/instruments/drumbot.rs:30-35 | `None` exactly when no pair has the key; otherwise the value of the first pair with that key |
| DrumBotInstrument.DrumBot.New | src/instruments/drumbot.rs:44-50 | three arms, each with an empty mapping, standing at note 0, stamped `now` |
| DrumBotInstrument.DrumBot.WithMappings | src/instruments/drumbot.rs:21-28 | one arm per given mapping, each built as `Arm::new` builds it |
| DrumBotInstrument.DrumBot.FindArmAt | src/instruments/drumbot.rs:63-75 | the lowest arm whose last note is the incoming note; `None` exactly when no arm stands there |
| DrumBotInstrument.DrumBot.FindIdlestArm | src/instruments/drumbot.rs:78-83 | an arm that maps the note and whose timestamp is no later than that of any other arm mapping it; `None` exactly when no arm maps the note |
| DrumBotInstrument.DrumBot.Call | src/instruments/drumbot.rs:54-104 | non-note-ons are ignored; an arm already at the note forwards its mapping of the note, or panics when it has none; otherwise the least recently used mapping arm is moved to the note, restamped, and forwards the mapped note; otherwise the message passes through unchanged |
| DrumBotInstrument.UnplayedNoteUsesMapping | src/instruments/drumbot.rs:21-100 | two arms standing at 35 and 37 that map 36 to 1 and to 2: a note-on for 36 is forwarded as 1 or as 2 |
| DrumBotInstrument.NoteZeroPanicsOnNewDrumBot | src/instruments/drumbot.rs:44-75 | a fresh DrumBot panics on a note-on for note 0, because every arm stands at 0 but maps nothing |
| MechBassInstrument.MechBass.constructor | src/instruments/mechbass.rs:70-75 | each string is idle at its open note with zero delay, stamped `now`, so the `Tuned` invariant holds |
| MechBassInstrument.MechBass.BestFreeChannel | src/instruments/mechbass.rs:98-109 | the `Duration` overflow panic exactly when some string that can reach the note has a move that outlasts the whole-fretboard move; otherwise a free reaching string whose panning delay is at least that of every free reaching string, and `None` exactly when no reaching string is free |
| MechBassInstrument.MechBass.StolenChannel | src/instruments/mechbass.rs:112-118 | the lowest string tuned at or below the note; `None` exactly when the note is below 28 |
| MechBassInstrument.MechBass.DispatchChannel | src/instruments/mechbass.rs:96-120 | the outcome satisfies `Dispatched`: the `Duration` panic when ranking underflows; else the best free string; else the stolen string (the lowest tuned at or below the note, or string 0), or the panic of its panning delay. A chosen string can reach the note, and the delay returned is its panning delay |
| MechBassInstrument.MechBass.FindPlaying | src/instruments/mechbass.rs:122-133 | the lowest string sounding the note, with its stored delay; `None` exactly when no string sounds it |
| MechBassInstrument.MechBass.Call | src/instruments/mechbass.rs:137-173 | keeps `Tuned`; other instructions are ignored; a sounding note-on satisfies `Dispatched` and `Pressed`: on either panic of `dispatch_channel` it panics with that message and the state is unchanged; otherwise it records the chosen string as playing the note and forwards on that channel after its delay; a note-off or zero-velocity note-on releases the lowest sounding string and forwards after its stored delay, or is ignored |
| MechBassInstrument.MechBass.Press | src/instruments/mechbass.rs:145-172 | the outcome satisfies `Dispatched` and `Pressed`: a panic of `dispatch_channel` leaves every string unchanged; otherwise the chosen string's record becomes playing this note with its delay and `now`, every other string is unchanged, and the message is forwarded on that channel after the delay; `Tuned` is kept |
| MechBassInstrument.MechBass.Release | src/instruments/mechbass.rs:151-172 | only the lowest sounding string changes: not playing, restamped `now`; the forward carries its stored delay; nothing changes when no string sounds the note |
| MechBassInstrument.PanningDelay | src/instruments/mechbass.rs:86-94 | a note below the string's tuning is the `u8` overflow panic; otherwise the `Duration` overflow panic exactly when the string's move outlasts the whole-fretboard move; a delay plus the move equals `MAX_PAN_TIME` |
| MechBassInstrument.StealTarget | src/instruments/mechbass.rs:112-119 | a string index below 4; for a note of 28 or more, the lowest string tuned at or below it; below 28, string 0, and no string is tuned at or below the note |
| MechBassInstrument.RankableOnFretboard | src/instruments/mechbass.rs:86-109 | ranking cannot underflow while every string's last note is within `FRETS` of its tuning and no move between such frets outlasts the whole-fretboard move |
| MechBassInstrument.HighNotePanicsOnNewMechBass | src/instruments/mechbass.rs:86-120 | a fresh MechBass panics with the `Duration` overflow on note-on 60 when the move from fret 0 to fret 17 outlasts the whole-fretboard move |
| MechBassInstrument.EligibleOnFretboard | src/instruments/mechbass.rs:99 | the `u8` eligibility test means `TUNING[ch] <= note < TUNING[ch] + FRETS` in plain integers |
| ConfigGraph.Node.constructor | src/config/config.rs:27-29 | the node built for an entry carries the entry's name and type and starts unbound |
| ConfigGraph.Graph.constructor | src/config/graph.rs:12-14 | the table starts empty |
| ConfigGraph.Graph.Insert | src/config/graph.rs:23-25 | the name maps to the node, and every other name keeps its node |
| ConfigGraph.Graph.Bind | src/config/graph.rs:16-21 | succeeds exactly when both names are in the table, and then only `from`'s node changes: it now sends to `to`'s node; otherwise the error names `to` and nothing changes |
| ConfigLoader.ParseNodeConfig | src/config/config.rs:48-61 | succeeds exactly when both `name` and `type` are present; `name` is reported missing first; the whole map is kept as the traits |
| ConfigLoader.ParseConfig | src/config/config.rs:41-46 | succeeds exactly when every entry parses, keeping order and length; otherwise it returns the error of the first failing entry |
| ConfigLoader.EntryPanic | src/config/config.rs:27-29 | one entry's panic: an unregistered type first, then a failing constructor, else none |
| ConfigLoader.FirstPanic | src/config/config.rs:23-31 | no panic exactly when every entry's type is registered and its constructor succeeds |
| ConfigLoader.FirstPanicAt | src/config/config.rs:23-31 | the panic is that of the first failing entry: an unknown type before a failing constructor |
| ConfigLoader.Links | src/config/config.rs:32-36 | every link left in place joins two declared names |
| ConfigLoader.LinksLastWins | src/config/config.rs:32-36 | a name is linked exactly when some entry of that name carries a `next` naming a declared node, and the last such entry decides the target |
| ConfigLoader.ForwardLink | src/config/config.rs:20-38 | an entry may link to a node declared after it |
| ConfigLoader.TableStep | src/config/config.rs:25-30 | inserting an entry's node keeps the table equal to the declared names, with the last declaration of each name deciding its node type |
| ConfigLoader.Build | src/config/config.rs:20-38 | panics exactly when the first pass does, with that reason; otherwise a fresh graph holding one fresh node per declared name, with the last declaration's type, and each node's `next` is the node named by its `Links` entry, or unbound |
| ConfigLoader.CreateNodes | src/config/config.rs:23-31 | the same panic condition and reason; otherwise a fresh table of fresh, unbound nodes, one per declared name |
| ConfigLoader.AddNode | src/config/config.rs:25-30 | one fresh, unbound node inserted under the entry's name, which extends the table by one entry |
| ConfigLoader.BindLinks | src/config/config.rs:32-36 | the table is unchanged, and each node's `next` is the node its `Links` entry names, or unbound |
| Helpers.ScanFrom | python_tools/helpers.py:75-98 | the scan of one buffer, from the newest piece back: debounced pieces pass, a quiet piece clears the latch and resets `last_peak` to 0, a loud piece while latched passes, and otherwise the piece is a new onset that sets the latch; the properties are the lemmas below |
| Helpers.ChunkTimeDecreases | python_tools/helpers.py:77 | older pieces are back-dated to strictly earlier timestamps |
| Helpers.SkipIsFinal | python_tools/helpers.py:79-81 | once a piece is inside the debounce window, the rest of the buffer changes nothing, so the `continue` acts as a stop |
| Helpers.OnsetsAreChunkTimes | python_tools/helpers.py:75-98 | every recorded onset is the back-dated timestamp of a scanned piece |
| Helpers.AtMostOneOnset | python_tools/helpers.py:75-98 | with a non-negative window, a buffer yields at most one onset; the latch then holds it, and every older piece lies inside its window |
| Helpers.SustainedOnsetAddsNothing | python_tools/helpers.py:91-93 | while latched, a buffer that stays loud adds no onset and leaves the latch unchanged |
| Helpers.QuietBufferAddsNothing | python_tools/helpers.py:85-89 | a quiet buffer adds no onset; unless its newest piece is inside the window, it clears the latch and resets `last_peak` to 0 |
| Helpers.BurstTimestamp | python_tools/helpers.py:75-98 | when the newer pieces are quiet and the scan reaches a loud piece, the onset gets that piece's back-dated time |
| Helpers.PeakState.constructor | python_tools/helpers.py:44-48 | no onsets, not latched, `last_peak` 0 |
| Helpers.PeakDetector.constructor | python_tools/helpers.py:50-64 | two distinct fresh channel states and the given settings (defaults 16, 44100, 1.25, 0.050) |
| Helpers.PeakDetector.FindPeaks | python_tools/helpers.py:70-98 | the channel's onsets grow by exactly those of `ScanFrom`, and its latch becomes `ScanFrom`'s |
| Helpers.PeakDetector.OnBuffer | python_tools/helpers.py:66-68 | the left buffer is scanned against the left state and the right buffer against the right state |
| Helpers.PeakDetector.Peaks | python_tools/helpers.py:100-102 | the left and right onset lists |
| Helpers.NoteOns | python_tools/helpers.py:114-115 | only note-ons that were sent, never more than were sent |
| Helpers.MidiPlayer.constructor | python_tools/helpers.py:105-108 | nothing sent, nothing logged |
| Helpers.MidiPlayer.PlayNote | python_tools/helpers.py:110-115 | the message is sent, and it is logged with the time read before sending only when it is a note-on; the log stays exactly the note-ons sent |
| CalibrateLatency.ImpulseScan | python_tools/mechbass/calibrate_latency.py:51-63 | the mono scan of one buffer: the first debounced piece ends it, a quiet piece clears the latch but keeps `last_peak`, and a loud unlatched piece is an onset; it finds no more onsets than pieces scanned |
| CalibrateLatency.Feed | python_tools/mechbass/calibrate_latency.py:46-63 | the handler's latch and every onset over a run of buffers, each buffer scanned by `ImpulseScan` from the previous latch |
| CalibrateLatency.ImpulseAtMostOne | python_tools/mechbass/calibrate_latency.py:51-63 | at most one callback per buffer, and it is the back-dated time of a scanned piece; the latch then holds it; with no callback, `last_peak` is kept |
| CalibrateLatency.SilenceHandlingDiffers | python_tools/mechbass/calibrate_latency.py:56-58 | after a quiet piece the mono handler keeps `last_peak` and misses a loud piece that the stereo detector (helpers.py:86-89, which resets it to 0) reports |
| CalibrateLatency.FeedAtMostOnePerBuffer | python_tools/mechbass/calibrate_latency.py:46-63 | a run of buffers yields no more onsets than buffers |
| CalibrateLatency.ImpulseHandler.constructor | python_tools/mechbass/calibrate_latency.py:39-44 | sensitivity 2.5, a 20 ms debounce, not latched, `last_peak` 0, no callback |
| CalibrateLatency.ImpulseHandler.Call | python_tools/mechbass/calibrate_latency.py:46-63 | without a callback nothing changes; otherwise the latch becomes `ImpulseScan`'s, and the callback receives exactly its onsets |
| CalibrateLatency.LatencyOf | python_tools/mechbass/calibrate_latency.py:82-84 | succeeds exactly with two onsets, and then the second onset is the first plus the oracle gap (0.5 s) plus the latency; otherwise the error carries what was found |
| CalibrateLatency.TestLatency | python_tools/mechbass/calibrate_latency.py:74-84 | installs the callback on a fresh list; the list is then the onsets of the buffers that arrived, and the result is their check |
| CalibrateLatency.TooFewBuffersFail | python_tools/mechbass/calibrate_latency.py:46-83 | a trial over fewer than two buffers always fails |
| CalibrateLatency.Dist | python_tools/mechbass/calibrate_latency.py:93-97 | non-negative, zero for equal notes, and zero exactly when both ratios are equal |
| CalibrateLatency.DistSymmetric | python_tools/mechbass/calibrate_latency.py:93-97 | the order of the two notes does not matter |
| CalibrateLatency.Perms | python_tools/mechbass/calibrate_latency.py:108 | `(FRETS + 1)^2` pairs |
| CalibrateLatency.PermsMembership | python_tools/mechbass/calibrate_latency.py:108 | a pair is in the matrix exactly when both notes lie in `range(lowest, lowest + FRETS + 1)` |
| CalibrateLatency.PermsSorted | python_tools/mechbass/calibrate_latency.py:108 | the matrix is strictly increasing in tuple order, so it holds no duplicates |
| CalibrateLatency.Reversed | python_tools/mechbass/calibrate_latency.py:117 | the same length, with element `k` taken from the mirrored position |
| CalibrateLatency.RunSamples | python_tools/mechbass/calibrate_latency.py:124-127 | succeeds exactly when every trial does, and then holds their latencies in order; otherwise it returns the error of the first failing trial |
| CalibrateLatency.FailureIsFinal | python_tools/mechbass/calibrate_latency.py:118-137 | once a trial has raised, later trials do not change the outcome |
| CalibrateLatency.Measure | python_tools/mechbass/calibrate_latency.py:122-137 | a row with the pair and its latencies exactly when all trials succeed; otherwise the pair with its first error |
| CalibrateLatency.SweepCounts | python_tools/mechbass/calibrate_latency.py:117-137 | every visited pair gives exactly one row or one error |
| CalibrateLatency.SweepSound | python_tools/mechbass/calibrate_latency.py:117-137 | each row is a visited pair whose trials all succeeded, and it holds their latencies; each error is a visited pair, and it holds the first exception raised |
| CalibrateLatency.SweepComplete | python_tools/mechbass/calibrate_latency.py:117-137 | every visited pair appears: as a row when its trials succeed, as an error when they fail |
| CalibrateLatency.SweepCoversMatrix | python_tools/mechbass/calibrate_latency.py:106-137 | the channel-0 sweep accounts for all 196 pairs |
| CalibrateLatency.SweepSpec | python_tools/mechbass/calibrate_latency.py:117-137 | the rows written and the errors collected over a list of pairs, each in visiting order; its properties are `SweepCounts`, `SweepSound` and `SweepComplete` |
| CalibrateLatency.MeasurePair | python_tools/mechbass/calibrate_latency.py:118-137 | one body pass equals `Measure` of the pair |
| CalibrateLatency.Sweep | python_tools/mechbass/calibrate_latency.py:104-137 | the rows and errors are those of `SweepSpec` over the reversed matrix |
| SyncLatencyTest.Schedule | python_tools/drumbot_mechsync_latency_test.py:30-31 | the note pairs in playing order: five passes over the note list |
| SyncLatencyTest.RepeatLength | python_tools/drumbot_mechsync_latency_test.py:30-31 | `r` passes play `r * n` pairs |
| SyncLatencyTest.RepeatAt | python_tools/drumbot_mechsync_latency_test.py:30-31 | pair `idx` of pass `rep` is played at position `rep * n + idx` |
| SyncLatencyTest.LeftSends | python_tools/drumbot_mechsync_latency_test.py:32-37 | two messages per pair on the left player |
| SyncLatencyTest.RightSends | python_tools/drumbot_mechsync_latency_test.py:33-38 | two messages per pair on the right player |
| SyncLatencyTest.CrossedRelease | python_tools/drumbot_mechsync_latency_test.py:31-38 | for each pair, each player strikes its own note and releases the note the other player struck |
| SyncLatencyTest.Oracle | python_tools/drumbot_mechsync_latency_test.py:34 | one oracle time per pair played |
| SyncLatencyTest.OracleAt | python_tools/drumbot_mechsync_latency_test.py:32-34 | the oracle time of pair `p` is that pair's third clock reading, taken after both note-ons |
| SyncLatencyTest.LeftLog | python_tools/drumbot_mechsync_latency_test.py:32 | one left log entry per pair |
| SyncLatencyTest.RightLog | python_tools/drumbot_mechsync_latency_test.py:33 | one right log entry per pair |
| SyncLatencyTest.LogsAt | python_tools/drumbot_mechsync_latency_test.py:32-33 | pair `p` logs only its note-ons: left's first note at reading `5p`, right's second note at reading `5p + 1` |
| SyncLatencyTest.RecordsStep | python_tools/drumbot_mechsync_latency_test.py:31-38 | one more pair extends sends, logs and oracle by that pair's entries |
| SyncLatencyTest.PlayPairs | python_tools/drumbot_mechsync_latency_test.py:30-39 | after five passes, both players' sends and logs and the oracle are exactly those of the schedule |
| SyncLatencyTest.PlayPass | python_tools/drumbot_mechsync_latency_test.py:31-39 | one pass extends the records by the whole note list |
| SyncLatencyTest.PlayStep | python_tools/drumbot_mechsync_latency_test.py:32-38 | one pair: left sends on(first), off(second); right sends on(second), off(first); each logs its note-on |
| SyncLatencyTest.Strike | python_tools/drumbot_mechsync_latency_test.py:32-37 | a note-on then a note-off are sent, and only the note-on is logged |
| SyncLatencyTest.Detected | python_tools/helpers.py:66-98 | one channel's latch and onsets over a run of stereo buffers, each buffer's channel scanned by `ScanFrom` from the previous latch |
| SyncLatencyTest.DetectedAtMostOnePerBuffer | python_tools/helpers.py:66-98 | each channel collects at most one onset per stereo buffer |
| SyncLatencyTest.Listen | python_tools/drumbot_mechsync_latency_test.py:26-42 | the detector's peaks are `Detected` over the delivered buffers, per channel, from a fresh state |
| SyncLatencyTest.Zip3 | python_tools/drumbot_mechsync_latency_test.py:47 | the length of the shortest list, with element `i` taken from each list |
| SyncLatencyTest.LatencyDifferences | python_tools/drumbot_mechsync_latency_test.py:43-47 | exits with the three counts unless they are all equal; otherwise each onset equals its oracle time plus the returned offset |
| SyncLatencyTest.TooFewBuffersExit | python_tools/drumbot_mechsync_latency_test.py:42-46 | fewer buffers than pairs played always fails the count gate |
| SyncLatencyTest.TestLatencyDifferences | python_tools/drumbot_mechsync_latency_test.py:21-47 | the playing records match the schedule, and the outcome is the gate and reduction applied to the detector's peaks and the oracle |
| SyncLatencyTest.NoteFactory | python_tools/drumbot_mechsync_latency_test.py:50-54 | 29 pairs, one display batch |
| SyncLatencyTest.Alternating | python_tools/drumbot_mechsync_latency_test.py:52-54 | two pairs per loop step |
| SyncLatencyTest.AlternatingShape | python_tools/drumbot_mechsync_latency_test.py:52-54 | the loop alternates `(base, 50)` with `(base + i, 50)` |
| SyncLatencyTest.NoteFactoryShape | python_tools/drumbot_mechsync_latency_test.py:50-54 | base at position 0 and at every odd position, `base + i` at `2i + 2`, and 50 as every second note |
| SyncLatencyTest.Shortest | python_tools/drumbot_mechsync_latency_test.py:57 | no longer than any batch, and equal to the length of one of them |
| SyncLatencyTest.Transposed | python_tools/drumbot_mechsync_latency_test.py:57 | as many rows as the shortest batch, and row `j` takes element `j` of every batch |
| SyncLatencyTest.Batched | python_tools/drumbot_mechsync_latency_test.py:57 | `itertools.batched`: consecutive batches of `n`, the last possibly shorter; its shape is `BatchedFull` |
| SyncLatencyTest.BatchedFull | python_tools/drumbot_mechsync_latency_test.py:57 | `29k` values form `k` full batches, and element `j` of batch `b` is value `29b + j` |
| SyncLatencyTest.DisplayRows | python_tools/drumbot_mechsync_latency_test.py:56-59 | the rows `display` prints: `zip` over the batches of 29 offsets; its shape is `DisplayRowPerPair` |
| SyncLatencyTest.DisplayRowPerPair | python_tools/drumbot_mechsync_latency_test.py:56-59 | 29 rows; row `j` holds pair `j`'s offsets from every pass, in pass order |
| SyncLatencyTest.DisplayRowsFollowNoteFactory | python_tools/drumbot_mechsync_latency_test.py:30-57 | a schedule of `note_factory` pairs lines up with the display rows: position `29 * rep + j` is pair `j` |

## Left out

- **I/O is not modelled.** This covers MIDI port opening and sending (beyond the
  send history), the audio stream, `print`, CSV writing, `display`'s string
  formatting, sleeps and the `info!`/`warn!` logs. The sleep before a MechBass
  forward is the `after` field of `Forwarded`.
- **Clocks are parameters.** `Instant::now()`, `time.time()` and the audio
  callback's arrival time are inputs. Each MechBass/DrumBot `Instant` is read
  once per call, as `now`.
- **Floating point is modelled with `real`**, and NumPy is abstracted.
  `np.array_split` and `np.linalg.norm` are replaced by a per-piece energy input
  of the configured length. `np.mean` becomes `Sum / SAMPLES`.
- MechBassInstrument.PanningDelay: the fitted float formula (`time`,
  `note_distance` and the conversion to `Duration`) is the uninterpreted
  parameter `travel`. Which moves outlast the whole-fretboard move therefore
  depends on `travel`. `HighNotePanicsOnNewMechBass` and `RankableOnFretboard`
  state their assumptions about it.
- CalibrateLatency.Dist: `2 ** (x / 12)` is the uninterpreted parameter `ratio`,
  so the contract does not state monotonicity in the distance between the notes.
- DrumBotInstrument.DrumBot.FindIdlestArm: `sort_unstable_by_key` leaves ties
  unspecified. The model takes the lowest index, and the contract promises only
  a minimal timestamp.
- MechBassInstrument.MechBass.BestFreeChannel: the unstable sort by descending
  delay leaves ties unspecified. The model takes the lowest index, and the
  contract promises only a maximal delay among free strings.
- **Concurrency is not modelled.** `RwLock`, coroutines, `Weak` references and
  lock poisoning are absent, and calls are sequential. `Node::bind` is a plain
  object reference.
- **Integer width:** the release-mode wrap of the `u8` subtraction in
  `panning_delay` is not modelled. The model follows the debug build, where the
  subtraction panics. Under the `Tuned` invariant the `u8` panic happens only
  for a note-on below 28 with no free string. The `Duration` subtraction panics
  in both builds.
- ConfigLoader.ParseConfig: serde failures other than a missing field are not
  modelled. These include a non-sequence document and a non-string value.
- ConfigLoader.EntryPanic: `Result::expect` prints its message followed by
  `: ` and the constructor's error. The model's panic reason is the message
  alone, because the constructor's error is not modelled.
- ConfigLoader.Build: a node constructor's behaviour is reduced to
  success/failure through `opens`. The `Input`/`Output` nodes themselves
  (`src/midi.rs`) are not part of this model.
- CalibrateLatency.TestLatency: the two `play_note` calls and the sleeps are left
  out. The buffers that arrive while the callback is installed are its input.
- CalibrateLatency.Sweep: any exception other than the two-onset check is the
  `Raised` failure, carried by the `trial` parameter.
- **Buffers delivered before a callback is installed** are covered only by
  `ImpulseHandler.Call`, which leaves the state unchanged.
- SyncLatencyTest.TestLatencyDifferences: `exit(-1)` after the count mismatch is
  the `Exited` outcome. An `OSError` on opening a MIDI port at start-up is not
  modelled.
- SyncLatencyTest.TestLatencyDifferences: which audio buffers arrive during
  playing is an input. The model does not relate buffer timing to the oracle.
- Helpers.MidiPlayer.PlayNote: `mido` rejects notes, channels and velocities
  outside the 7-bit and 4-bit ranges. The model requires them to be in range
  instead of raising.

Notes on the code:

- The stereo detector (`helpers.py:80-81`) skips a debounced piece with
  `continue`. `Helpers.SkipIsFinal` proves that this acts as a stop.
- On a quiet piece, `helpers.py:88` also resets `last_peak` to 0 (`False`). The
  mono handler (`calibrate_latency.py:56-58`) does not reset it.
  `CalibrateLatency.SilenceHandlingDiffers` exhibits an input where the two
  detectors differ.
- A trial's latency is `(n1 - n0) - 0.5` seconds
  (`calibrate_latency.py:84`). This is the onset gap minus the oracle gap, not
  an onset minus an oracle time.
