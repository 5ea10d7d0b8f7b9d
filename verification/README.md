# abcmidi in Dafny

A model of the hard logic of abcmidi, converters between abc music notation and MIDI, with
proofs of what it promises and, where it does not keep a promise, of exactly when it does.

Code that changes arrays, lists or variables step by step is modelled by methods and classes
that do the same; each is proved equal to a function on values, and the results are proved
about those functions. C's truncating division is written out (`CInt`); musical lengths are
pairs whose value is a real number (`Fractions`). Integers are unbounded.

**Playing a score as MIDI** (`genmidi.c`, `queues.c`, `store.c`).
`NoteQueue` is the array of pending note-offs, delta-encoded and threaded with a free list; it
refines a stable priority queue in absolute time. `Playback` and `Track` are `timestep`,
`clearQ` and the accompaniment that re-enters the queue; `Delay` turns lengths into ticks;
`TrackRun` puts these together over whole tracks, and `Sounding` says what is heard of them.
`Ties`, `Grace` and `FixReps` are the passes that rewrite the music in place (`Features`)
before it is played; `Repeats` is the state machine for repeats and variant endings,
`RepeatsEnd` says when it comes to an end, and `Variants` has the lists of endings as they come
out of the text; `PartSpec` expands part expressions.

**MIDI back to notation** (`midi2abc.c`).
`NoteLists` has the notes and doubly linked lists; `Pairing` matches note-offs with note-ons;
`Quantize` rounds times and carries the error on; `ChordSlicer` cuts overlapping notes into
tied chords that fit the bars, and `Notation` joins the two; `Splits` shares notes out between
voices.

**Standard MIDI files** (`midifile.c`).
`VarLen`, `MidiFormat`, `MidiWriter` and `MidiReader`: variable-length quantities, track
chunks, a writer that fills lengths in afterwards, and a byte-at-a-time reader with running
status, as in Standard MIDI Files 1.0.

**Transposition and text** (`toabc.c`, `parseabc.c`).
`Transpose` works out keys and moves notes; `NoteText` prints notes and parses them; `Text`
has positions and numbers. **Note values** (`yapstree.c`): `Dots`.

Where the code does not do what its comments or its name promise, the model follows the code,
and a lemma says exactly when the promise is kept, or shows an input on which it is not:

- an accompaniment step shorter than a tick stops `timestep` (`Playback.FatalExactly`,
  `TrackRun.FatalTrack`), and a note shorter than a tick is ended in the past
  (`TrackRun.NegativeDeltaExactly`, `TrackRun.NegativeDelta`);
- `clearQ` may write the last note-offs early (`Playback.ClearQOnTimeExactly`,
  `TrackRun.EarlyAtEnd`);
- `dotie` goes on tying in notes of another pitch on the same staff line after one bar line has
  been crossed, with no further bar line between (`Ties.SharpTiedIn`), it does so even for a
  note with an accidental of its own (`Ties.OwnSharpLost`), and it does not count `||` and `::`
  as bar lines (`Ties.TieLost`); `Ties.StrictExactly` has the exact condition;
- `read_spec` never gets past `+` or `-` (`PartSpec.ReadSpec`, `PartSpec.PlusSticks`);
- a variant list with a number between two dashes is bad and can make a tune endless
  (`Variants.ListGoodExactly`, `RepeatsEnd.SectionEndsExactly`, `Variants.NeverEnds`), and a
  last ending closed by `:|` brings the head of the section once more
  (`Repeats.NumberedExactly`);
- `fixreps` repairs only the first section of variant endings that lacks a `|:`
  (`FixReps.FirstVariantInside`, `FixReps.SecondSectionLost`);
- an empty group of grace notes loses time (`Grace.OrigExactly`, `Grace.EmptyGroup`), and
  `applygrace_new`, whose comment says that a short host leaves the grace notes no length,
  tests the wrong number and makes the host negative instead (`Grace.NewExactly`,
  `Grace.LongGroup`);
- quantization is bounded for two parts per unit but not for every number that may be set
  (`Quantize.BoundedExactly`);
- `label_split_voices` can run past its arrays when ten voices would do (`Splits.TenWouldDo`);
- accidentals above double are printed once (`Transpose.ShownExactly`), and `-nokey` applies
  double ones twice (`Transpose.SquaredExactly`, `Transpose.DoubleSquared`).

Many small lemmas only unfold one definition or one field of an invariant: the larger proofs
hide all definitions and use these. A fatal error of the program is an answer of the method;
its other error messages are kept as lists or flags where a property is about them, and left
out otherwise.

## Model

| member | source | states |
|---|---|---|
| Fractions.Reduce | abcmidi-20070318/genmidi.c:206-236 | Euclid's loop leaves a pair in lowest terms that stands for the same number, with its sign, for every numerator |
| Fractions.AddFract | abcmidi-20070318/store.c:3336-3343 | the pair becomes the exact sum, in lowest terms |
| Dots.CountDots | abcmidi-20070318/yapstree.c:615-663 | terminates on all inputs and returns d >= 0 exactly when m is a power of two and n/m is 2^e * (2 - 2^-d) for some e and d; then d and the exponent written back are the ones, and base is the denominator of the undotted note, or 0 above a whole unit |
| Dots.DotsUnique | abcmidi-20070318/yapstree.c:615-663 | no fraction is dotted in two ways |
| NoteQueue.InsertIsStable | abcmidi-20070318/queues.c:67-109 | in absolute times, addtoQ is insertion into a stable priority queue: after everything due no later, and later items come forward alike by at most notedelay, never past the new one |
| NoteQueue.StableInsertPlace | abcmidi-20070318/queues.c:67-109 | the items due by then stay in front at their times, and all later ones come earlier alike, by notedelay or by the gap to the first of them if that is less |
| NoteQueue.StableInsertNoDelay | abcmidi-20070318/queues.c:67-109 | with notedelay 0 the items due by then stay in front and the later ones behind, all at their own times |
| NoteQueue.InsertNonNegative | abcmidi-20070318/queues.c:67-109 | a wait >= 0 keeps every delay non-negative, whatever notedelay is |
| NoteQueue.ScheduleSorted | abcmidi-20070318/queues.c:168-176 | with no negative delay the pending items fall due in list order |
| NoteQueue.EveryCellHeld | abcmidi-20070318/queues.c:192-244 | what Qcheck tests: the used and the free list hold each of the 50 cells exactly once between them |
| NoteQueue.Queue.constructor | abcmidi-20070318/queues.c:178-190 | Qinit leaves an empty queue with all cells free |
| NoteQueue.Queue.AddToQ | abcmidi-20070318/queues.c:67-109 | the array version keeps both lists intact, fails exactly when no cell is free, and otherwise changes the pending items as Insert says |
| NoteQueue.Queue.AdvanceQ | abcmidi-20070318/queues.c:168-176 | only the head's delay changes |
| NoteQueue.Queue.RemoveFromQ | abcmidi-20070318/queues.c:111-126 | fatal exactly when the queue is empty or its head is not due; otherwise the head is dropped and its cell freed |
| Playback.ProgressKeeps | abcmidi-20070318/genmidi.c:1825-1834 | the accompaniment takes no time and either plays a pattern step or does nothing, which is why timestep terminates |
| Playback.TimeStepConservesTime | abcmidi-20070318/queues.c:262-291 | tracklen + delta_time grows by exactly t, less the time a chord being built has used, although progress_sequence inserts items on the way |
| Playback.TimeStepOnTime | abcmidi-20070318/queues.c:262-291 | with playable pattern steps the program does not stop, no delta is negative, and every note-off booked for an earlier time, those booked on the way included, is written once at exactly its time while the others are still due at theirs |
| Playback.AdvanceSchedule | abcmidi-20070318/queues.c:168-176 | letting time pass for the head leaves every absolute due time as it was |
| Playback.FatalExactly | abcmidi-20070318/queues.c:111-126 | serving an item ends in "queue head has non-zero time" exactly when it asks for a pattern step whose notes last less than a tick |
| Playback.ServeAtEnd | abcmidi-20070318/queues.c:272-286 | at the end of the track serving never stops the program and writes the next note-off at its time, or drops a request |
| Playback.ClearQWritesAll | abcmidi-20070318/queues.c:128-151 | clearQ empties the queue and writes every pending note-off once, in order, each early by what the thrown-away requests at the head had still to wait |
| Playback.ClearQOnTimeExactly | abcmidi-20070318/queues.c:128-151 | the note-offs left over come out when they are due if and only if no request with time to wait stood in front of them |
| Delay.DelayedExact | abcmidi-20070318/genmidi.c:1651-1664 | one call is exact: ticks issued plus the new error are the old error plus the length, and the error stays a proper fraction in lowest terms |
| Delay.NoDrift | abcmidi-20070318/genmidi.c:1651-1664 | after any sequence of waits the ticks are exactly the floor of div_factor times the exact sum, and the error is its fractional part |
| Track.Track.AddToQ | abcmidi-20070318/queues.c:67-109 | the wait is worked out and the item queued as the specification says |
| Track.Track.SaveNote | abcmidi-20070318/genmidi.c:1666-1676 | the note is written and its end queued, as the specification says |
| Track.Track.DoGchords | abcmidi-20070318/genmidi.c:1681-1773 | one step of the chord pattern, on the real queue, is the specification's |
| Track.Track.DoDrums | abcmidi-20070318/genmidi.c:1775-1797 | one step of the drum pattern is the specification's |
| Track.Track.ProgressSequence | abcmidi-20070318/genmidi.c:1825-1834 | which of the two patterns moves on is the specification's choice |
| Track.Track.TimeStep | abcmidi-20070318/queues.c:262-291 | the loop over the real queue, re-entered through ProgressSequence, terminates in the specification's state |
| Track.Track.Wait | abcmidi-20070318/genmidi.c:1651-1664 | delay on the real state: the exact carry, then timestep |
| Track.Track.ClearQ | abcmidi-20070318/queues.c:128-151 | ends in the specification's state with all 50 cells free and no fatal error |
| Track.Track.StartTrack | abcmidi-20070318/genmidi.c:1970-1982 | on the queue that Qinit left, the request that starts the accompaniment |
| Track.Track.CheckBar | abcmidi-20070318/genmidi.c:449-457 | both pattern pointers go back to the start and new requests are queued, as the specification says |
| TrackRun.RunOnTime | abcmidi-20070318/genmidi.c:2156-2200 | over a whole run of notes, waits, bar lines that restart the patterns, chords and switches of the accompaniment: never fatal, no negative delta, every note-off written once at its own time or still due, and the clock is exact to the fraction |
| TrackRun.TrackLength | abcmidi-20070318/genmidi.c:1651-1664 | a track begun as starttrack begins it, accompaniment included, is as long as the whole ticks of the time written in it |
| TrackRun.WholeTrack | abcmidi-20070318/queues.c:128-151 | from starttrack through any run to the end of clearQ: not fatal, no negative delta, the queue ends empty, every note-off ever booked is written exactly once, and all at their times if and only if at the end no request with time to wait stands before a pending note-off |
| TrackRun.FatalTrack | abcmidi-20070318/genmidi.c:306-312 | %%MIDI gchord f0c2, a pattern whose first step has no length, stops the track at the first wait after a chord |
| TrackRun.EarlyAtEnd | abcmidi-20070318/queues.c:128-151 | the chord [CE3] at the end of a tune with accompaniment, of which only the first note is waited for: the other's note-off comes out 480 ticks early |
| TrackRun.NegativeDeltaExactly | abcmidi-20070318/queues.c:67-109 | from such a state, a note leads to an event with negative delta if and only if it lasts less than a tick |
| TrackRun.NegativeDelta | abcmidi-20070318/queues.c:67-109 | a note of a 512th of a unit leads to such an event |
| Sounding.SaveNoteSounds | abcmidi-20070318/genmidi.c:1666-1676 | the note-on is written now, transposed unless on the drum channel, and its end is booked for the floor of div_factor times its exact length, less one tick, from now, if a cell is free |
| Sounding.FundamentalStep | abcmidi-20070318/genmidi.c:1693-1706 | f, and c without a chord: the fundamental alone; its end is booked, and the next step asked for when this one is over |
| Sounding.ChordStep | abcmidi-20070318/genmidi.c:1715-1722 | c: one note-on for each note of the chord, in order, on its channel and velocity, each with its booked end |
| Sounding.BothStep | abcmidi-20070318/genmidi.c:1708-1722 | b: the fundamental, then the chord |
| Sounding.OneNoteStep | abcmidi-20070318/genmidi.c:1724-1764 | g to j: that note of the chord, if there is one; G to J: an octave lower |
| Sounding.QuietStep | abcmidi-20070318/genmidi.c:1696-1700 | z, or no chord yet, or chords off: nothing sounds, and the pattern still moves on |
| Sounding.DrumStep | abcmidi-20070318/genmidi.c:1775-1797 | d with drums on: one hit on channel 9, not transposed, with its booked end |
| Sounding.BarRestarts | abcmidi-20070318/genmidi.c:449-457 | both patterns go back to their start and are asked for at once |
| Sounding.WrongStep | abcmidi-20070318/genmidi.c:1681-1688 | a request for another step than the next does nothing |
| Sounding.StartAsks | abcmidi-20070318/genmidi.c:1970-1982 | a track begins with a request for the first step of the chord pattern, if it has one, and nothing else |
| Sounding.RequestServed | abcmidi-20070318/genmidi.c:1825-1834 | a request goes to the chord pattern and then to the drum pattern, as far as they are on |
| Sounding.NotePlayed | abcmidi-20070318/genmidi.c:2156-2200 | in a whole run each note of the tune is struck at the floor of the exact time before it, and its end booked the floor of its exact length later, less one tick |
| Sounding.NoteHeard | abcmidi-20070318/genmidi.c:2156-2200 | and the finished track has that note-on, and that note-off unless clearQ had to throw time away |
| Sounding.FlushEnds | abcmidi-20070318/queues.c:128-151 | clearQ goes on to one tick after the last pending item is due |
| Sounding.NothingToClear | abcmidi-20070318/queues.c:128-151 | with nothing pending clearQ just adds 25 ticks |
| Ties.TieFix | abcmidi-20070318/store.c:3544-3618 | for one voice of positive lengths: what is played afterwards, every sound's onset, length and pitch and the total time, is what dotie takes the ties to mean; that is what they mean as written if and only if no tie goes amiss (Ties.StrictExactly); and "Time mismatch at tie" is never reported |
| Ties.StrictExactly | abcmidi-20070318/store.c:3417-3450 | dotie takes a tune as it is written, where a tie leads to the next note of its pitch or, over a bar line of any kind, to the next one on its staff line that has no accidental of its own, if and only if it ties in no note of another pitch without a bar line since its own tie, none of another pitch with an accidental of its own, and leaves out none that a tie leads to over a double bar or a double repeat sign |
| Ties.SharpTiedIn | abcmidi-20070318/store.c:3439-3450 | C-, a bar line, C-^C: the c sharp becomes part of the c, one sound of length 3, where 2 of c and 1 of c sharp are written |
| Ties.TieLost | abcmidi-20070318/store.c:3417-3422 | ^C-, a double bar, C: the tie is lost, because that sign is not counted though the sharp is cancelled there |
| Ties.OwnSharpLost | abcmidi-20070318/store.c:3439-3450 | C-, a bar line, ^C: the c sharp is tied in and lost |
| Ties.DoTie | abcmidi-20070318/store.c:3361-3511 | one tie dealt with in place keeps what dotie takes the whole tune to mean, leaves all before it settled, and finds its note exactly when the nearest note or rest before is a NOTE |
| Ties.ChainMeans | abcmidi-20070318/store.c:3423-3450 | a run of tied notes of one pitch, or on one staff line across bar lines, is one sound of the exact total length at the first onset as dotie takes it, and as written too if those of another pitch have no accidentals of their own |
| Ties.Ends | abcmidi-20070318/store.c:3417-3500 | a note not tied in, or a rest, ends the run, and all that follows means what it did |
| Grace.ApplyGraceOrig | abcmidi-20070318/store.c:3631-3735 | the notes of the group share the fraction of the host in proportion, the host keeps the rest, nothing else changes; without a host nothing changes at all |
| Grace.OrigExactly | abcmidi-20070318/store.c:3631-3735 | group and host together keep the host's old length if and only if the group has a note in it |
| Grace.OrigShares | abcmidi-20070318/store.c:3631-3735 | the host keeps the rest of the fraction, and the grace notes share theirs in proportion to their old lengths |
| Grace.EmptyGroup | abcmidi-20070318/store.c:3631-3735 | an empty group: the length of the host is not kept |
| Grace.ApplyGraceNew | abcmidi-20070318/store.c:3738-3860 | each grace note is divided by the divider and the host loses their sum; the branch for a host that is too short is never taken |
| Grace.NewExactly | abcmidi-20070318/store.c:3820-3843 | time is always kept, and the host is left with a negative length if and only if the divided group is longer than it was |
| Grace.NewShares | abcmidi-20070318/store.c:3738-3860 | each grace note becomes as many times shorter as the divider says |
| Grace.LongGroup | abcmidi-20070318/store.c:3820-3843 | a grace note of four units before a note of one, divided by two, leaves the host a negative length |
| Grace.DoGrace | abcmidi-20070318/store.c:3864-3884 | place by place each group is dealt with by the method set last, and over the whole tune the total time becomes the time without the grace notes as written |
| Grace.GoesMeans | abcmidi-20070318/store.c:3864-3884 | which method a group is dealt with by, in terms of the lengths that come out, and how SETGRACE sets it |
| Grace.LenMul | abcmidi-20070318/store.c:2288-2298 | exact product in lowest terms for notes and rests, nothing for other features |
| Repeats.Inlist | abcmidi-20070318/genmidi.c:1086-1132 | the scan of a variant list, bad lists included, is the specification's |
| Repeats.ListMeans | abcmidi-20070318/genmidi.c:1105-1131 | on the printed form of any list of numbers and ranges, a pass is found exactly when the list covers it, and the list is not called bad |
| Repeats.Progress | abcmidi-20070318/genmidi.c:2308-2451 | every round either moves the saved place, or begins a further pass, or goes on; passes stay below the bound that the lists give |
| RepeatsEnd.PassesEndExactly | abcmidi-20070318/genmidi.c:1105-1131 | there is such a bound, so that writetrack terminates, if and only if no variant list meets a character that is no digit where a number should be, on any pass |
| RepeatsEnd.ListNeverBad | abcmidi-20070318/genmidi.c:1105-1131 | no list of numbers and ranges does |
| RepeatsEnd.SectionEndsExactly | abcmidi-20070318/genmidi.c:2308-2451 | a section with variant endings, whatever their lists, is left after finitely many rounds if and only if some pass, up to one beyond all numbers in its lists, finds no ending for it that is closed by an end repeat |
| RepeatsEnd.TuneEndsExactly | abcmidi-20070318/genmidi.c:2308-2451 | and so does the tune that consists of it |
| RepeatsEnd.GoodSectionEnds | abcmidi-20070318/genmidi.c:2355-2422 | which is so whenever no list is bad |
| RepeatsEnd.NamedPlayedExactly | abcmidi-20070318/genmidi.c:2355-2422 | the passes played are those up to the first that finds no ending closed by an end repeat; so every pass that a list names is played if and only if every pass before one that is named finds an ending closed by an end repeat |
| RepeatsEnd.NamedNotPlayed | abcmidi-20070318/genmidi.c:2355-2422 | a repeated A with endings [1,3 B and [2 C, the last closed by a double bar, plays A B A C: pass 3 is never reached |
| Variants.Getrep | abcmidi-20070318/parseabc.c:1166-1198 | the list copied is the longest piece of the text, from there on, that is made of digits with single dashes or commas between them |
| Variants.ListGoodExactly | abcmidi-20070318/genmidi.c:1105-1131 | of such lists, exactly those are bad on some pass in which a number stands between two dashes |
| Variants.ListingMeans | abcmidi-20070318/store.c:2087-2105 | keeping a single number apart from the text makes no difference to the passes it holds |
| Variants.PlainListsEnd | abcmidi-20070318/genmidi.c:2308-2451 | a section none of whose lists is like that comes to an end |
| Variants.NeverEnds | abcmidi-20070318/genmidi.c:1108-1113 | a repeated A with the one ending [1-2-3 B is still inside the loop after any number of rounds |
| Repeats.WriteTrack | abcmidi-20070318/genmidi.c:2303-2451 | the loop with its backward jumps terminates and yields the music and complaints of Run |
| Repeats.TuneRun | abcmidi-20070318/genmidi.c:2303-2451 | on any tune made of plain music, chains of repeats and sections with variant endings, the music played is exactly the tune written out, with no complaint |
| Repeats.PassesRun | abcmidi-20070318/genmidi.c:2355-2422 | a section with variant endings, lists of passes included, plays per pass its head and the first ending for that pass, and goes back as long as that ending is closed by an end repeat |
| Repeats.NumberedExactly | abcmidi-20070318/genmidi.c:2324-2353 | endings numbered 1 to k give A B1 A B2 ... A Bk; A comes once more exactly when the last ending is closed by an end repeat as well |
| Repeats.EndingLeftOut | abcmidi-20070318/genmidi.c:2383-2414 | an ending for another pass is skipped together with the sign that closes it |
| Repeats.TwiceRun | abcmidi-20070318/genmidi.c:2308-2451 | where repeats begin and end in turn, each section that a repeat sign closes is played exactly twice, and only a missing last end is complained about |
| Repeats.AnyRun | abcmidi-20070318/genmidi.c:2308-2451 | without variant endings, in any order of the signs: sections begun and ended sound twice and all others once, and the complaints are exactly what is wrong with the order |
| Repeats.PlainTuneRun | abcmidi-20070318/genmidi.c:2308-2451 | so for every whole tune without variant endings |
| Repeats.VariantComplaints | abcmidi-20070318/genmidi.c:2355-2422 | each of the four complaints at a variant ending is made exactly when it should be, and an ending outside of any repeat counts as one for the first pass |
| FixReps.FixReps | abcmidi-20070318/store.c:4016-4082 | with a double bar before the first repeat sign, the array becomes Repaired, which is defined place by place from the original signs, variant endings included |
| FixReps.FirstVariantInside | abcmidi-20070318/store.c:4062-4068 | the first variant ending is inside a repeat after the repair |
| FixReps.SecondSectionLost | abcmidi-20070318/store.c:4062-4068 | a second section of endings without a repeat sign stays outside of any repeat, because nplays is never reset |
| FixReps.RepairedFrom | abcmidi-20070318/store.c:4016-4082 | after the repair repeats begin and end in turn; the last is left open exactly if no end repeat followed the last start or double repeat |
| FixReps.RepairedRun | abcmidi-20070318/store.c:4016-4082 | writetrack then never reports an unexpected end or double repeat or a missing end before a start repeat, and plays every closed section twice |
| PartSpec.ExpandsMeaning | abcmidi-20070318/store.c:1753-1843 | on the printed form of every expression nested at most ten deep, the scan yields exactly the recursive expansion, an empty stack and no error |
| PartSpec.DepthLimitExact | abcmidi-20070318/store.c:1753-1843 | a well-formed expression is accepted without error if and only if its brackets nest at most ten deep |
| PartSpec.GroupExpands | abcmidi-20070318/store.c:1753-1843 | a label and a bracketed pair with a number: the label and so many times the pair, written out by concatenation |
| PartSpec.Unbalanced | abcmidi-20070318/store.c:1753-1843 | a stray closing bracket, a number with nothing before it and a bracket left open are each noticed |
| PartSpec.ReadSpec | abcmidi-20070318/store.c:1753-1843 | the cursor, stack and buffer version computes the scan, and goes round for ever exactly on + or - |
| PartSpec.StuckExactly | abcmidi-20070318/store.c:1773-1775 | the first character that is not handled is where it stops |
| PartSpec.PlusSticks | abcmidi-20070318/store.c:1773-1775 | A+B: the scan stops behind the A |
| VarLen.ReadInvertsWrite | abcmidi-20070318/midifile.c:494-509 | readvarinum undoes the variable-length form of every value and stops right behind it |
| VarLen.QuantityFlags | abcmidi-20070318/midifile.c:969-989 | only the last byte is below 0x80 |
| VarLen.QuantityGroups | abcmidi-20070318/midifile.c:969-989 | byte k holds the seven bits of the value at its place, the highest first |
| VarLen.QuantityLength | abcmidi-20070318/midifile.c:969-989 | n bytes suffice exactly for values below 128^n; four for those below 2^28 |
| VarLen.QuantityShortest | abcmidi-20070318/midifile.c:969-989 | nothing shorter reads back as the same value |
| MidiFormat.EventReads | abcmidi-20070318/midifile.c:275-366 | any valid event, with its status byte or under running status, is read back as itself at the right time |
| MidiFormat.EventsRead | abcmidi-20070318/midifile.c:275-366 | so is any list of events, in order, at the prefix sums of the deltas, whichever repeated status bytes are left out, ending exactly at the chunk's end |
| MidiFormat.TrackReadsBack | abcmidi-20070318/midifile.c:252-369 | a whole track chunk reads back as the events that were written |
| MidiFormat.ChannelMessageRead | abcmidi-20070318/midifile.c:438-475 | for every channel, 0x80 to 0xE0 plus the channel and the data bytes are reported as note-off, note-on, pressure, parameter, program, channel pressure and pitch bend, as Standard MIDI Files 1.0 has them |
| MidiFormat.RunningMessageRead | abcmidi-20070318/midifile.c:285-309 | and so are the data bytes alone under running status |
| MidiFormat.MessagesReadBack | abcmidi-20070318/midifile.c:252-369 | a track chunk of such messages is read back as those messages at the sums of their delta times |
| MidiFormat.SysexBegun | abcmidi-20070318/midifile.c:328-342 | a system exclusive message that does not end is reported by itself, or kept when parts are merged |
| MidiFormat.SysexGoesOn | abcmidi-20070318/midifile.c:344-362 | further parts are joined to it and reported once at the end; without one to go on they are arbitrary data |
| MidiFormat.WrongByte | abcmidi-20070318/midifile.c:275-366 | the three errors of the loop, each for the bytes that lead to it |
| MidiFormat.MetaBytes | abcmidi-20070318/midifile.c:893-918 | a meta event is 0xff, kind, length and data |
| MidiFormat.SysexBytes | abcmidi-20070318/midifile.c:328-342 | a system exclusive message is 0xf0, the length of the rest, and the rest |
| MidiFormat.EndBytes | abcmidi-20070318/midifile.c:700-809 | every track closes with 0xff 0x2f 0 |
| MidiFormat.WordMeans | abcmidi-20070318/midifile.c:512-540 | the four bytes of a length come most significant first |
| MidiFormat.HeaderSpelt | abcmidi-20070318/midifile.c:700-809 | the header spells MTrk |
| MidiFormat.NoTrackExactly | abcmidi-20070318/midifile.c:184-202 | readtrack answers 0 exactly when the file ends within "MTrk" with no wrong byte before |
| MidiWriter.Writer.WriteVarLen | abcmidi-20070318/midifile.c:969-989 | the pack-and-shift loops emit exactly the variable-length form |
| MidiWriter.ReadsBackExactly | abcmidi-20070318/midifile.c:969-989 | what is written for an int reads back as it if and only if it is not negative |
| MidiWriter.Writer.WriteMidiEvent | abcmidi-20070318/midifile.c:850-876 | appends the encoded event; a channel above 15 is fatal |
| MidiWriter.Writer.WriteMetaEvent | abcmidi-20070318/midifile.c:893-918 | appends the encoded meta event |
| MidiWriter.Writer.WriteTrackChunk | abcmidi-20070318/midifile.c:700-809 | the file gains exactly the track chunk, its length filled in afterwards; writing aborts exactly when header or body exceed the byte limit of eputc |
| MidiReader.MessageBuffer.Add | abcmidi-20070318/midifile.c:593-600 | the message grows by one byte, whether or not the buffer has to |
| MidiReader.MessageBuffer.Bigger | abcmidi-20070318/midifile.c:603-627 | a larger fresh buffer with the same message |
| MidiReader.Reader.Readvarinum | abcmidi-20070318/midifile.c:494-509 | byte by byte, the value of the specification, or its error at the end of the file |
| MidiReader.Reader.ChannelMessage | abcmidi-20070318/midifile.c:299-309 | consumes the data bytes its status needs and reports the message |
| MidiReader.Reader.Event | abcmidi-20070318/midifile.c:275-366 | one round of the loop is one step of the specification, in its errors too |
| MidiReader.Reader.Readmt | abcmidi-20070318/midifile.c:184-202 | the header byte by byte: a wrong byte is fatal, the end of the file before the fourth is not |
| MidiReader.Reader.ReadTrack | abcmidi-20070318/midifile.c:252-369 | the byte-at-a-time reader agrees with the specification on every input; Mf_toberead is the chunk's end less the place reached, so 0 on what the writer wrote |
| Pairing.RunIsFifo | abcmidi-20070318/midi2abc.c:351-426 | for every pitch and channel and every run of events, the n-th note-off that finds a note ends the n-th note-on and sets its length; others do not interfere |
| Pairing.TrackIsFifo | abcmidi-20070318/midi2abc.c:351-426 | the same from an empty track |
| Pairing.TrackHolds | abcmidi-20070318/midi2abc.c:351-426 | the track holds the note-ons in order with their pitches, velocities and times, and every note-off has either ended one note or been counted as a miss |
| Pairing.Recorder.AddNote | abcmidi-20070318/midi2abc.c:351-382 | a note is appended to the track and to the heap list of sounding notes |
| Pairing.Recorder.NoteStop | abcmidi-20070318/midi2abc.c:386-426 | the oldest sounding note of that pitch and channel is unlinked and gets its length; everything else and its order stay; a miss changes nothing but the count |
| NoteLists.NoteList.Append | abcmidi-20070318/midi2abc.c:328-348 | the doubly linked list stays well linked and grows at its end |
| NoteLists.NoteList.Unlink | abcmidi-20070318/midi2abc.c:1652-1675 | the list stays well linked and loses exactly that node |
| Quantize.BoundedExactly | abcmidi-20070318/midi2abc.c:1300-1355 | the rounding error stays within -(quantum/4) and quantum/4 + 1 on every track if and only if parts_per_unitlen divides 2 * xunit, which two always does |
| Quantize.WholeQuantumAt | abcmidi-20070318/midi2abc.c:1328-1350 | then spare is within bounds before and after every note, and every xnum is non-negative |
| Quantize.BoundedTrack | abcmidi-20070318/midi2abc.c:1328-1350 | positions never go back, and the total error is at most notes * (quantum/4 + 1) |
| Quantize.PlaynumNotNegative | abcmidi-20070318/midi2abc.c:1329-1344 | no note gets a negative length |
| Quantize.PlaynumMeans | abcmidi-20070318/midi2abc.c:1327-1338 | a note's length is the number of half quanta in it, a quarter quantum being rounded up; 1 instead of 0 exactly with keep_short; and the time to the next onset exactly if that leaves a rest to be swallowed |
| Quantize.QuantumMeans | abcmidi-20070318/midi2abc.c:1316 | the quantum goes parts_per_unitlen times into twice the unit |
| Quantize.ToNextMeans | abcmidi-20070318/midi2abc.c:1279-1298 | the time to the next onset is the note's own xnum, or else the first positive gap among the next five |
| Quantize.XnumMeans | abcmidi-20070318/midi2abc.c:1326 | the distance to the next note in half quanta, with what was carried over |
| Quantize.SpareMeans | abcmidi-20070318/midi2abc.c:1349 | 96 parts in 100 of the error are carried on |
| Quantize.TotalErrorMeans | abcmidi-20070318/midi2abc.c:1340-1346 | the total error adds up the sizes of the errors |
| Quantize.QuantizedLength | abcmidi-20070318/midi2abc.c:1327-1338 | so is the playnum of every note of a track |
| Quantize.QuantizeTrack | abcmidi-20070318/midi2abc.c:1300-1355 | every note's three fields, and the error returned, are those of the recurrence; ticks are left alone |
| Quantize.NextOnset | abcmidi-20070318/midi2abc.c:1279-1298 | xnum if positive; else the first positive gap among the next five notes, in units with the time carried over, or 0 if there is none |
| Notation.Notate | abcmidi-20070318/midi2abc.c:2694-2821 | quantize and then printtrack, for times that do not go back and parts_per_unitlen dividing 2 * xunit: never fatal, and what is printed is, bar by bar, the score that quantize makes of the times, every note in full |
| Notation.PlaceInScore | abcmidi-20070318/midi2abc.c:1350-1351 | posnum is where the note stands in the score, counted from the first |
| ChordSlicer.Slicer.AddToChord | abcmidi-20070318/midi2abc.c:1609-1650 | the note goes in front of the first that is not higher, in a list that stays well linked |
| ChordSlicer.Slicer.RemoveFromChord | abcmidi-20070318/midi2abc.c:1652-1675 | the list loses that node only, and the answer is the next one |
| ChordSlicer.Slicer.FindShortest | abcmidi-20070318/midi2abc.c:1677-1694 | a minimum over gap and all remaining lengths |
| ChordSlicer.Slicer.AdvanceChord | abcmidi-20070318/midi2abc.c:1696-1718 | "note too short" exactly if some note is; otherwise finished notes leave, the others are shortened, nothing else changes |
| ChordSlicer.HeldSounds | abcmidi-20070318/midi2abc.c:1778-1800 | the chord list is, in order of descending pitch, exactly the notes that sound then |
| ChordSlicer.TestTrack | abcmidi-20070318/midi2abc.c:1760-1816 | terminates, is fatal only for a negative length, and counts exactly the bar lines that some note is held across |
| ChordSlicer.PrintTrack | abcmidi-20070318/midi2abc.c:2694-2821 | terminates without fatal error; every slice shows at each instant of it the notes sounding then, tied exactly if they sound on; slices have printable lengths, none crosses a bar line, every bar is full, and none could be longer without going beyond a beginning or an end |
| ChordSlicer.HeardInFull | abcmidi-20070318/midi2abc.c:1696-1718 | the slices of each note add up to its whole length, less what lies beyond the end of the track |
| ChordSlicer.ValidNote | abcmidi-20070318/midi2abc.c:2032-2051 | the greatest length up to n that is a power of two or three times one |
| ChordSlicer.PrintableMeans | abcmidi-20070318/midi2abc.c:2032-2051 | the lengths that can be printed are exactly the powers of two and three times those |
| Splits.AssignedProper | abcmidi-20070318/midi2abc.c:2188-2276 | in one voice any two notes either coincide or follow one another |
| Splits.XnumsTelescope | abcmidi-20070318/midi2abc.c:2157-2185 | splitgap and the xnums of any used voice add up to the time from the first note of the track to the end of the last |
| Splits.EnoughVoices | abcmidi-20070318/midi2abc.c:2262-2268 | with fewer than ten earlier notes in the way of each note, sounding on and not coinciding with it, the ten arrays suffice |
| Splits.ManyInTheWay | abcmidi-20070318/midi2abc.c:2262-2268 | not conversely: any number of coinciding notes may be in the way, and two voices do |
| Splits.TenWouldDo | abcmidi-20070318/midi2abc.c:2262-2268 | the greedy choice can run out although ten voices would do |
| Splits.Labeller.LabelSplit | abcmidi-20070318/midi2abc.c:2157-2185 | all six arrays and the fields of this note and the one before in its voice, and nothing else |
| Splits.Labeller.LabelSplitVoices | abcmidi-20070318/midi2abc.c:2188-2276 | stays within the arrays exactly when the greedy choice needs at most ten voices; then every note has its voice and the xnums telescope in each |
| Transpose.StepPitch | abcmidi-20070318/toabc.c:1275-1303 | for -7 to 7 sharps, the pitch of a staff step is floor((12 * step + 5 + sharps) / 7) |
| Transpose.MiddleC | abcmidi-20070318/toabc.c:2227-2253 | written C is MIDI pitch 60, and an octave is twelve semitones |
| Transpose.BarMoved | abcmidi-20070318/toabc.c:1965-2018 | in every key and for every interval, each note of a bar sounds exactly t semitones higher in the new key, whatever accidentals came before it |
| Transpose.ComposesExactly | abcmidi-20070318/toabc.c:1371-1391 | going by t then u writes the key of t + u, except exactly when t + u is 0, t is not, and the key is outside -5 to 6 sharps |
| Transpose.NotesComposeToo | abcmidi-20070318/toabc.c:1979-2018 | wherever the keys agree the notes are the same too |
| Transpose.ShownExactly | abcmidi-20070318/toabc.c:2037-2042 | as printed the notes sound right if and only if no accidental is more than double |
| Transpose.TripleSharp | abcmidi-20070318/toabc.c:2037-2042 | a note that comes out two semitones too low |
| Transpose.SquaredExactly | abcmidi-20070318/toabc.c:2137-2143 | with -nokey the pitches of a bar are right if and only if no accidental is double |
| Transpose.DoubleSquared | abcmidi-20070318/toabc.c:2137-2143 | ^^c comes out as e instead of d |
| Transpose.Transposer.SetMap | abcmidi-20070318/toabc.c:1275-1303 | the table of a key, by the order of sharps |
| Transpose.Transposer.EventKey | abcmidi-20070318/toabc.c:1371-1391 | new key, steps and tables of the key that was read, and a fresh bar |
| Transpose.Transposer.PitchOf | abcmidi-20070318/toabc.c:2227-2253 | the pitch under the accidentals in force, which an accidental changes for its letter only |
| Transpose.Transposer.MoveNote | abcmidi-20070318/toabc.c:1965-2018 | the note printed is the one moved, with C's division corrected to floor |
| Transpose.Transposer.MidiPitch | abcmidi-20070318/toabc.c:2116-2145 | the pitch that -nokey prints, accidentals multiplied twice |
| NoteText.NoteRead | abcmidi-20070318/parseabc.c:1027-1164 | any note as printed, followed by nothing that belongs to it, is read back with no microtone and no complaint |
| NoteText.SlashedNoteRead | abcmidi-20070318/parseabc.c:368-400 | k slashes without a number after them divide the length by 2^k: C/ is half, C3// three quarters |
| NoteText.MicrotoneNoteRead | abcmidi-20070318/parseabc.c:436-446 | a sharp or flat with a fraction is a microtone of that size and direction; a doubled sign keeps its letter, a single one loses it |
| NoteText.NaturalFirst | abcmidi-20070318/parseabc.c:1099-1117 | after a natural sign a sharp or flat stands by itself, with its microtone |
| NoteText.MarkedPlaceRead | abcmidi-20070318/parseabc.c:1123-1156 | octave marks of either kind move by octaves, and those that do not go with the letter are complained about |
| NoteText.DecorationTable | abcmidi-20070318/parseabc.c:78 | the nine decorations, each with its own flag |
| NoteText.NoNoteRead | abcmidi-20070318/parseabc.c:1050-1070 | decorations before a bracket, before nothing that is a note, and at the end of the text |
| NoteText.NotesRoundTrip | abcmidi-20070318/parseabc.c:1027-1164 | for any sequence of notes printed one after the other, calling parsenote again and again gives the same notes, with lengths in lowest terms |
| NoteText.SameWritten | abcmidi-20070318/parseabc.c:1027-1164 | notes with accidentals that the parser itself makes come back unchanged, lengths as the same fraction in lowest terms |
| NoteText.TextMoved | abcmidi-20070318/toabc.c:1965-2062 | from text to text: what event_note1 writes for a bar of notes is read by parsenote as those notes moved, decorations and scaled lengths included, and sounds t semitones higher throughout if and only if no accidental has to be more than double |
| NoteText.NotePrinter.EventNote1 | abcmidi-20070318/toabc.c:1965-2062 | appends the text of the moved note with its scaled length in lowest terms |
| NoteText.Parsenote | abcmidi-20070318/parseabc.c:1027-1164 | the cursor version agrees with the specification on every text, in all its outcomes |
| NoteText.Readlen | abcmidi-20070318/parseabc.c:368-400 | number, slashes and missing numbers; warns exactly when the divisor is not a power of two |
| NoteText.PowerMeans | abcmidi-20070318/parseabc.c:388-396 | the divisors that are not warned about are exactly the powers of two |
| NoteText.ParseAccidental | abcmidi-20070318/parseabc.c:1071-1123 | doubled signs, naturals before signs and microtones |
| Text.Readnump | abcmidi-20070318/parseabc.c:306-318 | the decimal number from the cursor on, and the place behind it |
| Text.DecimalNumber | abcmidi-20070318/parseabc.c:306-318 | numbers are decimal |
| Text.ReadNumberInverts | abcmidi-20070318/parseabc.c:306-318 | reading a number undoes printing it when no further digit follows |

## Left out

- Several voices and parts (`findvoice`, `partbreak`, `sync_voice`): only one voice is played.
- Tempo, seconds, `guesslengths` and random chord attack: floating point or chance. The results
  about exact time are for `totalnotedelay` 0, outside chords that are being built.
- Karaoke, words, drum maps, drones and pitch bend: they would only add easy members.
- PostScript layout, file input and output, argument parsing, the text of messages.
- C's integer overflow and failing memory allocation.
- `midicopy.c`, `matchsup.c`, `dictionary.c`, `array.c`: copies of what is here, or easier.
- Ties.TieFix: no chords, grace notes, pitch bends or changes of voice, and notes and rests have positive lengths; the arrays feature, pitch, pitchline, num and denom are one array of entries; whether a note has an accidental of its own is kept beside them only to say what is written.
- Grace.DoGrace: groups are not empty, do not nest, hold no chord and have each a host of their own; a grace divider below 2, which is reported and yet used, is not covered.
- Grace.ApplyGraceOrig: for notes with positive lengths and no chords; a host of no length and an empty group together make the program divide by zero.
- Repeats.WriteTrack: bar numbers, transposition and channel, which are saved and restored with the place, are not part of the state.
- Repeats.TuneRun: variant endings are closed by `||` or `:|`; when the last one is closed by `|:` or `::` and left out, the search skips or misses that sign.
- FixReps.FixReps: the warnings of `placestartrep` and `placeendrep` are not part of this model.
- Quantize.QuantizeTrack: `xunit` is such that the quantum is not 0; with a smaller one the program divides by zero.
- ChordSlicer.PrintTrack: no triplets, broken rhythm, text or change of meter, and quantized gaps are not negative, which `Quantize` shows.
- ChordSlicer.TestTrack: the bar is longer than 0 and gaps are not negative.
- Splits.EnoughVoices: one way only. It counts notes, and earlier notes that coincide with each other may share a voice (Splits.ManyInTheWay); how many voices the others take depends on the greedy choice itself, as Splits.Labeller.LabelSplitVoices states it.
- TrackRun.WholeTrack: times of note-offs are claimed for `notedelay` 0; no step of the accompaniment and no note is shorter than a tick.
- Splits.Labeller.LabelSplitVoices: the printing of split voices and `last_i` are not part of this model.
- MidiReader.Reader.ReadTrack: the callbacks are a list of reports; what `metaevent` makes of a meta event and the search for the first header are not modelled.
- MidiWriter.Writer.WriteTrackChunk: the variant without file positions (NOFTELL) is not modelled.
- Transpose.Transposer.EventKey: the name of the key that is printed and guitar chords are not modelled; in a drum voice notes are copied while the key still changes.
- NoteText.Parsenote: outside chords and with no decorations passed back; a text that ends in decorations, which the program reads past, has an outcome of its own; decorations are nine flags, without the tenth that stands for the end of the text.
- NoteText.NotePrinter.EventNote1: counters for chords, grace notes, tuplets and spacing are not modelled.
- PartSpec.ReadSpec: the stack holds offsets into the text that is being built instead of pointers.
- Variants.Getrep: the lists of one number that `event_playonrep` keeps as a number are `Variants.Listing`; where lists may stand in the text is not part of this model.
