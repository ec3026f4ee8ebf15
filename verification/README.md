# NCL: verified models of the float-unboxing pass, the MIDI runtime, the MIDI back end and the Lisp front end

The repository is a Lisp system: a compiler from source forms to a typed intermediate
representation and to native code through LLVM, with an audio runtime that plays tunes written in
ABC notation. This project models the parts of it whose correctness is hardest to see, and proves
what they promise. `dafny verify dfyconfig.toml` checks everything.

**The float-unboxing pass** (`Ir`, `Evaluator`, `Optimize`, `Relation`, `Soundness`, `Fuel`,
`Guard`, `PassTheorems`, `PassShape`, `PassPromotes`). A forward walk with two parallel stacks and a slot counter finds `let`
bindings that are proven to be floats, stores them into unboxed f64 slots and rewrites every read.
`Optimize.Ctx` is the walk on its mutable context; `Optimize.Rewrite` is the account of it on
values. `Evaluator.Eval` gives every node of the representation a meaning by recursion on fuel, with
a locals stack, a frame of arguments and captures, an f64 slot file, a cons heap, globals and the
multi-value slot, and with the outcomes value, break, self-tail-continuation, error, unspecified and
out of fuel. The main theorem is that on every machine the rewritten program does what the source
does, whatever the body, the store, the fuel and the choice of functions for which inference is on,
as long as no operation with a float operand in the source run yields something that is not a float:
the run is specified on the machine that gives up there (`Guard.Guarded`). The simulation behind it
is node by node on machines whose arithmetic is contagious for floats (section 12.1.4.1 of the CLHS),
which a guarded machine always is. `MiscompiledIff` says for each pair of operands that the body that
binds their result keeps its meaning exactly when the guard holds, and `SoundIffContagious` that the
pass is harmless for all bodies of a machine exactly when the guard never bites. That the pass promotes all it should
is `PassPromotes.InferIff`: it stores exactly the provably float bindings, and nothing else has its result.

**The MIDI runtime** (`Channels`, `MidiTable`, `MidiSystem`, `MidiTheorems`, `MidiOwnChannels`, `MidiPause`, `MidiPlayed`, `MidiRuntime`,
`MidiRefinement`, `MidiLocks`, `MidiGuards`). Every critical section is one step of a state machine in which any number of threads
interleave; what a thread carries from one critical section to the next is its program counter.
`MidiRuntime.Runtime` performs each critical section on a channel array and a playback list, and is
proved against the same step functions; `MidiRefinement` joins each to its step. `MidiLocks` models
the mutexes themselves, and `MidiGuards` shows that no section touches a part of the state without its mutex.

**The ABC-to-MIDI back end** (`Sorting`, `MidiEvents`, `NoteTracks`, `ChannelAssignment`, `Smf`, `SmfTicks`,
`TempoMap`, `TempoOrder`, `Schedule`, `Generator`, `TuneFile`, `FileNotes`, `TempoFile`). Channel assignment, note-on
and note-off generation with the in-place flush
of active notes, stable sorting, quantisation to ticks, the bytes of a Standard MIDI File with a
decoder written from the format's own description (RP-001, Standard MIDI Files 1.0), the tempo map,
the compilation of an asset, and the way from a whole tune to what its asset plays and to what a reader
of its file sees. Beats and nanoseconds are reals.

**The Lisp front end** (`LispValue`, `Quasiquote`, `UnquotedForms`, `BackquoteStandard`, `ValueBridge`, `ParamList`,
`ParamGrammar`). The desugaring of backquote against two readings of a template as an append of segments: the
code's own, and that of section 2.4.6 of the CLHS; exactly when the two are one; the bridge between source values and run-time
words over a heap, and the lambda-list parser with a canonical printer and a grammar of what it accepts.

**Two smaller imperative pieces**: `JitMemory` (the section allocator and the clean-up of the unwind
table) and `Wav` (the PCM writer and reader).

## What the proofs found

- Float contagion fails for complex operands (README.md of the repository, lines 36-37, has them): a
  float plus a complex number is a complex number, so a promoted binding of such a sum is
  miscompiled. A run in which no float meets a complex number is compiled correctly on the same
  machine (`PassTheorems.RunPreserved`); `PassTheorems.MiscompiledIff` gives the exact condition on the
  operands of one binding.
- The pass's comment says that a nested lambda body gets its own run of the pass
  (src/ncl-compiler/src/optimize.rs:47-50). The code runs it on top-level bodies only
  (src/ncl-compiler/src/lib.rs:651-657); the model follows the code and leaves lambda bodies as they are.
- The node for a dynamic binding restores on the normal exit only; were a loop break or a self-tail
  continuation to leave its body, the binding would stay in force. The pass preserves this too.
- Some tempos do not survive the trip through a tempo event (`TempoMap.TempoSurvives`), among them all below
  1, which the parser accepts; every tempo from 4 to 7745 does.
- Tempo changes that are listed out of beat order are moved up to their predecessor (`TempoMap.ClampedSame`).
  Playback then follows the tempo in force, which is that of the written file, where the changes are sorted, if
  and only if at the start and at every change the moved list gives that tempo (`TempoOrder.IntegralIff`,
  `TempoFile.PlaybackIsFileIff`). Changes listed in time order always do (`TempoOrder.InOrderIntegral`); two
  voices are enough to break it (`TempoOrder.CrossedNotIntegral`): the map takes up a change too late, or loses
  one altogether, where the file has both.
- A zero-length note is switched off before it is switched on, and so is every note of a voice with a time
  signature over zero, which the parser accepts (`NoteTracks.NoteSounds`); in a compiled
  asset so is a note whose two times are cut to the same nanosecond (`Generator.NoteHeard`).
- Data bytes of a channel message are not masked: a file is written, and cannot be read back, if and only if
  some data byte is above 127 or an end marker is missing or misplaced (`Smf.FileRoundTrip`). The ABC parser
  clamps pitches (crates/newaudio-abc/src/parser.rs:1415) and takes velocities and instruments up to 127 only
  (crates/newaudio-abc/src/parser.rs:324, 286 and 1136), so this needs a track built by hand
  (`Smf.LoudUnreadable`); within the format's sizes the file of a
  parsed tune always reads back (`TuneFile.TuneRoundTrip`).
- With more voices than free channels, the surplus voices share channel 0
  (`ChannelAssignment.OwnChannelsIff`).
- The desugaring of backquote does not look for `,.`, which the reader builds and which may stand wherever `,@`
  may, and it quotes every vector, as its comment says. A template means what section 2.4.6 of the CLHS says if
  it has neither a `,.` nor a vector with a comma of its own (`BackquoteStandard.ExpandIsStandard`), and only then are
  exactly the forms after its commas evaluated (`BackquoteStandard.PlainIff`) and, with the exceptions named below, its
  value the right one (`BackquoteStandard.StandardIff`). `(A ,.XS)` and `#(,X)` come back as they are, with `XS` and `X`
  never evaluated (`BackquoteStandard.NSpliceKept`, `BackquoteStandard.VectorKept`).
- The keyword `:T` and symbols that are no keywords but begin with a colon do not survive the value
  bridge (`ValueBridge.BridgeIff`).
- The WAV writer also writes empty buffers and buffers with more than two channels, which the reader
  refuses (`Wav.WriteThenRead`).

## Model

| member | source | states |
|---|---|---|
| `Optimize.Ctx.Walk` | src/ncl-compiler/src/optimize.rs:94-315 | the walk on the mutable context computes the rewriting and leaves both stacks as they were; in every walk a local is typed float exactly when it has a slot, and slots are distinct and below the counter |
| `Optimize.Ctx.WalkTwo` | src/ncl-compiler/src/optimize.rs:334-349 | two children are walked in order, the second from the counter that the first left |
| `Optimize.Ctx.WalkThree` | src/ncl-compiler/src/optimize.rs:151-162 | so are three |
| `Optimize.Ctx.WalkSeq` | src/ncl-compiler/src/optimize.rs:89-91 | operands and forms are walked in order; the last type is the type of the last form |
| `Optimize.Ctx.WalkBinding` | src/ncl-compiler/src/optimize.rs:119-134 | a binding proven float becomes a store into the next slot and is pushed on both stacks, any other is pushed unpromoted |
| `Optimize.Ctx.WalkBinds` | src/ncl-compiler/src/optimize.rs:112-134 | each binding is walked with its predecessors already pushed |
| `Optimize.Ctx.WalkLet` | src/ncl-compiler/src/optimize.rs:112-144 | a scope is pushed, walked and truncated |
| `Optimize.InferFloatUnboxing` | src/ncl-compiler/src/optimize.rs:77-84 | the pass starts above every slot that lowering used, with empty stacks |
| `Soundness.Sim` | src/ncl-compiler/src/optimize.rs:22-50 | for every node, fuel and related states the rewritten node has the same outcome, heap, globals, multiple values and lower slots; no live slot is overwritten; an expression typed float yields a float |
| `Soundness.SimThen` | src/ncl-compiler/src/optimize.rs:86-92 | the same for a second node run in the state that a first one left |
| `Soundness.SimSeq` | src/ncl-compiler/src/optimize.rs:89-91 | the same for operands evaluated from left to right, stopping at the first that leaves |
| `Soundness.SimBinds` | src/ncl-compiler/src/optimize.rs:112-134 | after the bindings of a let every promoted local equals its slot and every other local is the same on both sides |
| `Soundness.PushLocal` | src/ncl-compiler/src/optimize.rs:121-133 | pushing a binding, promoted into a fresh slot or not, keeps the relation |
| `Soundness.SimLet` | src/ncl-compiler/src/optimize.rs:112-144 | a let is preserved, scope exit included |
| `Soundness.SimStore` | src/ncl-ir/src/lib.rs:93-98 | stores to the slots of declared floats are preserved and disturb no promoted slot |
| `Soundness.SimArith` | src/ncl-compiler/src/optimize.rs:334-349 | arithmetic is preserved, and its contagion type is right |
| `Soundness.SimIf` | src/ncl-compiler/src/optimize.rs:151-162 | a conditional is preserved, with the slots of the branch not taken unused |
| `Soundness.SimProgn` | src/ncl-compiler/src/optimize.rs:164-174 | a sequence is preserved and typed by its last form |
| `Soundness.SimSetHalf` | src/ncl-compiler/src/optimize.rs:255-262 | mutation of a cons is preserved |
| `Soundness.SimDynamicBind` | src/ncl-ir/src/lib.rs:262-274 | dynamic binding is preserved on every exit |
| `Soundness.SimTailLoop` | src/ncl-ir/src/lib.rs:276-294 | a self-tail loop is preserved over all its turns, with the new arguments |
| `Soundness.SimFastLoop` | src/ncl-ir/src/lib.rs:296-309 | a fast loop is preserved over all its turns |
| `Soundness.SimInlineLoop` | src/ncl-ir/src/lib.rs:310-319 | an inline loop is preserved up to its break |
| `Soundness.SimPrim` | src/ncl-ir/src/lib.rs:174-264 | primitives and calls are preserved: named functions in the compiled program, closures with the body they were made with |
| `Soundness.SimBody` | src/ncl-compiler/src/lib.rs:651-657 | a whole body in a fresh frame has the same outcome and leaves the same shared state, with inference on or off |
| `Relation.OffIsIdentity` | src/ncl-compiler/src/lib.rs:653-657 | with inference off nothing changes |
| `Evaluator.EvalSeq` | src/ncl-ir/src/lib.rs:99-107 | operands yield one value each, or stop without one |
| `Evaluator.StopsAtFirst` | src/ncl-ir/src/lib.rs:99-107 | operands that stop have yielded values up to the one that stopped them, and end as it did |
| `Fuel.More` | src/ncl-ir/src/lib.rs:282-319 | a run that ends is the same with one more unit of fuel |
| `Fuel.FuelIrrelevant` | src/ncl-ir/src/lib.rs:282-319 | a run that ends has the same result with any larger amount of fuel |
| `Guard.Same` | src/ncl-compiler/src/optimize.rs:31-35 | a run of a more cautious machine that relies on nothing unspecified is the run of the machine itself |
| `PassTheorems.GuardedRun` | src/ncl-compiler/src/optimize.rs:31-35 | so a run that the guard lets through is the real run; on a contagious machine it lets every specified run through |
| `PassTheorems.RunPreserved` | src/ncl-compiler/src/optimize.rs:77-84 | on every machine and for every amount of fuel the compiled program does what the source does, as long as no operation on a float yields something else |
| `PassTheorems.EndsUnique` | src/ncl-ir/src/lib.rs:13-330 | a program has at most one result |
| `PassTheorems.WholeProgramPreserved` | src/ncl-compiler/src/optimize.rs:77-84 | on every machine, under that guard, the compiled program ends with a result exactly when the source ends with it; it diverges when the source does |
| `PassTheorems.InferredFloat` | src/ncl-compiler/src/optimize.rs:26-35 | on every machine, under that guard, a body typed float yields a float whenever it yields a value |
| `PassTheorems.PromotedTargetFails` | src/ncl-compiler/src/optimize.rs:318-332 | a mutation of a promoted local yields no value in the source or in the result |
| `PassTheorems.SoundIffContagious` | src/ncl-compiler/src/optimize.rs:31-35 | in particular the pass is harmless for every body on a machine if and only if the machine's arithmetic is contagious |
| `PassTheorems.MiscompiledIff` | src/ncl-compiler/src/optimize.rs:31-35 | on every machine, for every operation with a float operand: the body that binds its result keeps its meaning if and only if the result is a float |
| `PassShape.WalkShape` | src/ncl-compiler/src/optimize.rs:94-315 | of every walk: the slots handed out are exactly the consecutive numbers from the counter, no read of a promoted local survives, and a second walk changes nothing |
| `PassShape.WalkShapeBinds` | src/ncl-compiler/src/optimize.rs:112-134 | the same for the bindings of a let; the stacks stay parallel |
| `PassShape.InferShape` | src/ncl-compiler/src/optimize.rs:37-41 | over a whole body promoted slots are pairwise distinct and above every slot of lowering, and no promoted local is read as a word |
| `PassShape.InferIdempotent` | src/ncl-compiler/src/optimize.rs:77-84 | running the pass twice is running it once |
| `PassPromotes.TypeIff` | src/ncl-compiler/src/optimize.rs:94-184 | an expression is typed float if and only if it is provably one: a float literal, an unboxed read, a local bound to one, arithmetic with a float operand, a conditional with two float branches, a sequence ending in one, a let with a float body |
| `PassPromotes.NodeWalk` | src/ncl-compiler/src/optimize.rs:186-331 | every node but a read of a local and a let is rebuilt from its parts, walked in order |
| `PassPromotes.WalkPromotes` | src/ncl-compiler/src/optimize.rs:112-144 | exactly the provably float bindings are stored to slots above those of lowering, exactly the reads of those locals are reads of their slots, and nothing else changes |
| `PassPromotes.InferIff` | src/ncl-compiler/src/optimize.rs:77-84 | this and consecutive slot numbers in the order of the walk determine the result of the pass |
| `PassPromotes.SlotCountIs` | src/ncl-compiler/src/optimize.rs:350-371 | the first slot handed out is one above the highest that occurs anywhere in the body, lambda bodies included, and zero if none does |
| `Channels.ReserveServes` | crates/newaudio-win/src/midi_runtime.rs:205-244 | a reservation maps exactly the channels of the tune, each to a free channel of its own, and only source 9 to channel 9 |
| `Channels.ReserveIff` | crates/newaudio-win/src/midi_runtime.rs:193-244 | it succeeds if and only if the drums are free when needed and there are enough free melodic channels |
| `Channels.AssignIff` | crates/newaudio-win/src/midi_runtime.rs:215-243 | the search for melodic channels succeeds exactly when enough are left |
| `Channels.FirstFreeIs` | crates/newaudio-win/src/midi_runtime.rs:222-229 | the channel found is the lowest free melodic one |
| `MidiRuntime.Runtime.ReserveChannels` | crates/newaudio-win/src/midi_runtime.rs:205-244 | the loop over the channel array reserves exactly that map, and a failure rolls back everything |
| `MidiRuntime.Runtime.FindFree` | crates/newaudio-win/src/midi_runtime.rs:222-229 | the inner loop finds the lowest free melodic channel |
| `MidiRuntime.Runtime.Release` | crates/newaudio-win/src/midi_runtime.rs:146-150 | releasing a map frees exactly the channels it holds |
| `MidiRuntime.Runtime.FreePlaybacks` | crates/newaudio-win/src/midi_runtime.rs:141-156 | exactly the playbacks of the asset go, and their channels with them |
| `MidiRuntime.Runtime.StopPlaybacks` | crates/newaudio-win/src/midi_runtime.rs:305-314 | all playbacks go and their channels with them |
| `MidiRuntime.Runtime.PausePlaybacks` | crates/newaudio-win/src/midi_runtime.rs:267-283 | every playing entry records its elapsed time and pauses |
| `MidiRuntime.Runtime.ResumePlaybacks` | crates/newaudio-win/src/midi_runtime.rs:286-296 | every paused entry starts where its elapsed time puts it |
| `MidiRuntime.Runtime.SendDue` | crates/newaudio-win/src/midi_runtime.rs:438-454 | the events of an entry that are due are handled in order |
| `MidiRuntime.Runtime.Reap` | crates/newaudio-win/src/midi_runtime.rs:456-464 | a finished entry is swapped out and its channels are freed |
| `MidiRuntime.Runtime.DispatchDueEvents` | crates/newaudio-win/src/midi_runtime.rs:406-467 | a pass over the list with its swap-removals is the pass of the state machine |
| `MidiRefinement.LoadTakeId` | crates/newaudio-win/src/midi_runtime.rs:124-127 | the first critical section of a load takes the runtime where its step takes the state machine |
| `MidiRefinement.LoadInsert` | crates/newaudio-win/src/midi_runtime.rs:128-135 | so does the second |
| `MidiRefinement.PlayReadMask` | crates/newaudio-win/src/midi_runtime.rs:197-203 | so does the first of a play, which ends it for an unknown id |
| `MidiRefinement.PlayReserve` | crates/newaudio-win/src/midi_runtime.rs:205-244 | so does the reservation, which ends it if channels are lacking |
| `MidiRefinement.PlayPublish` | crates/newaudio-win/src/midi_runtime.rs:246-258 | so does the publication |
| `MidiRefinement.FreeSweep` | crates/newaudio-win/src/midi_runtime.rs:141-156 | so does the first critical section of a free |
| `MidiRefinement.FreeRemove` | crates/newaudio-win/src/midi_runtime.rs:157 | so does the second, which says whether the id was known |
| `MidiRefinement.Stop` | crates/newaudio-win/src/midi_runtime.rs:300-315 | so does the stop, by itself and as the first part of freeing everything |
| `MidiRefinement.FreeAllClear` | crates/newaudio-win/src/midi_runtime.rs:160-163 | so does the second part of that |
| `MidiRefinement.PauseAt` | crates/newaudio-win/src/midi_runtime.rs:267-283 | so does a pause |
| `MidiRefinement.ResumeAt` | crates/newaudio-win/src/midi_runtime.rs:286-297 | so does resuming |
| `MidiRefinement.DispatchAt` | crates/newaudio-win/src/midi_runtime.rs:410-466 | so does a dispatch pass, with the clock sampled before its locks |
| `MidiRefinement.Play` | crates/newaudio-win/src/midi_runtime.rs:196-259 | a whole play that nothing interrupts is the run of its steps, and says whether it started |
| `MidiTable.DropKeeps` | crates/newaudio-win/src/midi_runtime.rs:456-464 | removing an entry keeps the invariant, so its channels are freed and no others |
| `MidiTable.SendOneKeeps` | crates/newaudio-win/src/midi_runtime.rs:438-454 | handling an event keeps the invariant: on time, next in order, on a mapped channel |
| `MidiTable.DispatchKeeps` | crates/newaudio-win/src/midi_runtime.rs:406-467 | so does a whole pass |
| `MidiTable.SweepKeeps` | crates/newaudio-win/src/midi_runtime.rs:140-156 | so does the sweep of a freed asset |
| `MidiTable.SweepEntries` | crates/newaudio-win/src/midi_runtime.rs:144-155 | the entries kept are exactly those of other assets |
| `MidiTable.StopKeeps` | crates/newaudio-win/src/midi_runtime.rs:300-315 | so does stopping everything |
| `MidiTable.PauseKeeps` | crates/newaudio-win/src/midi_runtime.rs:267-283 | so does a pause |
| `MidiTable.ResumeKeeps` | crates/newaudio-win/src/midi_runtime.rs:286-297 | so does resuming |
| `MidiTable.PublishKeeps` | crates/newaudio-win/src/midi_runtime.rs:248-258 | publishing moves channels from pending to held |
| `MidiTable.PassSettles` | crates/newaudio-win/src/midi_runtime.rs:418-466 | after a pass every entry is paused or has a loaded asset, events left and none of them due, because assets are sorted |
| `MidiPause.DispatchKeepsPaused` | crates/newaudio-win/src/midi_runtime.rs:418-422 | a pass leaves a paused entry as it is, even if its asset is gone, and handles none of its events |
| `MidiPause.RunKeepsPaused` | crates/newaudio-win/src/midi_runtime.rs:122-315 | so does every run of any threads in which nothing resumes or stops it |
| `MidiPause.PauseRunResume` | crates/newaudio-win/src/midi_runtime.rs:265-298 | pause, any such run, resume: the entry is there, playing, with the logical elapsed time, event and channels that it had, and none of its events was handled in between |
| `MidiSystem.StepKeeps` | crates/newaudio-win/src/midi_runtime.rs:122-315 | every critical section of every operation keeps the invariant |
| `MidiSystem.RunKeeps` | crates/newaudio-win/src/midi_runtime.rs:122-315 | over every interleaving of any number of threads the invariant holds |
| `MidiSystem.ReachableInv` | crates/newaudio-win/src/midi_runtime.rs:93-101 | it holds in every state reachable from the start |
| `MidiTheorems.ChannelsAccounted` | crates/newaudio-win/src/midi_runtime.rs:140-258 | in every reachable state the channels in use are exactly the disjoint union of what published playbacks and unpublished plays hold |
| `MidiTheorems.PlayOutcome` | crates/newaudio-win/src/midi_runtime.rs:190-244 | a play is refused exactly when the drums are busy or free melodic channels too few, and then the table is unchanged |
| `MidiTheorems.PlayPublishes` | crates/newaudio-win/src/midi_runtime.rs:246-257 | whatever other threads do in between, a play publishes its asset on the channels that it reserved, from the first event and started at the clock that it read |
| `MidiTheorems.EventsInOrderAndOnTime` | crates/newaudio-win/src/midi_runtime.rs:438-454 | over every run the events of a playback are handled once, in index order, never early, and on a mapped channel |
| `MidiOwnChannels.SendsOnOwnChannels` | crates/newaudio-win/src/midi_runtime.rs:438-454 | over every run each event handled for a playback goes out on the hardware channel that its map gives for the channel of the event, which the playback holds |
| `MidiOwnChannels.NeverShared` | crates/newaudio-win/src/midi_runtime.rs:185-244 | two playbacks that are in the table together never send on the same hardware channel, before or after |
| `MidiPlayed.DispatchPlays` | crates/newaudio-win/src/midi_runtime.rs:406-467 | a pass removes an entry whose asset is loaded only when all its events were handled |
| `MidiPlayed.PlayedToTheEnd` | crates/newaudio-win/src/midi_runtime.rs:406-467 | over every run in which nobody stops its playbacks or frees its asset, a playback is still in the table or had each of its events handled, once and in order |
| `MidiTheorems.DispatchLeavesNothingDue` | crates/newaudio-win/src/midi_runtime.rs:406-467 | in every reachable state a pass leaves no event unsent that was due at the time it sampled |
| `MidiLocks.CodeOrdered` | crates/newaudio-win/src/midi_runtime.rs:122-372 | every operation takes its locks in the order playbacks, assets or device, channels |
| `MidiLocks.RunKeeps` | crates/newaudio-win/src/midi_runtime.rs:122-372 | over every run locks have one holder and are held in order |
| `MidiLocks.SomeoneCanStep` | crates/newaudio-win/src/midi_runtime.rs:122-372 | the chain of holders from a waiting thread ends at one that can go on |
| `MidiLocks.NoDeadlock` | crates/newaudio-win/src/midi_runtime.rs:122-418 | no reachable state of any number of threads is a deadlock |
| `MidiGuards.WritesGuarded` | crates/newaudio-win/src/midi_runtime.rs:122-315 | a critical section changes the assets, the playbacks, the channels and the next id only under their mutexes |
| `MidiGuards.AssetsGuarded` | crates/newaudio-win/src/midi_runtime.rs:122-315 | without the mutex of the assets a section does the same whatever they are |
| `MidiGuards.PlaybacksGuarded` | crates/newaudio-win/src/midi_runtime.rs:122-315 | so for the playbacks |
| `MidiGuards.ChannelsGuarded` | crates/newaudio-win/src/midi_runtime.rs:122-315 | so for the channels in use |
| `MidiGuards.NextIdGuarded` | crates/newaudio-win/src/midi_runtime.rs:122-136 | so for the next id |
| `MidiGuards.CodeIsSections` | crates/newaudio-win/src/midi_runtime.rs:122-467 | the lock program of every operation takes and gives back, on the state, exactly the mutexes of its sections in their order |
| `Sorting.SortIs` | crates/newaudio-abc/src/midi.rs:475-482 | the sort is a permutation in order that keeps ties in order |
| `Sorting.StableUnique` | crates/newaudio-abc/src/midi.rs:475-482 | that determines it: any two such arrangements are equal, whatever the algorithm |
| `MidiEvents.OnOffOrder` | crates/newaudio-abc/src/midi.rs:13-24 | in a written track a note-off and a note-on stand in time order, and the note-off first at the same instant |
| `MidiEvents.TieOrder` | crates/newaudio-abc/src/midi.rs:15-24 | at one instant come tempo, note-off, control change, program change, note-on and then the rest |
| `MidiEvents.EndOfTrackLast` | crates/newaudio-abc/src/midi.rs:13-24 | an end marker at or after everything else is written last |
| `ChannelAssignment.ChannelPool.AssignChannel` | crates/newaudio-abc/src/midi.rs:217-232 | a known voice gets its channel again; a new one the next free melodic channel, or 0 |
| `ChannelAssignment.ChannelPool.AssignChannels` | crates/newaudio-abc/src/midi.rs:181-205 | the two passes give the channels of the specification, from any earlier state |
| `ChannelAssignment.OwnChannelsIff` | crates/newaudio-abc/src/midi.rs:181-232 | voices keep the channels they ask for; the others get channels of their own, never the drums, if and only if there are enough, and the rest get 0 |
| `NoteTracks.MidiGenerator.FlushDueNoteOffs` | crates/newaudio-abc/src/midi.rs:321-337 | the in-place removal keeps exactly the notes that end later and pushes the others off in order |
| `NoteTracks.MidiGenerator.FlushAllNoteOffs` | crates/newaudio-abc/src/midi.rs:339-349 | nothing stays active and every active note is pushed off |
| `NoteTracks.MidiGenerator.StartNotes` | crates/newaudio-abc/src/midi.rs:261-313 | a feature's notes are pushed on and become active with their end |
| `NoteTracks.MidiGenerator.GenerateTrackEvents` | crates/newaudio-abc/src/midi.rs:234-319 | for every feature list: one note-off per note-on, same pitch and channel, at onset plus duration; note-ons in order; nothing left active; the end marker last |
| `NoteTracks.GenerateVoice` | crates/newaudio-abc/src/midi.rs:234-319 | for the features of one voice, after its program change: one note-off per note-on at onset plus duration, note-ons in order, the end marker last |
| `NoteTracks.OfVoiceAt` | crates/newaudio-abc/src/midi.rs:245-250 | every feature of a voice is among those of its track, in the order of the tune |
| `NoteTracks.NoteEvents` | crates/newaudio-abc/src/midi.rs:261-309 | a note goes on at its onset times the denominator, with its pitch and velocity, and off at its onset plus its duration times the denominator, with the same pitch and channel |
| `NoteTracks.DueLater` | crates/newaudio-abc/src/midi.rs:321-337 | a flush loses and adds no note |
| `NoteTracks.NoteTrackEnds` | crates/newaudio-abc/src/midi.rs:310-318 | in the written note track the end marker is the last event and the only one |
| `NoteTracks.NoteSounds` | crates/newaudio-abc/src/midi.rs:13-24 | in the written track a note's off follows its on if and only if it has a positive length in beats: a positive duration and a time signature not over zero |
| `NoteTracks.NoteWritten` | crates/newaudio-abc/src/midi.rs:475-482 | every note is in the written track, on and off |
| `NoteTracks.OnlyNotes` | crates/newaudio-abc/src/midi.rs:261-319 | every note-on and note-off of a track is that of a note |
| `Smf.WriteVarLen` | crates/newaudio-abc/src/midi.rs:549-568 | the four-byte buffer filled from the low end and emitted backwards is the big-endian form |
| `Smf.VarLenFits` | crates/newaudio-abc/src/midi.rs:549-551 | four bytes are enough exactly below 2^28 |
| `Smf.VarLenRoundTrip` | crates/newaudio-abc/src/midi.rs:549-568 | a decoder reads the quantity back and leaves the rest |
| `Smf.VarLenMinimal` | crates/newaudio-abc/src/midi.rs:549-568 | no byte string that decodes to the quantity is shorter |
| `Smf.WriteEvent` | crates/newaudio-abc/src/midi.rs:490-539 | the bytes pushed for an event |
| `Smf.WriteTrackData` | crates/newaudio-abc/src/midi.rs:484-541 | deltas and events in sorted order |
| `Smf.WriteTrack` | crates/newaudio-abc/src/midi.rs:475-547 | the track is left sorted and its chunk appended, with its length |
| `Smf.WriteSmf` | crates/newaudio-abc/src/midi.rs:460-473 | header and track chunks |
| `Smf.EventRoundTrip` | crates/newaudio-abc/src/midi.rs:490-539 | an event decodes to what it says if its data bytes are below 128, and to an error otherwise |
| `Smf.TrackRoundTrip` | crates/newaudio-abc/src/midi.rs:484-541 | written track data decodes to exactly its deltas and events if it ends with its only end marker and has no data byte above 127, and to an error otherwise |
| `Smf.FileRoundTrip` | crates/newaudio-abc/src/midi.rs:460-547 | a written file decodes to format 1, the track count, the division and every track if all its tracks are such, and to an error otherwise; a division is one of quarter notes only if its 16 bits have the top one clear |
| `Smf.HeaderBytes` | crates/newaudio-abc/src/midi.rs:460-467 | the chunk types in letters, and the length and the format in the header |
| `Smf.SortedData` | crates/newaudio-abc/src/midi.rs:475-482 | the condition on data bytes can be read off the track before it is sorted |
| `Smf.LoudUnreadable` | crates/newaudio-abc/src/midi.rs:490-496 | a one-note track by hand: its file can be written at any pitch and read if and only if the pitch is below 128 |
| `SmfTicks.SortedInTime` | crates/newaudio-abc/src/midi.rs:475-482 | a sorted track is in time |
| `SmfTicks.TicksLag` | crates/newaudio-abc/src/midi.rs:484-489 | written ticks never run ahead of real time and after k events lag by less than k |
| `SmfTicks.WholeTicksExact` | crates/newaudio-abc/src/midi.rs:484-489 | with whole ticks there is no lag |
| `TempoMap.TempoSurvives` | crates/newaudio-win/src/scheduling.rs:38-49 | exactly which tempos come back from a tempo event |
| `TempoMap.UsualTempoSurvives` | crates/newaudio-abc/src/midi.rs:419-426 | every tempo from 4 to 7745 does |
| `TempoMap.BuildTempoSegments` | crates/newaudio-win/src/scheduling.rs:51-82 | the loop builds the segments of the specification |
| `TempoMap.BeatToNs` | crates/newaudio-win/src/scheduling.rs:84-94 | the search picks the last segment that has started, and its line is cut toward zero |
| `TempoMap.SegmentsShape` | crates/newaudio-win/src/scheduling.rs:51-82 | segments start where they should, strictly increase and join continuously |
| `TempoMap.ValueIsPassed` | crates/newaudio-win/src/scheduling.rs:84-94 | before the cut the map is the time passed under the changes |
| `TempoMap.PassedIncreasing` | crates/newaudio-win/src/scheduling.rs:84-94 | time strictly increases with the beat |
| `TempoMap.PassedIsIntegral` | crates/newaudio-win/src/scheduling.rs:51-82 | with changes in beat order it is the integral of 60e9 divided by the tempo in force |
| `TempoMap.TempoMapIs` | crates/newaudio-win/src/scheduling.rs:51-94 | all of that for the map of a tempo track |
| `TempoMap.ClampedSame` | crates/newaudio-win/src/scheduling.rs:61-74 | changes out of order act as if moved up to their predecessors |
| `TempoOrder.IntegralIff` | crates/newaudio-win/src/scheduling.rs:51-104 | the map is the integral of the tempo in force, which is that of the written track, if and only if, at the start and at every change, the moved list gives that tempo: finitely many comparisons |
| `TempoOrder.AgreeEverywhere` | crates/newaudio-win/src/scheduling.rs:61-74 | a moved list that gives the tempo in force at those beats gives it at all beats |
| `TempoOrder.LatestInForce` | crates/newaudio-abc/src/midi.rs:475-482 | the latest change up to a beat is in force there, wherever it is listed |
| `TempoOrder.InOrderIntegral` | crates/newaudio-win/src/scheduling.rs:51-94 | for changes listed in time order the map is the integral of the tempo in force |
| `TempoOrder.CrossedNotIntegral` | crates/newaudio-abc/src/midi.rs:371-383 | tunes of two voices with crossed tempo changes, one for every tempo from 4 to 7745 of the second, whose map is not the integral: it stays behind from beat 1 to 2 and loses the change at beat 2 |
| `TempoMap.HalveToOne` | crates/newaudio-abc/src/midi.rs:428-436 | the power written for a time signature is the binary logarithm of its denominator, rounded down |
| `TempoMap.ProcessTempoTrack` | crates/newaudio-abc/src/midi.rs:351-408 | defaults, every change where it stands, end marker at the end of the last feature |
| `TempoMap.TempoTrackEnds` | crates/newaudio-abc/src/midi.rs:351-408 | in the written tempo track the end marker is the last event and the only one |
| `Schedule.ShortMessage` | crates/newaudio-win/src/scheduling.rs:118-137 | the message of a track event, or none |
| `Schedule.CollectTracks` | crates/newaudio-win/src/scheduling.rs:116-139 | the messages of all tracks, each in written order |
| `Schedule.CompileAsset` | crates/newaudio-win/src/scheduling.rs:99-157 | events in play order, and a mask of exactly their channels |
| `Schedule.CompiledWellFormed` | crates/newaudio-win/src/scheduling.rs:141-157 | a compiled asset is what the runtime's theorems ask for, and no message is lost |
| `Schedule.PlayOrderIs` | crates/newaudio-win/src/scheduling.rs:141-149 | messages are ordered by time, priority, channel, status and data, the first that differs deciding, and only equal ones are tied |
| `Schedule.CompiledOnce` | crates/newaudio-win/src/scheduling.rs:97-149 | what is compiled depends on the messages alone, not on the order of the tracks |
| `Generator.Generate` | crates/newaudio-abc/src/midi.rs:139-179 | the tempo track, then for every voice its program change and notes on its assigned channel |
| `Generator.ChannelsInBounds` | crates/newaudio-abc/src/midi.rs:181-232 | every voice ends up on a MIDI channel |
| `Generator.NotePlayed` | crates/newaudio-win/src/scheduling.rs:99-149 | every note of every voice is in the compiled asset with its pitch, on with its velocity and off, at the nanoseconds of its beats, on its voice's channel |
| `Generator.ProgramPlayed` | crates/newaudio-win/src/scheduling.rs:117-149 | the instrument of every voice is set at time zero on its channel, before every note-on of the asset |
| `Generator.NoteHeard` | crates/newaudio-win/src/scheduling.rs:141-149 | there its off comes after its on if and only if the two times, cut to whole nanoseconds, differ |
| `Generator.NsMono` | crates/newaudio-win/src/scheduling.rs:84-94 | a later beat is never played earlier, whatever the tempo changes |
| `Generator.NsIsPassed` | crates/newaudio-win/src/scheduling.rs:84-94 | a beat is played at the whole nanoseconds of the time that has passed under the tempo changes |
| `TuneFile.GeneratedGood` | crates/newaudio-abc/src/midi.rs:139-179 | every track generated from parsed notes ends with its only end marker and has no data byte above 127 |
| `TuneFile.TuneRoundTrip` | crates/newaudio-abc/src/midi.rs:460-547 | the file of a tune reads back as its tempo track and the track of every voice, in written order with their ticks |
| `TuneFile.WrittenOnTime` | crates/newaudio-abc/src/midi.rs:475-489 | in written order the ticks of any track lag real time by less than one an event |
| `FileNotes.NoteRead` | crates/newaudio-abc/src/midi.rs:475-500 | in the file of a tune every note is read back as message 9 with its pitch and velocity and message 8 with its pitch, on the channel of its voice, at its beats in ticks or less than one tick an event before |
| `FileNotes.ProgramRead` | crates/newaudio-abc/src/midi.rs:217-231 | so is the instrument of every voice, as message 12 at the beginning |
| `FileNotes.ChangeRead` | crates/newaudio-abc/src/midi.rs:373-386 | so is every change of tempo, time and key: the low 24 bits of the microseconds a quarter note, the numerator with the power of two of the denominator, and the sharps in two's complement with the mode |
| `FileNotes.DefaultsRead` | crates/newaudio-abc/src/midi.rs:351-364 | the tempo, time and key of the tune stand at the beginning |
| `FileNotes.TitleRead` | crates/newaudio-abc/src/midi.rs:365-367 | so does its title, as text |
| `FileNotes.TempoTrackOver` | crates/newaudio-abc/src/midi.rs:387-415 | the tempo track ends when the last feature of the tune is over, chord names included |
| `FileNotes.SameMessage` | crates/newaudio-win/src/scheduling.rs:117-137 | playback sends the status and data bytes that the file has, and no meta events |
| `TempoFile.FileBpmIs` | crates/newaudio-abc/src/midi.rs:484-516 | with times on whole ticks a reader of written track data has the tempo of its events at every beat |
| `TempoFile.PlaybackIsFileIff` | crates/newaudio-win/src/scheduling.rs:99-104 | playback of a tune and the tempo track read back from its file go at the same tempo at every beat if and only if the moved list gives the tempo in force |
| `Quasiquote.ExpandMeans` | src/ncl-compiler/src/macroexpand.rs:771-882 | evaluating the desugared template gives the value and the final state of the append of segments, with `,.` and vectors taken literally |
| `Quasiquote.ExpandListMeans` | src/ncl-compiler/src/macroexpand.rs:824-845 | the same for a list, splices and dotted unquotes included |
| `Quasiquote.ListMeaningStep` | src/ncl-compiler/src/macroexpand.rs:810-823 | in either reading the append of all segments can be done cell by cell |
| `Quasiquote.ExpandFailsIff` | src/ncl-compiler/src/macroexpand.rs:787-803 | the desugaring fails exactly on a top-level splice or a nested backquote |
| `UnquotedForms.FormsInOrder` | src/ncl-compiler/src/macroexpand.rs:771-857 | in either reading a template evaluates the forms after its commas exactly once, from left to right; on failure a first part of them |
| `UnquotedForms.NoForms` | src/ncl-compiler/src/macroexpand.rs:781-807 | a template without a comma of its own means itself |
| `BackquoteStandard.ExpandIsStandard` | src/ncl-compiler/src/macroexpand.rs:751-769 | the desugared form of a template without `,.` and without a vector with a comma of its own has the value and the final state of section 2.4.6 of the CLHS |
| `BackquoteStandard.UnquotedInOrder` | src/ncl-compiler/src/macroexpand.rs:771-857 | it evaluates every form after a comma, as the standard counts them, once and from left to right |
| `BackquoteStandard.PlainIff` | src/ncl-compiler/src/macroexpand.rs:781-807 | exactly the standard's forms are evaluated if and only if the template is of that kind |
| `BackquoteStandard.StandardIff` | src/ncl-compiler/src/macroexpand.rs:751-769 | on every machine the value and the state are the standard's if and only if it is |
| `BackquoteStandard.NSpliceKept` | src/ncl-reader/src/parser.rs:112 | `(A ,.x)` gives itself without evaluating x, where the standard splices the value of x |
| `BackquoteStandard.VectorKept` | src/ncl-compiler/src/macroexpand.rs:806-807 | `#(,x)` gives itself without evaluating x, where the standard gives the vector of its value |
| `ValueBridge.Memory.ValueToWord` | src/ncl-compiler/src/macroexpand.rs:33-115 | the allocating conversion computes the word and the heap of the specification |
| `ValueBridge.Memory.FillVector` | src/ncl-compiler/src/macroexpand.rs:33-115 | a vector is allocated before the words of its items |
| `ValueBridge.RoundTrip` | src/ncl-compiler/src/macroexpand.rs:33-216 | exactly the supported values are converted, the word reads back, and nothing already in the heap changes |
| `ValueBridge.ReadingStays` | src/ncl-compiler/src/macroexpand.rs:117-216 | allocation leaves every earlier word's reading unchanged |
| `ValueBridge.BackIsHomeless` | src/ncl-compiler/src/macroexpand.rs:117-216 | what comes back is the value up to home packages exactly when no symbol is confused |
| `ValueBridge.BridgeIff` | src/ncl-compiler/src/macroexpand.rs:33-216 | a value survives both ways if and only if it is supported and has no confused symbol |
| `ParamList.ListToVec` | src/ncl-compiler/src/lib.rs:2635-2648 | the elements of a proper list, or none |
| `ParamList.ParseParamList` | src/ncl-compiler/src/lib.rs:2383-2593 | the loop with its mode and accumulators parses as the specification does, errors included |
| `ParamList.PrintThenParse` | src/ncl-compiler/src/lib.rs:2318-2372 | the canonical list of a specification parses to that specification |
| `ParamList.ParsePrintParse` | src/ncl-compiler/src/lib.rs:2383-2593 | parsing, printing and parsing again is parsing once |
| `ParamList.ParseableIffPrintable` | src/ncl-compiler/src/lib.rs:2383-2593 | exactly which specifications some list has |
| `ParamGrammar.ParseSections` | src/ncl-compiler/src/lib.rs:2383-2593 | every list of sections in order parses, to what its sections say; the forms of parameters are given without the parser |
| `ParamGrammar.InitFormIff` | src/ncl-compiler/src/lib.rs:2595-2633 | an init form is a symbol, `(n)`, `(n d)` or `(n d s)`, and each has exactly one meaning |
| `ParamGrammar.KeyIff` | src/ncl-compiler/src/lib.rs:2502-2581 | a key parameter is such a form, matched by the keyword of its name, or `((k n) ..)`, matched by k |
| `ParamGrammar.AcceptedIff` | src/ncl-compiler/src/lib.rs:2383-2593 | a list is accepted with a specification if and only if it is the list of such sections with that specification |
| `ParamGrammar.InOrder` | src/ncl-compiler/src/lib.rs:2383-2593 | an accepted list is cut by its markers, each at most once and in the order required, optional, rest, key; each kind of parameter comes from exactly its own stretch |
| `JitMemory.Bump.Alloc` | src/ncl-llvm/src/jit_mm.rs:169-198 | when a section is granted, where it starts, and that all regions stay page-rounded, aligned, disjoint and inside the reservation |
| `JitMemory.AlignedStart` | src/ncl-llvm/src/jit_mm.rs:169-198 | rounding up to the alignment keeps a page boundary |
| `JitMemory.Compact` | src/ncl-llvm/src/jit_mm.rs:388-405 | the live entries are moved to the front in order and the rest is zeroed |
| `JitMemory.PrepareTable` | src/ncl-llvm/src/jit_mm.rs:388-434 | the table left is the sorted live entries and zeros, and what is registered |
| `JitMemory.TableSorted` | src/ncl-llvm/src/jit_mm.rs:388-410 | that is a sorted permutation of exactly the live entries |
| `Wav.WriteWav` | crates/newaudio-core/src/wav.rs:60-96 | the bytes of the file, and their number |
| `Wav.ReadSamples` | crates/newaudio-core/src/wav.rs:200-225 | the loop over whole samples |
| `Wav.ReadWav` | crates/newaudio-core/src/wav.rs:115-235 | the chunk loop decodes as the specification does, errors included |
| `Wav.UnknownSkipped` | crates/newaudio-core/src/wav.rs:175-181 | unknown padded chunks do not change what is read |
| `Wav.ExtraChunksIgnored` | crates/newaudio-core/src/wav.rs:138-181 | a file with such chunks before its data decodes like the file without them |
| `Wav.WriteThenRead` | crates/newaudio-core/src/wav.rs:60-235 | a written buffer is read back, within that error, if and only if it is mono or stereo and not empty |
| `Wav.HeaderFields` | crates/newaudio-core/src/wav.rs:60-83 | the header has its words, the sizes of what follows, the format, the bytes a second and the bytes a frame |
| `Wav.SamplesAre` | crates/newaudio-core/src/wav.rs:197-224 | at 8 bits with an offset and at 16, 24 and 32 bits in two's complement every sample is read as its integer over half the range, in order; an incomplete one is dropped |
| `Wav.RoundIs` | crates/newaudio-core/src/wav.rs:85-90 | rounding is to the nearest integer, and halves go away from zero |
| `Wav.LevelIs` | crates/newaudio-core/src/wav.rs:85-88 | silence at a volume that is not positive, else the scaled sample or the nearer end of the interval |
| `Wav.PcmIs` | crates/newaudio-core/src/wav.rs:85-91 | a sample is written as the nearest integer to its level times 32767 |
| `Wav.WordsIff` | crates/newaudio-core/src/wav.rs:116-131 | the input is refused for its first word, or for its third, exactly when they are there and wrong |
| `Wav.CutShort` | crates/newaudio-core/src/wav.rs:115-195 | a written file that is cut short is refused at every length, with the error that its place calls for |

## Left out

- Complex numbers, bignums and ratios in arithmetic: the machine's arithmetic, its checked coercion to
  a float and the builtins are functions that the theorems are about in general.
- Identity of floats: reads of a promoted local box a new float each time, so `EQ` of two boxed values
  is unspecified in the evaluator (the `EQ` entry of the CLHS permits copying numbers).
- Constructors that the walk treats alike are one `Prim` node with an operation and its operands.
- Builtins that call back into compiled code: a builtin is a function of its arguments and the shared store.
- Redefinition of a function during a run: the bodies that symbols name are fixed.
- What the lowering and the LLVM emitter do; they are not part of this model. Where the comments on a
  node are silent (order of restore in a dynamic binding, coercion on a slot store, NIL as a list) the
  evaluator follows the emitter.
- `inline.rs`, macro expansion with user macros, and the native runtime: not part of this model.
- MIDI device calls, the all-notes-off of a pause, velocity scaling, volumes and titles: a dispatch records which event
  it handled and on which channel.
- Clocks: a clock read is the machine's current time, which only grows; instants are integers.
- The worker's single thread: the state machine lets any thread dispatch, which allows more runs.
- Wrap-around of the 32-bit asset ids.
- Smf.WriteVarLen: requires a quantity below 2^28, because the original's four-byte buffer panics on more.
- Smf.WriteTrack: requires payloads and deltas below 2^28 for the same reason; i32 saturation of a delta is not modelled.
- MidiLocks: the wait for the worker in `Drop` is not a lock operation of the model; it holds no lock, and the worker
  never waits for the dropping thread.
- Smf.FileRoundTrip: is about fewer than 2^16 tracks of fewer than 2^32 bytes, which is what the fields of the format hold.
- BackquoteStandard.StandardIff: leaves out templates with a comma inside the form after a `,.`, which the standard does
  not read either, and those that have no value although every form yields NIL, because they splice an atom; these
  may fail alike in both readings. `BackquoteStandard.PlainIff` is about them all.
- Nested backquotes in a list, which the desugaring refuses; in a vector they count towards the level of a comma.
- Rounding of f64 and f32: times and samples are reals.
- TuneFile.TuneRoundTrip: is about tunes within those sizes and fewer than 2^15 ticks a quarter note, whose notes start at or after the beginning.
- TempoMap.ProcessTempoTrack: requires the voice of every lasting feature to be known, because the original panics otherwise.
- ChannelAssignment.ChannelPool.AssignChannels: requires channels below 16 and distinct voices, which is what the parser produces.
- The text of lambda-list error messages is abbreviated.
- Garbage collection during a conversion and exhaustion of the static area in the value bridge.
- Strings of bignums and ratios are taken to be canonical.
- The duration field of a WAV buffer, which follows from the other fields.
- JitMemory.Bump.Alloc: requires an alignment that is a power of two, which its bit mask assumes; whether the system
  commits pages is a parameter, and address wrap-around is not modelled.
- TempoFile.PlaybackIsFileIff: is about tempo tracks on whole ticks from the beginning on; elsewhere the reader's beats
  lag as `TuneFile.WrittenOnTime` says.
- Wav.WriteThenRead: is about buffers whose sizes and rates fit the header's fields.
- NoteTracks.NoteSounds: is about onsets and durations that are not negative.
- Rendering, the graphical environment, presets, filters and build scripts: they would add only easy members.
