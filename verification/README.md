# Verified model of mptsd

mptsd merges several single-program transport streams into one multi-program stream of
constant bitrate.  This project models its data path and proves what the program is for:
packets arrive at the output complete, in order, evenly spread and with usable clocks, under
PIDs that do not clash and that the tables announce.  The configuration parser is modelled
beside it.

Two layers run through the project.  The *machine* of a component is a function from state to
state; the theorems quantify over every sequence of its steps.  The *code* of a component is a
class with the fields of the C structure and methods with the loops of the C function; each
method is proved to do exactly what the machine says.

| files | component |
|---|---|
| `Ts`, `Rounding` | packets, `round` |
| `Spread` | placing data packets among null packets |
| `Mix`, `MixRuns`, `MixConserve`, `MixFair`, `MixPsi`, `MixBudget`, `MixSpacing` | the mixing thread and the producers that feed it |
| `MixLayout`, `MixJournal`, `MixLimits`, `MixGaps` | slots used and counted in every run; where the mixer's promises end |
| `Restamp` | rewriting clocks while sending |
| `Mux`, `MuxProof`, `MuxTheorems` | both output threads and their double buffer, end to end |
| `Threads` | the code of the mixing and writing threads |
| `PidRef`, `Rewrite`, `RewriteTheorems` | the PID table, and rewriting PAT and PMT |
| `Admission`, `AdmissionTheorems`, `Forwarding`, `Receiver` | what an input lets in: machine, theorems, what becomes of every packet read, code |
| `Delivery`, `Feeds` | PID by PID: from the buffers to the output, from the connections to the buffers |
| `Plant`, `Multiplex` | all threads together, and the promises of the whole |
| `InputBuffer`, `MpegSync`, `PsiOutput` | buffer gate, packet alignment, continuity counters |
| `IniDict` | the dictionary |
| `IniText`, `IniRoundTrip`, `IniErrors`, `IniLines`, `IniParser` | the configuration format, its round trip, its errors, what any line means, its code |

## Main results

- **From source to output, PID by PID** (`Multiplex.SourceToOutput`).  For every interleaving of
  producers, mixer and writer, several channels at once, and one connection after another: the
  packets sent with a channel's PID are, in order and but for the PID unchanged, the packets read
  of the streams that its connections rename to that PID, but for those that do not pass, those
  its overflow gate refused and those still inside, and no other channel or table uses that PID.
  In modes 2 and 3 the clocks may differ.
- **What passes** (`Forwarding.ForwardsExactly`, `LearntFrom`, `ConnectionTables`,
  `ReconnectsExactly`).  For every connection: exactly which packets read are forwarded, from
  which PAT its PIDs are learnt, which PAT and PMT are rewritten and what the rewritten ones say,
  when tables are offered, and when the connection ends.
- **The multiplexer's own tables** (`Multiplex.TablesSentInOrder`, `SectionsSent`,
  `MixPsi.TablesGoFirst`).  Over the same runs, the packets sent of each table's PID are those of
  the sections built, and carry consecutive counters, unless a table found the PSI buffer too
  full.  An iteration takes an input's packet only if no table was waiting when it began.
- **End to end** (`MuxTheorems.EndToEnd`).  Delete the null packets from the output, keep one
  source's packets, and what is left is, in order, all that this source's buffer accepted except
  for what is still inside.  Slot by slot, `MuxTheorems.OutputIs` says what may differ.  Frames
  leave once each; `MuxTheorems.TrafficIs` accounts for the bytes that failed writes did not
  take.
- **Double buffer** (`MuxTheorems.BuffersAreExclusive`, `DoubleBuffer`).  No two threads own
  one buffer, fills are 0, 1 or 2 ahead of drains, and some thread can always move.  The proof
  is a refinement (`MuxProof.ExecuteRefines`): the mixer runs as if the writer were not there.
- **Termination** (`MixBudget.FillEnds`, `MixLimits.OtherModesNeverRetry`,
  `Multiplex.ConnectionsNeverRetry`).  A fill that has budgeted `packets` makes exactly `packets`
  iterations, in a bounded number of steps, while other threads append what connections offer;
  the budget is what was waiting, or a whole buffer (`MixPsi.BudgetIs`).
- **Clocks** (`MixSpacing.PcrSpacing`, `MixJournal.HeldIs`, `Restamp.DriftBounded`, and
  `MuxTheorems` for the packets sent).  Two clocks of one input are as far apart as the bitrate
  asks for, and a clock is held back in exactly the cases stated; a rewritten clock is at most
  one tick per rewrite below the ideal one and never above it.
- **Spreading** (`Spread.SlotsAreSafe`, `SpreadIsEven`, `GapsFit`, `MixLayout.BufferIsSpread`).
  No packet is overwritten, whatever iterations come up empty; nulls are less than one off the
  exact share, with the exact condition in the presence of empty iterations; and this is so of
  the slots of every buffer in every run.  In modes 0 and 2, with inputs free of padding, no
  iteration is empty and every buffer is even (`MixLayout.BufferIsEven`).
- **Renaming** (`RewriteTheorems.DemuxPreserved`, `PmtNamesTheTable`, `ChannelsAreDisjoint`).
  A demultiplexer that follows the rewritten PMT sees what the original PMT selects, on another
  PID and otherwise untouched.
- **Fairness** (`MixFair.ReadyInputIsServed`), **admission** (`AdmissionTheorems`), **overflow**
  (`InputBuffer.DroppedIs`), **continuity** (`PsiOutput.ContinuityIs`), **alignment**
  (`MpegSync.SyncIs`, an exact condition), **dictionary** (`IniDict.SlotsRefineMap`),
  **configuration round trip** (`IniRoundTrip.LoadDump`) and **what any line means** (`IniLines`).

### Where the code falls short of what one would expect

Each of these is proved: the exact condition, or a run or input that shows the failure, or both.

- A clock of value 0 counts as "no clock yet".  Spacing holds of two consecutive clock values in
  all runs if and only if the first is not 0 or no slot between them is required
  (`MixLimits.SpacingHoldsIs`; `ZeroClockForgotten` gives the run).  Restamping starts a new run
  after such a clock (`Restamp.ClocksAdvance`).  A connection that reads such a clock stops
  forwarding until it reads another one (`Forwarding.ForwardsExactly`).
- Iterations that come up empty can break the evenness.  For a given buffer they cannot if and
  only if nulls outnumber data, or there is at most one null, or at most one more data packet
  than nulls (`Spread.GapsHarmless`).  For all other buffers, such as 14 data packets and 7
  nulls, `GapsBreakEvenness` gives the pattern, and `MixGaps.GapsArise` a run from the start in
  which a clock held back brings it about.  For a given pattern every packet has its share if and
  only if every jump fits (`Spread.GapsFit`).
- In modes 1 and 3 the fill loop relies on inputs free of padding.  An iteration retries if and
  only if all buffers are empty and either the mode is 1 or 3 or there is no input
  (`MixLimits.RetriesIs`), and then makes no progress until data arrives (`RetryChangesNothing`).
  In modes 1 and 3 padding brings this about (`PaddingRetries`, a run from the start); admission
  keeps it out (`AdmissionTheorems.NothingPadded`).  In modes 0 and 2 asking an input counts even
  if it is empty, so with an input at all no run ever retries (`OtherModesNeverRetry`).
- The comment at `data.h:143` says that `outputed_packets` counts every slot sent.  It counts the
  slots since the last clock less the nulls skipped since, so the comment is right if and only
  if none was skipped (`MixJournal.SentIs`; `MixLimits.SkippedNotCounted` gives a run).
- The byte count between two clocks is multiplied by 216000000 in 64 bits.  As long as the
  restamps of a run times the bitrate stay within 2^64, a restamped clock is accurate if and only
  if no such product has wrapped around (`Restamp.DriftIsAccurate`; `WrappedClock` gives a stream).
- The PMT leaves on the PID that the output PAT announces if and only if the first numbered
  program of the source's PAT has a PID other than 0 (`RewriteTheorems.PmtLeavesAsAnnounced`).
- Rewritten PMT and PID table agree if and only if the PIDs are distinct, not 0 and fit the 64
  entries (`RewriteTheorems.PmtNamesTheTable`); a packet of an unknown PID passes unchanged and
  intrudes if that PID is a new one (`DemuxPreserved`).
- A syntax error in a configuration file counts only until the next line that sets something
  (`IniErrors.LoadFails`, `ErrorForgotten`).
- A dump without sections is loaded again with a colon before every key (`IniLines.BareDump`).
- The test for multi-program sources at `input.c:75` never succeeds, since the loop before it
  counts at most one program (`Receiver.InputStream.LearnPids`).

## Assumptions

- A `CBUF` is a bounded queue of whole 188-byte packets whose fill takes all or nothing.
- A `LIST` is circular, with one root node whose data is null; nodes `0..n-1` are the inputs
  and node `n` is the root.  The inputs of a run are fixed, as the lock makes them during a fill.
- A packet is its PID, the two halves of header byte 3, its clock if it has one, and the rest.
  A field `origin` tells the packets of different sources apart in theorems; no modelled code
  reads it.
- `double` is exact rational arithmetic; `round` is half away from zero.  Converting a number
  outside the range of `int` yields some fixed but arbitrary value (`Config.overflow`).
- The output bitrate is any positive number; the buffer size is any multiple of one 7-packet
  frame, as `data.c:342-344` computes it.
- Threads interleave step by step: each visit to a packet buffer, each frame and each change of
  a status is a step of its own, and a packet buffer's operations are atomic.
- The section functions of libtsfuncs are parameters.  Nothing is assumed of them, except where
  `AdmissionTheorems.SectionsFit` says that tables come from sections of at most 1024 bytes.
  Copies of tables and of strings succeed.
- The PCR PID of an input, as far as mixing goes, is fixed from the start.
- The hash of the dictionary is any function.

## Model

| member | source | states |
|---|---|---|
| Spread.SlotsAreSafe | output_mix.c:228-243 | whatever iterations come up empty, a later packet goes to a higher slot, and every slot is inside the buffer, so nothing is overwritten and the branch at line 237 is dead |
| Spread.SparseClosedForm | output_mix.c:86-89 | with more nulls than data, exactly `round(k * nulls / packets)` nulls precede packet `k`, empty iterations or not |
| Spread.DenseLeast | output_mix.c:230-236 | with at least as much data as nulls, and no empty iteration, the nulls before packet `k` are the least number that makes `k` data packets due, and the clamp is idle |
| Spread.SpreadIsEven | output_mix.c:82-90 | without empty iterations the nulls before packet `k` differ from `k * nulls / packets` by less than one, in both regimes |
| Spread.ClampIsIdle | output_mix.c:234-235 | without empty iterations the clamp is never needed |
| Spread.DenseNeverBehind | output_mix.c:230-236 | with at least as much data as nulls, the nulls before a packet are less than one short of its share, whatever iterations come up empty |
| Spread.DenseStepEven | output_mix.c:230-236 | a packet has its share of nulls if and only if the jump it makes fits, a condition on `nulls` and the ratio before the jump |
| Spread.GapsFit | output_mix.c:230-236 | for any pattern of empty iterations, every packet has its share if and only if every jump fits |
| Spread.FirstPacketEven | output_mix.c:230-236 | the nulls before a first data packet at iteration `k`, and exactly when they are its share |
| Spread.GapsBreakEvenness | output_mix.c:230-236 | with two or more nulls and at least two more data packets, one packet at iteration `nulls` alone takes all nulls, which is not its share |
| Spread.GapsHarmless | output_mix.c:82-90 | empty iterations can never break the evenness of a buffer if and only if `p < z`, `z <= 1` or `p <= z + 1` |
| MixLayout.RunLaidOut | output_mix.c:227-243 | in every run `nulls` is what the iterations that carried data make it, and data stands in exactly their slots, nulls in all others |
| MixLayout.BufferIsSpread | output_mix.c:82-90 | hence closed form, exact evenness, and evenness without empty iterations hold of every buffer of every run |
| MixLayout.EveryIterationCarries | output_mix.c:203-217 | in modes 0 and 2, with inputs free of padding, every iteration of every run carries data |
| MixLayout.BufferIsEven | output_mix.c:82-90 | so in those runs every packet of every buffer has its share of nulls |
| MixGaps.GapsArise | output_mix.c:156-174 | a run from the start in which a clock that waits for `z + 1` slots comes first in a dense buffer, at iteration `z`, and misses its share, for every buffer that gaps can harm |
| MixGaps.SomeClockWaits | output_mix.c:160 | up to one packet per clock tick there is a clock that waits for exactly `z + 1` slots |
| MixConserve.TickConserves | output_mix.c:127-250 | every step of the mixing thread keeps, for every source, the sequence of packets placed, in hand and queued |
| MixConserve.NextConserves | output_mix.c:71-256 | the same when producers fill buffers and output buffers follow each other |
| MixConserve.TicksConserve | output_mix.c:127-250 | the thread alone conserves the packets of every source |
| MixConserve.RunConserves | output_mix.c:57-257 | over every run: per source, accepted packets = packets in finished buffers, then in the current one, in hand, and queued |
| MixFair.NextNodeIs | output_mix.c:140-145 | skipping the root, the nodes are asked in the cyclic order of the inputs |
| MixFair.AheadShrinks | output_mix.c:140 | asking one input brings every other one place nearer |
| MixFair.WaitStep | output_mix.c:136-217 | no step but asking it makes a ready input unready or moves it back in the order |
| MixFair.OvertakesBounded | output_mix.c:136-217 | packets of others picked meanwhile, plus the places left, never exceed the place at the start |
| MixFair.ReadyInputIsServed | output_mix.c:136-217 | for `n` inputs, at most `n - 1` packets of others go before a ready input is asked, and then its head packet is taken |
| MixPsi.TablesGoFirst | output_mix.c:131-145 | over every run: an iteration that asks the inputs, or has a packet of one in hand, began with no table waiting; one that began with tables waiting has the first of them in hand |
| MixPsi.TableIsPlaced | output_mix.c:131-134 | a table with `n` others before it is placed by the iteration that ends `n + 1`st, whatever the producers do, in this buffer or a later one |
| MixPsi.BudgetIs | output_mix.c:73-80 | over every run: the budget is at least what waited when the sum began, or a whole buffer, and with no padding about at most what waits when the loop begins |
| MixBudget.TickCovered | output_mix.c:127-222 | every step keeps enough packets queued for the iterations left, if inputs hold no padding |
| MixBudget.NextCovered | output_mix.c:73-80 | and so does every step of a producer and the change of buffers |
| MixBudget.RunCovered | output_mix.c:57-257 | hence every interleaving does |
| MixBudget.StartBudgeted | output_mix.c:56 | and the start has it |
| MixBudget.NeverRetries | output_mix.c:219-222 | with the budget covered the `read_count == 0` branch is not taken |
| MixBudget.TickProgresses | output_mix.c:127-250 | every step lowers a bound on the steps left; placing ends the iteration with the next one |
| MixBudget.TicksProgress | output_mix.c:127-250 | the thread alone ends its fill within that bound |
| MixBudget.ComingBackUncovers | output_mix.c:219-222 | conversely, a thread that comes back to the same point had an uncovered budget |
| MixBudget.FillEnds | output_mix.c:127-250 | with other threads at work, a fill ends after exactly `packets` iterations and a bounded number of steps |
| MixLimits.RetriesIs | output_mix.c:136-222 | in every mode, with no producer at work, an iteration retries if and only if all buffers are empty and either the mode is 1 or 3 or there is no input |
| MixLimits.RetryChangesNothing | output_mix.c:219-222 | then, with budget left, a round of the loop changes nothing but the list position |
| MixLimits.OtherModesNeverRetry | output_mix.c:203-216 | in modes 0 and 2, with an input at all, no run ever retries, padding or not |
| MixLimits.PaddingRetries | output_mix.c:191-200 | in modes 1 and 3, a run from the start in which padding in two inputs is budgeted, eaten by one iteration, and makes the next one retry |
| MixSpacing.VisitTracks | output_mix.c:150-202 | a visit keeps what an input remembers of the output in step with the output, and picks a clock only where it may follow |
| MixSpacing.PlaceTracks | output_mix.c:228-249 | so does placing a packet after skipped nulls |
| MixSpacing.RunKeeps | output_mix.c:57-257 | so does every run, across buffers full or all null |
| MixSpacing.OutputSpaced | output_mix.c:150-190 | every clock in the whole output may follow what is before it |
| MixSpacing.RequiredIsGap | output_mix.c:158-167 | without wraparound and within `int`, the count needed is `round(bitrate * d / (8 * 27000000 * 188)) - 1`, cut off at 0 and at one buffer |
| MixSpacing.PcrSpacing | output_mix.c:150-190 | consecutive clocks of one input are at least that many slots apart in the output, unless the first was 0 |
| MixJournal.JournalIs | output_mix.c:227-249 | the journal of counted and uncounted slots lists the output of every run, and uncounted slots are nulls |
| MixJournal.SentIs | data.h:143 | `outputed_packets` is the slots since the input's last clock less the nulls skipped since, so all of them if and only if none was skipped |
| MixJournal.HeldIs | output_mix.c:156-174 | exactly when a clock is held back: the input's last clock in the output was not 0 and fewer slots than required have been counted since |
| MixJournal.OtherModesCountOn | output_mix.c:203-249 | in modes 0 and 2 every input counts all slots from the start but the skipped nulls, and remembers no clock |
| MixLimits.ZeroClockForgotten | output_mix.c:158 | a run in which a clock of 0 and any next clock stand in adjacent slots |
| MixLimits.SpacingHoldsIs | output_mix.c:156-190 | the spacing of two clock values holds in all runs if and only if the first is not 0 or nothing beyond the next slot is required |
| MixLimits.SkippedNotCounted | output_mix.c:245-249 | a run after which a whole buffer of slots has gone by since a clock and one is counted |
| Restamp.StampConcat | output_write.c:54-102 | restamping frame by frame is restamping the whole stream in one go |
| Restamp.StampKeeps | output_write.c:58-77 | a null packet gets header byte 3 set to 0x10, in modes 2 and 3 a packet with a clock may get another clock, and nothing else is changed |
| Restamp.DriftBounded | output_write.c:63-101 | after `n` restamps in a run the clock `v` satisfies `ideal - n < v <= ideal`, on every PID, where each 64-bit wraparound takes its part of `ideal`; a run starts at the source clock |
| Restamp.DriftIsAccurate | output_write.c:73 | with `n * bitrate` within 2^64, the bound holds of the plain ideal clock if and only if nothing has wrapped around |
| Restamp.WrappedClock | output_write.c:73 | two clocks with so many packets between them that the product wraps around: the second one sent is not accurate |
| Restamp.ClocksAdvance | output_write.c:68-77 | a clock without predecessor in its run equals the source clock; otherwise it never goes back, and goes forward exactly when the packets between take a tick or more, wraparound apart |
| Restamp.ClocksStrictlyIncrease | output_write.c:73 | up to one packet per tick, clocks in a run strictly increase |
| MuxProof.MixAgrees | output_mix.c:58-92 | a step of the mixing thread keeps the agreement of both threads on which buffers are full, and with what |
| MuxProof.WriteAgrees | output_write.c:192-237 | so does a step of the writing thread |
| MuxProof.StepRefines | output_mix.c:252-256 | every step of either thread is a step of the mixer with producers, or invisible to it |
| MuxProof.StepSends | output_write.c:226-237 | what has been sent is, slot by slot, what has been mixed |
| MuxProof.ExecuteRefines | output_mix.c:57-257 | whole runs of the two threads refine whole runs of the mixer |
| MuxTheorems.BuffersAreExclusive | output_mix.c:64-92 | in every reachable state at most one thread owns a buffer, and a thread's step changes no buffer it does not own |
| MuxTheorems.BlockedIs | output_write.c:194-199 | a thread's step changes nothing exactly when it waits for a status |
| MuxTheorems.DoubleBuffer | output_write.c:192-280 | fills minus drains is 0, 1 or 2, what was sent is a prefix of what was mixed, and the threads never both wait |
| MuxTheorems.EndToEnd | output_write.c:226-237 | accepted packets of a source = its packets in the frames given to the write, then the unsent ones; exactly in modes 0 and 1, up to clocks in 2 and 3 |
| MuxTheorems.OutputIs | output_write.c:58-77 | in every interleaving slot `i` sent is slot `i` mixed: with header byte 3 at 0x10 if it is a null packet, otherwise the same up to the clock, and the clock too unless the mode is 2 or 3 |
| MuxTheorems.TrafficIs | output_write.c:107-123 | the traffic counted is the bytes of those frames less what failed or short writes did not take |
| MuxTheorems.OutputClocksAccurate | output_write.c:63-101 | the drift bound, and the exact condition of wraparound, for the clocks in the frames sent, over every interleaving with full writes |
| MuxTheorems.OutputClocksSpaced | output_mix.c:150-190 | the spacing for the packets sent, over every interleaving |
| MuxTheorems.MixerNeverRetries | output_mix.c:219-222 | the retry is never reached in any interleaving with producers that offer no padding, nor, with an input at all, in modes 0 and 2 |
| Delivery.OutputOfPid | output_write.c:226-237 | the packets sent with a PID that one source alone uses are the accepted ones, in order, but for those inside |
| Feeds.FeedKeepsToItself | input.c:460-505 | what one connection puts into its buffer never has a PID of another channel's block, unknown source packets apart |
| Feeds.FeedDemux | input.c:499-503 | what a connection puts into its buffer under `y` is the packets read that pass, are kept, and have a PID that the table renames to `y`: on PID `y`, and otherwise as they were |
| Feeds.WantedIs | input.c:499-503 | that is, packet by packet, what was read on the one PID `x` that the table renames to `y`, passed and was kept |
| Feeds.LineDemux | input.c:393-518 | the same for one connection after another, each with its own table |
| Plant.LiveFollows | output_mix.c:57-257 | with gates and tables at work, the two threads go through one of their runs |
| Plant.LiveTook | input.c:155-174 | over every sequence of deeds an input's buffer has taken exactly the bursts that the gate kept |
| Plant.LiveRecorded | output_psi.c:187-275 | the PSI buffer and the counters are what the tables sent out and the mixer's takes make them, and what entered is what the multiplexer accepted |
| Multiplex.SourceToOutput | output_mix.c:131-243 | over every interleaving and series of connections, with the gates deciding: the packets sent with a channel's PID are, in order, the packets read of the streams so renamed that pass and were kept, with that PID and otherwise unchanged up to clocks, but for those inside; exactly so in modes other than 2 and 3; and no one else uses the PID |
| Multiplex.SectionsSent | output_psi.c:187-275 | packet `m` sent of a table's PID is packet `m` of the sections that the PSI buffer took, but for its counter, and for a clock in modes 2 and 3 |
| Multiplex.SentConts | output_psi.c:187-275 | the counters sent of a table's PID are, from the first on, those that its producers put in |
| Multiplex.TablesSentInOrder | data.h:189-193 | so unless a table found the PSI buffer too full they run on modulo 16 in the output |
| Multiplex.ConnectionsNeverRetry | output_mix.c:219-222 | the retry is never reached, in any mode, when inputs offer what connections of channels 1 to 31 offer |
| Threads.OutputBuffer.Reset | data.c:321-332 | every slot a null packet, nothing written, status empty |
| Threads.Input.Ask | output_mix.c:149-216 | one turn of the loop over the inputs is one visit of the machine |
| Threads.Mixer.AskNext | output_mix.c:140-147 | the next input's turn; all other inputs stay as they are |
| Threads.Mixer.SumData | output_mix.c:73-79 | the packets waiting, PSI first |
| Threads.Mixer.CountSent | output_mix.c:245-249 | `outputed_packets` grows by the same amount at every input |
| Threads.Mixer.Scanning | output_mix.c:136-217 | the loop over the inputs is a run of visits up to the first packet |
| Threads.Mixer.Pick | output_mix.c:131-222 | a table that waits is taken, the first one, and the inputs are left alone; else the inputs are asked; a covered budget rules the retry out |
| Threads.Mixer.SpreadRatios | output_mix.c:82-90 | the ratios of the two regimes |
| Threads.Mixer.SkipNulls | output_mix.c:230-236 | the nulls skipped before a packet |
| Threads.Mixer.Stuff | output_mix.c:227-249 | the packet goes to its slot and every input counts it |
| Threads.Mixer.FillLoop | output_mix.c:127-250 | the packet loop is a run of the machine to the end of the fill; with a covered budget it needs no more than `packets` turns |
| Threads.Mixer.Fill | output_mix.c:71-254 | the work on one empty buffer, from budget to `obuf_full`; every source's packets are afterwards in the buffer or still queued, in order |
| MixRuns.TicksCompose | output_mix.c:127-250 | runs of the mixing thread compose, which carries the loops above |
| Threads.Writer.ProcessPacket | output_write.c:55-101 | one packet restamped, and what is remembered for its PID; a null packet gets 0x10, any other keeps all but its clock |
| Threads.Writer.ProcessFrame | output_write.c:50-103 | one frame restamped in place, the rest of the buffer untouched |
| Threads.Writer.Send | output_write.c:226-237 | one frame restamped, sent and counted |
| Threads.Writer.Drain | output_write.c:194-279 | a full buffer sent frame by frame, then reset; or left where shutdown finds it |
| PidRef.PidTable.constructor | pidref.c:24-30 | an empty table and the first PID to hand out |
| PidRef.PidTable.Add | pidref.c:40-53 | the first free entry is taken; fails for PID 0 and for a full table |
| PidRef.PidTable.Del | pidref.c:55-68 | the first entry of the PID is freed; fails if there is none |
| PidRef.PidTable.GetNewPid | pidref.c:70-81 | the first entry's new PID, or 0 |
| PidRef.PidTable.ChangePacketPid | pidref.c:83-90 | a known PID becomes the table's, an unknown one is left alone, and nothing else of the packet is changed |
| PidRef.AddThenDelete | pidref.c:40-81 | adding disturbs no other answer, and deleting gives the old answers back, and the old entries if the free one was cleared |
| Rewrite.ProgramsHandOut | input.c:91-101 | rewriting a PAT hands out PIDs to the numbered programs, in order |
| Rewrite.StreamsHandOut | input.c:126-135 | rewriting a PMT hands out PIDs to the streams off the PCR PID, in order |
| Rewrite.LookupIs | pidref.c:40-81 | the table's answer after handing out: the PID of the first place with that original PID, if it fitted |
| Rewrite.AnswerIsGood | input.c:95-99 | a PID handed out is the table's answer if and only if its original is not 0, new, and fitted |
| RewriteTheorems.FinalIs | input.c:83-139 | PAT and PMT together hand out PIDs in one order |
| RewriteTheorems.NewPmtPids | input.c:118-135 | the PCR PID and each stream PID of the rewritten PMT, by position |
| RewriteTheorems.NewPatIs | input.c:91-101 | every numbered program of the rewritten PAT has the channel's service and, in order, the next PID; the NIT's entry stays |
| RewriteTheorems.NewPmtIs | input.c:115-135 | the rewritten PMT has the channel's service, and every stream its place and kind |
| RewriteTheorems.PmtNamesTheTable | input.c:108-139 | every PID in the rewritten PMT is the table's, if and only if the PIDs are distinct, not 0 and fit |
| RewriteTheorems.LookupInjective | pidref.c:70-81 | no two PIDs get the same new PID |
| RewriteTheorems.DemuxPreserved | input.c:499-503 | the packets with the new PID of `x` are those of `x`, in order, with that PID and otherwise as they were, if and only if no unknown packet carries the new PID already |
| RewriteTheorems.PmtLeavesAsAnnounced | output_psi.c:36 | the rewritten PMT leaves on the announced PID if and only if the first numbered program has a PID |
| RewriteTheorems.TablesUseOwnPids | input.c:91-135 | every new PID is one of the channel's own: those of the PAT's numbered programs, the PMT's, the PCR PID, the streams', and those on packets |
| RewriteTheorems.ChannelsCollide | data.c:140-141 | two channels share a PID if and only if the lower one handed out more than the blocks between them |
| RewriteTheorems.ChannelsAreDisjoint | data.c:140 | with at most 32 PIDs each, channels 1 to 31 share none, none is below 32 and none is 0x1fff |
| AdmissionTheorems.StepAgrees | input.c:188-297 | every packet keeps table and rewritten PAT and PMT consistent, and what is rewritten stays |
| AdmissionTheorems.ConnectionOpens | input.c:460-505 | in every connection the first forwarded packet is a clock on the PMT's PCR PID, after the rewritten PMT was offered |
| AdmissionTheorems.RewrittenOnce | input.c:217-283 | in one connection PAT and PMT are rewritten at most once each |
| AdmissionTheorems.ConnectionOffers | input.c:251-292 | whatever a connection offers is in terms of the PID table and the PMT that it ends with |
| AdmissionTheorems.ConnectionIsSmall | config.c:114 | channels 1 to 31 with sections of at most 1024 bytes hand out PIDs below 0x1fff |
| AdmissionTheorems.NothingPadded | input.c:487-503 | so no packet with PID 0x1fff or above is ever offered to their buffers |
| Forwarding.ForwardsExactly | input.c:460-505 | over every connection: the packets forwarded are, in order, exactly those read that are taken as no PAT, PMT or EIT, are not on the NIT's PID as the PAT gives it, 0x10, 0x11, 0x13, 0x14 or 0x1fff, and come when the last clock on the original PMT's PCR PID, their own included, was not 0 and came after that PMT |
| Forwarding.LearntFrom | input.c:204-275 | over every connection: the PAT rewritten is the first one complete, the PIDs are those of the first complete PAT with a program in it, and the PMT rewritten is the first one complete |
| Forwarding.StepLearns | input.c:204-275 | the packet that completes a table is the one that brings this about |
| Forwarding.ConnectionTables | input.c:54-139 | over every connection: the rewritten PAT and PMT have the channel's service and keep places and kinds, the PMT's PID is that of the first program that has number and PID, and the NIT's that of the last NIT entry before it, or 0x10 |
| Forwarding.ConnectionForgets | data.c:230-249 | a connection begins with nothing collected, and what went before matters only in the two continuity counters |
| Forwarding.ReconnectsExactly | input.c:198-265 | a connection ends with a reconnect if and only if one of its packets completes a PAT or PMT that is not the same as the last complete one |
| Forwarding.PatIsCollected | input.c:191-206 | a PAT packet goes to the table being collected, and to the last one, which a complete one replaces |
| Forwarding.PmtIsCollected | input.c:257-273 | likewise a PMT packet |
| Forwarding.EitIsCollected | input.c:299-345 | an EIT packet goes to the table being collected, which is forgotten once it has been offered |
| Forwarding.StepTables | input.c:275-340 | a PMT is offered exactly when a packet completes one that is the first or the same, an EIT exactly when a packet completes one of the channel's service |
| Forwarding.OffersOfPacket | input.c:460-505 | packet `k` of a connection is offered exactly when it passes, and a table exactly when packet `k` completes it |
| Forwarding.TableCountersRunOn | input.c:284-339 | the packets of all PMTs offered carry consecutive counters modulo 16, from one connection to the next, and so do those of the EITs |
| Receiver.InputStream.ResetStream | data.c:246-249 | everything forgotten but the continuity counters, with a new table |
| Receiver.InputStream.LearnPids | input.c:54-81 | the NIT PID and the PMT PID of the first program that has one; at most one program is counted |
| Receiver.InputStream.RewriteThePat | input.c:83-106 | the loop over the programs, with the table |
| Receiver.InputStream.RewriteThePmt | input.c:108-139 | the loop over the streams, with the table; the result has the channel's service and every stream its kind |
| Receiver.InputStream.ProcessThePat | input.c:188-249 | one PAT packet: collect, compare, learn, rewrite once |
| Receiver.InputStream.ProcessThePmt | input.c:251-297 | one PMT packet: collect, compare, rewrite once, offer |
| Receiver.InputStream.ProcessTheEit | input.c:299-353 | one EIT packet: collect, offer with counters set |
| Receiver.InputStream.ForwardIt | input.c:479-505 | which packets pass, which set the clock, and what is offered: the packet itself on its new PID; `input_ready` is set with the first packet |
| Receiver.InputStream.Receive | input.c:464-505 | the body of the packet loop |
| Receiver.InputStream.Serve | input.c:421-506 | a connection: reset, then packet by packet up to a reconnect or to the end of what is read; exactly the passing packets are forwarded, it reconnects exactly when a table changes, the first packet forwarded is a clock after the rewritten PMT, and nothing offered is padding |
| InputBuffer.Buffer.Add | input.c:155-174 | one add: nothing when told to die, else possibly reopened, kept whole or dropped whole |
| InputBuffer.HalfEmptyIs | input.c:161-163 | the comparison with 50% means at most half full |
| InputBuffer.DisabledIs | input.c:160-173 | over every run, the input is shut exactly since some fill did not fit and no later add found the buffer at most half full |
| InputBuffer.DroppedIs | input.c:155-174 | a burst is dropped if and only if it did not fit or the input is shut in that sense |
| MpegSync.MpegSync | network.c:270-317 | the byte loop, with its time-outs and limits; it succeeds exactly under the condition of `SyncIs` |
| MpegSync.SyncIsSound | network.c:282-316 | at most 2632 bytes are consumed, and success means that the last 1316 are seven packets in a row |
| MpegSync.SyncFinds | network.c:292-304 | seven packets that start at the first sync byte, within 1316 bytes and in time, are found |
| MpegSync.SyncIs | network.c:282-316 | with readings at 0, then 188 bytes after a byte 0x47 and one byte after any other: success if and only if seven readings in a row find 0x47, the last packet is complete, and every earlier reading of another byte is among the first 1316 bytes and in time; reading goes on after the first such seven |
| PsiOutput.Producer.Output | output_psi.c:195-200 | a section's packets numbered in place, then offered as a whole; the counter advances either way |
| PsiOutput.BufferHolds | output_psi.c:187-275 | the PSI buffer is the end of all that entered it |
| PsiOutput.AcceptedAre | output_psi.c:187-275 | the record of counters is that of the packets that entered |
| PsiOutput.SectionsEntered | output_psi.c:187-275 | what entered is the packets of the sections kept, in order, with nothing changed but counters |
| PsiOutput.ContsCount | data.h:189-193 | a counter is, mod 16, its start plus packets accepted and lost |
| PsiOutput.SeenCounts | output_psi.c:261-275 | every accepted packet carries the count of all before it, lost ones included |
| PsiOutput.ContinuityIs | output_psi.c:187-275 | neighbours under one counter are consecutive if and only if the packets lost between them are a multiple of 16 |
| PsiOutput.ConsecutiveWithoutLoss | output_psi.c:234-259 | without a failed fill the counters run on from 0, or from 15 for TDT and TOT together |
| IniDict.MemDouble | inidict.c:67-78 | twice the room, the old contents, then zeros |
| IniDict.Dictionary.constructor | inidict.c:146-161 | an empty dictionary of at least 128 slots |
| IniDict.Dictionary.Lookup | inidict.c:204-222 | the key's value in the map, or the default |
| IniDict.Dictionary.Set | inidict.c:250-305 | the key's slot, or the first free one after possible doubling; sizes, count, hashes and distinct keys are kept |
| IniDict.Dictionary.Unset | inidict.c:318-353 | the key's slot is freed; the same is kept |
| IniDict.PutAt | inidict.c:250-305 | a key goes to its own slot, else to the first free one; the slots double exactly when the key is new and none is free; all others keep what they hold |
| IniDict.PutIs | inidict.c:250-305 | setting is the map with the key updated |
| IniDict.DropIs | inidict.c:318-353 | unsetting is the map without the key |
| IniDict.CountFull | inidict.c:278 | the count reaches the size exactly when no slot is free |
| IniDict.DoubledHasRoom | inidict.c:281-298 | after doubling the first free slot is the first new one |
| IniDict.SlotsRefineMap | inidict.c:204-353 | after every sequence of sets and unsets lookups answer as a partial map does |
| IniRoundTrip.PairParses | iniparser.c:505-521 | a printed pair reads back as that key and value |
| IniRoundTrip.LoadJoined | iniparser.c:587-648 | the loader takes lines that fit and are not continued one by one |
| IniRoundTrip.LoadDump | iniparser.c:236-274 | loading the dump of a well-formed dictionary succeeds and gives the same map, with missing values read back as empty |
| IniErrors.LoadFails | iniparser.c:616-645 | for lines that fit and are not continued, loading fails if and only if some line is wrong and no later one sets anything |
| IniErrors.ErrorForgotten | iniparser.c:618 | a two-line file with a syntax error that loads |
| IniLines.LineKinds | iniparser.c:491-537 | blank lines say nothing, a number sign makes a comment, brackets at both ends make a section, and any other line is wrong exactly when it lacks an equals sign or begins with one |
| IniLines.KeyAndRest | iniparser.c:503-521 | blanks around key and value mean nothing, and the key is lowered |
| IniLines.BracketedName | iniparser.c:497-502 | a section's name is what stands before the first closing bracket, without blanks around it, lowered |
| IniLines.QuotedValue | iniparser.c:503-504 | a value in quotes of either kind is what is between them, comment characters and all, whatever follows |
| IniLines.CommentedValue | iniparser.c:505 | any other value ends at the first `;` or `#` |
| IniLines.StripAround | iniparser.c:104-122 | stripping takes away exactly the blanks at both ends |
| IniLines.BlanksAre | iniparser.c:112 | blanks are the six of ASCII |
| IniLines.LowerIs | iniparser.c:74-88 | the 26 letters are lowered, and no other character changes |
| IniLines.ContinuedLine | iniparser.c:606-611 | a line that ends with a backslash waits and is joined with the next |
| IniLines.RepeatedSection | iniparser.c:497-502 | empty brackets set the open section once more |
| IniLines.LineTooLong | iniparser.c:587-599 | a line that does not fit the 1024 characters, with what is pending, or lacks its newline makes the load fail |
| IniLines.BareDump | iniparser.c:246-254 | a dump without sections loads to the same map with a colon before every key |
| IniLines.BareNull | iniparser.c:251 | in such a dump a missing value is printed as `(null)`, as the C library prints a null string |
| IniLines.SectionLayout | iniparser.c:255-272 | the text of a dump with one section |
| IniLines.PairLineLayout | iniparser.c:264-268 | a pair's line: the key filled up to 30 characters, ` = `, the value |
| IniParser.StrLwc | iniparser.c:74-88 | every character lowered, up to 1024 of them |
| IniParser.StrStrip | iniparser.c:104-122 | blanks dropped at both ends |
| IniParser.GetNSec | iniparser.c:142-157 | the number of keys without a colon |
| IniParser.GetSecName | iniparser.c:173-193 | the `n`-th such key in slot order, or null |
| IniParser.DumpIni | iniparser.c:236-274 | the text of the dump, with and without sections |
| IniParser.IniParserLine | iniparser.c:478-537 | what a line says: nothing, comment, section, pair or error |
| IniParser.TakeLine | iniparser.c:611-635 | what a line does to dictionary, section and error count |
| IniParser.LoadIni | iniparser.c:553-650 | the loop of the loader, with line limit, continuation and errors |
| IniParser.DumpAndLoad | iniparser.c:236-274 | the round trip of the code itself |

## Left out

- Sockets, HTTP, DNS, RTP headers, file writes: a write is the number of payload bytes it took.
- Pacing of writes and sleep calibration, which depend on the wall clock.
- Statistics: `traffic_period`, `padding_period`, log output.
- Shutdown: run theorems range over states before `dienow`; `Threads.Mixer.Fill` and
  `Threads.Writer.Drain` take the point where it strikes as a parameter, and a connection in
  `Receiver` ends with the packets it is given.
- Building and parsing sections, the PAT, SDT and NIT contents, EPG and when tables are due.  Of the
  PMT and EIT packets that an input offers, the model has their number, PID and counters.
- `r->ifd` and `pid_pat_cont`, which only serve the optional copy of an input to a file.
- Source failover, work hours, and partial reads that end within a packet.
- Inputs that come and go during a run, and an input whose PCR PID changes while packets of the
  old one are still queued.
- Floating-point rounding error.  Overflow of `outputed_packets`, and values of a restamped
  clock beyond 64 bits or beyond the 42-bit field it is written to.
- MixSpacing.RequiredIsGap: assumes that the source clock does not go back, where the code's
  conversion has no defined result.
- MuxTheorems.OutputClocksAccurate: assumes complete writes; after a short write the byte count
  no longer gives the slot.
- MuxTheorems.EndToEnd: `out` is the frames given to the write, each once; what failed writes did
  not take of them is the matter of `MuxTheorems.TrafficIs`.
- Multiplex.TablesSentInOrder: is about the multiplexer's own packets; an input whose channel
  passes EIT on adds packets to PID 0x12 with a counter of its own.
- Threads.Mixer.Fill: describes the thread with nothing in between its steps; what other threads
  do between them is in the machine's runs (`Mix.Next`, `Mux.Step`).  The same goes for the other
  methods of `Threads`.
- `dictionary_hash` itself: the hash is a parameter, so nothing rests on its distribution.
- Failed allocations, null dictionaries, keys and files.
- Lines longer than the parser's buffers as memory errors; a line that is too long is refused.
- `iniparser_load` looks at the character before the buffer on a blank line; the model takes it
  not to be a backslash.
- Locale: blanks and letters are the ASCII ones.  Characters of code 0 are not treated apart.
- `iniparser_dump`, the typed getters and `iniparser_find_entry`, which are single branches over
  the lookup.
