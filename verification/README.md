# CFT: program generators, the resumable sweep, and the golden corpus

A Dafny model of five parts of the CFT repository, and proofs about each.

1. **The ODE program generators** (`programs/gen_odes.py`). A small compiler that emits straight-line register and
   scratch code inside one `REPEAT`. `Sequencer.dfy` is the machine: registers, a scratch block, a constant
   bank, and `fma`, `add`, `sub`, `mul`, `neg` as uninterpreted total functions over an abstract value type (`fma d, a, b, c`
   is the fusedMultiplyAdd of section 5.4.1 of IEEE 754-2019, a·b+c, whose rounding stays abstract). `Lorenz96.dfy`,
   `Lorenz63.dfy` and `HenonHeiles.dfy` hold the three generators with their test mutants as variants: the emitting methods,
   in the source's loops, and the proof that what they emit computes the mathematical step for every ring size, bank,
   register file, scratch and interpretation of the operations. `Textbook.dfy`, `Lorenz96Exact.dfy` and `OdesExact.dfy`
   interpret the operations over `real`: RK4, the 3/8 rule, Störmer-Verlet and its reversal.
2. **The resumable sweep** (`hw/card_stress.py`, `hw/card_stress_lib.py`). `Trees.dfy` (tree classes and which finished
   slices a resume counts), `Sweep.dfy` (one item's state, live and replayed; the planner), `History.dfy` (what that state
   says of the slices behind it, status by status), `Campaign.dfy` (the card's wave, the host pool, crashes and resumes as a
   machine of atomic steps, and the invariant every run keeps), `Outcomes.dfy` and `Completion.dfy` (what that invariant comes to: resumes, disjoint slices, termination), `Endings.dfy` (a run ends
   whatever its slices come to), `Sessions.dfy` (runs with settings of their own), `Losses.dfy` (what breaks it, and exactly
   where), `Fairness.dfy` (the rotation of items), `Driver.dfy` (the `Driver` object, its dictionaries updated in place),
   `Seeds.dfy` (seeds, streams and chains of runs), `TornLog.dfy` (the append-only log).
3. **The kernels**: `Intervals.dfy` (merging, coverage, the first gap), `Rotation.dfy` (smooth weighted round robin),
   `Counting.dfy` (random scaleB's batches; skip counts that sum exactly over any partition).
4. **The golden corpus's manifest** (`certificates/corpus.py`). `Spelling.dfy` and `Text.dfy` (decimals, string order,
   splitting and joining), `Grammar.dfy` (each line, written and read), `Manifest.dfy` (the whole grammar and the strict reader
   as a function), `ManifestRoundTrip.dfy` and `ManifestFile.dfy` (the two are inverse), `ManifestReader.dfy` (reader and
   writer as they run: a cursor, loops, growing lists), `ManifestMeaning.dfy` (what is accepted, field by field).
5. **The keep rule** (`certificates/corpus.py`): `KeepRule.dfy`.

`Wrappers.dfy` holds `Option`.

## How it is modelled

- What loops and assigns in Python is a method with loops or a class with fields; each is proved against a function, and the
  theorems are about the functions. `Src`, `Driver` and `Lines` are the source's objects.
- A slice's outcome is any status at all; git's answer about a commit, the certificate's hash, a record's JSON and the sizes
  of slices are parameters. A record's encoding is any that `TornLog.Lawful` describes (no newline, no proper prefix a record),
  and a hash line any that `body_of` undoes.
- `served / w` is compared as an exact rational. Dictionaries keyed by `(item, lo, hi)` are kept per item, in the order their
  keys first came.
- A keyed case is one with a salt, and a case's `accuracy_by` is the word its count decides: the model keeps neither `mode` nor
  `accuracy_by` beside what determines them. `superseded` never holds the case name `none`, since the file spells "no case" so.
- The manifest's text is what Python's text mode hands over (its newline translation is before the model), and its head is any
  list of comment lines.

## Where the code and its promises part

- **Failures of slices that could not start.** `account_slice` counts a slice that ended `error` among its item's failures;
  `load_state` counts `timeout`, `no_device` and `parse_error` only. So a resume forgets exactly those:
  `Outcomes.ResumeFinds` gives the difference for every run, `Outcomes.QuarantineFound` says when the quarantine survives it,
  and `Losses.ErrorForgotten` is a run where it does not, at every limit from one up.
- **A negative `--quarantine-after`.** Nothing refuses it. `Sweep.NegativeLimitDisables`: one passing slice, and the rebuilt run
  disables an item the live run goes on with. Every campaign theorem asks for a limit of zero or more.
- **A run placed only by git.** `count_by_class` knows the resuming run's class from what it recorded; later readers may also
  derive it from its commit. Where only the second is known the run starts from no coverage and its slices then fall among
  those the file holds: `Outcomes.UnrecordedOverlaps`, and `Losses.PlacedByGitOverlaps` is such a run. `Campaign.Recorded` is
  exactly the condition (`Losses.RecordedIsExact`); `Losses.UnrecordedIs` says it of a tree, and recording both trees' hashes
  meets it (`Outcomes.TreesRecorded`).
- **A run that goes on after an exception.** The pool's worker and the main loop do, and may lose a job in flight. That is
  harmless exactly where the job has no record, or the record of a draw that timed out or lost its device
  (`Losses.DropIsSafe`). A completed slice or draw lost is planned again (`Losses.LostSliceOverlaps`,
  `Streams.LostDrawRepeats`; of streams, `Streams.DropIsSafe` is exact); a failure lost goes uncounted until a resume. A short
  write that is not repaired takes the next record with it (`TornLog.ShortWriteFuses`).
- **A directory not named with `--earlier-runs`** may repeat streams, and does exactly where one of its completed draws is not
  below the run's next (`Streams.NamingIsExact`).
- **An empty space.** `first_gap` of a space of no points answers `(0, total)` when its first interval starts above 0
  (`Intervals.FirstGapOf`).
- **A version-1 run that names a source** is refused at the line of its bank, not of its source
  (`ManifestReader.ReadManifest` keeps that).
- **A source or image named twice** in a manifest is accepted, and the earlier line is lost when it is written again
  (`ManifestFile.WrittenOfRead` is exact: the rearrangement keeps every line if and only if no path repeats).
- **The compensated Henon-Heiles program** is right step by step and does not chain: `HenonHeiles.KahanDoesNotChain`.

## Model

| member | source | states |
|---|---|---|
| Sequencer.ListingRuns | programs/gen_odes.py:452-495 | Stepping a flat listing line by line with REPEAT and ENDREP as control, the machine halts in the state that running the body the given number of times gives |
| Lorenz96.BodyIsStep | programs/gen_odes.py:446-493 | For every N of at least 2, bank, registers, scratch and ALU, one pass of the emitted body leaves in slots 0..N-1 the four-stage step of the values that stood there, though five stage vectors share the scratch, the window rotates by index mod 4 and the ring's end leaves a load out |
| Lorenz96.ComponentWrites | programs/gen_odes.py:462-491 | Component i of a stage stores exactly its share at its own index, computed from window registers that hold x at i-2..i+1 mod N |
| Lorenz96.NextLoadRuns | programs/gen_odes.py:448-449 | The next load slides the rotating window on by one, also where the ring's end leaves it out |
| Lorenz96.StageRuns | programs/gen_odes.py:454-491 | A whole stage reads its input vector only before overwriting it and leaves the stage's vectors as the mathematics says, all N entries |
| Lorenz96.ProgramIsSteps | programs/gen_odes.py:402-495 | The image run for any number of trips leaves that many steps of its carried block |
| Lorenz96.SegmentsChain | programs/gen_odes.py:113-129 | a trips, then b trips from any lane that carries only slots 0..N-1 of the first, leave what a+b trips leave: everything else is dead on entry |
| Lorenz96.BodyCost | programs/gen_odes.py:452-493 | The body holds 19N ALU operations and 17N+12 scratch accesses, for every N; the 3/8 rule's 22N and 18N+12 |
| Lorenz96.EmitComponent | programs/gen_odes.py:462-491 | The branches for one component append exactly its code, the next load only where i+2 <= N |
| Lorenz96.EmitShare38 | programs/gen_odes.py:368-399 | The 3/8 rule's share of a component, line for line |
| Lorenz96.Emit | programs/gen_odes.py:452-495 | The nested loops emit exactly the listing of the program that BodyIsStep is about |
| Lorenz96Exact.ProgramIsTextbook | programs/gen_odes.py:368-495 | Under exact arithmetic, for every ring size and any number of trips from any lane, the program leaves textbook RK4 of the Lorenz-96 field, and textbook 3/8 rule for rk38 |
| Lorenz63.ProgramIsSteps | programs/gen_odes.py:229-365 | The image turns the carried x, y, z into n steps and touches no other slot, for every bank, registers, scratch and ALU, in every variant |
| Lorenz63.SegmentsChain | programs/gen_odes.py:113-129 | Segment chaining from x, y, z alone |
| Lorenz63.BodyCost | programs/gen_odes.py:294-362 | A step is 53 instructions, 62 under the 3/8 rule |
| Lorenz63.MovesAreAlu | programs/gen_odes.py:283-361 | Every instruction of the body is an ALU operation |
| Lorenz63.EmitRhs | programs/gen_odes.py:283-291 | The inner function f emits the right-hand side's eight instructions for the registers it is given |
| Lorenz63.EmitFma3 | programs/gen_odes.py:341-349 | A loop over x, y, z emits three fma lines, one a coordinate |
| Lorenz63.Emit | programs/gen_odes.py:293-365 | The generator emits exactly the listing of the program |
| Lorenz63Exact.ProgramIsTextbook | programs/gen_odes.py:283-365 | Under exact arithmetic with H2 = h/2 and H6 = h/6 the program is n steps of textbook RK4, and rk38 of the textbook 3/8 rule |
| HenonHeiles.ProgramIsSteps | programs/gen_odes.py:498-591 | Each variant's image turns the carried block into n of its steps, for every ALU |
| HenonHeiles.SegmentsChain | programs/gen_odes.py:522-587 | Segment chaining for every variant but kahan |
| HenonHeiles.KahanDoesNotChain | programs/gen_odes.py:113-129 | A concrete ALU, the bank of h = 2 and a lane in which one step twice differs from two steps once under kahan: the register e is live between steps |
| HenonHeiles.DeadE | programs/gen_odes.py:570-587 | Outside kahan the register e changes nothing |
| HenonHeiles.BodyCost | programs/gen_odes.py:525-587 | The bodies' instruction counts |
| HenonHeiles.Emit | programs/gen_odes.py:522-591 | The generator emits exactly the listing of the program, in each variant |
| HenonHeilesExact.StepIsVerlet | programs/gen_odes.py:570-583 | Under exact arithmetic one step is drift, kick, drift by the Henon-Heiles forces |
| HenonHeilesExact.StepsReverse | programs/gen_odes.py:570-583 | n steps and then n steps with the step negated return the start, for every n |
| HenonHeilesExact.ProgramReverses | programs/gen_odes.py:522-591 | The same of the emitted images, the second run from any lane that carries the block |
| HenonHeilesExact.KahanIsPlain | programs/gen_odes.py:525-547 | Under exact arithmetic kahan keeps e = 0 from a zero start and equals the plain stream at every step |
| Intervals.MergeIntervals | hw/card_stress_lib.py:1189-1200 | Refuses an empty or reversed interval and nothing else; otherwise sorted, disjoint, non-touching intervals with the same points |
| Intervals.SeparatedUnique | hw/card_stress_lib.py:1189-1200 | A point set has one such list, so what the merge returns is settled |
| Intervals.Covered | hw/card_stress_lib.py:1203-1204 | The cardinality of the points covered, however the intervals overlap |
| Intervals.FirstGapOf | hw/card_stress_lib.py:1207-1216 | The least uncovered point with its maximal uncovered run clipped to the total, None exactly when [0, total) is covered; and what it answers of an empty space |
| Intervals.FirstGapUnique | hw/card_stress_lib.py:1207-1216 | Those properties have one answer |
| Rotation.SmoothWrr | hw/card_stress_lib.py:1913-1926 | The loop returns the first n picks of the rotation, for weights of zero or more |
| Rotation.CurIs | hw/card_stress_lib.py:1919-1925 | cur[k] is n times the weight less the total times the picks of k |
| Rotation.CurSum | hw/card_stress_lib.py:1919-1925 | After every round the running values sum to 0 |
| Rotation.CurAbove | hw/card_stress_lib.py:1919-1925 | Every running value stays above minus the total |
| Rotation.Share | hw/card_stress_lib.py:1913-1926 | No name is ever picked as many as one time more than its share of the rounds |
| Rotation.NeverPicked | hw/card_stress_lib.py:1913-1926 | A name of weight 0 is never picked |
| Rotation.Window | hw/card_stress_lib.py:1913-1926 | A window of as many picks as the weights' total gives each name exactly its weight |
| Rotation.Periodic | hw/card_stress_lib.py:1913-1926 | From there the picks begin again: the first T + n are the first T and then the first n |
| Rotation.PicksExtend | hw/card_stress.py:943-948 | Each longer call extends the shorter, so recomputing a prefix agrees with stepping |
| Rotation.NextImage | hw/card_stress.py:943-948 | The image of visit number p is the rotation's p-th pick |
| ScaleB.CountCases | hw/card_stress_standin.py:183-191 | The loop terminates and returns what whole and part batches make, for every count, batch and list length |
| ScaleB.CasesBounds | hw/card_stress_lib.py:1003-1022 | The cases are at least the count and fewer than the count and a whole batch's more |
| ScaleB.CasesMonotone | hw/card_stress_lib.py:1003-1022 | More asked, no fewer made |
| Skips.SkippedBounds | hw/card_stress_standin.py:545-554 | A slice skips between none and all of its slots, and cases and skipped slots are k times its size |
| Skips.HardInKs | hw/card_stress_standin.py:174-180 | In a hard mode every slice's skips and cases are multiples of k |
| Skips.BeforeIsShare | hw/card_stress_standin.py:174-180 | The skips before any index are the most whole steps, of k in a hard mode and of one otherwise, within that index's share of the mode's total |
| Skips.WholeSpace | hw/card_stress_standin.py:174-180 | Over any partition of the space, in any order, skips and cases sum exactly to the mode's whole-space figures |
| Skips.TableIsSound | hw/card_stress_standin.py:112-136 | Every mode of the table meets what the sums need, cvtto64-class under each attribute among them |
| Slices.Telescope | hw/card_stress_standin.py:104-111 | Anything additive over slices, summed over disjoint slices that cover a range, is its value on the whole |
| Trees.GitOnlyRefuses | hw/card_stress_lib.py:1372-1399 | What git says of a recorded tree can make its class unknown, never another |
| Trees.KnownNamesTheHash | hw/card_stress_lib.py:1402-1411 | A known class names the recorded hash, or from a clean checkout alone git's |
| Trees.KnownIff | hw/card_stress_lib.py:1372-1411 | A class is known if and only if a hash was recorded that git's for a 40-hex commit does not contradict, or there is git's for a clean checkout, and at the host a compiler was recorded |
| Trees.KeysAgree | hw/card_stress_lib.py:1335-1358 | Two known classes of a reach, of git hashes, have one key if and only if the hashes are one, both directories were clean or both modified, and at the host the compilers are one |
| Trees.CountSlices | hw/card_stress_lib.py:1414-1458 | The counted list is the order-preserving sublist of the resuming run's class; and of the finished slices each reach's counts are how many are of that class and how many of another, and each run_start's, reach's and reason's how many are not placed, none lost |
| Trees.ClassesDoNotShare | hw/card_stress_lib.py:1414-1458 | Of resumes of two classes, each finished record is counted by one at most, also where one slice was run under both with the same counts |
| Trees.OneClassCountsAll | hw/card_stress.py:1640-1652 | A log of one known class is counted whole |
| Sweep.AccountReplaysWhole | hw/card_stress.py:1944-1984 | One more leg accounted is one more record replayed: the next seed number, the bad streak and the disabling |
| Sweep.AccountReplaysClass | hw/card_stress_lib.py:1286-1314 | The same of coverage, slices served and sums over the run's own class |
| Sweep.AccountCountsFails | hw/card_stress.py:1600-1607 | Live and replayed fail counts part by exactly the slices that could not start |
| History.LiveSays | hw/card_stress.py:1944-1984 | After any slices from an item's first: the bad streak is the number that ended parse_error or error since the last pass or fail; the item is disabled if and only if one of those took it over the limit; a slice has failed as often as it ended otherwise than pass or fail; what is covered is what passed or failed |
| History.RebuiltSays | hw/card_stress.py:1573-1623 | Of the records: the same streak, disabled where it stands over the limit, a slice failing for timeout, no_device and parse_error alone, and the next number one more than the highest completed, or the floor |
| Sweep.ReplayQuarantines | hw/card_stress.py:1609-1614 | A rebuilt slice is quarantined if and only if it failed, and often enough |
| Sweep.AccountQuarantines | hw/card_stress.py:1977-1983 | And so is a live one, after every accounted leg |
| Sweep.NegativeLimitDisables | hw/card_stress.py:1609-1611 | With a negative limit one passing slice parts the rebuilt run from the live one |
| Sweep.Pick | hw/card_stress.py:1771-1801 | The least loaded eligible item, the first of equals; none exactly when none is eligible |
| Sweep.PickIsLeast | hw/card_stress.py:1786-1801 | The item picked has been served no more for its kind's weight than any that could run, exhaustive items by --weight-exhaustive and random ones by --weight-random, 0 read as 1; and less than any before it |
| Sweep.WavePlanned | hw/card_stress.py:1823-1880 | A wave takes no item twice and none to avoid; each exhaustive slice starts at its item's first gap, not empty, in the space and clear of all behind it; each random one is the item's next |
| Sweep.WaveEnds | hw/card_stress.py:1838-1842 | An exhaustive slice of a wave holds at most the units asked for it, and fewer only where it ends at the space's end or at a point already behind the item |
| Campaign.BootOk | hw/card_stress.py:1573-1665 | A run's start, from any log whose coverage is a cut in every class, meets the invariant |
| Campaign.PlanKeeps | hw/card_stress.py:2172-2190 | Planning by the card or by a pool worker keeps it, whatever is in flight |
| Campaign.FinishKeeps | hw/card_stress.py:1925-1942 | Appending any record of a job in flight keeps it |
| Campaign.SettleKeeps | hw/card_stress.py:1944-1984 | Folding a record in keeps it, in any order of the jobs |
| Campaign.AbandonKeeps | hw/card_stress.py:2218-2267 | Dropping a job that left no record, a pool's or a tile's, ended with the run or lost to an exception, keeps it |
| Campaign.ResumeKeeps | hw/card_stress.py:1573-1623 | A crash at any moment and a run after it keep it |
| Campaign.RunKeeps | hw/card_stress.py:1573-1984 | Every run of the machine on a new file, or any whose coverage is a cut, over any plans, ends, failures, jobs dropped without a record, crashes and resumes on any recorded trees, keeps the whole invariant: replay agrees with live once what is logged is accounted, coverage is a cut in every class, no item is twice in flight |
| Campaign.NewFileIsCut | hw/card_stress.py:1573-1577 | A new file is such a file |
| Sessions.SessionsKeep | hw/card_stress.py:1573-1984 | The same of every run of a chain of runs on one file, each with settings of its own: limit, items, weights, batch, floors; and the whole catalog's coverage stays a cut |
| Sessions.ResumeUnder | hw/card_stress.py:1573-1723 | What a resume under other settings finds: the same streak, coverage and sums, the next numbers over its own floors, and disabled items and quarantine by its own limit |
| Outcomes.ResumeFinds | hw/card_stress.py:1573-1665 | In every reachable state, whatever is logged and not yet accounted, the next run loads what the lost one's state comes to: seeds, streaks and disabling, in its class coverage, slices served and sums, and the fail counts less exactly the slices that could not start since the last run_start |
| Outcomes.QuarantineFound | hw/card_stress.py:1609-1614 | A slice is quarantined live if and only if it failed often enough, and rebuilt if and only if it did so without the failures to start since the last run_start |
| Outcomes.CoverageIsACut | hw/card_stress.py:1771-1801 | In every reachable state, live and in each tree class of the file, an exhaustive item's completed slices are pairwise disjoint, not empty and inside its space |
| Outcomes.FlightIsApart | hw/card_stress.py:2172-2190 | In every reachable state no item is in flight twice, by card or pool, and each slice in flight is in its space, clear of all behind it and at its first gap |
| Outcomes.FinishGrows | hw/card_stress.py:1962-1966 | A completed slice of the running class adds exactly its points to what the class covers, every one of them new |
| Outcomes.SlicesRunOut | hw/card_stress.py:1771-1801 | Over any runs and resumes, an item has no more completed slices in a class than indices |
| Outcomes.UnrecordedOverlaps | hw/card_stress.py:1640-1652 | A run whose class only git can tell makes slices of that class overlap, wherever the file holds the point its first slice starts at |
| Outcomes.UnknownCountsNone | hw/card_stress_lib.py:1444-1449 | A run of unknown class counts none of the file's slices |
| Outcomes.TreesRecorded | hw/card_stress_lib.py:1372-1399 | With both trees' hashes recorded, no class is known later that the run did not know |
| Completion.QuiescentIsCovered | hw/card_stress.py:1771-1801 | In every reachable state where all slices had verdicts, an exhaustive item that cannot be planned is covered at every point of its space |
| Completion.PlanMoves | hw/card_stress.py:1823-1880 | Planning adds a job if and only if a wave may be planned, one is asked for, and some item it may take can run |
| Completion.StuckIsCovered | hw/card_stress.py:2172-2201 | Where no plan, end with a verdict or accounting does anything, nothing is in flight and every item is covered: no reachable state is stuck short of that |
| Completion.CampaignEnds | hw/card_stress.py:1823-1984 | Interleaving waves, workers, lost jobs, crashes and resumes in one class, a campaign of exhaustive items whose slices get verdicts takes at most three steps for each index its spaces have left, and a fixed number more for each lost job or run |
| Completion.CompletionsRunOut | hw/card_stress.py:1771-1801 | Over any run in one class, random items and failures included, the completed slices of its exhaustive items together number at most the indices left |
| Endings.RunEnds | hw/card_stress.py:1944-1984 | Whatever the statuses, a run of exhaustive items in which every step does something is bounded: three steps for each index of a space and for each failure its slices have before the sweep moves past, two more for each lost job |
| Totals.WholeSpaceOk | hw/card_stress.py:1986-2001 | In any reachable state, whatever else is in flight and whatever the run's class, when an item has no gap left and its slices were counted truly, their sums are the mode's whole-space figures |
| Totals.ResumeCountsSlices | hw/card_stress.py:1640-1665 | What a resume loads of an item is what count_slices keeps of the whole log, taken one item at a time |
| Losses.ErrorForgotten | hw/card_stress.py:1605-1607 | At any limit from one up, a run that met as many failures to start as the limit moves past the slice, and the run that resumes it starts there again |
| Losses.PlacedByGitOverlaps | hw/card_stress.py:1640-1652 | A run, and one of the same class by git's account that did not itself know so: the second covers the first's slice again, for any two trees and either reach |
| Losses.UnrecordedIs | hw/card_stress_lib.py:1372-1411 | A run is placed by git alone if and only if it wrote no hash of the reach's directory, was clean, git has the hash for its commit and, for the host, it wrote its compiler |
| Losses.RecordedIsExact | hw/card_stress.py:1640-1652 | A run of this tree keeps the coverage of every file a cut, for any --sweep-items and any course, if and only if it is recorded, in every catalog that sweeps a space wherever it has items |
| Losses.DropIsSafe | hw/card_stress.py:2218-2229 | In every reachable state, losing a job leaves the invariant true for good if and only if it has no record, or that of a draw that timed out or lost its device |
| Losses.LostSliceOverlaps | hw/card_stress.py:1823-1880 | In every reachable state, after an exhaustive slice with a record is lost, whatever is planned of the item next starts where it did; with verdicts on both in a known class, the class overlaps |
| Losses.LostRecordOverlaps | hw/card_stress.py:2218-2229 | Such a run from a new file: the first slice recorded, lost and covered again |
| Fairness.RotationIsFair | hw/card_stress.py:1771-1801 | From a new file, over any turns of one job planned, passed and accounted: of two items that could always run, one slice back neither has had more for its kind's weight, as the settings give it, than the other for its own |
| CardDriver.SweepCoverage | hw/card_stress_lib.py:1286-1314 | The dictionaries hold each item's covered slices, slices served and highest number completed |
| CardDriver.ReadStreaks | hw/card_stress.py:1583-1608 | load_state's pass leaves each item's sums and fail counts as the item-at-a-time replay has them, and its bad streak the number of parse_error and error slices since its last pass or fail |
| CardDriver.Driver.LoadState | hw/card_stress.py:1573-1614 | After it every item's entries are the replay of the whole file, its streak and disabling those of its statuses in order, and the streams known are those its slices started |
| CardDriver.Driver.CountByClass | hw/card_stress.py:1640-1665 | After it coverage, slices served and sums are those of the run's own class, the rest as they were, also where it returns early |
| CardDriver.Driver.LoadEarlier | hw/card_stress.py:1708-1723 | Raises each next number to the floor of the runs named, adds the streams they started beside this file's own, which win, and changes nothing else |
| CardDriver.Driver.Resume | hw/card_stress.py:1573-1723 | The three in the driver's order leave every item and the known streams as the resume's definition has them |
| CardDriver.Driver.AccountSlice | hw/card_stress.py:1944-1984 | The item's entries become the accounted ones: parse_error and error raise the streak and may disable, pass and fail end it, the others leave it; every other item's stay, a random slice's stream is known whatever came of it, and the whole-space event is emitted once, exactly when the last gap closes, saying whether the sums agree |
| CardDriver.Driver.PickItem | hw/card_stress.py:1771-1801 | Returns the rotation's choice and its gap, and fails exactly when an item it looks at has an empty or reversed interval |
| CardDriver.Driver.Plan | hw/card_stress.py:1823-1880 | The loop plans exactly the wave of the planner's definition, each exhaustive slice of the units asked but where the space or a covered point ends it and each draw's stream free; or refuses the first job with no room for its number or a stream another slice started |
| Seeds.SeedsApart | hw/card_stress_lib.py:1031-1038 | Below 2^39 the seed is injective in item and number, and odd |
| Seeds.BeyondTheRoom | hw/card_stress_lib.py:1036-1038 | At 2^39 it is not: the bound is the one needed |
| Seeds.KeysApart | hw/card_stress_lib.py:1461-1466 | Two slices start one stream if and only if they are one item's one number and, where the batch matters, of one batch |
| Seeds.KeysMeet | hw/card_stress_lib.py:1461-1466 | Of any recorded seeds, two start one stream if and only if they differ in their last bit alone, the batch is part of both streams or of neither, and where it is the batches are one |
| Seeds.SeedStates | hw/card_stress_lib.py:1469-1482 | Every stream a file's slices started, whatever came of them, the later record winning |
| Seeds.StatesAre | hw/card_stress_lib.py:1469-1482 | The streams of a file are exactly those of its draws, completed or not, each under its last record's item and number |
| Seeds.StatesOverAre | hw/card_stress_lib.py:1527-1531 | ... and of several files, the last file's that has the stream |
| Seeds.Highest | hw/card_stress_lib.py:1513-1525 | The highest number completed of each item, a layout-dependent one's at the asked batch alone |
| Seeds.EarlierRuns | hw/card_stress_lib.py:1488-1531 | The floor of each item over all the named directories, and the streams they started |
| Seeds.FloorIs | hw/card_stress_lib.py:1513-1527 | An item's floor is above every completed number that counts, and 0 or one more than one of them |
| Streams.ChainKeeps | hw/card_stress.py:1708-1723 | Every chain of runs and resumes that name all the others keeps each completed draw behind the item's next |
| Streams.NoStreamTwice | hw/card_stress.py:1853-1863 | In every such chain no two completed random slices, in one directory or two, started one stream |
| Streams.GuardNeverFires | hw/card_stress.py:1859-1863 | In every such chain plan_wave's collision guard has nothing to refuse |
| Streams.UnnamedRepeats | hw/card_stress.py:1708-1723 | A run that starts at or below a completed draw's number, whatever directories it names, comes to that draw's stream, and the guard lets it |
| Streams.NamingIsExact | hw/card_stress_lib.py:1488-1531 | A run never starts a stream twice, whatever follows, if and only if every completed draw that counts for it, in any directory, is below its next number |
| Streams.LostDrawRepeats | hw/card_stress.py:2218-2229 | In every state that meets the invariant, a completed draw whose job is lost before it is accounted can be drawn again, and the guard lets it |
| Streams.DropIsSafe | hw/card_stress.py:2218-2229 | In every chain, losing a draw in flight leaves streams unrepeated for good if and only if it had not completed in the file |
| TornLog.ReadRecords | hw/card_stress_lib.py:1252-1276 | The loop returns the records, the bad lines by number and the partial tail of any bytes |
| TornLog.RepairTail | hw/card_stress.py:1725-1752 | What is kept, what is cut and when a newline is added, for any bytes |
| TornLog.ReadLog | hw/card_stress_lib.py:1230-1249 | A whole log reads back as its records, in order, with no bad line and no partial tail |
| TornLog.ReadTorn | hw/card_stress_lib.py:1252-1276 | A log cut in its last record reads as the records before it, and the tail is reported |
| TornLog.Recovers | hw/card_stress.py:1725-1752 | From any byte prefix of a log the repair leaves exactly the complete records, a whole unterminated one included, each ended |
| TornLog.RecoversAndContinues | hw/card_stress.py:1725-1752 | Any records appended after that read back in order with no bad line and no partial tail |
| TornLog.CrashesLoseOnlyTheTorn | hw/card_stress_lib.py:1230-1249 | Over any sequence of appends, crashes in the middle of one and repairs, the log holds the records that were whole |
| TornLog.ShortWriteFuses | hw/card_stress_lib.py:1230-1249 | A short write in a run that goes on appending fuses with the next record into one bad line or one other record, and the rest read back |
| Decimal.StrIsDec | certificates/corpus.py:328-332 | Every number up to 2^63-1 has a spelling the reader accepts, and it reads as the number |
| Decimal.ValueStr | certificates/corpus.py:328-332 | A decimal accepted is the spelling str() writes: there is no second one |
| Order.SortKeys | certificates/corpus.py:625-627 | Sorting a set of paths gives its one increasing list |
| Grammar.ReadPrints | certificates/corpus.py:301-396 | A line read is a line of the grammar, and writing it gives the tokens read |
| Grammar.PrintReads | certificates/corpus.py:622-670 | A line of the grammar, written, reads as itself |
| Grammar.HowReads | certificates/corpus.py:358-396 | An image's library, source or compiled form is read from what is written of it, its parameters in order |
| ManifestRoundTrip.RunReads | certificates/corpus.py:492-571 | A well-formed run's lines, followed by no block and no raw line, read as the run |
| ManifestRoundTrip.RunSays | certificates/corpus.py:492-571 | A run accepted is well formed and its lines are exactly the rows consumed |
| ManifestRoundTrip.CaseSays | certificates/corpus.py:422-585 | The same of a case, its version's, its depths' and its name's conditions included |
| ManifestMeaning.CaseIs | certificates/corpus.py:422-585 | A case is accepted as well formed if and only if each of its fields is as the reader asks: paths and hashes, versions 1 and 2 and what version 1 may not have, depths by name, counts, runs in order with the first alone main, boundaries one more than segments, raw segments increasing, and one stated scratch-depth, the case's, in all its runs or in none |
| ManifestMeaning.ImageIs | certificates/corpus.py:358-396 | The same of an image line: its form, its format of the ladder, its target's characters, its parameters by increasing name |
| ManifestRoundTrip.AcceptedSays | certificates/corpus.py:399-593 | Whatever is accepted is well formed and the rows are exactly the lines it writes |
| ManifestRoundTrip.WrittenReads | certificates/corpus.py:399-593 | The lines of any well-formed manifest, in any order of its own, are accepted and read as it |
| ManifestFile.ReadOfWritten | certificates/corpus.py:622-670 | Reading what is written of any well-formed corpus gives the corpus, but for its cases' line numbers |
| ManifestFile.WrittenOfRead | certificates/corpus.py:622-670 | Writing what was read of any accepted text gives its lines again, head and blanks aside, with sources and images in their paths' order; none is lost exactly where no path repeats |
| ManifestFile.ReadAgain | certificates/corpus.py:622-670 | So reading and writing once more changes nothing |
| ManifestReader.CleanIs | certificates/corpus.py:307-310 | The check on a raw line holds exactly when every token split off it is a printable word |
| ManifestReader.Lines.constructor | certificates/corpus.py:288-295 | The rows are the lines that are no comment and not blank, with their numbers |
| ManifestReader.Lines.Take | certificates/corpus.py:301-325 | Consumes the next row exactly when it is clean and of the key, and names the right line when it refuses |
| ManifestReader.ReadRun | certificates/corpus.py:495-571 | The loops over parameters, boundaries, blocks and raw lines read the run, or refuse it at the same line, as the reader's definition does |
| ManifestReader.ReadCase | certificates/corpus.py:422-585 | The same of a case |
| ManifestReader.ReadManifest | certificates/corpus.py:399-593 | Returns the corpus, or the line of the refusal, that the definition gives for any text |
| ManifestMeaning.ReadMeans | certificates/corpus.py:399-593 | Every corpus read holds all of that of each source, image and case, no two cases of one name, and each superseded case among them |
| ManifestMeaning.RefusedAtItsLine | certificates/corpus.py:422-582 | A case of a name used before, one of version 1 with anything of version 2's, and one whose runs do not state one scratch-depth or not the case's are refused at the case's line; with the lines read and none of these, not for them |
| ManifestReader.WriteManifest | certificates/corpus.py:622-670 | The growing list of lines, joined, is the text the round-trip laws are about |
| KeepRule.BodyOfRehash | certificates/corpus.py:1472-1480 | The body of a rehashed body is the body |
| KeepRule.NormalizedTwice | certificates/corpus.py:1472-1480 | Normalizing twice is normalizing with the later build-id |
| KeepRule.NormalizedSays | certificates/corpus.py:1472-1480 | Line by line, a build-id line names the build asked for and every other line stays |
| KeepRule.FirstSays | certificates/corpus.py:1510-1521 | A certificate's build-id is what its first such line says, and it has none where there is none |
| KeepRule.ProblemsIffBad | certificates/corpus.py:1524-1542 | A build-id has a problem if and only if it is not a clean build or names a commit the history is known to lack, `unknown` being allowed where no tool wrote it |
| KeepRule.KeptIff | certificates/corpus.py:1606-1623 | The committed certificate is kept if and only if the boundaries match, the content is the same but for build-id and hash line, and its build-id is good |
| KeepRule.WhyNotKept | certificates/corpus.py:1606-1623 | A reason is given if and only if boundaries and content match and the build-id is bad: that it names cleanly a commit the history lacks, or that it names none cleanly |
| KeepRule.GoodStays | certificates/corpus.py:1606-1623 | Over any sequence of remakes by any builds of the same content, a certificate with a good build-id keeps its bytes |
| KeepRule.BadGoes | certificates/corpus.py:1606-1623 | One with a bad build-id is replaced at the next remake, by any build and whatever it says |
| KeepRule.FirstGoodStays | certificates/corpus.py:1606-1623 | Over any builds, the first one with a good build-id is what stays |
| KeepRule.LastBadIsHeld | certificates/corpus.py:1606-1623 | While none is good, the last build's is what is held |
| KeepRule.NamesItself | certificates/corpus.py:1510-1521 | A certificate made under a build-id names that build-id |

## Left out

- Campaign.Next: does not model `--quick` (its fixed lists of items); its draws have no collision guard, which is `Streams`'s and the driver's; a record appended and never accounted, or cut short and not repaired, is no event of it, and the lemmas named above say what they break.
- CardDriver.Driver: keeps no `pool_busy`, whose items are those of `Campaign`'s flight, and no rates.
- Rotation.NextImage: does not model the fixed order of `--quick`.
- Campaign.Recorded: campaigns in which a run's class is known only to later readers are outside the invariant; `Losses.PlacedByGitOverlaps` shows why.
- CardDriver.Driver.Plan: does not keep `reserved`, since an item with a reserved slice is always among those avoided; the job lines it builds are not in it.
- Campaign.RunKeeps: its resumes keep the run's settings; `Sessions.SessionsKeep` chains runs that have their own. Git's answers about a commit stay.
- Completion.CampaignEnds: a catalog whose random items run too has no end; `Completion.CompletionsRunOut` bounds its exhaustive part.
- Fairness.RotationIsFair: compares `served / w` exactly, where the code divides floats.
- Outcomes.FinishGrows: speaks of the class the running run's slices fall in, where that class is known.
- Processes, threads' scheduling below the steps, signals, timeouts, telemetry, status and log files, builds, the guard against other card users: the machine's steps and any status stand for them.
- Slice sizes from measured rates: any positive number of units.
- JSON and the verdict parsers: a record is what the model's fields say of it.
- Certificate hashes, signatures, audits and the golden writer: abstract, or not in the model.
- Floating-point rounding and `bank_values`: the ALU is uninterpreted, or exact.
- The generators' comments, header and register names, and the step counts of their files: the instructions are modelled, their text is not.
- The messages of refusals: the line they name is modelled.
- The charts, reports, kernels' worst cases, layouts and RTL proofs of the repository.
