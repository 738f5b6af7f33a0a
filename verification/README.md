# Verified models of the SML# runtime

This project models the hard parts of the SML# runtime in Dafny and proves what they
are relied on for: the concurrent collector (the handshake between workers, the
on-the-fly marking on top of it, root enumeration under work stealing, the bitmap
allocator and reclamation), the alternative heaps (the copying collector and the
three-level bitmap heap), the splay tree, the shortest-digit conversion of floating
point numbers with its big integers, and the parallel merge sort of the benchmarks.

`dafny verify dfyconfig.toml` checks everything.

## How it is organised

**The handshake** (`Phases`, `Runs`, `Handshake`, `HandshakeSafety`,
`HandshakeStuck`, `HandshakeProgress`).  A
transition system over any number of workers.  Each atomic operation on the worker
list, on a worker's state word and on the 32-bit counter `sml_check_flag` is one step;
flips, the addition of the count and the answers interleave freely, workers register
at any moment, leave and enter ML code, and help each other.  History fields record
who has been flipped and who has answered.

**Marking** (`Marking`, `Tricolour`, `MarkingInv`, `MarkingMutator`,
`MarkingCollector`, `MarkingSafety`, `MarkingRounds`, `MarkingStale`, `MarkingMemory`,
`MarkingProgress`).  Objects, users,
roots, globals, collect bits, mark stacks and the write barrier on top of the
handshake.  The invariant is that every unmarked target that a scanned place can name
is reachable, through unmarked objects, from a field not traced yet or a global not
enumerated yet.  `MarkingMemory` is about what the mutators see, `MarkingProgress` about
what the collector achieves.

**Migration** (`Migration`, `MigrationInv`, `MigrationSteps`, `MigrationSafety`,
`MigrationPresent`, `MigrationProgress`).  Work
stealing against root-set enumeration, with every load, store and lock attempt of
`sml_enter_internal` and `worker_sync2` as a step of its own.  Its results are
what the conditions of the atomic `Migrate` step of `Marking` rest on: whoever arrives at
a worker past its own enumeration is enumerated on the way or has been before.

**Allocation and reclamation** (`BitWord`, `Bitmap`, `FreeCount`, `Reclaim`, `Subheap`,
`Trace`).  The bit tricks of the bit pointers, the two-level bitmap with sentinels, the
allocation pointer and its snapshot, the lists of segments, and the trace loop whose
stack runs through the objects' own slots.

**The bitmap heap and the copying heap** (`MarkBits`, `Sweep`, `SweepHeap`, `Cheney`).

**Big integers and digits** (`BignumValue`, `Bignum`, `BignumPow5`, `BignumDivide`,
`BignumShift`, `BignumAlign`, `ShortestDigits`, `DoubleDigits`, `DigitLoop`).  Word arrays with carry
and borrow loops, in place, are proved against the numbers they stand for; the digit
loop on big integers refines a loop on values, about which the interval and shortness
results are proved for arbitrary integers, and nearness for what comes from a double.
Among arbitrary integers there is one exception to nearness (a first digit 9 whose
interval ends exactly at 10) and one to ties to even (an interval that ends exactly half
a unit away); `DoubleDigits` shows that no double runs into either.  The
related standard is section 5.12 of IEEE 754-2008.

**The splay tree** (`Splay`, `SplayNodes`, `SplayTree`, `SplayEach`, `SplayTraverse`,
`SplayRebuild`, `SplayCompact`).  `Splay` is about trees and contexts as values.  The
other modules have nodes with addresses, child fields and back pointers in a memory that
every operation rewrites: hole pointers, fields that point to fields, free list, copying.

**The merge sort** (`Cilksort`, `CilkForks`).  `Cilksort` is the algorithm on two arrays,
in place, with each forked call run where it is joined.  `CilkForks` is a machine whose
steps are single stores of any running thread; it shows that every schedule comes to the
same.

## What the code does not guarantee

Four properties one would expect are false of the code.  Each is shown by a concrete
input or run, with the condition under which the property holds.

* *A collection always ends.*  A worker that leaves ML code as the last one to answer
  drops its lock before it adds the count of the next round, so a helper may answer
  for it.  If all answers come before the addition, the counter reaches zero by the
  addition and nobody ever reads 1 (`HandshakeStuck.StuckRun`, `StuckForever`).  Some
  answer reads 1 iff not all answers came early (`ExactlyOneLast`), and they can only
  all be early when the round is advanced from `leave_worker`
  (`EarlyOnlyWhenLeaving`).  In every other state the round can be brought to its end
  (`HandshakeProgress.NoDeadlock`, `MarkingProgress.RoundCanEnd`).
* *Marking is safe in every run.*  In the ASYNC handshake workers are flipped one by
  one and reclaim at once.  A worker that has not been flipped yet still runs the
  MARK barrier, and may set the collect bit of an object that another worker has
  already reset.  The next collection takes that object for visited and frees what
  it points to (`MarkingStale`).  A reset object gets a stale mark iff such a write
  happens (`StaleMark`); in all runs without one marking and reclamation are safe
  (`MarkingSafe`, `NoDanglingPointer`).
* *`quorem` leaves its remainder normalised.*  When the divisor is a single word and
  the remainder is zero after a non-zero quotient, the number of words becomes zero;
  exactly then (`BignumDivide.Quorem`, `QuoremExample`).  `cmp` then sees the remainder as less than a
  zero difference, which the digit loop tolerates (`DigitLoop.Decide`).
* *`free_count` with an allocation pointer is short by at most 31*, as its comment
  says: it is short by 32 iff the pointer is at the start of a word of 32 free blocks
  (`FreeCount.ShortBy32`, `ShortExample`).

## Model

| member | source | states |
|---|---|---|
| Phases.AcceptIsOrOne | src/runtime/smlsharp.h:402-412 | accepting a signal is or-ing the state word with 1, announcing it clears that bit, and a phase is pending iff the bit is clear |
| Phases.FlipExact | src/runtime/control.c:1238-1240 | the exclusive-or of change_phase lands on the announced phase iff the worker was in the old phase |
| Phases.FlipInvolutive | src/runtime/control.c:1240 | flipping twice takes the announcement back, so a worker must be flipped once per round |
| Handshake.InitInv | src/runtime/control.c:228-255 | the start state satisfies the protocol invariant |
| Handshake.RegisterInv | src/runtime/control.c:398-450 | a worker may join at any moment: it takes its phase from the list head and is no participant of the round under way |
| Handshake.CheckAcceptInv | src/runtime/control.c:1792-1861 | a worker accepts a pending signal at a check point and runs its action under its own lock |
| Handshake.LeaveInv | src/runtime/control.c:598-633 | leaving ML code drops the lock and accepts a pending signal in one step, and the action runs after that |
| Handshake.EnterInv | src/runtime/control.c:491-560 | entering ML code takes the lock of an inactive worker without changing its phase |
| Handshake.HelpTakeInv | src/runtime/control.c:1259-1357 | a helper takes over an inactive worker whose signal is pending |
| Handshake.HelpReleaseInv | src/runtime/control.c:1259-1357 | the helper gives the worker back if it was not flipped meanwhile |
| Handshake.HelpAgainInv | src/runtime/control.c:1259-1357 | otherwise it accepts the new signal and runs the next action too |
| Handshake.StartGcInv | src/runtime/control.c:1377-1395 | the thread that makes gc_count odd drives the first round; no other one does |
| Handshake.GlobalInv | src/runtime/control.c:451-484 | swapping the list head fixes the participants of the new round |
| Handshake.FlipFromOld | src/runtime/control.c:1238-1240 | whenever a worker is flipped it is in exactly the old phase of the round |
| Handshake.FlipOneInv | src/runtime/control.c:1171-1257 | flipping workers one by one keeps the invariant |
| Handshake.AddCountInv | src/runtime/control.c:1398-1404 | the count may be added after answers have made the counter wrap below zero |
| Handshake.RespondInv | src/runtime/control.c:1441-1489 | an answer decrements the 32-bit counter, and only the answer that completes the round reads 1 |
| Handshake.SelfAcceptInv | src/runtime/control.c:1406-1412 | a greedy thread accepts its own signal right after adding the count |
| Handshake.EndGcInv | src/runtime/control.c:1748-1767 | the last answer of the ASYNC round ends the collection |
| Handshake.ResponseReadsOne | src/runtime/control.c:242-255 | in 32-bit arithmetic the counter reads 1 at an answer only if the count was added and all other participants have answered |
| HandshakeSafety.RunInv | src/runtime/control.c:1171-1257 | the invariant holds in every state of every run |
| HandshakeSafety.LastResponse | src/runtime/control.c:1441-1489 | whoever reads 1 knows that every participant, early ones included, has finished its action; all workers are in the new phase and no action is running |
| HandshakeSafety.AtMostOneLast | src/runtime/control.c:1441-1489 | at most one answer of a round reads 1 |
| HandshakeSafety.ExactlyOneLast | src/runtime/control.c:1470-1479 | once everybody has answered and the count is added, some answer read 1 iff not all answers came before the addition |
| HandshakeSafety.EarlyOnlyWhenLeaving | src/runtime/control.c:1470-1479 | all answers can come before the addition only in a round advanced from leave_worker |
| HandshakeSafety.QuietWhenEarly | src/runtime/control.c:1470-1479 | after such an addition no thread acts or advances a round |
| HandshakeSafety.StuckForever | src/runtime/control.c:1470-1479 | and no step ever changes the round again: the collection never ends |
| HandshakeStuck.StuckRun | src/runtime/control.c:1259-1357 | a run of nineteen steps with two workers that gets there |
| HandshakeProgress.NoDeadlock | src/runtime/control.c:1171-1489 | a round that is neither over nor stuck in that way always has a step that brings it closer to its end: a flip, the count, an answer, the acceptance of a signal, the end of helping, or a return to ML code |
| HandshakeProgress.NextRound | src/runtime/control.c:1441-1479 | when a round is over there is exactly one thread in charge, which can open the next round or end the collection |
| HandshakeSafety.Lockstep | src/runtime/control.c:150-174 | every worker is in the old, the announced or the new phase of one and the same round, whatever moment workers register at |
| HandshakeSafety.NeverTwoApart | src/runtime/control.c:150-174 | no worker is in SYNC2 while another is before SYNC1, and none has left marking while another has not reached SYNC2 |
| HandshakeSafety.Exclusive | src/runtime/control.c:598-633 | no two threads ever work on the same worker context at once, as owner, helper or after dropping the lock |
| HandshakeSafety.AssertionsHold | src/runtime/control.c:1406-1412 | the assertions of sml_gc and help_inactive hold in every reachable state |
| Tricolour.ProtStep | src/runtime/heap_concurrent.c:1070-1108 | an object that is reachable through unmarked objects from a pending slot stays so when slots and links change as they may |
| Tricolour.EmptyStacksClose | src/runtime/heap_concurrent.c:1164-1188 | with empty mark stacks and all globals enumerated, no unmarked target can be named by a marked object, an enumerated user or a global |
| Tricolour.ShadedTri | src/runtime/heap_concurrent.c:1070-1108 | marking and pushing white objects keeps the tricolour invariant |
| Tricolour.StoreTri | src/runtime/heap_concurrent.c:1681-1700 | a store into a field keeps the invariant when its new value is covered |
| Tricolour.GrownTri | src/runtime/heap_concurrent.c:712-763 | allocation keeps it: white before the snapshot of the allocating worker, black after it |
| Tricolour.AdvanceTri | src/runtime/heap_concurrent.c:1175-1188 | so does moving past a field whose value is not white |
| Tricolour.PopTri | src/runtime/heap_concurrent.c:1175-1188 | and taking an object with no pending field off its stack |
| MarkingInv.BarrierEffect | src/runtime/heap_concurrent.c:1681-1692 | the barrier shades both values from SYNC1 to SYNC2 and the old one in MARK, and touches nothing else |
| MarkingMutator.WriteInv | src/runtime/heap_concurrent.c:1694-1700 | sml_write keeps the invariant of every round, unless it shades a value that has been reset |
| MarkingMutator.WriteGlobalInv | src/runtime/heap_concurrent.c:1694-1700 | the same for global slots |
| MarkingMutator.AllocInv | src/runtime/heap_concurrent.c:712-763 | allocation keeps the invariant of every round |
| MarkingMutator.LoadInv | src/runtime/heap_concurrent.c:1070-1108 | loading a field into a root keeps it: no hidden white object becomes reachable from a scanned stack |
| MarkingMutator.MigrateScanInv | src/runtime/control.c:773-825 | moving a user to a worker past its enumeration keeps it when the user is enumerated on the way, also if the worker has been flipped to PREMARK meanwhile |
| MarkingMutator.MigrateQuietInv | src/runtime/control.c:743-772 | and when it has been enumerated before |
| MarkingCollector.ScanUserInv | src/runtime/heap_concurrent.c:1209-1214 | enumerating a stack keeps it |
| MarkingCollector.ScanGlobalInv | src/runtime/heap_concurrent.c:1224-1229 | so does enumerating a global slot |
| MarkingCollector.VisitInv | src/runtime/heap_concurrent.c:1175-1188 | and tracing one field |
| MarkingCollector.FinReadInv | src/runtime/heap_concurrent.c:1246-1265 | reading a remembered set a first or a second time |
| MarkingCollector.FinEndInv | src/runtime/heap_concurrent.c:1246-1271 | and the verdict of the check: if it succeeds, tracing is over |
| MarkingCollector.FreeInv | src/runtime/heap_concurrent.c:1337-1418 | freeing an unmarked target leaves no pointer to it |
| MarkingCollector.RenewInv | src/runtime/heap_concurrent.c:1337-1418 | resetting a survivor keeps everything reachable safe |
| MarkingSafety.SysRunInv | src/runtime/control.c:1441-1767 | the invariant of each round holds in every state of every clean run |
| MarkingSafety.MarkingSafe | src/runtime/heap_concurrent.c:1246-1271 | marking safety: when sml_heap_mark_finish succeeds and ASYNC is announced, every reachable object is marked or was allocated after the snapshot of its worker |
| MarkingSafety.NoDanglingPointer | src/runtime/heap_concurrent.c:1337-1418 | in no state of a clean run does a root, a field of a reachable object or a global lead to a freed object |
| MarkingSafety.StaleMark | src/runtime/heap_concurrent.c:1663-1692 | during ASYNC an object that has been reset gets a collect bit again iff a barrier of a worker not yet flipped shades it |
| MarkingSafety.DirtyMarks | src/runtime/heap_concurrent.c:1681-1692 | such a barrier really sets the bit |
| MarkingMemory.WriteLaw | src/runtime/heap_concurrent.c:1694-1700 | memory: what sml_write stores is in the field, and absent for NULL, until the field is written again or the object freed, whatever the collector does meanwhile; every other untouched field is as before |
| MarkingMemory.LoadsLastWrite | src/runtime/heap_concurrent.c:1694-1700 | a load adds exactly the value of the last store to the roots of its user |
| MarkingMemory.AllocLaw | src/runtime/heap_concurrent.c:1909-1943 | a new object has its initial values and no others until it is written |
| MarkingMemory.WriteGlobalLaw | src/runtime/heap_concurrent.c:1694-1700 | the same law for global slots |
| MarkingMemory.LoadsLastGlobal | src/runtime/heap_concurrent.c:1694-1700 | and for loading them |
| MarkingMemory.RootsOwn | src/runtime/heap_concurrent.c:1209-1214 | the roots of a user change only by its own loads, allocations and drops |
| MarkingMemory.UsersStay | src/runtime/control.c:850-875 | a user belongs to the worker that created it, and from a move on to the one that moved it |
| MarkingProgress.ActionCompletes | src/runtime/control.c:1441-1489 | an action that has been started can be completed by its thread alone, and answered: enumeration, tracing and reclamation come to an end |
| MarkingProgress.RoundCanEnd | src/runtime/control.c:1441-1767 | from every state of a clean run the collector can bring the round to its end, unless it gets stuck as above |
| MarkingProgress.NextCanOpen | src/runtime/heap_concurrent.c:1246-1271 | and then check the result of marking and open the next round or end the collection |
| MarkingProgress.OldIsJudged | src/runtime/heap_concurrent.c:712-763 | in every run, clean or not, all objects of a worker that has yet to take the snapshot of a collection are targets of that collection |
| MarkingProgress.GarbageFreed | src/runtime/heap_concurrent.c:1337-1418 | in a clean run every target without a mark has been freed when its worker has answered the ASYNC round |
| MarkingRounds.IdleCollection | src/runtime/control.c:1441-1728 | if every root is marked already, any number of workers can go through SYNC1, SYNC2 and MARK to a positive verdict without looking behind the roots |
| MarkingRounds.WholeCollection | src/runtime/control.c:1441-1767 | and then through the ASYNC round to the end of the collection, freeing every target without a mark and making all other objects unmarked targets |
| MarkingStale.DirtyStep | src/runtime/heap_concurrent.c:1681-1692 | the step of the concrete run that sets a stale collect bit |
| MarkingStale.MarkingUnsafe | src/runtime/heap_concurrent.c:1246-1271 | a concrete run in which the check succeeds while a reachable target has no collect bit |
| MarkingStale.DanglingPointer | src/runtime/heap_concurrent.c:1337-1418 | and the reachable object is freed |
| MigrationInv.Contended | src/runtime/control.c:743-759 | a lock found taken on a present context is held by a SYNC2 action that is enumerating it |
| MigrationInv.StoreInv | src/runtime/control.c:850-875 | handing a user over to a new worker never loses the duty to enumerate it |
| MigrationSteps.NewUserInv | src/runtime/control.c:1020-1100 | a new user thread joins the list of its worker |
| MigrationSteps.EndUserInv | src/runtime/control.c:1107-1160 | the end of a user thread, which leaves its context in the list of its worker, keeps the invariant |
| MigrationSteps.CopyInv | src/runtime/control.c:881-890 | the copied context takes over the duty of the old one |
| MigrationSteps.DroppedIsCarried | src/runtime/control.c:1545-1556 | a SYNC2 action throws a context away only if it is no longer the present one of its user or is just being copied |
| MigrationSteps.WalkCheckInv | src/runtime/control.c:1545-1556 | dropping such a context, with its lock taken, keeps the invariant |
| MigrationSteps.WalkTryInv | src/runtime/control.c:1508-1543 | a locked context is put off, a free one locked |
| MigrationSteps.WalkScanInv | src/runtime/control.c:1559-1560 | the action enumerates the locked context |
| MigrationSteps.WalkReleaseInv | src/runtime/control.c:1562-1564 | and releases it |
| MigrationSafety.AnsweredAll | src/runtime/control.c:1601-1603 | an answer to SYNC2 leaves no stack behind that its worker is responsible for |
| MigrationSafety.MigrationRunInv | src/runtime/control.c:667-890 | the invariant holds in every state of every run |
| MigrationSafety.RootCoverage | src/runtime/control.c:689-891 | when SYNC2 is answered for the last time, every user thread that was alive when it was issued and still is has had its stack enumerated in this collection, for any interleaving of work stealing with enumeration |
| MigrationSafety.StacksQuiet | src/runtime/control.c:1503-1575 | no stack is enumerated while its user runs ML code |
| MigrationSafety.HandedOverListed | src/runtime/control.c:743-858 | a user that arrives at a worker past its own enumeration has been enumerated, also if sml_enter only waited for the lock |
| MigrationSafety.MigrationAllowed | src/runtime/control.c:773-858 | sml_enter enumerates a user, or hands it over without, only when the marking system allows its atomic migration step |
| MigrationSafety.NoLeakedLock | src/runtime/control.c:743-759 | whoever spins on the lock of a present context waits for an action that is about to release it |
| MigrationPresent.OnlyLiveStacks | src/runtime/control.c:1545-1560 | in every state of every run the context that a SYNC2 action has found to be its own is the present one of a user thread that has not ended |
| MigrationPresent.NeverAfterTheEnd | src/runtime/control.c:1107-1132 | once a user thread has ended, no worker ever enumerates its stack |
| MigrationPresent.CheckDecides | src/runtime/control.c:1545-1556 | the check of the owner keeps a context iff it is the present one of a live user and is not just being copied by another worker |
| MigrationProgress.RunSound | src/runtime/control.c:1503-1575 | no context is ever listed twice, and none that is listed has been left locked by an action |
| MigrationProgress.EnterEnds | src/runtime/control.c:689-891 | sml_enter can always be completed: the user runs on the new worker, in a context of its own |
| MigrationProgress.GaveUp | src/runtime/control.c:705-716 | without memory for the new context it leaves the user to be resumed |
| MigrationProgress.ActionEnds | src/runtime/control.c:1503-1575 | a SYNC2 action can always get through its list and answer, whatever is being moved meanwhile |
| MigrationProgress.RoundCanEnd | src/runtime/control.c:689-891 | so work stealing never gets a round stuck |
| BignumValue.LongerIsLarger | src/runtime/netlib/dtoa.c:1028-1061 | a number without leading zero words that has more words is larger |
| BignumValue.TopDecides | src/runtime/netlib/dtoa.c:1028-1061 | the highest word in which two numbers differ decides their order |
| Bignum.I2b | src/runtime/netlib/dtoa.c:783-798 | a one-word number |
| Bignum.ScaleWords | src/runtime/netlib/dtoa.c:630-637 | the in-place carry loop of multadd |
| Bignum.Multadd | src/runtime/netlib/dtoa.c:606-662 | multadd is exact: b * m + a, growing the number by a word only when needed |
| Bignum.AddRow | src/runtime/netlib/dtoa.c:840-853 | one row of the schoolbook product, added in place |
| Bignum.MulWords | src/runtime/netlib/dtoa.c:836-853 | all rows: the product of the two word arrays |
| Bignum.Mult | src/runtime/netlib/dtoa.c:799-908 | mult is exact and strips leading zeros; a product with a zero factor has no words at all |
| BignumPow5.Powers.Extend | src/runtime/netlib/dtoa.c:932-963 | the cache of powers of five extends itself: node i is 5^(4*2^i) |
| BignumPow5.BitLoop | src/runtime/netlib/dtoa.c:948-965 | the loop over the bits of the exponent |
| BignumPow5.Pow5mult | src/runtime/netlib/dtoa.c:910-967 | pow5mult returns b * 5^k for every k, and across calls the cached nodes keep their values |
| BignumDivide.Cmp | src/runtime/netlib/dtoa.c:1028-1061 | cmp orders numbers by value; a number without words counts as less than zero |
| BignumDivide.SubWords | src/runtime/netlib/dtoa.c:2153-2162 | the combined carry and borrow loop of quorem |
| BignumDivide.Estimate | src/runtime/netlib/dtoa.c:2140 | the one-word estimate of the quotient is never too large and short by at most one |
| BignumDivide.StripTop | src/runtime/netlib/dtoa.c:2180-2185 | dropping leading zero words after the subtraction |
| BignumDivide.Quorem | src/runtime/netlib/dtoa.c:2109-2232 | quorem is exact division; the remainder is normalised except that a zero remainder of a one-word divisor has no words, exactly then |
| BignumDivide.QuoremExample | src/runtime/netlib/dtoa.c:2174-2181 | a concrete multiple of a one-word divisor: the remainder has no words |
| BignumShift.Diff | src/runtime/netlib/dtoa.c:1062-1145 | diff is the absolute difference with its sign |
| BignumShift.ShiftWords | src/runtime/netlib/dtoa.c:996-1008 | the shift loop, word by word |
| BignumShift.Lshift | src/runtime/netlib/dtoa.c:968-1026 | lshift multiplies by 2^k in a number with enough room |
| BignumAlign.Hi0bits | src/runtime/netlib/dtoa.c:701-734 | hi0bits counts the leading zero bits of a word |
| BignumAlign.Dshift | src/runtime/netlib/dtoa.c:2097-2108 | dshift returns the shift count modulo 32 for four leading zero bits |
| BignumAlign.Aligned | src/runtime/netlib/dtoa.c:4117-4131 | after the shift the top word of the divisor lies in [2^27, 2^28), as quorem needs |
| BignumAlign.AlignDivisor | src/runtime/netlib/dtoa.c:4117-4131 | the divisor as it enters the digit loop |
| ShortestDigits.JudgeRight | src/runtime/netlib/dtoa.c:4168-4255 | whichever exit a digit takes, the digit it settles on lies in the interval, and the loop goes on only if no integer does |
| ShortestDigits.NoCarry | src/runtime/netlib/dtoa.c:4225-4240 | after the first digit a digit 9 is never rounded up |
| ShortestDigits.LoopRight | src/runtime/netlib/dtoa.c:4168-4255 | the digits after the first: termination, interval, shortness, nearness, ties |
| ShortestDigits.Shortest | src/runtime/netlib/dtoa.c:3651-3656 | modes 0 and 1, for any integers: the loop ends, every exit gives a decimal in the interval, none with fewer places lies there, none of the same length is nearer, iff the first digit does not overshoot, and ties go to the even digit except when the upper end counts and is half a unit away |
| ShortestDigits.JudgeTie | src/runtime/netlib/dtoa.c:4219-4224 | a tie of one digit is between its two neighbours, and goes to the even one with that exception |
| ShortestDigits.TieExample | src/runtime/netlib/dtoa.c:4178-4182 | among arbitrary integers the exception occurs: 7 and a half comes out as 7 |
| DoubleDigits.DoubleTies | src/runtime/netlib/dtoa.c:4178-4182 | no double is such an exception: half a unit of it is never half a unit in the last place of a tie |
| ShortestDigits.FirstNearest | src/runtime/netlib/dtoa.c:4178-4190 | rounding the first digit up is the nearest choice iff it does not overshoot |
| ShortestDigits.OvershootExample | src/runtime/netlib/dtoa.c:4178-4182 | among arbitrary integers the overshoot occurs: 9 + 1/S comes out as 10 though 9 lies in the interval |
| DoubleDigits.NeverOvershoots | src/runtime/netlib/dtoa.c:4054-4168 | what is computed from a double, normal or denormalized, power of two or not, never overshoots |
| DoubleDigits.DoubleNearest | src/runtime/netlib/dtoa.c:3651-3656 | so for every double the result is in the interval, as short as any, the nearest of its length, and of two that are equally near the even one |
| ShortestDigits.RoundoffValue | src/runtime/netlib/dtoa.c:4286-4294 | the carry adds one in the last place; if all digits were nine the sum is a power of ten |
| DigitLoop.Decide | src/runtime/netlib/dtoa.c:4170-4240 | the tests of one digit on big integers are those on values, the tie to the even digit included |
| DigitLoop.RoundUp | src/runtime/netlib/dtoa.c:4286-4294 | the carry loop over the digit buffer adds one to the number it stands for |
| DigitLoop.Round | src/runtime/netlib/dtoa.c:4168-4255 | one round of the loop on big integers refines one round on values |
| DigitLoop.Digits | src/runtime/netlib/dtoa.c:4153-4255 | the loop on big integers, in place, gives the digits of the loop on values, and so the shortest decimal with ties decided by the rule |
| BitWord.PlusOneBit | src/runtime/smlsharp.h:531-536 | adding one flips the trailing ones and the lowest zero |
| BitWord.Next0Finds | src/runtime/smlsharp.h:531-537 | BITPTR_NEXT0 finds the lowest zero bit at or above the mask; the mask becomes zero iff there is none |
| BitWord.IncMoves | src/runtime/smlsharp.h:546-550 | BITPTR_INC moves to the next bit, or to bit 0 of the next word |
| Bitmap.LinearSearch | src/runtime/heap_concurrent.c:1833-1844 | bitptr_linear_search finds the first zero bit of the upper bitmap or none |
| Bitmap.UpperMeans | src/runtime/heap_concurrent.c:1858-1885 | the upper search names the first lower word that is not full, and never a sentinel |
| Bitmap.FindBitmap | src/runtime/heap_concurrent.c:1846-1897 | find_bitmap refines linear search: the least free block at or after the pointer, and none iff there is none |
| Bitmap.BuildUpper | src/runtime/heap_concurrent.c:351-372 | summary bit w is set iff lower word w is full |
| Bitmap.CopyCollect | src/runtime/heap_concurrent.c:343-374 | copy_collect_bitmap rebuilds both levels from the collect bits, sentinels included |
| Bitmap.AllocAt | src/runtime/heap_concurrent.c:1926-1940 | sml_alloc in a segment hands out the first free block and moves the pointer behind it |
| Bitmap.AllocAll | src/runtime/heap_concurrent.c:1909-1943 | repeated allocation hands out every free block once, in increasing order |
| FreeCount.FreeBlocks | src/runtime/heap_concurrent.c:1295-1320 | free_count is exact without an allocation pointer |
| FreeCount.FreeBlocksAfter | src/runtime/heap_concurrent.c:1305-1320 | with one it is short by at most 32 minus the bit position |
| FreeCount.ShortBy32 | src/runtime/heap_concurrent.c:1305-1313 | it is short by 32 iff the pointer is at the start of a word of 32 free blocks, one more than the comment there says |
| FreeCount.ShortExample | src/runtime/heap_concurrent.c:1305-1313 | a concrete segment: the pointer at the start of an empty word |
| Reclaim.Fresh | src/runtime/heap_concurrent.c:276-335 | a new segment: nothing in use, nothing marked, both levels agree |
| Reclaim.ReclaimPartial | src/runtime/heap_concurrent.c:1355-1371 | a partial segment keeps exactly its marked blocks; it goes to the free list iff there are none |
| Reclaim.ReclaimFilled | src/runtime/heap_concurrent.c:1386-1407 | a filled segment stays filled iff a block of it was handed out after the snapshot or all are marked, and goes to the free list iff neither and none is marked; its marked blocks are kept |
| Reclaim.ReclaimCurrent | src/runtime/heap_concurrent.c:1373-1384 | the current segment: nothing marked or young is free behind the pointer |
| Subheap.AllocHere | src/runtime/heap_concurrent.c:1926-1940 | in the current segment: the first free block from the allocation pointer on, if there is one; it is not in use |
| Subheap.Alloc | src/runtime/heap_concurrent.c:1715-1766 | sml_alloc over all segments of a subheap: the first free block from the allocation pointer on, else the first of the next partial segment, else of an empty one if the subheap may grow; it fails iff there is none of these, and never hands out a block that is in use |
| Subheap.InstalledInv | src/runtime/heap_concurrent.c:712-732 | set_alloc_ptr declares the whole segment a target before the snapshot and nothing new after it |
| Subheap.ReleasedInv | src/runtime/heap_concurrent.c:734-752 | release_alloc_ptr retires the segment |
| Subheap.SnapshotInv | src/runtime/heap_concurrent.c:754-763 | after save_alloc_ptr exactly the blocks in use are targets |
| Subheap.Visit | src/runtime/heap_concurrent.c:1070-1108 | visit sets a collect bit once, and only of a block handed out before the snapshot |
| Subheap.ReclaimList | src/runtime/heap_concurrent.c:1355-1407 | the loop over one list, in order, no segment lost or duplicated |
| Subheap.ReclaimedLists | src/runtime/heap_concurrent.c:1337-1418 | after reclaiming every segment is in exactly one of partial, filled, free or current |
| Subheap.ReclaimSubheap | src/runtime/heap_concurrent.c:1337-1418 | marked and young blocks stay in use; exactly the unmarked blocks of partial segments, of used-up segments without young blocks, and behind the allocation pointer can be handed out again |
| Subheap.ReclaimComplete | src/runtime/heap_concurrent.c:1355-1407 | the same for the lists themselves: such a block lies in a partial, empty or the current segment afterwards, and its bit is clear |
| Trace.Pushed | src/runtime/heap_concurrent.c:1147-1162 | push: a first visit marks the object and puts it on the stack |
| Trace.Scan | src/runtime/heap_concurrent.c:1175-1188 | scanning one object keeps the stack in the slots of the objects, each object on it at most once |
| Trace.Run | src/runtime/heap_concurrent.c:1175-1188 | trace ends and marks exactly the targets reachable through targets from the stack |
| MarkBits.MarkKeepsLevels | src/runtime/heap_bitmap.c:1681-1695 | MARKBIT keeps all three levels in agreement |
| MarkBits.MarkBit | src/runtime/heap_bitmap.c:1681-1695 | in place: exactly one bit more is set below, live_count is the number of marked blocks, an upper bit is set iff the word below is full |
| MarkBits.ClearLevels | src/runtime/heap_bitmap.c:1112-1132 | clear_bitmap puts the levels in agreement with nothing marked |
| MarkBits.LiveMeans | src/runtime/heap_bitmap.c:1944-1956 | live_count tells whether a segment is full, empty or in between |
| Sweep.ClassMeans | src/runtime/heap_bitmap.c:1944-1956 | and so the three classes of sweep are the full, the empty and the other segments |
| Sweep.SweepList | src/runtime/heap_bitmap.c:1941-1960 | the list of a subheap is split stably in place: full segments, then partly used ones, the empty ones behind those of the subheaps before |
| Sweep.OfAll | src/runtime/heap_bitmap.c:1942-1956 | no segment of a list is lost or duplicated |
| SweepHeap.SweepOne | src/runtime/heap_bitmap.c:1940-1970 | sweeping one subheap leaves the lists of the others and the free list alone |
| SweepHeap.SweepAll | src/runtime/heap_bitmap.c:1939-1974 | all subheaps are split, and the empty segments of all of them, in order, end up in front of the free list |
| SweepHeap.NoneLost | src/runtime/heap_bitmap.c:1939-1974 | the segments kept and the empty ones are all there were |
| SplayTree.NodeTree.SplayAt | src/runtime/splay.c:257-289 | splay, rewriting child fields through hole pointers, keeps all items in order, left context before the key and right context after it, and ends with a focus that has the key or no child on its side; nodes elsewhere do not change; each context is at most half as long as the search path |
| SplayTree.HalfRotated | src/runtime/splay.c:274-282 | what rotation is for: with the link after it, it takes two nodes off the search path and hangs one |
| SplayNodes.RotateHeld | src/runtime/splay.c:274-282 | the stores of a rotation: the same nodes, in the same order, contexts untouched |
| SplayNodes.LinkHeld | src/runtime/splay.c:283-286 | the store through a hole pointer hangs the focus into its context, and the hole moves to the field that the search goes on from |
| SplayNodes.AssembleShape | src/runtime/splay.c:291-299 | the four stores of assemble make the tree of both contexts and the focus |
| Splay.FocusCut | src/runtime/splay.c:187-255 | where splay ends, the tree is cut into what is below and above the key, and the key is at the focus iff it is in the tree |
| SplayTree.NodeTree.Find | src/runtime/splay.c:302-314 | find leaves the in-order sequence unchanged and returns the node with an equal key iff there is one |
| SplayTree.NodeTree.Insert | src/runtime/splay.c:316-334 | insert puts the item between what is below and above its key, overwriting an equal one; a new node comes from the free list if there is one |
| SplayTree.NodeTree.Join | src/runtime/splay.c:353-367 | join: both subtrees in order, the right one untouched, only nodes on the left rewired |
| SplayTree.NodeTree.Delete | src/runtime/splay.c:369-397 | delete removes exactly the item with an equal key, its node heads the free list and still holds the item |
| SplayTree.NodeTree.NodeAlloc | src/runtime/splay.c:165-178 | a node from the free list, or one that was never used |
| Splay.InsertSorted | src/runtime/splay.c:187-255 | the result of insert and of delete is a search tree again |
| SplayEach.Each | src/runtime/splay.c:399-417 | every item is visited once in ascending order, and only back pointers have changed |
| SplayTraverse.StepDown | src/runtime/splay.c:425-430 | going down, the node remembers the field that points to it |
| SplayTraverse.CutNode | src/runtime/splay.c:432-444 | a rejected node is freed and its joined subtrees take its place in the field that pointed to it, while the chain of fields stays valid |
| SplayTraverse.Reject | src/runtime/splay.c:419-446 | reject calls the predicate once per item in ascending order; a search tree of the kept items is left, and the nodes of the others are on the free list |
| SplayRebuild.TestTells | src/runtime/splay.c:458-459 | the test against `last` tells whether the right subtree has been handled |
| SplayRebuild.InsertNode | src/runtime/splay.c:336-351 | insert_node adds the node unless its key is there |
| SplayRebuild.Rebuild | src/runtime/splay.c:449-469 | rebuild works whatever has become of the keys: of the items with equal keys the first in post-order stays, the nodes of all others are on the free list, last one in front |
| SplayRebuild.KeptIsFirst | src/runtime/splay.c:464-466 | an item stays iff no other with its key was handled before it |
| SplayCompact.CopiedTree | src/runtime/splay.c:92-142 | the copy has the same form and items, and every copy is of one node |
| SplayCompact.Compact | src/runtime/splay.c:114-142 | compact copies each node once into fresh memory, into an isomorphic tree, and nothing else is left |
| Cheney.Copied | src/runtime/heap_cheney.c:494-510 | copying an object keeps the invariant and never overflows to-space |
| Cheney.Collector.Forward | src/runtime/heap_cheney.c:474-513 | forward returns the address of the one copy of an object |
| Cheney.Collector.ForwardRegion | src/runtime/heap_cheney.c:517-528 | the scan ends, because no object is copied twice |
| Cheney.Complete | src/runtime/heap_cheney.c:538-591 | when the scan ends exactly the reachable objects have been copied |
| Cheney.Collector.Collect | src/runtime/heap_cheney.c:538-591 | the to-space graph is isomorphic to the reachable graph, sharing and cycles kept, each object copied once, within the bytes of from-space |
| Cilksort.Copy | benchmark/benchmarks_parallel/cilksort/cilksort_c_thread.c:10-15 | copy writes the slice and nothing else |
| Cilksort.Search | benchmark/benchmarks_parallel/cilksort/cilksort_c_thread.c:17-30 | search returns the upper bound |
| Cilksort.Merge | benchmark/benchmarks_parallel/cilksort/cilksort_c_thread.c:49-77 | merge, for every cutOff and with the forked half run when it is joined, writes the sorted union of two sorted slices and nothing else, and ends despite the swap of its arguments |
| Cilksort.MergedTwo | benchmark/benchmarks_parallel/cilksort/cilksort_c_thread.c:67-76 | the two halves of a merge are neighbouring slices that fit together |
| Cilksort.Sort | benchmark/benchmarks_parallel/cilksort/cilksort_c_thread.c:114-140 | with j = b, a[b..e] ends as a sorted permutation, for every cutOff, on the branch with forks and on the one without |
| CilkForks.WorkLocal | benchmark/benchmarks_parallel/cilksort/cilksort_c_thread.c:49-140 | footprints: what a call does depends on its own slices of both arrays only, and nothing else changes |
| CilkForks.Commute | benchmark/benchmarks_parallel/cilksort/cilksort_c_thread.c:102-112 | calls with disjoint slices commute, such as cilksort_fn1 and the work on the other half |
| CilkForks.StepInside | benchmark/benchmarks_parallel/cilksort/cilksort_c_thread.c:49-140 | a thread stores only in its own slices, and the slices of its calls are parts of them |
| CilkForks.Diamond | benchmark/benchmarks_parallel/cilksort/cilksort_c_thread.c:71-75 | no data race: steps of two threads commute in every state, and neither sees the other |
| CilkForks.MergeMeans | benchmark/benchmarks_parallel/cilksort/cilksort_c_thread.c:49-77 | every branch of merge, forked or not, comes to the sorted union |
| CilkForks.SortMeans | benchmark/benchmarks_parallel/cilksort/cilksort_c_thread.c:114-140 | both branches of cilksort come to the sorted slice |
| CilkForks.StepKeeps | benchmark/benchmarks_parallel/cilksort/cilksort_c_thread.c:49-140 | no step of any thread changes what the work will come to |
| CilkForks.StepCosts | benchmark/benchmarks_parallel/cilksort/cilksort_c_thread.c:49-140 | every step leaves less to do, also the swapped call of merge |
| CilkForks.ForkedSort | benchmark/benchmarks_parallel/cilksort/cilksort_c_thread.c:181-184 | under every schedule of the forked threads, store by store, and for every cutOff the sort ends with the sorted array and the same scratch contents, and is never stuck before |

## Left out

- Memory orders and spurious failures of weak compare-and-swap: all steps are sequentially consistent, and a lock attempt fails only when the lock is held.
- `remember` (visit and push) and `sml_write` (barrier and store) are single steps; `sml_cmpswap`, whose barrier runs after the exchange, is not modelled.
- Cancelled and dead workers, `sml_exit`, check hooks, exceptions and finalizers.
- The list `workers_handshake`: a helper may take any inactive worker whose signal is pending, and workers are flipped in any order.
- Worker and user contexts as heap objects of their own: the visits that keep them alive are not modelled.
- The global segment pool and its lock-free stacks, large objects (`malloc_segment`), and the thresholds that decide when to collect.
- Handshake.RegisterInv: at most 2^32 - 2 workers may register, so that the counter cannot wrap all the way round; the source has no such check.
- MarkingSafety.MarkingSafe: for runs in which no barrier shades an object that has been reset; MarkingStale shows that the condition is needed.
- MarkingSafety.NoDanglingPointer: under the same condition; that every violating write also leads to a dangling pointer is not claimed, since the children may be kept by other references.
- MarkingMutator.MigrateScanInv: in Marking sml_enter is one step; MigrationAllowed shows that its guard is met in Migration, but no simulation between the two systems is stated.
- HandshakeProgress.NoDeadlock: some run ends the round from every state, and every step of it leaves less to do; fairness, and that MARK rounds are not repeated for ever while mutators keep remembering objects, are not modelled.
- Subheap.Alloc: the lists of segments are sequences of segment numbers and a map, not next pointers in memory; the in-place list surgery is proved for the bitmap heap in Sweep and SweepHeap.
- Subheap.ReclaimSubheap: likewise; which segment ends up in which list, and in which order, is proved, the relinking is not.
- Reclaim.ReclaimCurrent: allocation counts kept for statistics are not modelled.
- Bitmap.FindBitmap: words are sequences of 32 bits with addition, subtraction and rotation defined bit by bit.
- SplayTree.NodeTree.NodeAlloc: memory is a map from addresses to nodes; how nodes are packed into chunks, and the list of chunks, are not modelled.
- SplayTraverse.Reject: the predicate and the comparison are pure functions.
- SplayCompact.Compact: the fresh chunks are one range of addresses, so the step of the cursor from one chunk to the next is not modelled.
- Cheney.Collector.Collect: objects are numbered instead of laid out in bytes, with their sizes counted; large objects, finalizers and the outside of the heap are opaque.
- SweepHeap.SweepAll: resetting the allocation pointer of each subheap is left out.
- MarkBits.ClearLevels: for layouts whose sentinel fits in one word on every level.
- CilkForks.ForkedSort: the branch that a call of merge takes, with the reads of its search, is one step, since no other thread stores in what it reads (StepInside); creating threads never fails.
- DoubleDigits.DoubleNearest: starts from the scaled integers b, S, mlo and mhi with b below ten times S; the estimate of the decimal exponent, the fast path for short results, modes 2 to 5 and the reverse conversion are not modelled.
- Bignum.Mult: numbers are not returned to free lists.
