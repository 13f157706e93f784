# Verified models of the Beans runtime and its tools

A Dafny 4.11 project beside the Beans repository. Each module models one part of it and proves what
that part is for. `dafny verify dfyconfig.toml` checks everything.

- **The fiber scheduler** (`runtime/beans_fiber.c`). `FiberWorker` is one worker as a state machine over
  single atomic actions, with any number of fibers and of threads that resume or cancel them. `settle` comes in three
  grains: `Split`, in the order of the source; `Merged`, the park arm in one step; `Fixed`, a variant that publishes
  PARKED first. `FiberPlaces`, `FiberWakes`, `FiberLoss`, `FiberDuties`, `FiberWaits`, `FiberJoins` and `FiberOrder`
  prove results about all runs. `FiberLists`, `Sleepers` and `ChangeList` are classes for the intrusive lists, the heap
  of sleepers and the kqueue change list.
- **The reference evaluator of the differential fuzzer** (`tools/differential_fuzz.py`), on a fragment with wrapping
  integers, objects, dynamic dispatch, scopes and explicit reference counts. `Evaluator` is the semantics as functions
  that pass the state along; `EvaluatorState` has the two objects the source updates in place and proves that their
  loops compute those functions. `EvaluatorScalars`, `EvaluatorBindings`, `EvaluatorObjects`, `EvaluatorDispatch` and
  `EvaluatorLaws` say what evaluation means without its own functions: in integers, positions of declarations, and laws
  between programs. On top: the counts (`EvaluatorExact`, `EvaluatorRelease`, `EvaluatorSound` to `EvaluatorLimits`),
  the two places where they depend on a condition (`EvaluatorStores`, `EvaluatorExits`), the two program
  transformations (`EvaluatorRename`, `EvaluatorRenamed`, `EvaluatorTransforms`), and fuel (`EvaluatorFuel`,
  `EvaluatorOrder`, `EvaluatorBound`). *Well-formed* is what the fuzzer's generator keeps to in classes: initializers do
  not mention the object under construction, the statements after them only print, and deinit bodies only print own
  fields.
- **128-bit arithmetic and memory moves for wasm** (`runtime/wasm_host.c`): `Wide128`, `WasmMemory`.
- **The decimal reader and printer** (`tools/decimal_conformance.py`): `Decimals`, `DecimalTexts`.
- **The HTTP floor server** (`bench/http_floor.c`): `HttpFraming`, `HttpLengths`, `HttpFloor`. It frames the subset of
  section 6.3 of RFC 9112 the server handles and answers pipelined requests in order (section 9.3.2 of RFC 9112).
- **Three benchmark programs** (`bench/cpp`): `Channel`, `OrderedMap`, `KvStore`.

`Options` and `Words` hold an option type and facts about powers of two. Clocks, descriptors, the kernel poller,
the order in which threads move, and what `read` and `write` return are inputs: steps or parameters.

## Model

| member | source | states |
|---|---|---|
| FiberWakes.NoWakeIsLost | runtime/beans_fiber.c:1504-1549 | In every run no fiber is left PARKED with its latch set, or with a cancel it must notice, and nobody on the way to it: with settle's park arm in one step, or with PARKED published first; in the order of the source, for every run in which no latch is stored between settle's exchange and its compare-and-swap |
| FiberLoss.LatchInWindowCanBeLost | runtime/beans_fiber.c:1601-1617 | The other half: from every reachable state in which a thread is about to store a latch inside that window, the run can go on so that the wake is lost |
| FiberLoss.SourceOrderLosesAWake | runtime/beans_fiber.c:1525-1544 | One fiber and one other thread are enough: a run in source order that ends PARKED, latched, with every resumer returned |
| FiberWakes.FinishedResumeTookEffect | runtime/beans_fiber.c:1525-1544 | In every run, at every grain: in the step that ends a resume its fiber is done, queued, latched and not yet parked, or was already woken by this very latch |
| FiberPlaces.EveryFiberInOnePlace | runtime/beans_fiber.c:1525-1670 | At every grain, in every run: a fiber is READY exactly when it is in one spot outside the pool, and in one only; only finished fibers are pooled; RUNNING is exactly the fiber on the CPU |
| FiberPlaces.SettleNeverSurprised | runtime/beans_fiber.c:1601-1642 | settle's compare-and-swap from PARKING cannot fail, so its requeue branch is never taken, and settle always finds a verdict |
| FiberDuties.NoPostIsStranded | runtime/beans_fiber.c:670-695 | While the worker is blocked in its poller with a nonempty inbox, a kick is pending or some poster has still to read the in-poll flag or to kick, for any number of posters |
| FiberDuties.SleepsOnlyWhenAllStopped | runtime/beans_fiber.c:1016-1042 | In every run: asleep with no resume under way, the worker has empty lists and every fiber is done, or parked with no finished child to collect |
| FiberDuties.SleepsOnlyWhenAllAtRest | runtime/beans_fiber.c:1104-1124 | And where no latch is stored inside the window, no wake and no cancellation is owed to a parked fiber either |
| FiberWaits.IdleWaitFits | runtime/beans_fiber.c:1104-1164 | In every run, at every grain: the worker is in its poller only while a descriptor is armed; on its condition variable none is, and the wait has a deadline exactly while a sleeper is left |
| FiberWaits.SleepersCanFire | runtime/beans_fiber.c:1126-1164 | Wherever a run leaves the worker waiting beside a sleeper, the wait can end by itself, and the worker comes to fire that sleeper without a step of a fiber or another thread |
| FiberWaits.RoundsCanFire | runtime/beans_fiber.c:1672-1686 | So does every round of the loop, before it starts a fiber |
| FiberWaits.UntimedWaitNeedsAPost | runtime/beans_fiber.c:1104-1125 | Without a sleeper the wait ends if and only if something was posted |
| FiberWaits.SourcesStep | runtime/beans_fiber.c:1059-1102 | A fiber waits for a descriptor or a deadline from when it arms one until it gives it up or its event or deadline comes, whatever any other step does |
| FiberOrder.StartedInTurn | runtime/beans_fiber.c:580-594 | However a run goes on, the fibers in line for the CPU are the first to be started, in their order, and nobody comes between them |
| FiberOrder.StartedAfterThoseInFront | runtime/beans_fiber.c:580-594 | So a fiber with k others in front of it is started after exactly those k |
| FiberOrder.QueuedInOrderOfPosts | runtime/beans_fiber.c:647-668 | And fibers posted by other threads are put on the run queue in the order of their posts |
| FiberDuties.DeadlockReportIsTrue | runtime/beans_fiber.c:619-638 | In every run the report is reached only with no timer, no armed descriptor, no call under way, empty lists, and every fiber done or parked |
| FiberDuties.DeadlockHasNoPendingWake | runtime/beans_fiber.c:619-638 | Where no latch is stored inside the window, no fiber in the report has a wake or cancellation pending |
| FiberDuties.LeavesWhenAllDone | runtime/beans_fiber.c:1672-1686 | The live count is exact at every step; the loop is left only when every fiber ever spawned is done, its hook has run, and no list or poster holds anyone |
| FiberDuties.JoinDeliversTheOutcome | runtime/beans_fiber.c:1568-1596 | A join hands out exactly the status its child finished with, once the child is done and its done hook has run |
| FiberJoins.JoinEndsOnlyIf | runtime/beans_fiber.c:1575-1589 | In every run: the wait for a child ends only with the child done, its hook run and its own status handed out, or with the fiber cancelled, its cancel not masked, and no latch used up; any other wake leads back to waiting for the same child |
| FiberJoins.JoinReturnIff | runtime/beans_fiber.c:1578-1589 | Conversely a join that park returns to ends in those two cases, and in the second leaves the child with no joiner and its outcome not collected |
| FiberJoins.JoinWaitsIff | runtime/beans_fiber.c:1568-1578 | A join of a finished child ends at once, one of a living child waits, in every run |
| FiberJoins.JoinGivesWhatWasFinished | runtime/beans_fiber.c:1568-1596 | In every run the status handed out is one the child itself gave to finish |
| FiberJoins.ParkSwitchesIff | runtime/beans_fiber.c:1504-1514 | park switches away exactly when the fiber is not cancelled, or masks it, and no wake is latched; a latched wake is used up |
| FiberJoins.YieldSwitchesIff | runtime/beans_fiber.c:1516-1523 | yield switches away exactly when the fiber is not cancelled or masks it, and leaves the latch alone |
| FiberJoins.HowParkReturns | runtime/beans_fiber.c:1504-1514 | park tells join it was woken without a look at the cancel flag exactly when it used up the latch |
| FiberJoins.FlagsFollow | runtime/beans_fiber.c:1486-1557 | Across every step: a fiber is cancelled from the first cancel on, masks as it said last, and is forgotten from the first forget on |
| FiberJoins.HookRetiresIff | runtime/beans_fiber.c:1625-1637 | At its end a record goes to the front of the pool exactly when the fiber is forgotten, has no joiner, and the pool has fewer than 64 |
| FiberLists.WithoutAt | runtime/beans_fiber.c:603-608 | On a list without repetition, taking a record out closes the gap at its place and moves nothing else |
| FiberLists.Fifo.Push | runtime/beans_fiber.c:580-585 | Linking a record behind the tail appends it to the queue; no link but the new record's and the old tail's is written |
| FiberLists.Fifo.Pop | runtime/beans_fiber.c:587-594 | The first record leaves, its link cleared, and is on the queue no more |
| FiberLists.Lists.InboxDrain | runtime/beans_fiber.c:647-668 | The detached inbox is appended to the run queue in posting order although both use the same link, and all lists stay well linked |
| FiberLists.Lists.AllAdd | runtime/beans_fiber.c:596-601 | The record becomes the first of the doubly linked list; only its own links and the old head's are written |
| FiberLists.Lists.AllRemove | runtime/beans_fiber.c:603-608 | Exactly that record leaves; only its own links and its two neighbours' are written |
| FiberLists.Table.Report | runtime/beans_fiber.c:623-634 | The walk meets every fiber once, in list order |
| FiberLists.Lists.Retire | runtime/beans_fiber.c:1184-1197 | The record goes to the front of the pool exactly while it holds fewer than 64 |
| FiberLists.Lists.Spawn | runtime/beans_fiber.c:1209-1277 | The first pooled record whose reservation is big enough, or a new one when there is none, joins all fibers and the run queue; the other lists keep their order |
| Sleepers.HeadIsLeast | runtime/beans_fiber.c:769-776 | In a heap the head has the least deadline |
| Sleepers.Timers.Push | runtime/beans_fiber.c:726-748 | The array stays a heap and its multiset gains exactly the new entry |
| Sleepers.Timers.PopMin | runtime/beans_fiber.c:750-765 | The array stays a heap and its multiset loses exactly the head |
| Sleepers.Timers.Remove | runtime/beans_fiber.c:802-831 | The first entry of the fiber goes, whichever way its replacement sifts, and nothing else; without one nothing changes |
| Sleepers.Timers.FireDue | runtime/beans_fiber.c:769-776 | Exactly the entries due are resumed, in nondecreasing order of deadline, and the rest stay |
| ChangeList.Poller.Arm | runtime/beans_fiber.c:872-906 | Queue and 1-based slots stay inverse, the waiter count equals the armed fibers, and out of memory leaves the registration as it was |
| ChangeList.Poller.Disarm | runtime/beans_fiber.c:911-937 | The last entry takes the freed slot and every slot still names its entry; the waiter count is right afterwards exactly when the fiber was armed |
| ChangeList.Poller.CancelWait | runtime/beans_fiber.c:1059-1099 | The cancel path keeps the invariant if and only if readiness was not delivered before |
| ChangeList.CancelAfterDelivery | runtime/beans_fiber.c:1087-1090 | From a fresh worker: arm, submit, deliver, cancel ends with a waiter count of -1 |
| ChangeList.Poller.Submit | runtime/beans_fiber.c:941-960 | The kernel gets every queued change once, every slot is given back, and the kernel's registrations are the armed fibers |
| ChangeList.Poller.Deliver | runtime/beans_fiber.c:961-996 | Each armed fiber with an event is resumed once, in all as many as the waiter count goes down |
| ChangeList.SwapRemoveTakesOne | runtime/beans_fiber.c:911-937 | Removal by swapping with the last takes exactly the entry of the slot |
| EvaluatorLeaks.NegativeCountUnreachable | tools/differential_fuzz.py:1486-1494 | No run of a well-formed program reaches the failed assertion on a negative count, whatever its scopes declare, the releases in the `finally` blocks that any exception passes included |
| EvaluatorLeaks.NothingDiesEarly | tools/differential_fuzz.py:1486-1513 | However a run ends, no count is below the number of fields that refer to the object; objects are torn down at most once and never while a field refers to them, whatever the scopes declare |
| EvaluatorRelease.TallyRelease | tools/differential_fuzz.py:1486-1513 | A release takes exactly one reference back, and everything that dies with it gives up its own; when one stops half-way no count is too low |
| EvaluatorCounts.DeclareIsExactIff | tools/differential_fuzz.py:1441-1442 | A declaration keeps the references an environment owns exact, the new one added, if and only if it overwrites no owned object |
| EvaluatorLeaks.FinalCountsAre | tools/differential_fuzz.py:1417-1602 | After main every count is the number of referring fields and of the declarations that dropped the object; the objects torn down, each once, are those with none |
| EvaluatorLeaks.ExactIffNothingLost | tools/differential_fuzz.py:1441-1442 | So the final counts are exactly the referring fields if and only if no declaration of the run dropped an object |
| EvaluatorLeaks.ScopedLosesNothing | tools/differential_fuzz.py:1441-1442 | With names declared once per scope no run drops one, however it ends |
| EvaluatorLeaks.AllTornIffAcyclic | tools/differential_fuzz.py:1581-1602 | After main every object ever made has been torn down exactly once if and only if the final heap has no cycle and no declaration dropped an object |
| EvaluatorLeaks.NothingLeaks | tools/differential_fuzz.py:1911-1966 | When initializers alone write class-typed fields, as in every generated program, everything is torn down exactly once if and only if no declaration dropped an object |
| EvaluatorLimits.RedeclaredNameLeaks | tools/differential_fuzz.py:1441-1442 | A run whose main declares a name twice: the first object is lost, and not everything is torn down |
| EvaluatorLimits.InitializerGoesNegative | tools/differential_fuzz.py:1526-1543 | A run in which an initializer calls a method of its own object and the assertion on a negative count fails |
| EvaluatorStores.AssignKeepsCountsIff | tools/differential_fuzz.py:1534-1537 | One field assignment of an init, whose expression kept the counts, keeps them if and only if the expression left the field referring to what it referred to before; and then it meets no negative count |
| EvaluatorStores.UnowedRelease | tools/differential_fuzz.py:1534-1537 | A reference read earlier that nothing owes any more cannot be given back: if the release gets through, the counts fit no set of owners |
| EvaluatorStores.SelfFreeAssignKeepsCounts | tools/differential_fuzz.py:1534-1537 | An expression that does not mention the object under construction, which nothing else refers to, meets that condition |
| EvaluatorExits.CallLeftAloneIff | tools/differential_fuzz.py:1545-1579 | An os.exit that passes a call changes nothing if and only if the call owns no object |
| EvaluatorExits.IfLeftAloneIff | tools/differential_fuzz.py:1027-1042 | One that passes an if changes nothing if and only if the scope popped there owns no object |
| EvaluatorExits.ExitLeavesAloneIff | tools/differential_fuzz.py:1581-1602 | A run that ends by os.exit has the heap and the teardowns of the moment of the exit if and only if no call or if it passed owned an object |
| EvaluatorExits.ExitReleasesLocals | tools/differential_fuzz.py:1588-1592 | A run in which a function makes an object and exits: the object is torn down after the exit |
| EvaluatorBound.MethodsNeedNoFuel | tools/differential_fuzz.py:2058-2168 | If bodies send only lower slots and super calls keep the slot from their own class, a dispatched call never exhausts fuel above a bound computed by recursion on slot, implementing class and expression, plus a fixed cost per reference in the heap; and more fuel changes nothing about it |
| EvaluatorBound.RunsNeedNoFuel | tools/differential_fuzz.py:1466-1477 | The same for whole programs: no run with more fuel than the cost of main exhausts it |
| EvaluatorBound.OutcomeNeedsNoFuel | tools/differential_fuzz.py:1581-1602 | So the outcome is a property of the program: the same for all fuel above the bound |
| EvaluatorBound.SelfCallNeedsAllFuel | tools/differential_fuzz.py:1562-1579 | Without that order of calls a program exhausts every amount of fuel |
| EvaluatorFuel.EnoughIsEnough | tools/differential_fuzz.py:1474-1484 | A run that does not exhaust its fuel is the same with more: output, code, objects, and teardowns in order |
| EvaluatorDispatch.ResolveIff | tools/differential_fuzz.py:168-174 | Dispatch answers a method if and only if it is the first of its slot in a class of the line and no class nearer to the object declares the slot; nothing if and only if no class does |
| EvaluatorDispatch.ChainIsTheLine | tools/differential_fuzz.py:123-127 | The line starts with the class, goes from each to the one it extends, and ends with one that extends nothing |
| EvaluatorDispatch.CallRunsTheNearest | tools/differential_fuzz.py:587-599 | A method call runs the nearest implementation as seen from the class of the object, on that object and the arguments, which die newest first, and the receiver last |
| EvaluatorDispatch.SuperRunsTheNearestAbove | tools/differential_fuzz.py:623-632 | A super call runs the nearest implementation strictly above the class it stands in, whatever the class of self |
| EvaluatorDispatch.FunctionIff | tools/differential_fuzz.py:1562-1566 | A function name means the last function declared under it |
| EvaluatorScalars.NormIff | tools/differential_fuzz.py:70-76 | norm_int gives the one value of the type that differs by a multiple of its size |
| EvaluatorScalars.RingOperators | tools/differential_fuzz.py:433-438 | Sum, difference, product and negation give x if and only if x is that value of the integer result |
| EvaluatorScalars.Division | tools/differential_fuzz.py:453-466 | Division gives the quotient without its fraction and modulo the rest with the sign of the dividend |
| EvaluatorScalars.DivisionFails | tools/differential_fuzz.py:453-462 | They are refused if and only if the divisor is zero |
| EvaluatorScalars.Shifts | tools/differential_fuzz.py:445-452 | Shifts count modulo the width; left is multiplication, right is division rounded down |
| EvaluatorScalars.ComplementIs | tools/differential_fuzz.py:384-385 | The complement is the value that makes -1 with the operand |
| EvaluatorScalars.WrappingOnceIsEnough | tools/differential_fuzz.py:412-438 | Any sum or product of literals of one type evaluates to its integer value wrapped once, though every step wraps |
| EvaluatorBindings.LookupAfterDeclare | tools/differential_fuzz.py:1441-1448 | A declaration is what its name means from then on and changes the meaning of no other |
| EvaluatorBindings.LookupAfterAssign | tools/differential_fuzz.py:1450-1460 | An assignment changes what its name means and nothing else; without a binding it changes nothing |
| EvaluatorBindings.SameScopes | tools/differential_fuzz.py:1450-1460 | The binding overwritten is the innermost one; every other scope stays |
| EvaluatorBindings.LookupParameter | tools/differential_fuzz.py:1562-1569 | Parameters mean the arguments in order, the later one where a name is given twice |
| EvaluatorBindings.StoredFieldHolds | tools/differential_fuzz.py:949-954 | A store changes the one field of the one object and no count |
| EvaluatorBindings.DefaultIsFirstValue | tools/differential_fuzz.py:1519-1522 | A declared default is the first value of the field unless a base declares it too |
| EvaluatorObjects.AssignedFieldIsRead | tools/differential_fuzz.py:949-954 | What is assigned to a field of an object is what reading the field gives |
| EvaluatorObjects.FieldIsRead | tools/differential_fuzz.py:532-536 | Reading a field takes a reference to its value and leaves everything else as it was |
| EvaluatorObjects.MadeWithArgument | tools/differential_fuzz.py:1526-1537 | An object holds the argument its initializer stores |
| EvaluatorLaws.ArgsConcat | tools/differential_fuzz.py:505-506 | Arguments are evaluated left to right however the list is cut |
| EvaluatorLaws.BlockConcat | tools/differential_fuzz.py:1479-1482 | A block of two parts is the first and, if it does not leave, the second |
| EvaluatorLaws.StrictIsArgs | tools/differential_fuzz.py:418-419 | A strict operator evaluates its operands like two arguments |
| EvaluatorLaws.AndIsCondition | tools/differential_fuzz.py:414-415 | A conjunction is a conditional on its left operand |
| EvaluatorLaws.DeMorgan | tools/differential_fuzz.py:414-417 | A disjunction is the conjunction of the negated operands, negated, in value, state and failure |
| EvaluatorLaws.NegatedCondition | tools/differential_fuzz.py:783-786 | Negating a condition swaps the branches of a conditional expression |
| EvaluatorLaws.ConstantCondition | tools/differential_fuzz.py:783-786 | The branch a condition chooses is the one evaluated |
| EvaluatorLaws.NegatedIf | tools/differential_fuzz.py:1030-1042 | Negating the condition of an if swaps its blocks |
| EvaluatorLaws.CompoundIsPlain | tools/differential_fuzz.py:928-934 | x op= e is x = x op e on integers wrapped to the type |
| EvaluatorLaws.ForCountsUp | tools/differential_fuzz.py:1062-1077 | A for loop runs once for every number of its range, ascending, the bound excluded unless it is inclusive |
| EvaluatorLaws.CounterCountsUp | tools/differential_fuzz.py:2978-2996 | A counter loop runs for 0 up to its limit and leaves the counter at the limit |
| EvaluatorLaws.BreakEndsTheLoop | tools/differential_fuzz.py:1062-1077 | break ends the loop and execution goes on behind it |
| EvaluatorLaws.CallGivesArgument | tools/differential_fuzz.py:1562-1579 | A function that returns its k-th parameter gives the k-th argument |
| EvaluatorLaws.NewestDiesFirst | tools/differential_fuzz.py:1430-1435 | What a scope owns dies newest first |
| EvaluatorLaws.DeinitsComeFirst | tools/differential_fuzz.py:1495-1513 | A dying object runs all deinits of its line, its own first, before its fields give up their references |
| EvaluatorLaws.BaseInitFirst | tools/differential_fuzz.py:1526-1543 | An object is initialized from its last base down to its own class |
| EvaluatorRenamed.RenamingPreservesRuns | tools/differential_fuzz.py:4281-4311 | Renaming main's root locals leaves output, exit code and objects of every run unchanged when their names are apart from all others |
| EvaluatorRenamed.ShadowingBreaksRenaming | tools/differential_fuzz.py:4287-4297 | Without distinct names the renamed program prints something else |
| EvaluatorRenamed.ParenthesesPreserveRuns | tools/differential_fuzz.py:4284-4286 | Parenthesizing the initializers changes no run of any program |
| EvaluatorTransforms.RenamingLeavesNone | tools/differential_fuzz.py:4287-4297 | Renaming leaves no declaration, assignment or use of a name it renames, in main, functions and classes |
| EvaluatorTransforms.ParenthesesWrap | tools/differential_fuzz.py:4284-4286 | Exactly the initializers of main's own locals are wrapped |
| EvaluatorState.Oracle.Drop | tools/differential_fuzz.py:1486-1494 | release in place is the function the results above are about: the state, and the exception if there is one |
| EvaluatorState.Oracle.TearDown | tools/differential_fuzz.py:1495-1513 | teardown's loops run the deinit bodies child first and then drop the fields last declared first |
| EvaluatorState.Env.Close | tools/differential_fuzz.py:1430-1435 | pop releases the values the scope owns, newest first, and no borrowed one |
| EvaluatorState.Env.CloseAll | tools/differential_fuzz.py:1437-1439 | pop_all releases every scope, innermost first, and leaves none |
| EvaluatorState.Env.Find | tools/differential_fuzz.py:1444-1448 | lookup finds the innermost binding or none |
| EvaluatorState.Env.Put | tools/differential_fuzz.py:1450-1460 | assign overwrites the innermost binding, which owns from then on, and releases what it owned |
| Wide128.ShiftLeftIsTimes | runtime/wasm_host.c:204-210 | The left shift is multiplication by 2^n modulo 2^128, for every n |
| Wide128.ShiftRightIsDiv | runtime/wasm_host.c:212-218 | The right shift is division by 2^n, for every n |
| Wide128.ShiftRightSignedIsFloor | runtime/wasm_host.c:220-229 | The arithmetic shift is floor division of the signed value by 2^n, for every n |
| Wide128.ProductIsTimes | runtime/wasm_host.c:233-248 | The product of 32-bit pieces is the product modulo 2^128 |
| Wide128.SignedProduct | runtime/wasm_host.c:233-248 | On signed arguments the word is that of the signed product |
| Wide128.UDivMod | runtime/wasm_host.c:253-275 | The bit loop gives n = q * d + r and r < d for every n and nonzero d, and exits with 72 on zero |
| Wide128.DivSigned | runtime/wasm_host.c:285-292 | The quotient truncated toward zero, as section 6.5.5 of ISO/IEC 9899:2011 asks; the one that does not fit wraps |
| Wide128.ModSigned | runtime/wasm_host.c:294-302 | The remainder with the sign of the dividend |
| Wide128.TruncLaw | runtime/wasm_host.c:285-302 | Truncated quotient and remainder rebuild the dividend, the remainder being smaller than the divisor and signed like the dividend |
| Wide128.QuotientFitsUnlessLeast | runtime/wasm_host.c:285-292 | The quotient is representable for all operands except the most negative value over -1 |
| Wide128.DivisionLaw | runtime/wasm_host.c:285-302 | q * b + r = a as 128-bit words in every case, that one included |
| Wide128.NegationOverflowsIff | runtime/wasm_host.c:285-292 | For every nonzero b the negation of the quotient leaves the signed range if and only if the most negative value is divided by 1 |
| Wide128.OverflowIsHarmless | runtime/wasm_host.c:285-292 | There the negation that wraps gives the quotient |
| Wide128.ConversionWrapsIff | runtime/wasm_host.c:285-292 | The quotient that is not negated fails to fit its conversion if and only if the most negative value is divided by -1 |
| Wide128.RemainderNegates | runtime/wasm_host.c:294-302 | The remainder's negation never overflows |
| WasmMemory.Memmove | runtime/wasm_host.c:129-140 | The target holds what the source held, however they overlap, and nothing else changes |
| WasmMemory.MemcpyMovesIff | runtime/wasm_host.c:122-127 | Into overlapping higher addresses memcpy does what memmove does if and only if the source repeats with the distance between the two |
| WasmMemory.MemcpyMovesDown | runtime/wasm_host.c:122-127 | Into lower addresses it always does |
| Decimals.BeansParse | tools/decimal_conformance.py:72-153 | The one-pass loop computes the grammar's reading of a text, accepting and rejecting the same texts |
| Decimals.AcceptedIffItFits | tools/decimal_conformance.py:136-153 | A well-formed text is accepted if and only if it needs at most 65535 places and its units stay below 10^38 |
| Decimals.ParsedIsCanonical | tools/decimal_conformance.py:136-153 | Every accepted text gives a coefficient below 10^38, a scale up to 65535 and no negative zero |
| Decimals.ParsedIsExact | tools/decimal_conformance.py:72-153 | Every accepted text gives exactly the rational number it spells, underscores, exponent and appended zeros included |
| DecimalTexts.PrintedExponentScales | tools/decimal_conformance.py:101-120 | A mantissa followed by e, an optional sign and a printed number k denotes its number times 10^k, and with a minus sign divided by it; the text is accepted if and only if the result fits |
| DecimalTexts.ExponentScales | tools/decimal_conformance.py:101-120 | The same for any digits behind the e, leading zeros included; none over 4096 is accepted |
| DecimalTexts.SignOnlySigns | tools/decimal_conformance.py:77-82 | A sign in front changes the sign of the result and nothing else, and zero has none |
| DecimalTexts.UnderscoreMeansNothing | tools/decimal_conformance.py:92-94 | An underscore anywhere in the mantissa changes nothing that is read |
| Decimals.RoundTrip | tools/decimal_conformance.py:161-171 | Reading what was printed gives back every canonical decimal |
| Decimals.ToBeansAgrees | tools/decimal_conformance.py:174-195 | Converting and reading agree on a value if and only if it is not a zero with an exponent over 38 |
| HttpFraming.FrameSplits | bench/http_floor.c:174-216 | Framing may stop after any byte and go on: requests, body bytes to come and unframed bytes depend on the stream only |
| HttpFraming.ReadContentLength | bench/http_floor.c:98-121 | The two nested loops find the first header key in any case and the digits after it |
| HttpFraming.ContentLengthIsBounded | bench/http_floor.c:112-117 | The number stays below 10^9 + 10, so a long never overflows |
| HttpLengths.LengthIsSpelled | bench/http_floor.c:98-121 | For the first key in any case, any blanks and any digits behind it, the length is the number the digits spell in base ten, or over 10^8 if that number is |
| HttpLengths.NoKeyNoLength | bench/http_floor.c:98-121 | A head without the key announces nothing |
| HttpLengths.RequestsAreCounted | bench/http_floor.c:183-205 | A stream put together from whole requests and an unfinished rest frames as exactly those requests |
| HttpLengths.EveryStreamIsRequests | bench/http_floor.c:183-205 | And every stream is put together that way, with as many requests as are counted complete |
| HttpFloor.Conn.OnRead | bench/http_floor.c:174-216 | One read keeps the buffer equal to the unframed rest of all bytes received and owes one response per request completed; it closes only on failure, end, or a full buffer |
| HttpFloor.Conn.Flush | bench/http_floor.c:140-171 | Whatever the writes take, what is sent is the responses owed up to a point inside the next |
| HttpFloor.Conn.Serve | bench/http_floor.c:305-323 | Over a whole list of events: what was sent is a prefix of (head + body)^k for the k requests complete in what was received, and all of it when nothing is pending |
| HttpFraming.PrefixesFitIffHeadsShort | bench/http_floor.c:210-215 | No prefix of a stream leaves a full buffer if and only if every complete head has at most 8192 bytes and an unfinished one fewer |
| HttpFloor.OpenIffHeadsFit | bench/http_floor.c:210-215 | Whether a connection survives depends on the stream, not on how reads cut it: it stays open if and only if those are the sizes of its heads |
| Channel.FirstInFirstOut | bench/cpp/channels.cpp:11-40 | received + buffered = sent in order, and the buffer never exceeds its capacity, with any number of threads |
| Channel.NobodySleepsBesideWork | bench/cpp/channels.cpp:11-40 | With no notification on its way, readers sleep only on an empty open channel, writers only on a full one, and never both |
| Channel.EveryItemHasAReaderOnItsWay | bench/cpp/channels.cpp:11-40 | In every run, while a reader sleeps every buffered item has a notified reader of its own, and while a writer sleeps every free place a notified writer |
| Channel.EndsOnlyWhenDrained | bench/cpp/channels.cpp:20-27 | A receive ends empty-handed only after the close, with everything received |
| Channel.ReceiverGoesOn | bench/cpp/channels.cpp:20-27 | In every run a receiver has exactly one kind of step: it takes the oldest item if there is one, waits on an empty open channel, ends on an empty closed one |
| Channel.SenderGoesOn | bench/cpp/channels.cpp:14-19 | And a sender too: it puts its item behind the others if there is room, and waits exactly on a full channel |
| OrderedMap.PutKeepsPlaces | bench/cpp/ordered_maps.cpp:8-35 | Overwriting keeps a key's position, a new key goes last |
| OrderedMap.RemoveThenSetMovesToEnd | bench/cpp/ordered_maps.cpp:8-35 | remove then set moves a key to the end |
| OrderedMap.OrderedMap.Set | bench/cpp/ordered_maps.cpp:8-35 | Entries, tombstones and index refine an association list: set is its update |
| OrderedMap.OrderedMap.Remove | bench/cpp/ordered_maps.cpp:8-35 | remove is its deletion, and a missing key changes nothing |
| OrderedMap.OrderedMap.Keys | bench/cpp/ordered_maps.cpp:8-35 | keys are exactly the live keys in insertion order |
| KvStore.DecodeEncode | bench/cpp/kv_store.cpp:30-43 | Reading eight bytes gives back the integer written |
| KvStore.BytesAt | bench/cpp/kv_store.cpp:30-34 | The low byte of an integer is written first |
| KvStore.Rebuild | bench/cpp/kv_store.cpp:75-82 | Replaying any log gives the index of the last record of each key |
| KvStore.CompactionKeepsTheStore | bench/cpp/kv_store.cpp:84-97 | The compacted log has one 24-byte record per key and replays to the same map |
| KvStore.Store | bench/cpp/kv_store.cpp:45-98 | main, for every size and seed clear of overflow: the rebuilt index is the one kept while appending, and the compacted log keeps the store |

## Findings

Properties the code fails, each with an input and its exact condition; for renaming the condition is sufficient only.

- **A wake can be lost in settle's window** (`runtime/beans_fiber.c:1604-1611`). settle reads the latch before it
  publishes PARKED. Another thread that stores the latch in between re-reads PARKING and returns, and the fiber parks
  with its latch set (`FiberLoss.SourceOrderLosesAWake`). The order is safe exactly for the runs that store no latch
  inside the window (`FiberWakes.NoWakeIsLost`, `FiberLoss.LatchInWindowCanBeLost`); the owner's own resumes never do.
  Publishing PARKED first and reading the latch again afterwards loses nothing (grain `Fixed`).
- **settle's requeue branch is dead** (`runtime/beans_fiber.c:1614-1617`). Its comment says it catches such a wake;
  nobody else changes a PARKING fiber, so the compare-and-swap cannot fail (`FiberPlaces.SettleNeverSurprised`).
- **io_waiters is decremented twice** when a wait is cancelled after its readiness was delivered
  (`runtime/beans_fiber.c:1087-1090`): the count is right afterwards if and only if nothing was delivered
  (`ChangeList.Poller.CancelWait`, `ChangeList.CancelAfterDelivery`).
- **Env.declare drops what it overwrites** (`tools/differential_fuzz.py:1441-1442`). A declaration keeps the owned
  references exact if and only if the innermost scope does not already own an object under the name
  (`EvaluatorCounts.DeclareIsExactIff`); a scalar may be declared again. At the end of main the counts are exact if and
  only if no declaration the run executed dropped an object (`EvaluatorLeaks.ExactIffNothingLost`), which names declared
  once per scope ensure. `EvaluatorLimits.RedeclaredNameLeaks` is a program that loses one. Such a loss leaks and does
  nothing worse (`EvaluatorLeaks.NothingDiesEarly`).
- **run_init reads the old field before it evaluates the expression** (`tools/differential_fuzz.py:1534-1537`). The
  assignment keeps the counts if and only if the expression left the field with the reference that was read
  (`EvaluatorStores.AssignKeepsCountsIff`); expressions that do not reach the object do. One that calls a method of the
  object runs into the assertion (`EvaluatorLimits.InitializerGoesNegative`).
- **os.exit does release**. The comment at `tools/differential_fuzz.py:1588-1592` says the exit skips the release walk,
  which is true of main's own scopes; the `finally` of a call and of an if still run, and the latter pops whatever scope
  is innermost, a loop's if the exit came from one. The exit changes nothing if and only if the scopes it passes own no
  object (`EvaluatorExits.ExitLeavesAloneIff`). `EvaluatorExits.ExitReleasesLocals` is a program whose exit tears an
  object down. The model follows the code.
- **Renaming needs names that are apart** (`tools/differential_fuzz.py:4287-4297`): it renames references, not loop
  variables, so a shadowed name changes the output (`EvaluatorRenamed.ShadowingBreaksRenaming`). Names that are apart
  suffice (`EvaluatorRenamed.RenamingPreservesRuns`); they are not necessary.
- **to_beans refuses zeros that beans_parse reads** (`tools/decimal_conformance.py:185-187`): exactly those with an
  exponent over 38 (`Decimals.ToBeansAgrees`).
- **`__divti3` overflows at two inputs** (`runtime/wasm_host.c:285-292`), both with the most negative dividend. Over -1
  the signs agree, so nothing is negated: the magnitude 2^127 has no signed representation and its conversion wraps to
  the dividend (`Wide128.ConversionWrapsIff`; it is the only quotient that does not fit, `Wide128.QuotientFitsUnlessLeast`).
  Over 1 the converted magnitude is itself the least value and its negation is signed overflow, undefined in C
  (section 6.5 of ISO/IEC 9899:2011): the only pair for which it is (`Wide128.NegationOverflowsIff`). Where it wraps, as
  the model does, the quotient is right (`Wide128.OverflowIsHarmless`). The law q * b + r = a holds for the words in both
  cases (`Wide128.DivisionLaw`).

## Left out

- Context switching, stack mapping, guard pages, signals, sanitizer hooks and the controlled unwind: a switch is a step boundary.
- The kernel poller: each armed registration is delivered at most once. Two fibers waiting for one descriptor in the epoll build are excluded, and only the kqueue build's change list is modelled.
- Fiber records are never freed and reused under a name that is still held: names are stable in the state machine.
- One joiner per fiber, as `runtime/beans_fiber.h` asks of callers; a second join aborts the process and is not a step.
- FiberWorker has its own sequences for the lists; that the linked records of FiberLists behave like them is proved operation by operation, not as one refinement of whole runs. The run queue and the inbox are two objects of one class there; the source writes the same code twice.
- ChangeList.Poller.Arm: the queue is a sequence with a capacity, so growing it does not show the copy of a reallocation.
- The evaluator's strings, structs, enums, matches, closures, packages and visibility, and the operators `&`, `|` and `^`. Programs the two front ends reject are `Stuck`.
- The evaluator's statements and expressions are functions from state to state; only the environment, release and teardown are also classes.
- Python's recursion limit: the bound on fuel is not a bound on the interpreter's stack.
- EvaluatorRenamed.RenamingPreservesRuns: a program whose names are not apart may still run alike after renaming, when the shadowed name is not used; that is not characterised.
- transform_program's walk over the program graph is a function that rebuilds the program.
- Decimals takes ASCII digits only; Python's other decimal digits are not modelled, nor are infinities and NaNs in `to_beans`.
- WASI imports, the allocator and the floating-point helpers of `runtime/wasm_host.c`.
- accept, the listening socket and the table of connections in `bench/http_floor.c`; one connection is modelled. An interrupted `read` is tried again before the model sees it.
- Channel's mutex: a monitor operation is one step between waits.
- The Beans compiler, `beans_rt.c`, the other runners, mirrors and drivers, random generation, and the fuzzer's subprocesses.
