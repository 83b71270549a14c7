# Homestead: verified models

Homestead manages workloads on Kubernetes and Harvester clusters. This project models the parts
of it whose correctness rests on more than one function - protocols between two clusters or
several replicas, searches, arithmetic, and records kept over months - and proves what they
promise. `dafny verify dfyconfig.toml` checks everything.

## What is modelled

**A move between two clusters.** The destination drives a record through seven phases; the source
remembers everything in two annotations. `MoveSource` has the source's state and its requests as
functions, `MoveRequests` the same requests as the source serves them, change by change.
`MoveProtocol` is the whole as a step relation: a tick takes one step per remote call and keeps its
own copy of the record until it stores it, a crash loses the copy at any point, a reply can be lost
after the effect, people retry, put back, finish and clear in steps of their own between the tick's,
and the clusters start and stop pods and let them write. `MoveSafety` is the invariant, `MoveTicks`
and `MovePeople` show that every step keeps it, and `MoveTheorems` has the promises over every run.
`MoveAnswers` says what a run was told before it got as far as it did, `MoveFaults` what it waits out
and what makes it fail, and `MoveFinish` that a move whose record runs or has failed can be brought to
its end from every state it can get into, exactly when nothing stood in its place at the destination.
`MovePutBack` says exactly when a workload put back stays put back whatever anybody does next, and
`MoveAbandon` what an `abandon` restores, judged when it is about to call the release. `MoveEngine`
runs a whole put-back straight through, call by call, against the same relation. `MoveRace` has two
runs in which putting back does not restore everything: a tick in flight stops the source again, and
a listing that fails hides a service.

**Leader election.** `Leader` has one replica as a class, and any number of them as a step relation
over one Lease: clocks within a bound, lost replies, writes that arrive late, deaths, restarts and
handovers. No two replicas believe they lead as long as each believed leader finishes its next
attempt within the lease's duration less the clocks' bound; one microsecond more, and two can.

**Placement search.** `Placement` is the memoised, budgeted backtracking search for a joint
placement, with the planner as any function of a service and the multiset of pods already placed.

**P-256 and ECDSA.** `Modular`, `EllipticCurve` and `Jacobian` relate the Jacobian formulas to the
chord-and-tangent law, `Multiples` proves the double-and-add loop, and `Ecdsa` proves that what
`sign` makes `verify` accepts - except for a digest of 0 modulo N, where `verify` raises. Assumed,
and named in `Ecdsa.Assumed`: that P and N are prime and that addition on the curve is associative.
That the base point has order N is proved, in `BaseOrder`, by a chain of doublings and additions
each given by the slope of its line.

**Graphs, folders and logs.** `Compose` is the depth-first order of a Compose file, told by its rows. `Imports` relates
what is measured of nested folders, deducted in place, to what their copies take; `ImportFolders` is
where each lands in its volume. `Alerts` is the alert engine, key by key, and `AlertRuns` what any run of it
writes. `History` shows that two days of samples and ninety of hours are exactly what the retention
should leave of every sample ever taken, `HistoryRuns` what they say in terms of what each call was
told, and `Uptime` what is read from them.

**Smaller machines.** `Console` is WebSocket framing (sections 5.2 and 5.3 of RFC 6455). `Affinity`
is the replacing of placement rules. `Subnets` and `AddressRecord` are the address record, with any
number of concurrent writers.

## Where the code and its documentation differ

The models follow the code; each of these is a lemma with its exact condition or a concrete run.

- A VM that runs by its older `running` flag is rebuilt with `runStrategy` Halted, and the start
  patch sets the flag only: the copy stays halted. It is the only kind of workload that does
  (`MoveSource.StartPatchRunsAsBefore`, over whole runs `MoveTheorems.CopyRunsAsBefore`).
- `abandon` with a tick in flight can leave the source stopped (`MoveRace.TickInFlightStopsAgain`):
  exactly when that tick is about to ask the source to stop (`MovePutBack.SourceStaysBack`), and
  with the destination counted in, exactly when it is that or can still post something
  (`MovePutBack.PutBackStays`, `MoveAbandon.HoldsExactlyWhen`).
- `abandon` takes a listing that fails for an empty one. It leaves the destination as before exactly
  when each listing answered or had nothing to show when the request came (`MoveEngine.Engine.Abandon`,
  among other steps `MoveAbandon.AbandonRestores`); `MoveRace.HiddenServiceStays` is a run that leaves
  a service.
- `verify` raises on a digest of 0 modulo N (`Ecdsa.SignThenVerify`).
- A hand-made affinity term equal to one Homestead writes goes with Homestead's own at the next
  request, although hand-made terms are meant to stay (`Affinity.SecondReplacesFirst`).
- Deducting nested folders counts a grandchild twice when its parent is listed before its grandparent
  (`Imports.RightExactlyWhen`).
- Two folders land in one place exactly when one of them asks for a place that a row before it in
  the same volume asks for or had made up for it (`ImportFolders.ApartExactlyWhen`).
- A node's uptime goes from the hour straight to the five minutes, and the hour in which the fine
  samples begin falls between: a sample is in no row exactly when it has left the fine tier while
  another of the same hour has not (`Uptime.CoveredExactlyWhen`, a run in `Uptime.CutHourIsLost`).

## Model

| member | source | states |
|---|---|---|
| MoveTheorems.NeverLost | server/homestead_move_engine.py:802-885 | In every state of every run the source still has the workload with its claims, or the destination has it with every claim filled with what the source's claim holds. |
| MoveTheorems.RemovedOnlyWhenCopied | server/homestead_move_engine.py:869-885 | `finish` removes the source only when the copy is complete and asked to run if the original ran, nothing was put back, and no pod runs there. |
| MoveTheorems.LandedRuns | server/homestead_move_engine.py:681-714 | A move that has landed and was not put back has its own copy here, asked to run exactly if the original ran. |
| MoveAnswers.LandedOnlyWhenReady | server/homestead_move_engine.py:697-714 | A move lands only if its workload was stopped before, or some earlier tick of the run was told that it is ready here. |
| MoveAnswers.ToldLands | server/homestead_move_engine.py:697-714 | A tick that was told whether the workload is ready, and whose record is then stored over one that runs: succeeded and landed if it was ready, else still running in the same phase. |
| MoveAnswers.RemovedOnlyWhenReady | server/homestead_move_engine.py:869-885 | The source is only removed after that, too. |
| MoveAnswers.PhasesFollowAnswers | server/homestead_move_engine.py:396-466 | A stored record is past quiescing, backing up and syncing only after a tick of the run saw no pod, was told that every claim's backup is complete, and was told that the backups can be seen here and found each in the bucket. |
| MoveAnswers.ClaimsGoWhenAsked | server/homestead_move_engine.py:869-885 | The source's workload is gone exactly when it was removed, its claims exactly when they were asked to be removed with it. |
| MoveFaults.FaultIsStored | server/homestead_move_engine.py:737-758 | A tick that met a fault and stored it: failed for a refusal, or the 121st time a far side cannot be reached; anything else is waited out, and phase, progress and claims stay. |
| MoveFaults.FailsOnlyWhenRefused | server/homestead_move_engine.py:737-758 | Over every run, crashes and lost replies included: a record is failed only after a refusal, or more than 120 ticks of it. |
| MoveFinish.CanAlwaysFinish | server/homestead_move_engine.py:376-775 | From every reachable state that has not landed, some continuation lands the move if and only if its record runs or has failed and neither its workload nor its claims were there before at the destination. |
| MoveFinish.FreshCanFinish | server/homestead_move_engine.py:324-347 | A fresh move can be landed if and only if nothing stands in its place. |
| MoveFinish.FinishEnds | server/homestead_move_engine.py:869-885 | A move that landed and was not put back can always be finished: the source agrees to the removal, takes the claims exactly if asked, and the record says so. |
| MoveFinish.NeverCleared | server/homestead_move_engine.py:848-866 | A record that runs or has failed is never cleared, and is cancelled by a put-back alone. |
| MoveTheorems.AskedOnlyWhileStopped | server/homestead_move_engine.py:681-723 | Without a put-back, the start patch takes effect only while the source is asked to be stopped, has no pod and remembers how it ran; what the patch asks for is exactly that. |
| MoveTheorems.NeverBoth | server/homestead_move_engine.py:681-723 | In every state of a run without a put-back, a copy asked to run has a source that is stopped, with its origin recorded. |
| MoveTheorems.CopiedAtRest | server/homestead_move_engine.py:553-586 | Every claim this move made is of a backup whose content is what the source's claim holds now, with no pod left there. |
| MoveTheorems.BackedUpAtRest | server/homestead_move_source.py:319-342 | Backups are made only with the workload stopped and no pod left, of the content at that moment. |
| MoveTheorems.NeverBackwards | server/homestead_move_engine.py:367-373 | Between any two stored records that are not cancelled, phase and progress never go backwards, whatever happened between. |
| MoveTheorems.CancelledStays | server/homestead_move_engine.py:761-775 | Once `abandon` has stored "cancelled", no tick in flight stores it running again. |
| MoveAbandon.AbandonRestores | server/homestead_move_engine.py:802-842 | Whatever clusters, ticks and other people do meanwhile but putting back themselves: an `abandon` that was about to release, with no tick in flight that can undo it, ends with the destination exactly as before the move if and only if each of its listings answered or had nothing to show when the release was about to be called; the source runs as it did, both annotations gone. |
| MoveAbandon.HoldsExactlyWhen | server/homestead_move_engine.py:802-842 | From an `abandon` about to release: in every continuation in which it ends with both listings answered, everything is as before the move from then on for good, if and only if no tick in flight is about to stop the source or can still post at the destination. |
| MovePutBack.SourceStaysBack | server/homestead_move_engine.py:396-404 | A released source stays released in every continuation if and only if no tick in flight stands before its stop request. |
| MovePutBack.PutBackStays | server/homestead_move_engine.py:553-680 | A finished put-back stays, on both clusters and in every continuation, if and only if no tick in flight stands before its stop request, or before the post of a claim, extra or workload that was not here before. |
| MoveTheorems.OnlyHiddenLeft | server/homestead_move_engine.py:822-832 | What a finished `abandon` leaves of this move is only what a failed listing hid, even after crashes that lost every flag. |
| MoveRace.TickInFlightStopsAgain | server/homestead_move_engine.py:396-404 | A concrete run from a fresh move: the record is cancelled, the source was released, and a tick that had read the record before stops it again, until somebody puts it back once more. |
| MoveRace.HiddenServiceStays | server/homestead_move_engine.py:822-832 | A concrete run from a fresh move to an `abandon` with no tick in flight whose listing of services is not answered: it ends as if all were undone, and the service it had made is still there. |
| MoveEngine.Engine.Abandon | server/homestead_move_engine.py:802-842 | Run straight through from any reachable state: it succeeds exactly when there is a record and the source is neither known nor found to be removed; the source then runs as it did, and the destination is as before the move if and only if each listing answered or there was nothing of this move and its kind when the request came. |
| MoveEngine.Engine.DeleteListed | server/homestead_move_engine.py:822-832 | The loop over a listing deletes exactly what was listed and leaves the source alone. |
| MovePeople.StepInv | server/homestead_move_engine.py:737-885 | Every step of ticks, people and clusters keeps the invariant that ties the record, the objects, both annotations, the backups and every request in flight together. |
| MoveTicks.TickInv | server/homestead_move_engine.py:374-775 | Every call, reply, loss and crash of a tick keeps the invariant. |
| MovePeople.PersonInv | server/homestead_move_engine.py:789-885 | Every call and store of retry, abandon, dismiss and finish keeps the invariant. |
| MoveSource.RepeatedQuiesceReleases | server/homestead_move_source.py:272-379 | Stopped any number of times, the source remembers how it ran the first time; a release runs it exactly so, annotations gone, data untouched. |
| MoveSource.StartPatchRunsAsBefore | server/homestead_move_engine.py:681-697 | The rebuilt object, patched or left as `_starting` does, runs exactly when the original did - by what a cluster does with its fields - if and only if the original is not a VM that ran by its older flag. |
| MoveSource.FlaggedVmStaysHalted | server/homestead_move_source.py:190-234 | That VM: it ran, its copy is halted. |
| MoveSource.PatchedRuns | server/homestead_move_source.py:190-197 | Stopped and patched back, a workload runs exactly when it did, and its field reads as it did where it had one. |
| MoveSource.StoppedIs | server/homestead_move_source.py:190-197 | What the recorded run state calls stopped is what a cluster does not run. |
| MoveTheorems.CopyRunsAsBefore | server/homestead_move_engine.py:681-697 | In every state of every run, a copy was asked to run only if the original ran; it does run unless that was a VM that ran by its older flag, and then just as the original did. |
| MoveSource.StoredKeepsContent | server/homestead_move_source.py:319-342 | New backups hold the content at rest and leave every older one alone. |
| MoveRequests.Side.BackedUp | server/homestead_move_source.py:319-342 | However it fails part-way, what `backup` records are backups of distinct claims that had none, of their content at rest; when it returns every claim has one; refused, it makes none. |
| MoveRequests.Side.Quiesced | server/homestead_move_source.py:272-293 | The merge patch of a stop: the origin of the first stop stays, the run state is the stopped one. |
| MoveRequests.Side.Released | server/homestead_move_source.py:369-379 | A release puts the remembered field back and drops both annotations; without an origin nothing changes. |
| MoveRequests.Side.Removed | server/homestead_move_source.py:382-417 | Removed exactly when it was stopped for a move and no pod is left; its claims only when asked. |
| MoveRequests.ClaimsOf | server/homestead_move_source.py:102-118 | The claims a workload mounts, each once, in the order of their first mount. |
| Leader.OneLeader | server/homestead_leader.py:56-139 | In every timely run, no two replicas believe they lead at once. |
| Leader.LeaderHoldsLease | server/homestead_leader.py:56-104 | Whoever believes it leads is the one the lease names. |
| Leader.OneMicrosecondMore | server/homestead_leader.py:117-125 | The bound is tight: for every clock skew there is a run one microsecond over it with two leaders. |
| Leader.EveryWriteIsNew | server/homestead_leader.py:85-96 | Whatever changes the lease makes a new version of it, which no late write names. |
| Leader.BlankedByItsLeader | server/homestead_leader.py:128-139 | A lease is blanked only by the replica it names, while that leads, which is gone then. |
| Leader.StepInv | server/homestead_leader.py:56-139 | Every step, late writes and lost replies included, keeps the invariant behind both. |
| Leader.Replica.Decide | server/homestead_leader.py:56-96 | Nothing is sent, and the replica steps down, exactly when there is a lease, another replica holds it, and it was stamped no more than its duration ago; else what is sent claims the lease for this replica, stamped now, over the version found, with a change of hands counted. |
| Leader.Replica.Conclude | server/homestead_leader.py:87-104 | What the reply makes the replica believe. |
| Leader.AttemptLeads | server/homestead_leader.py:56-96 | In every run, an attempt whose write is answered before the lease changes ends leading, the lease its own and stamped by its clock. |
| Leader.LeaderRenews | server/homestead_leader.py:80-96 | A leader that reads the lease sends a renewal, goes on leading meanwhile, and leads again when it is answered before anybody else writes. |
| Leader.HandedOverIsTaken | server/homestead_leader.py:128-139 | A lease handed over is claimed by the next attempt that reads it, by whatever clock, and taken when the write is answered before anybody else's. |
| Leader.ClaimsWhatIsFree | server/homestead_leader.py:75-96 | In every run, a lease that is one's own, blank, run out or absent is claimed. |
| Placement.Plan | server/homestead_batch_capacity.py:54-106 | "Fits" comes with an example that places each service its exact number of times, every pod eligible when placed; "blocked" means no order and no hosts would do; the search makes no more planner calls than the budget, besides the one review of each entry before it; "unknown" only for a size, budget or time reason. |
| Placement.Search.Run | server/homestead_batch_capacity.py:60-98 | The memoised search is sound and, when it was not cut short, complete, though keys are remembered by the multiset of placements; it ends by the pods left. |
| Placement.PlaysIsSchedule | server/homestead_batch_capacity.py:60-98 | The recursive search's plays are exactly the declarative schedules. |
| Placement.ScheduleExactlyWhen | server/homestead_batch_capacity.py:60-98 | What a schedule is: each service as many moves as it has replicas left, each to a host that the planner calls eligible with the pods of all moves before it in place. |
| EllipticCurve.Closed | server/homestead_ecdsa.py:31-64 | The chord-and-tangent sum of points on the curve is on the curve. |
| EllipticCurve.Commutes | server/homestead_ecdsa.py:44-64 | The sum does not depend on the order of its operands. |
| Jacobian.DoubleStands | server/homestead_ecdsa.py:31-42 | Doubling a Jacobian triple gives one that stands for the affine double, y = 0 and infinity included. |
| Jacobian.AddStands | server/homestead_ecdsa.py:44-64 | Adding two triples gives one that stands for the affine sum: infinity, equal and opposite points included. |
| Multiples.AffineIs | server/homestead_ecdsa.py:66-71 | Leaving Jacobian coordinates gives the point's coordinates, and none for infinity. |
| Multiples.Multiply | server/homestead_ecdsa.py:74-82 | The double-and-add loop computes k times the point, for every k and point on the curve. |
| Multiples.ScalarPlus | server/homestead_ecdsa.py:74-82 | Multiples add up: (k + l) times a point is k times plus l times. |
| BaseOrder.BeforeN | server/homestead_ecdsa.py:18-23 | N - 1 times the base point is its mirror image, by a chain of tangents and chords. |
| BaseOrder.MirrorEnds | server/homestead_ecdsa.py:44-64 | One more than a multiple that is the mirror image of a point is infinity. |
| Ecdsa.P256Group | server/homestead_ecdsa.py:18-23 | Under primality and associativity alone, the constants make a group of prime order: N times the base point is infinity. |
| Ecdsa.ScalarNonZero | server/homestead_ecdsa.py:74-82 | A multiple of the base point vanishes only for factors that are 0 modulo N. |
| Ecdsa.SignedIsAccepted | server/homestead_ecdsa.py:127-151 | What section 4.1.3 of SEC 1 signs, section 4.1.4 accepts. |
| Ecdsa.Sign | server/homestead_ecdsa.py:127-137 | `sign` returns a signature in the sense of section 4.1.3 by one of the nonces, and passes over a nonce only when it gives none. |
| Ecdsa.Verify | server/homestead_ecdsa.py:140-151 | `verify` refuses values out of range and points off the curve, raises exactly when a factor's multiple has no coordinates, and else answers as section 4.1.4 does. |
| Ecdsa.SignThenVerify | server/homestead_ecdsa.py:127-151 | For every private key and digest, `verify` of what `sign` made says true, or raises exactly when the digest is 0 modulo N. |
| Ecdsa.OnCurveIs | server/homestead_ecdsa.py:85-87 | The check of a point is the curve's equation. |
| Compose.Order | server/homestead_compose.py:794-818 | Every service once; a circle is reported exactly when some rows go round, each naming the next in its `after`, and each report is such a walk; without one every service comes after all the services of the file that its row depends on; each row is told what it needs that the file lacks. |
| Compose.Walk.Visit | server/homestead_compose.py:803-815 | One visit keeps marks, trail, order and reports in step, lists the service or reports, and ends. |
| Compose.SortedIsAcyclic | server/homestead_compose.py:794-818 | An order with every service after its dependencies leaves no room for a cycle. |
| Compose.CycleIsRows | server/homestead_compose.py:796-797 | The dependencies kept have a cycle exactly when rows of the file do. |
| Imports.DeductNested | server/homestead_imports.py:398-418 | The rows after the loop are those deducted in turn, each from what the rows before it left. |
| Imports.RightExactlyWhen | server/homestead_imports.py:398-418 | Every row ends with the bytes its copy takes if and only if no folder with weighing mapped folders inside it is listed before its nearest mapped parent. |
| Imports.LeftOnRow | server/homestead_imports.py:398-418 | A row never ends below what its copy takes; it ends there exactly when no nearest inner folder lost bytes before its turn. |
| Imports.OuterFirstIsRight | server/homestead_imports.py:398-418 | With every folder listed before those inside it, every row is right. |
| Imports.InnerFirstIsWrong | server/homestead_imports.py:398-418 | A concrete list in the other order whose row is wrong. |
| Imports.GrossIsNetAndNested | server/homestead_imports.py:398-418 | Deducting only the nearest inner folders takes away exactly what the copy leaves out: nothing twice at any depth. |
| Imports.Excludes | server/homestead_imports.py:669-689 | The anchored patterns leave out a file exactly when it lies in a mapped folder inside this one or in a folder asked to be left out. |
| Imports.UsableExactlyWhen | server/homestead_imports.py:684-689 | A folder asked to be left out is ignored exactly when it is blank or some part between its slashes is "..". |
| Imports.PlainAndClimbing | server/homestead_imports.py:684-689 | Five concrete names. |
| Imports.CopyMovesNet | server/homestead_imports.py:805-837 | The bytes a copy moves under its patterns are the row's net bytes. |
| Imports.MovedOnce | server/homestead_imports.py:669-689 | A file under some mapped folder is moved by the copy of its deepest mapped folder and by no other. |
| ImportFolders.FolderName | server/homestead_imports.py:539-548 | The name itself or the first numbered one not in use. |
| ImportFolders.Places | server/homestead_imports.py:644-655 | Each mapping gets the place it asks for; or the first numbered name that no row before it has in its volume; or the root of a volume nothing else goes to: a function of the rows alone. |
| ImportFolders.LoneAtRoot | server/homestead_imports.py:644-655 | A row that asks for no folder in a volume no other row goes to lands at its root. |
| ImportFolders.NamedByFirstFree | server/homestead_imports.py:644-655 | In a volume others go to as well it lands in the first of name, name-2, name-3 and so on that no row before it has there. |
| ImportFolders.ApartExactlyWhen | server/homestead_imports.py:598-666 | All places are distinct if and only if no row asks for a folder that a row before it in the same volume asks for, or that was made up for it. |
| ImportFolders.AskedFirst | server/homestead_imports.py:644-655 | With the rows that ask first, and for different places, all are distinct. |
| ImportFolders.MadeUpThenAsked | server/homestead_imports.py:644-655 | Two mappings that land in one place. |
| Alerts.Engine.Observe | server/homestead_alerts.py:71-116 | One call moves every key by that key's own rule, whatever else it sees; numbers what it says on from the last entry and keeps the last 300. The rule itself is what the lemmas of `AlertRuns` say, by the sources' answers. |
| Alerts.Engine.Append | server/homestead_alerts.py:60-68 | The next number, and the log's last 300. |
| AlertRuns.NumberedFromOne | server/homestead_alerts.py:60-68 | Over any run the entries are numbered from one without a gap, and the log has the last 300 numbers. |
| AlertRuns.RaisedThenResolved | server/homestead_alerts.py:71-116 | Over any run a condition's entries alternate, raised first; the last is raised exactly while its row says it was told. |
| AlertRuns.RaisedAfterHold | server/homestead_alerts.py:87-104 | A condition is raised only when reported, and its row began with a report at least HOLD seconds before and was kept since. |
| AlertRuns.ResolvedAfterHold | server/homestead_alerts.py:105-113 | A condition is resolved only when its source answered and no call for at least HOLD seconds reported it. |
| AlertRuns.ToldInTime | server/homestead_alerts.py:87-104 | A condition reported HOLD seconds after its row began has been told. |
| AlertRuns.EventsToldOnce | server/homestead_alerts.py:85-113 | An event is told at first sight and once, unless the first source to report it never answered a call before; never resolved; forgotten as soon as it is gone and its source looked. |
| AlertRuns.FailedSourceSaysNothing | server/homestead_alerts.py:80-84 | While a source cannot look, nothing changes and nothing is said for a key that begins with its name and a colon and that no other source reports. |
| AlertRuns.UnreportedIsMissing | server/homestead_alerts.py:103-113 | A row nobody reports, and of no source that could not look, counts as missing: since then, forgotten after HOLD seconds or at once for an event, and resolved exactly if it is a condition that was told. |
| History.Store.Record | server/homestead_history.py:85-115 | The store after a call is the sample put in its five minutes, each finished hour not yet rolled up rolled up from its samples, and both tiers cut; what that says of each node is in `HistoryRuns`. |
| History.StoreIsFaithful | server/homestead_history.py:85-115 | After any calls with a clock that never goes back: the fine tier is exactly the samples of the last two days, the coarse tier exactly one row for each finished hour with samples of the last ninety, each rolled up from all distinct samples of that hour; both strictly sorted. |
| History.NoSampleLost | server/homestead_history.py:85-115 | No sample leaves the fine tier before its hour is over and counted, with `n` the number of distinct samples in it. |
| History.RolledUpOnce | server/homestead_history.py:93-101 | No two calls roll up the same hour. |
| HistoryRuns.FineSays | server/homestead_history.py:53-65 | After any run the fine tier has, for the last call of each five minutes of the last two days and for nothing else, a row with 1 for each node that call was told is Ready and 0 for each it was told is not. |
| HistoryRuns.HoursSay | server/homestead_history.py:68-82 | Each kept hour counts its five minutes with a call; for each node told of in them, its share times their number is the number of those in which the last call was told that it is Ready. |
| HistoryRuns.HoursAre | server/homestead_history.py:93-101 | The kept hours are exactly those over with a call in them, of the last ninety days. |
| Uptime.ReadyRowsApart | server/homestead_history.py:160-167 | After any run a node's rows follow one another without overlap, aligned, with shares between none and all. |
| Uptime.CoveredExactlyWhen | server/homestead_history.py:160-167 | After any run, a sample of the last ninety days lies in some row of its node unless it has left the fine tier while another sample of the node, of the same hour, has not; and then in none. |
| Uptime.CutHourIsLost | server/homestead_history.py:160-167 | A concrete run whose oldest sample lies in no row. |
| Uptime.Outages | server/homestead_history.py:176-195 | The outages are exactly the maximal stretches of down rows that touch, with their start, end, down time and exactness. |
| Uptime.OutagesAddUp | server/homestead_history.py:176-195 | Their down time adds up to that of the rows. |
| Uptime.OutagesApart | server/homestead_history.py:176-195 | They are disjoint and in order, and two that touch have a row between them that was up. |
| Uptime.ShareIsWhatIsNotDown | server/homestead_history.py:170-173 | A share is 100 less the part down, between 0 and 100, and 100 exactly when nothing in the window was down. |
| Uptime.InExactlyOneDay | server/homestead_history.py:198-216 | Every row of the ninety days is weighed in exactly one of them, and no other row in any. |
| Console.EncodeFrame | server/homestead_console.py:29-47 | The bytes of a frame, in each of the three length forms. |
| Console.FrameLayout | server/homestead_console.py:29-47 | Byte by byte and in numbers: the final bit and opcode; the mask bit and length, 126 and two bytes, or 127 and eight, the most significant first; the key; the payload, each byte under its key byte. |
| Console.Stream.ReadExact | server/homestead_console.py:50-57 | However the stream splits its bytes: exactly so many of them, or an end exactly when there are fewer. |
| Console.Stream.ReadFrame | server/homestead_console.py:60-76 | What is read and what is left are a function of the bytes ahead. |
| Console.FrameBack | server/homestead_console.py:29-76 | A frame within the limit and masked as wanted is read back as sent, to its last byte. |
| Console.FirstByteRead | server/homestead_console.py:60-76 | Whatever its first byte, the same frame is read with that byte's final bit and opcode. |
| Console.FramesBack | server/homestead_console.py:29-76 | Any concatenation of such frames is read back in order, and nothing but them is consumed. |
| Console.ReadFrames | server/homestead_console.py:215-220 | A reader's loop over any stream: however it splits its bytes, the reads are those of the bytes ahead, so frames come back as `FramesBack` says. |
| Console.FrameRefused | server/homestead_console.py:60-76 | A frame is refused for its masking exactly when that is not as wanted, and for its size exactly when its payload is over the limit. |
| Console.LimitIs | server/homestead_console.py:70-71 | The limit is the one asked for, and one mebibyte for none or 0. |
| Console.CutIsClosed | server/homestead_console.py:50-57 | A stream that ends anywhere inside a frame reads as closed. |
| Affinity.Workload.Apply | server/homestead_affinity.py:119-171 | Accepted exactly when the request is good; then terms and record are rewritten; a refused request changes neither. |
| Affinity.SlotIs | server/homestead_affinity.py:74-106 | After a request each slot holds exactly what it held and the record does not claim, and what the rules write there: required or preferred with weight 100, affinity for those to be with, anti-affinity for spreading and those to be apart from. |
| Affinity.RowIsWritten | server/homestead_affinity.py:139-163 | Each row of a good request has its term there: the named workload's own selector, its namespace or this one's, preferred where it says nothing. |
| Affinity.SpreadIsWritten | server/homestead_affinity.py:132-137 | Spreading keeps a workload from its own selector. |
| Affinity.SecondReplacesFirst | server/homestead_affinity.py:119-171 | In each slot, a second request leaves what it alone would have left, if and only if no hand-made term there equals one the first wrote; the workloads named may have changed or gone between the two. |
| Affinity.HandMadeKept | server/homestead_affinity.py:94-107 | Terms unlike any of Homestead's keep their content and order. |
| Affinity.EqualTermIsLost | server/homestead_affinity.py:94-103 | A concrete hand-made term that is lost. |
| Affinity.Workload.Gather | server/homestead_affinity.py:139-160 | The rows of a request are taken exactly when each is acceptable and none names what another does. |
| Affinity.GoodExactlyWhen | server/homestead_affinity.py:132-160 | A request is good exactly when spreading, if asked for, has a mode and the workload a selector; every named row asks for a mode or none, names another workload that is there with a selector; and no two named rows of either list name one. |
| Affinity.ReadableIs | server/homestead_affinity.py:42-55 | Of the record, rows without a name or with another mode are passed over. |
| Affinity.ReadBack | server/homestead_affinity.py:42-55 | The record reads back as it was written. |
| Subnets.CleanIsSound | server/homestead_ipam.py:123-144 | What is cleaned is a /22 to /30 on its own boundary that has the address asked for, its gateway and range inside. |
| Subnets.CleanExactlyWhen | server/homestead_ipam.py:123-144 | An ask is taken exactly when its prefix is from /22 to /30, its gateway and range lie in the block of that size around its address, and the range has both ends in order or none. |
| Subnets.CleanKeeps | server/homestead_ipam.py:123-144 | What is kept of it is that block, the gateway and the range. |
| Subnets.SoundIsClean | server/homestead_ipam.py:123-144 | Every such subnet can be asked for and is kept as it is. |
| Subnets.OverlapIsNesting | server/homestead_ipam.py:147-156 | Two subnets that overlap are nested. |
| Subnets.CleanAll | server/homestead_ipam.py:147-156 | A list is taken exactly when each is a subnet and no two overlap. |
| Subnets.Missing | server/homestead_ipam.py:278-288 | The /24s to add are those of nodes in no subnet that overlap none, each once. |
| Subnets.CoveredIs | server/homestead_ipam.py:289-294 | What covering adds overlaps neither what is there nor what else is added, and nothing that could be added is left out. |
| Subnets.NodesAreCovered | server/homestead_ipam.py:278-294 | A node is left outside every subnet only when some subnet overlaps its /24, or one had it when the missing were looked for. |
| Subnets.FreeListIs | server/homestead_ipam.py:378-391 | The free list is, in order, every address of the subnet that is not its own, its broadcast, the gateway, used, in the DHCP range or in a pool. |
| Subnets.PoolIsTaken | server/homestead_ipam.py:260-272 | No address a host could have in a pool that is a whole subnet is free, and such a pool takes no other. |
| Subnets.RangeIsTaken | server/homestead_ipam.py:260-272 | No address from the first to the last of a pool's range is free, and such a range takes no other. |
| Subnets.FreeOnce | server/homestead_ipam.py:378-391 | No address is free in two subnets of one record. |
| AddressRecord.Serialises | server/homestead_ipam.py:90-109 | In every run of concurrent writers each version is one writer's change to the version just before it. |
| AddressRecord.VersionSays | server/homestead_ipam.py:147-160 | In every run each version is what its change is to make of the one before: the subnets saved and no note touched; the /24s that end clear of all others added; one note set; the notes forgotten gone - and all else as it was. |
| AddressRecord.UndisturbedLands | server/homestead_ipam.py:90-109 | A write that nobody got ahead of since its read lands, and `update` returns. |
| AddressRecord.LandsOnce | server/homestead_ipam.py:90-109 | A change lands once when `update` returned, never while it tries or when it gave up, and never twice, late writes and lost replies included. |
| AddressRecord.FourAttempts | server/homestead_ipam.py:90-109 | Each refused write is one attempt, and a writer gives up with its fourth. |
| AddressRecord.RefusedMeansProgress | server/homestead_ipam.py:90-109 | A write is refused only when another one landed since the read. |
| AddressRecord.NothingOverwritten | server/homestead_ipam.py:90-109 | No version that landed is lost. |
| AddressRecord.AlwaysGood | server/homestead_ipam.py:147-160 | Through every mix of saving and covering, the kept subnets are sound and pairwise apart. |
| AddressRecord.OfferedOnce | server/homestead_ipam.py:378-394 | Of any version, no address is offered as free in two subnets. |
| AddressRecord.Kept.Update | server/homestead_ipam.py:90-109 | Among other writers: a return means its change, told by what stays and what goes, was made to the version just before it; giving up means as many other versions as attempts. |

## Left out

- MoveTheorems.NeverBoth: says nothing of a run in which the workload was put back, because `abandon` releases the source before it deletes the copy.
- MoveAbandon.AbandonRestores: supposes that nobody else puts back in the meantime, who could delete what its own listing hid; and that no tick in flight can undo it, because by `MoveAbandon.HoldsExactlyWhen` it does not hold with one.
- MoveTheorems.NeverLost: assumes that listing pods answers; the code counts a failed listing as no pod left.
- Imports.RightExactlyWhen: takes what `du` says as the exact sum of file sizes, without blocks, rounding or the folders' own entries.
- Imports.CopyMovesNet: folder names with wildcard characters, which rsync would read as patterns, are not modelled.
- Uptime.Outages: down time before truncation to seconds, and exact shares before rounding to three digits.
- Uptime.ShareIsWhatIsNotDown: before rounding.
- Alerts.Engine.Observe: the order of several resolved entries of one call is left open; titles, bodies and links are not modelled, nor is `note`, which writes an entry without a fact.
- Ecdsa.Verify: says nothing of a point with a negative coordinate, or one of P or more, that the check of the curve takes all the same.
- Multiples.Multiply: the same.
- ImportFolders.ApartExactlyWhen: distinct places of one volume may still be nested, as "a" and "a/b" are.
- Ecdsa.Sign: the nonces are a list instead of the endless generator; when all of them fail the model returns nothing.
- Affinity.SecondReplacesFirst: compares slots, an absent one being an empty one.
- Subnets.FreeListIs: which addresses are in use is a parameter.
- The move's cluster-wide leftovers: namespace, join secret, backup target, backing images and storage classes. `abandon` does not claim to undo them. Images, their restore and the choice of an address for services are answers the model leaves open.
- The tick's phase handlers as methods: each is one or more steps of the relation, one per remote call, so that crashes and other requests can come between; only `abandon` is also written out as a method.
- Leader.Replica.Decide: a lease without a readable renewal time counts as run out in the code; here every lease has one.
- Two moves of one workload at once, two engines ticking, and `retry` in the midst of `abandon`; anybody else changing the source workload. Each request of the source is one atomic change.
- `release` of the leader: its PUT, the stepping down and the end of the process are one step.
- The scheduler behind the placement search is a parameter that answers the same for the same multiset of pods; service names are distinct.
- SHA-256, HMAC and the RFC 6979 generator: a digest and the nonces are parameters. `new_private_key` and the encodings of keys and signatures are not part of this model.
- Compose: everything before the order - interpolation, ports, volumes, and the check of shared claims and ports (`_check_together`), which is a lookup per row.
- Imports: cleaning of names and sizes, checks of volumes and mounts, and the job's script other than its exclude patterns.
- History: averages and peaks of cpu, memory and traffic, boots and reboots, and the series for the dashboard.
- Console: the handshake, the target checks, reassembly of fragmented messages, and the translation of messages.
- Affinity: white space around names and the annotation's JSON text.
- The address record: text of addresses and records other than a note, scans, UniFi, and a record somebody deletes.
