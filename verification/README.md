# A verified model of rinfra's stateful core

This project models, in Dafny, the parts of rinfra whose behaviour spans several calls or whole
runs, and proves what the code is for. `dafny verify dfyconfig.toml` checks all of it. Each module
follows one source file or one protocol. Clock readings, fresh tokens, failures of other systems
and what library parsers answer are inputs, so every result holds for all of them.

Objects whose methods update their fields are classes, and each method is proved against a function
of the old state; runs of calls and interleavings are then reasoned about with those functions.
Where tasks interleave (cluster connections, workers, timer loops) each step of a task, from one point
at which it waits to the next, is a method on the task's object, proved equal to a step function; a
state machine is built from those functions, and the results hold for every sequence of its events.

## What is modelled

- **Query compiler** (`SqlValues`, `SqlText`, `SqlGrammar`, `Specification`, `ClauseText`,
  `SqlTable`, `Statements`, `StatementText`, `GenericRepository`). A specification tree becomes WHERE text with
  `$N` placeholders. The model works on characters: a lexer, a recursive-descent parser for the
  search conditions of ISO/IEC 9075:1992 (sections 8.2 to 8.5 and 8.12) and a three-valued evaluator
  read the generated text back. Statements end in LIMIT and OFFSET, as in PostgreSQL, and "refused"
  means refused by this dialect; SQLite is laxer and takes `IN ()` and a negative LIMIT. How a database compares two values is a parameter. The repository's
  statements are executed, as text, on a table.
- **Cluster** (`ClusterRegistry`, `ClusterTasks`, `ClusterProtocol`, `ClusterPings`). One main node, any number of connection
  handlers and of workers that register, sync their node list, lose connections and come back, and a
  FIFO channel in each direction. The registry's whole history is kept, and a node list carries the
  number of the registry state it was copied from.
- **Lock and timers** (`MemoryLock`, `TimerTasks`, `TimerEngine`, `TimerRuns`). The token lock with expiry and the ledger of all
  tokens it ever issued; any number of engines, task loops and outside clients on one lock.
- **Frames and the TypeScript client** (`Framing`, `RegistryClient`, `RegistryWaiters`). Length-prefixed frames, the Go
  reader and writer, and the inbox of messages and the callers waiting for them.
- **Rate limits and resilience** (`TokenBucket`, `FixedWindow`, `CircuitBreaker`, `Retry`).
- **State that must agree with something simpler** (`MessageBus`, `ConfigMerge`, `MultilevelCache`).

## Where the code does less than its names or documents say

Each of these is a lemma with the exact condition, a concrete run, or both.

- An IN list without values compiles to `f IN ()`, which is not SQL; the clause parses exactly when
  no list is empty (`ClauseParsesIff`).
- A connected worker can be listed as Offline for as long as its connection lasts: the ordinary
  startup registers on a throw-away connection, and the main node may finish with that one last
  (`StartupRace`). Every served node stays Online exactly as long as no handler finalises a node
  that another connection serves (`ServedOnlineRun`). The converse is sound: Online implies held.
- A worker's handle says Connected before its loop has connected at all (`ConnectedTooEarly`). It
  says so exactly as long as there has been no outage since the last acknowledgement
  (`ConnectedIffNoOutage`).
- `extend` does not look at the expiry and revives an expired entry nobody has replaced
  (`ExpiredLease`).
- An aborted timer loop gives back its permit but not its lock, so the task cannot run anywhere until
  the lock expires (`DroppedLoopBlocksTask`). Scheduling an id again leaves the old loop running where
  no cancel reaches it (`RescheduleOrphans`), and nothing else does (`ReachedIffNotDisplaced`). A
  handler that outlives its lock can run twice (`OutlivedLease`, `SecondRunsIffExpired`). A one-shot
  task that finds the lock taken never runs and reports Scheduled for ever (`OneShotReports`).
- Bytes buffered from an old connection survive a reconnect; what follows is decoded as it was sent
  exactly when nothing was left over (`CleanBuffer`).
- `waitVariant` answers from the inbox without removing the message, and nothing else removes it
  either: one late reply answers every later call for its variant (`LateReply`, `InboxOnlyGrows`).
- `retry_after_ms` rounds down; waiting that long suffices exactly when the wait is a whole number of
  milliseconds (`RetryAfterSuffices`, `RetryTooEarly`).
- README.md:23 of the repository calls the Redis limiter a sliding window; the code counts fixed
  windows, and a stretch of one window's length keeps to the limit exactly when it is a window
  (`SlidingIffAligned`); from everywhere else twice the limit is reached (`TwiceIsReached`). A call
  that Redis serves after the counter's expiry starts the count anew (`CountedIffInTime`,
  `LateCallRestarts`).
- A breaker with an open duration of 0 never rejects (`NoOpenTime`).
- A receiver that is dropped while it is sent to loses the message although others are subscribed
  (`PublishReachesOne`, `LostMessages`).
- Two environment variables that differ only in case make the result depend on their order
  (`CaseCollision`); in general the order matters exactly under the condition of
  `OrderIrrelevantIff`.
- A write that only the fast cache level took is seen and then disappears at an eviction
  (`HalfWriteVanishes`), exactly when its value differs from the last full write's
  (`NeverGoesBackIff`).

With retry and breaker together the closure is called in every attempt, before the breaker is asked;
what the breaker keeps from running is the future it returns.

## Model

| member | source | states |
|---|---|---|
| Specification.ClauseMeansSpec | rinfra-core/src/store/spec.rs:26-156 | lexing, parsing and evaluating the generated characters, `$i` bound to the i-th parameter from the offset on, gives the three-valued meaning of the tree on every row |
| Specification.ClauseParsesIff | rinfra-core/src/store/spec.rs:120-130 | the generated text is a search condition if and only if no IN list in the tree is empty |
| Specification.EmptyInListIsNotSql | rinfra-core/src/store/spec.rs:120-130 | `f IN ()` does not parse |
| Specification.ParseClause | rinfra-core/src/store/spec.rs:27-34 | the parentheses around both operands keep the tree's grouping whatever follows the clause |
| Specification.PlaceholdersOfClause | rinfra-core/src/store/spec.rs:27-34 | the placeholders are offset, offset + 1, ... one for each parameter, each once, left to right, and the columns are the tree's fields |
| Specification.ConnectivesMean | rinfra-core/src/store/spec.rs:26-58 | AND is true iff both sides are and false iff either is, OR the other way round, with Unknown for the rest |
| Specification.BetweenMeans | rinfra-core/src/store/spec.rs:140-156 | BETWEEN includes both ends, and is false as soon as the value is outside one of them |
| Specification.AnyEqualIsMembership | rinfra-core/src/store/spec.rs:105-130 | IN is true iff some listed value is equal, false iff every one is unequal |
| ClauseText.EqText | rinfra-core/src/store/spec.rs:75-79 | the characters of an equality |
| ClauseText.LikeText | rinfra-core/src/store/spec.rs:96-103 | the characters of a LIKE |
| ClauseText.InText | rinfra-core/src/store/spec.rs:120-130 | the characters of an IN list, placeholders joined by a comma and a space |
| ClauseText.BetweenText | rinfra-core/src/store/spec.rs:149-156 | the characters of a BETWEEN, low before high |
| ClauseText.CombineText | rinfra-core/src/store/spec.rs:26-58 | the characters of AND and OR, the right side numbered on from the left side's parameters |
| StatementText.SelectText | rinfra-plugins/src/store/generic_repo.rs:157-173 | the characters of a find: SELECT, WHERE, ORDER BY with each key's direction, LIMIT and OFFSET |
| StatementText.CountText | rinfra-plugins/src/store/generic_repo.rs:182 | the characters of a count |
| StatementText.DeleteText | rinfra-plugins/src/store/generic_repo.rs:198 | the characters of a deletion |
| StatementText.UpdateText | rinfra-plugins/src/store/generic_repo.rs:111-120 | the characters of an update: the SET list numbered from 1, the id's placeholder last, RETURNING |
| GenericRepository.Repository.CountBy | rinfra-plugins/src/store/generic_repo.rs:179-192 | the number of rows whose meaning is true; an error exactly when the database must refuse the text |
| GenericRepository.Repository.FindBy | rinfra-plugins/src/store/generic_repo.rs:150-177 | the sorted matching rows from the offset on, as many as the limit allows and there are, the i-th being the (offset + i)-th of the sort, in the order of the keys; an error exactly when the text is refused, also for a negative limit or offset |
| GenericRepository.Repository.DeleteBy | rinfra-plugins/src/store/generic_repo.rs:194-200 | removes exactly the matching rows, keeps the others in order, and answers how many went |
| GenericRepository.Repository.Assignments | rinfra-plugins/src/store/generic_repo.rs:109-114 | the i-th column is set to `$i` and the i-th value is that column's |
| GenericRepository.Repository.Update | rinfra-plugins/src/store/generic_repo.rs:105-130 | each parameter is written to its own column of the rows with the id and to nothing else; the answer is the first such row as written, or an error |
| GenericRepository.CountRuns | rinfra-plugins/src/store/generic_repo.rs:179-192 | executing the COUNT text counts the rows the specification means, or is refused |
| GenericRepository.SelectRuns | rinfra-plugins/src/store/generic_repo.rs:150-177 | executing the SELECT text with ORDER BY, LIMIT and OFFSET returns the rows the specification means, or is refused |
| GenericRepository.PagesShowAll | rinfra-plugins/src/store/generic_repo.rs:173 | pages of one size, asked for one after another, join to the sorted matching rows from the first on, each once; enough of them are all |
| GenericRepository.FoundRows | rinfra-plugins/src/store/generic_repo.rs:150-177 | which rows of the sorted list a window shows, and that no row stands after one it should come before |
| GenericRepository.DeleteRuns | rinfra-plugins/src/store/generic_repo.rs:194-200 | executing the DELETE text leaves exactly the rows the specification does not mean |
| GenericRepository.UpdateRuns | rinfra-plugins/src/store/generic_repo.rs:105-123 | executing the UPDATE text writes the rows with the id and returns them, or is refused (also when there is nothing to set) |
| GenericRepository.CountFindDeleteAgree | rinfra-plugins/src/store/generic_repo.rs:150-200 | count, unlimited find and affected rows of a deletion agree, and after the deletion the count is 0 |
| GenericRepository.MatchingSplits | rinfra-plugins/src/store/generic_repo.rs:194-200 | matching and other rows together are the table, none lost or repeated |
| GenericRepository.MatchingOfRest | rinfra-plugins/src/store/generic_repo.rs:194-200 | no row matches after a deletion, and deleting again changes nothing |
| GenericRepository.UnlimitedFind | rinfra-plugins/src/store/generic_repo.rs:157-175 | without a binding limit the rows found are the matching rows, each once |
| SqlTable.SortedInOrder | rinfra-plugins/src/store/generic_repo.rs:158-172 | ORDER BY sorts: no row of the result stands after one that comes after it by the keys |
| SqlTable.PagesJoin | rinfra-plugins/src/store/generic_repo.rs:173 | windows of one size at consecutive places join to the list |
| GenericRepository.WrittenCells | rinfra-plugins/src/store/generic_repo.rs:109-116 | each written column holds its own value and every other cell is unchanged |
| GenericRepository.RewrittenIsUpdated | rinfra-plugins/src/store/generic_repo.rs:109-123 | binding the values vector to the numbered SET clauses writes every column's own value |
| Statements.ParseWindowOf | rinfra-plugins/src/store/generic_repo.rs:173 | LIMIT and OFFSET parse exactly when neither number is negative |
| ClusterRegistry.ConnectedRegistry.Register | rinfra-plugins/src/cluster/registry.rs:21-37 | the entry is stored under its id as Online, whatever was there |
| ClusterRegistry.ConnectedRegistry.Unregister | rinfra-plugins/src/cluster/registry.rs:39-43 | only the entry with the id is removed |
| ClusterRegistry.ConnectedRegistry.SetStatus | rinfra-plugins/src/cluster/registry.rs:45-49 | only the status of an existing entry changes |
| ClusterRegistry.ConnectedRegistry.GetNode | rinfra-plugins/src/cluster/registry.rs:54-56 | finds an entry iff it is there, and the one with that id |
| ClusterRegistry.ConnectedRegistry.ListNodes | rinfra-plugins/src/cluster/registry.rs:58-60 | lists every entry exactly once and nothing else |
| ClusterTasks.HandlerTask.HandleRegister | rinfra-plugins/src/cluster/server.rs:190-238 | a registration is acknowledged and admitted iff the main node's token is empty or the worker's is that very token; a wrong one is told false and ends the connection, anything else gets no answer |
| ClusterTasks.HandlerTask.EnterRegistry | rinfra-plugins/src/cluster/server.rs:99-114 | the admitted node is registered and no pong is missed yet |
| ClusterTasks.HandlerTask.OnTick | rinfra-plugins/src/cluster/server.rs:124-133 | with three pongs missed, or when the ping cannot be sent, the handler leaves; else one ping more is unanswered |
| ClusterTasks.HandlerTask.OnFrame | rinfra-plugins/src/cluster/server.rs:135-163 | a pong clears the count, a ping is answered by a pong and nothing else, a request by a listing of exactly the registry's entries, a deregistration ends the loop |
| ClusterTasks.ServesIffPongsCome | rinfra-plugins/src/cluster/server.rs:114-163 | over any ticks and frames a handler goes on serving iff no deregistration comes and never four ticks without a pong between them |
| ClusterTasks.HandlerTask.OnBreak | rinfra-plugins/src/cluster/server.rs:120-171 | shutdown, read errors and the end of the stream leave the loop |
| ClusterTasks.HandlerTask.Finish | rinfra-plugins/src/cluster/server.rs:142-176 | a deregistered node is removed, any other is marked Offline |
| ClusterTasks.WorkerTask.OnConnect | rinfra-plugins/src/cluster/connection.rs:120-132 | the registration is the first message of a new connection; without one the probe stops and the loop sleeps |
| ClusterTasks.WorkerTask.OnAck | rinfra-plugins/src/cluster/connection.rs:134-146 | only a successful acknowledgement connects, and resets the backoff |
| ClusterTasks.WorkerTask.OnSleepOver | rinfra-plugins/src/cluster/connection.rs:125-129 | after a wait the backoff doubles up to 30 seconds, unless shutdown comes first |
| ClusterTasks.WorkerTask.OnMessage | rinfra-plugins/src/cluster/connection.rs:195-213 | a node list replaces the worker's, a ping is answered or the connection is lost |
| ClusterTasks.WorkerTask.OnLost | rinfra-plugins/src/cluster/connection.rs:149-154 | the loop connects anew and says so |
| ClusterTasks.WorkerTask.OnShutdown | rinfra-plugins/src/cluster/connection.rs:174-181 | a connected worker deregisters and stops, its handle unchanged |
| ClusterProtocol.RunKeepsInv | rinfra-plugins/src/cluster/connection.rs:115-216 | along every run the registry history only grows, no worker's node list goes back to an older state, and the invariant holds |
| ClusterProtocol.NodeListsArePastStates | rinfra-plugins/src/cluster/connection.rs:203-205 | every worker's node list is exactly a state the registry has been in |
| ClusterProtocol.ActingWorkerOk | rinfra-plugins/src/cluster/connection.rs:134-216 | a worker's step changes that worker only and keeps its list a past state, no newer than anything still under way to it |
| ClusterProtocol.HandlerEvolves | rinfra-plugins/src/cluster/server.rs:99-176 | a handler's step appends at most one registry state and one message, and a node list it sends is the current state |
| ClusterProtocol.ListedIffEntered | rinfra-plugins/src/cluster/server.rs:99-176 | over every run a node is listed iff some handler entered it and none has removed it since, and listed Online iff none has finalised it since in either way |
| ClusterProtocol.ListsAreFresh | rinfra-plugins/src/cluster/connection.rs:119-205 | a node list received on a connection is at least as new as the registry was when that connection was made |
| ClusterProtocol.OnlyAuthorisedEnter | rinfra-plugins/src/cluster/server.rs:215-231 | every id that was ever in the registry belongs to a worker with the main node's own token, unless that token is empty |
| ClusterProtocol.LinkFromStart | rinfra-plugins/src/cluster/connection.rs:98-156 | in every run a connected worker's handle says Connected, a waiting one's Reconnecting, and none ever says Disconnected |
| ClusterProtocol.ConnectedIffNoOutage | rinfra-plugins/src/cluster/connection.rs:98-156 | over every run the handle says Connected iff the reconnect loop has had no lost connection and no failed attempt since the worker was last told that it is registered |
| ClusterProtocol.ChannelsStayOk | rinfra-plugins/src/cluster/server.rs:157-160 | node lists on a channel stay copies of recorded states in the order of those states |
| ClusterProtocol.OnlineStaysHeld | rinfra-plugins/src/cluster/server.rs:99-176 | every step keeps: a node marked Online has a handler that registered it and has not finalised it |
| ClusterProtocol.NobodyHeldNobodyOnline | rinfra-plugins/src/cluster/server.rs:99-176 | in every reachable state, an id that no handler holds is not Online, however many connections it had |
| ClusterProtocol.RunBounded | rinfra-plugins/src/cluster/connection.rs:116-146 | after n waits in a row the next is min(3 * 2^n, 30) seconds, and missed pongs never pass 3 |
| ClusterProtocol.ServedOnlineStep | rinfra-plugins/src/cluster/server.rs:147-176 | a step keeps every served node Online iff it does not finalise a node that another connection serves |
| ClusterProtocol.ServedOnlineRun | rinfra-plugins/src/cluster/server.rs:147-176 | over any run, every served node stays Online throughout iff no such finalisation occurs |
| ClusterProtocol.StartupRace | rinfra-plugins/src/runtime/mod.rs:298-299 | for every node there is an ordinary startup after which the worker is connected and served but listed Offline |
| ClusterPings.GivenUpOnlyUnanswered | rinfra-plugins/src/cluster/server.rs:124-141 | over every run, a tick that gives up a connected worker finds three pings or pongs still under way on its connection, and any other tick sends one ping |
| ClusterPings.FrameIsHandled | rinfra-plugins/src/cluster/server.rs:135-163 | in every run a serving handler can handle the next frame: a request is answered by the registry's present entries, a ping by a pong, and nothing else by anything |
| ClusterPings.StopIsFinal | rinfra-plugins/src/cluster/connection.rs:125-127 | shutdown reaches a worker exactly while it waits or is connected; a connected one deregisters, and in every run from there it never does anything again |
| ClusterPings.BackoffFromStart | rinfra-plugins/src/cluster/connection.rs:115-146 | over every run a worker's next wait is min(3 * 2^n, 30) seconds, n counting its waits since it was last told that it is registered |
| ClusterPings.FailedStartStops | rinfra-plugins/src/cluster/connection.rs:91-96 | a worker whose first registration fails stops, and in every run from there it never does anything again |
| MemoryLock.InMemoryLock.TryAcquire | rinfra-plugins/src/lock/memory.rs:60-90 | succeeds iff the key is absent or expired, and then the entry has the fresh token and expires `ttl` seconds from now |
| MemoryLock.InMemoryLock.Acquire | rinfra-plugins/src/lock/memory.rs:92-119 | with other clients changing the lock between rounds: the first round that finds the key free before the deadline was seen to be over succeeds, an error comes only from a round that found it taken and the deadline reached |
| MemoryLock.InMemoryLock.Release | rinfra-plugins/src/lock/memory.rs:121-131 | true iff the handle's token is in the entry, which is then removed |
| MemoryLock.InMemoryLock.Extend | rinfra-plugins/src/lock/memory.rs:133-142 | true iff the handle's token is in the entry, expired or not, which then expires `ttl` seconds from now |
| MemoryLock.RunBalanced | rinfra-plugins/src/lock/memory.rs:60-143 | over every run each issued token is exactly one of present, released, superseded at or after its last expiry; once gone it keeps its fate |
| MemoryLock.GoneGetsFalse | rinfra-plugins/src/lock/memory.rs:121-142 | release and extend with a token that is gone stay false for ever |
| MemoryLock.ReleasedOnce | rinfra-plugins/src/lock/memory.rs:121-131 | a token is released true at most once, and exactly when that is its fate |
| MemoryLock.LeaseHonoured | rinfra-plugins/src/lock/memory.rs:60-131 | before its expiry nobody but its holder can end a lease: the entry is untouched and every acquisition of the key fails |
| MemoryLock.LeaseLasts | rinfra-plugins/src/lock/memory.rs:60-142 | over every run, after an acquisition or an extension answered true, and unless its token releases or extends again: every acquisition of the key fails until `ttl` times 10^9 nanoseconds are over, and the first one from then on succeeds |
| MemoryLock.ExpiredLease | rinfra-plugins/src/lock/memory.rs:133-142 | from the expiry on whoever asks first wins: another client supersedes the token, the holder's extend revives it |
| TimerTasks.SimpleTimerEngine.Schedule | rinfra-plugins/src/timer/simple.rs:66-107 | the new loop takes the id, whoever had it; nothing changes when there is no next fire |
| TimerTasks.SimpleTimerEngine.Cancel | rinfra-plugins/src/timer/simple.rs:109-120 | aborts exactly the loop known under the id and marks it Cancelled |
| TimerTasks.SimpleTimerEngine.Shutdown | rinfra-plugins/src/timer/simple.rs:141-148 | aborts every known loop and forgets all |
| TimerTasks.TaskLoop.OnHead | rinfra-plugins/src/timer/simple.rs:168-186 | sleeps until the next fire, or fails |
| TimerTasks.TaskLoop.OnWake | rinfra-plugins/src/timer/simple.rs:186 | a loop whose sleep is over asks for a permit |
| TimerTasks.TaskLoop.OnPermit | rinfra-plugins/src/timer/simple.rs:188-191 | one permit of the engine is taken |
| TimerTasks.TaskLoop.OnLock | rinfra-plugins/src/timer/simple.rs:193-229 | a Cluster task on a locking engine runs iff it gets the lock `timer:` and its id, with a lease of its ttl or 300 seconds; else the permit is back, a Cron or Interval loop goes round and a Delay or Once loop is over |
| TimerTasks.TaskLoop.OnLockError | rinfra-plugins/src/timer/simple.rs:210-217 | when the lock cannot be asked the handler runs without it |
| TimerTasks.TaskLoop.OnReturn | rinfra-plugins/src/timer/simple.rs:229-230 | one more call has returned |
| TimerTasks.TaskLoop.OnRelease | rinfra-plugins/src/timer/simple.rs:238-242 | the loop's own handle is released, if it has one |
| TimerTasks.TaskLoop.OnRecord | rinfra-plugins/src/timer/simple.rs:244-278 | counts the run and gives back the permit; a Cron or Interval loop goes round as Scheduled, a Delay or Once loop is over as Completed or Failed |
| TimerTasks.TaskLoop.OnDrop | rinfra-plugins/src/timer/simple.rs:109-147 | an aborted loop gives back its permit and nothing else |
| TimerEngine.ClusterTaskRunsOnce | rinfra-plugins/src/timer/simple.rs:188-242 | in every run of any number of engines, loops and outside clients, if the lock answers and runs end before their lock expires, no two handlers of one Cluster task run at once |
| TimerEngine.TwoLeases | rinfra-plugins/src/timer/simple.rs:194-221 | of two handlers of one task running under leases at least one has outlived its lease |
| TimerEngine.StepRespects | rinfra-plugins/src/timer/simple.rs:188-242 | no step of a loop touches an unexpired lock entry of another owner, and a new lease is what the lock records |
| TimerEngine.SecondRunsIffExpired | rinfra-plugins/src/timer/simple.rs:198-209 | beside a loop that holds a lease another gets past the lock iff the lease has run out and no third client that took the lock since still holds it |
| TimerEngine.OutlivedLease | rinfra-plugins/src/timer/simple.rs:193-242 | for every ttl there is a run in which a Cluster task runs twice at once |
| TimerEngine.DroppedLoopBlocksTask | rinfra-plugins/src/timer/simple.rs:109-242 | a loop aborted while it holds a lease, its handler running or returned, gives back its permit and keeps its lock: the entry stays until the expiry, and while it is there a loop can run the task iff the lease has run out |
| TimerEngine.AtMostCapacityRunning | rinfra-plugins/src/timer/simple.rs:188-191 | at every step permits and their holders add up to max_concurrent, so at most that many handlers run |
| TimerEngine.HandlerCalls | rinfra-plugins/src/timer/simple.rs:162-279 | a Delay or Once task calls its handler at most once; at the loop head run_count is the number of calls that returned |
| TimerEngine.OneShotReports | rinfra-plugins/src/timer/simple.rs:198-276 | a one-shot task that ended by itself reports Completed or Failed iff its handler ran, and Scheduled iff it never will |
| TimerRuns.OneShotReportsAnswer | rinfra-plugins/src/timer/simple.rs:250-276 | it reports Completed iff its handler answered Ok, Failed iff it answered with an error, Scheduled iff it was never called |
| TimerRuns.HandlerStartsSpaced | rinfra-plugins/src/timer/simple.rs:168-191 | over every run the handler of an Interval or Delay task of `secs` seconds is started no sooner than `secs` seconds after the scheduling, nor again within `secs` seconds |
| TimerRuns.OnceNotEarly | rinfra-plugins/src/timer/simple.rs:168-191 | over every run in which the wall clock agrees with the monotone one, the handler of a Once task is never started before its time |
| TimerRuns.OnlyOwnIdBlocks | rinfra-plugins/src/timer/simple.rs:193-212 | a loop is kept out only by an unexpired entry of an outside client or of a loop of a task with the same id |
| TimerRuns.RunIsLockRun | rinfra-plugins/src/timer/simple.rs:193-242 | a run of engines and outside clients does to the lock exactly what its operations on it do one after another |
| TimerRuns.ScheduledIff | rinfra-plugins/src/timer/simple.rs:67-107 | only an unreadable cron expression is not scheduled; any other task has a loop of its own that the engine knows |
| TimerRuns.LockKeyIsId | rinfra-plugins/src/timer/simple.rs:196 | tasks share a lock key iff they have the same id |
| TimerEngine.ReachedIffNotDisplaced | rinfra-plugins/src/timer/simple.rs:97-148 | from its scheduling on, over every run, a loop stays known to its engine or is aborted iff its id is never scheduled again there while it is known |
| TimerEngine.KnownIsCancelled | rinfra-plugins/src/timer/simple.rs:109-148 | a cancel of its id and a shutdown of its engine abort a loop that is known |
| TimerEngine.RescheduleOrphans | rinfra-plugins/src/timer/simple.rs:97-148 | once displaced a loop is never aborted by any later cancel or shutdown |
| Framing.DeframeStream | sdks/registry-typescript/src/index.ts:155-193 | decoding the frames of any payloads gives exactly the payloads in order and then what follows |
| Framing.DeframeAppend | sdks/registry-typescript/src/index.ts:173-180 | decoding a stream in two parts gives the same frames and the same suffix |
| Framing.ReadWordOfBigEndian | sdks/registry-typescript/src/index.ts:158-176 | the header reads back as the length modulo 2^32 |
| Framing.HeaderBytes | sdks/registry-typescript/src/index.ts:158-160 | the header's most significant byte comes first |
| Framing.CleanBuffer | sdks/registry-typescript/src/index.ts:42-175 | whatever is sent next is decoded as sent iff the buffer holds no leftover |
| Framing.LeftoverBreaks | sdks/registry-typescript/src/index.ts:173-180 | for every leftover there is a message of at most one byte that is not delivered as sent |
| Framing.Connection.WriteFrame | sdks/registry-go/registrysdk/client.go:433-443 | the filled buffer is the header and the payload; a connection that takes less than all of it is an error, and has what it took |
| Framing.Connection.ReadFull | sdks/registry-go/registrysdk/client.go:446-457 | fills the whole buffer from the stream or fails |
| Framing.Connection.ReadFrame | sdks/registry-go/registrysdk/client.go:445-459 | takes one frame off the stream, refusing sizes over 64 KiB after the header |
| Framing.ReadOfFrame | sdks/registry-go/registrysdk/client.go:433-459 | reading undoes writing and leaves the rest untouched iff the payload is at most 64 KiB; above, it is refused with the payload unread |
| Framing.ReadAgreesWithDeframe | sdks/registry-go/registrysdk/client.go:445-459 | the Go reader and the TypeScript decoder agree frame by frame up to 64 KiB |
| RegistryClient.Client.Send | sdks/registry-typescript/src/index.ts:155-162 | writes one frame when connected and nothing otherwise |
| RegistryClient.PongText | sdks/registry-typescript/src/index.ts:181-184 | the answer to a ping is the JSON text of the string Pong |
| RegistryClient.Client.HandlePayload | sdks/registry-typescript/src/index.ts:180-191 | a Ping is answered, a Pong skipped, an object queued and offered, an unparsable payload thrown |
| RegistryClient.Client.HandleData | sdks/registry-typescript/src/index.ts:173-193 | the loop terminates and equals handling the buffered frames one by one |
| RegistryClient.HandleAllDeframes | sdks/registry-typescript/src/index.ts:173-193 | exactly the stream's frames are delivered up to the first that does not parse; later frames and the incomplete suffix stay buffered |
| RegistryClient.HandleAllReplies | sdks/registry-typescript/src/index.ts:181-184 | one Pong frame for each Ping handled, in order, and nothing else |
| RegistryClient.ChunksDeliver | sdks/registry-typescript/src/index.ts:173-193 | for every cutting into chunks and every pattern of unparsable frames, what was delivered and what is buffered make up the stream's frames |
| RegistryClient.StreamDelivered | sdks/registry-typescript/src/index.ts:155-193 | every payload list arrives as sent, in order, however the bytes are cut, and only an incomplete suffix stays |
| RegistryClient.Client.DrainWaiters | sdks/registry-typescript/src/index.ts:195-212 | the nested loops hand each message to the first waiter that wants it, and afterwards no message left is wanted |
| RegistryClient.Client.Offer | sdks/registry-typescript/src/index.ts:200-208 | the first waiter that wants the message is resolved and removed |
| RegistryClient.DrainConserves | sdks/registry-typescript/src/index.ts:195-212 | each message is kept or answers one waiter, each waiter stays or is answered once, and as many messages go as waiters |
| RegistryClient.DrainKeepsOrder | sdks/registry-typescript/src/index.ts:195-212 | the rest of both queues keeps its order |
| RegistryClient.DrainLeavesNoMatch | sdks/registry-typescript/src/index.ts:195-212 | after a drain no kept message matches a remaining waiter |
| RegistryClient.DrainNewest | sdks/registry-typescript/src/index.ts:188-191 | only the newest message can be handed over by a drain between events |
| RegistryClient.Client.WaitVariant | sdks/registry-typescript/src/index.ts:214-231 | answers the first inbox message with the variant and leaves it there, or registers a waiter |
| RegistryClient.Client.Expire | sdks/registry-typescript/src/index.ts:221-224 | only the waiter that timed out is removed |
| RegistryWaiters.WaiterIsKept | sdks/registry-typescript/src/index.ts:191-240 | over every run a waiting caller goes on waiting until it is given a message it asked for, unless its own timeout comes first |
| RegistryWaiters.CallWaits | sdks/registry-typescript/src/index.ts:214-240 | a call the inbox does not answer waits last of all, under a number of its own |
| RegistryWaiters.TimeoutIsFinal | sdks/registry-typescript/src/index.ts:214-240 | over every run after its timeout a caller is never answered and nobody waits under its number |
| RegistryClient.InboxOnlyGrows | sdks/registry-typescript/src/index.ts:173-231 | over every run of arrivals, waits and timeouts no inbox message matches a waiter between events, and the inbox is never shortened |
| RegistryClient.StaleAnswer | sdks/registry-typescript/src/index.ts:214-219 | once a variant is answered from the inbox every later call gets the same answer |
| RegistryClient.LateReply | sdks/registry-typescript/src/index.ts:214-231 | a reply after its caller's timeout answers every later call for its variant |
| TokenBucket.Bucket.TryConsume | rinfra-plugins/src/ratelimit/mod.rs:33-54 | refills up to the burst and takes one whole token if there is one |
| TokenBucket.MemoryRateLimiter.Check | rinfra-plugins/src/ratelimit/mod.rs:75-81 | a new key starts full, and only the key's own bucket changes |
| TokenBucket.MemoryRateLimiter.Reset | rinfra-plugins/src/ratelimit/mod.rs:83-87 | forgets the key and no other |
| TokenBucket.WindowBound | rinfra-plugins/src/ratelimit/mod.rs:33-54 | from any check to any later one at most burst + rate * time requests are allowed |
| TokenBucket.TokensAccounted | rinfra-plugins/src/ratelimit/mod.rs:36-44 | tokens spent and left never exceed the first level and the refill since |
| TokenBucket.AllowedIsVerdict | rinfra-plugins/src/ratelimit/mod.rs:35-60 | the checks counted are those whose verdict allows them; a refused one takes no token and is told when to retry |
| TokenBucket.RemainingIsExact | rinfra-plugins/src/ratelimit/mod.rs:39-45 | after an allowed check exactly `remaining` more are allowed at the same moment |
| TokenBucket.DeniedInserted | rinfra-plugins/src/ratelimit/mod.rs:33-54 | a denied check anywhere in a run changes no later state and no later answer |
| TokenBucket.AllowedAfterWait | rinfra-plugins/src/ratelimit/mod.rs:39-53 | after a denial and any further denials a check is allowed iff the burst and the rate are at least 1 and (1 - tokens) / rate has gone by since the first |
| TokenBucket.RetryAfterSuffices | rinfra-plugins/src/ratelimit/mod.rs:47-51 | the reported delay suffices iff it was not rounded; one millisecond more always does |
| TokenBucket.RetryTooEarly | rinfra-plugins/src/ratelimit/mod.rs:47-51 | at three tokens a second the reported 333 ms are too short |
| TokenBucket.KeysIndependent | rinfra-plugins/src/ratelimit/mod.rs:75-87 | without resets of a key its bucket goes through its own checks only, a new key from a full bucket at its first check |
| TokenBucket.LimiterBound | rinfra-plugins/src/ratelimit/mod.rs:33-87 | in every run of a fresh limiter, after any resets, a stretch without a reset of a key allows it at most burst + rate * time |
| FixedWindow.RedisRateLimiter.Check | rinfra-plugins/src/ratelimit/redis_limiter.rs:71-107 | counts the call in its window's counter and allows the first requests_per_second times max(1, window) of them, says how many are left, and tells a refused caller to wait one window; errors leave the counters alone |
| FixedWindow.RedisRateLimiter.Reset | rinfra-plugins/src/ratelimit/redis_limiter.rs:109-121 | deletes the current window's counter of the key only |
| FixedWindow.CountedIffInTime | rinfra-plugins/src/ratelimit/redis_limiter.rs:80-91 | over every run every call of a window is counted by its rank iff each later one is served before the expiry that the first gave the counter, and always if its EXPIRE failed |
| FixedWindow.WindowAdmits | rinfra-plugins/src/ratelimit/redis_limiter.rs:80-106 | a window whose calls are served in time admits exactly its first `limit` calls, whatever other keys and windows do |
| FixedWindow.RemainingIsExact | rinfra-plugins/src/ratelimit/redis_limiter.rs:97-106 | `remaining` is exact: of the later calls of the window, counted by rank, that many are admitted or as many as are made |
| FixedWindow.RetryInNextWindow | rinfra-plugins/src/ratelimit/redis_limiter.rs:97-106 | a refused call asked again after the reported delay is in the next window |
| FixedWindow.PromptIsInTime | rinfra-plugins/src/ratelimit/redis_limiter.rs:88-91 | the expiry of W + 1 seconds is long enough for every call served within a second |
| FixedWindow.SlidingBound | rinfra-plugins/src/ratelimit/redis_limiter.rs:59-106 | any stretch of W seconds admits at most twice the limit |
| FixedWindow.SlidingIffAligned | rinfra-plugins/src/ratelimit/redis_limiter.rs:59-106 | no run admits more than the limit in the stretch from a given start iff the stretch is itself a window or the limit is 0 |
| FixedWindow.TwiceIsReached | rinfra-plugins/src/ratelimit/redis_limiter.rs:59-66 | for every configuration and every start inside a window some run admits exactly twice the limit in one window's length |
| FixedWindow.LateCallRestarts | rinfra-plugins/src/ratelimit/redis_limiter.rs:80-91 | after the limit in calls one more of the window is admitted iff it is served W + 1 seconds or more after the first |
| CircuitBreaker.CircuitBreaker.AllowRequest | rinfra-core/src/resilience/circuit_breaker.rs:86-94 | turns half open when due, and allows unless open |
| CircuitBreaker.CircuitBreaker.RecordSuccess | rinfra-core/src/resilience/circuit_breaker.rs:97-114 | a success ends the failure run when closed, counts towards closing when half open and is ignored when open |
| CircuitBreaker.CircuitBreaker.RecordFailure | rinfra-core/src/resilience/circuit_breaker.rs:117-134 | a failure counts towards opening when closed, opens when half open, and its time is kept even when open |
| CircuitBreaker.CircuitBreaker.Reset | rinfra-core/src/resilience/circuit_breaker.rs:137-143 | from any state back to that of a new breaker |
| CircuitBreaker.ClosedIffStretchesShort | rinfra-core/src/resilience/circuit_breaker.rs:97-134 | from just closed, over any calls: closed throughout iff no max(1, failure_threshold) failures come without a success or a reset between them |
| CircuitBreaker.HalfOpenIffOutcomes | rinfra-core/src/resilience/circuit_breaker.rs:97-134 | from just half open: closes iff the first max(1, success_threshold) outcomes are successes, opens iff one of them is a failure |
| CircuitBreaker.OpenIffQueriesTooEarly | rinfra-core/src/resilience/circuit_breaker.rs:79-154 | from open, over any calls: open throughout iff nothing is reset and every query comes before open_duration_secs after the latest failure |
| CircuitBreaker.FieldsAreHistory | rinfra-core/src/resilience/circuit_breaker.rs:79-154 | after every history the counters are the failures and the successes since the status it was last in was entered, and the time is the latest failure of all |
| CircuitBreaker.StatusIsHistory | rinfra-core/src/resilience/circuit_breaker.rs:79-154 | after every history which one next call changes the status, by those counts |
| CircuitBreaker.WholeSeconds | rinfra-core/src/resilience/circuit_breaker.rs:145-152 | rounding the elapsed time to whole seconds does not delay the transition |
| CircuitBreaker.OpenEnds | rinfra-core/src/resilience/circuit_breaker.rs:145-152 | open is never permanent |
| CircuitBreaker.CountersBounded | rinfra-core/src/resilience/circuit_breaker.rs:97-134 | no counter passes max(1, threshold), so 32 bits hold them |
| CircuitBreaker.NoOpenTime | rinfra-core/src/resilience/circuit_breaker.rs:145-152 | with an open duration of 0 no query finds the breaker open |
| Retry.DelayIsCappedPower | rinfra-core/src/resilience/retry.rs:55-64 | the checked shift and the saturating product come to min(base * 2^attempt, max) for every attempt |
| Retry.WithRetry | rinfra-plugins/src/resilience/mod.rs:49-83 | at most max_attempts calls; the first success or the last error; an internal error only for no attempts; slept for the delays between the calls |
| Retry.RetryOfCalls | rinfra-plugins/src/resilience/mod.rs:57-82 | said of the calls themselves: all but the last failed, the answer is the last call's, and it is an error only when all attempts are used up |
| Retry.SleptIsSum | rinfra-core/src/resilience/retry.rs:55-64 | the sleep after k attempts is the sum over i < k - 1 of min(base * 2^i, max) |
| Retry.FixedSleep | rinfra-core/src/resilience/retry.rs:55-64 | with a fixed delay the sleep is that delay times the number of pauses |
| Retry.WithCircuitBreaker | rinfra-plugins/src/resilience/mod.rs:10-43 | the operation runs iff the breaker lets it, its answer is the operation's or that the breaker is open, and the breaker is left as `AttemptIsHeard` says |
| Retry.AttemptIsHeard | rinfra-plugins/src/resilience/mod.rs:10-43 | after any history of the breaker, an attempt adds one query, and if that lets it through one success, or one failure between two queries |
| Retry.BreakerHearsRuns | rinfra-plugins/src/resilience/mod.rs:10-43 | the attempts of a retry leave the breaker as its history and their calls do, and of outcomes these calls report exactly those of the futures that were run, in order |
| Retry.FailingAttemptsTrip | rinfra-plugins/src/resilience/mod.rs:10-43 | on a new breaker max(1, failure_threshold) failing attempts are all run and open it; the next is let through iff open_duration_secs have passed since the last failure |
| Retry.WithRetryAndBreaker | rinfra-plugins/src/resilience/mod.rs:87-101 | the closure is called once in every attempt; the loop's answer, the breaker's state and the attempts whose future was run are those of the guarded attempts played one by one |
| Retry.AttemptAnswers | rinfra-plugins/src/resilience/mod.rs:96-99 | an attempt runs its future iff the breaker allowed it, and answers its result or else that the breaker is open |
| Retry.StartedBelow | rinfra-plugins/src/resilience/mod.rs:96-99 | at most one future is run in each attempt, in order |
| MessageBus.InMemoryBus.Subscribe | rinfra-plugins/src/mq/memory.rs:77-83 | a new empty channel is added last to the topic's senders |
| MessageBus.InMemoryBus.DoPublish | rinfra-plugins/src/mq/memory.rs:27-53 | prunes closed senders, sends to the one whose turn it is and passes the turn on |
| MessageBus.InMemoryBus.Publish | rinfra-plugins/src/mq/memory.rs:58-65 | keeps logs in publishing order, messages in one place and channels in one topic |
| MessageBus.PublishReachesOne | rinfra-plugins/src/mq/memory.rs:32-52 | a call goes to exactly one open subscriber iff there is one and the chosen one stays; it fails iff the chosen one vanishes; otherwise no channel gets anything and the turn stays; afterwards the topic lists just the subscribers that were open |
| MessageBus.LostMessages | rinfra-plugins/src/mq/memory.rs:27-53 | over every run a message is in no channel iff at its call nobody open was subscribed or the receiver chosen for it vanished |
| MessageBus.DeliveredAsAnswered | rinfra-plugins/src/mq/memory.rs:27-83 | over every run the n-th message is in a channel iff its call answered that it went there |
| MessageBus.RunSound | rinfra-plugins/src/mq/memory.rs:27-83 | over every run each channel holds a subsequence of the publishing order and no message is in two channels |
| MessageBus.RoundRobinIsFair | rinfra-plugins/src/mq/memory.rs:33-48 | over any run that leaves the open subscribers of a topic alone, n publishes on it give each of the k subscribers n / k rounded down or up |
| MessageBus.ServedInTurn | rinfra-plugins/src/mq/memory.rs:33-48 | in such a run the n-th publish goes to the n-th subscriber after the one whose turn it was, round and round, on a new topic beginning with the first |
| MessageBus.ClosedGetsNothing | rinfra-plugins/src/mq/memory.rs:33 | over every run a receiver that was dropped gets nothing more |
| MessageBus.NewcomerIsLast | rinfra-plugins/src/mq/memory.rs:77-83 | a new subscriber comes after all the open ones of its topic and has received nothing |
| ConfigMerge.SetThenGet | rinfra-plugins/src/config/mod.rs:101-119 | the path holds the new value iff no non-object is in its way; otherwise nothing changes |
| ConfigMerge.OthersUnchanged | rinfra-plugins/src/config/mod.rs:101-119 | a path of which neither begins with the other is unchanged |
| ConfigMerge.OverridesCommute | rinfra-plugins/src/config/mod.rs:101-119 | two overrides commute iff their paths differ, their values agree or the path is blocked |
| ConfigMerge.OrderIrrelevantIff | rinfra-plugins/src/config/mod.rs:83-119 | any overrides give one tree in every order iff two values for one path occur only where it is blocked or a proper beginning of it is overridden as well |
| ConfigMerge.OrderIrrelevant | rinfra-plugins/src/config/mod.rs:83-119 | overrides with different paths, comparable or not, give one tree in every order |
| ConfigMerge.MergeEnvIntoValue | rinfra-plugins/src/config/mod.rs:83-97 | merges the override of every prefixed variable with a name and counts them |
| ConfigMerge.EnvironmentOrderIrrelevant | rinfra-plugins/src/config/mod.rs:83-97 | the order of the environment does not matter iff the overrides its variables stand for meet that condition |
| ConfigMerge.JoinOfSplit | rinfra-plugins/src/config/mod.rs:90 | splitting at double underscores loses nothing |
| ConfigMerge.PiecesNotSeparated | rinfra-plugins/src/config/mod.rs:90 | no piece holds a double underscore |
| ConfigMerge.SplitOfJoin | rinfra-plugins/src/config/mod.rs:90 | splitting undoes joining: the pieces of a name are the only ones cut from the left |
| ConfigMerge.VariableNamesPath | rinfra-plugins/src/config/mod.rs:81-95 | `RINFRA_` and pieces with double underscores between them name the path of the pieces in lower case, in order |
| ConfigMerge.OverrideIff | rinfra-plugins/src/config/mod.rs:86-89 | a variable is an override iff something follows the prefix |
| ConfigMerge.LastVariableHolds | rinfra-plugins/src/config/mod.rs:81-95 | the path of the last variable holds its value afterwards unless something blocks the path |
| ConfigMerge.CaseCollision | rinfra-plugins/src/config/mod.rs:90-91 | names that differ in case collide, and then the order decides |
| MultilevelCache.MultilevelCache.Get | rinfra-plugins/src/cache/multilevel.rs:25-35 | first level, then second with a backfill whose failure is not reported |
| MultilevelCache.BackfilledIff | rinfra-plugins/src/cache/multilevel.rs:22-36 | after a get has answered a value the first level alone answers it iff it had it or was backfilled; nothing else changes |
| MultilevelCache.MultilevelCache.Set | rinfra-plugins/src/cache/multilevel.rs:37-41 | both levels in turn, stopping at the first failure |
| MultilevelCache.MultilevelCache.Delete | rinfra-plugins/src/cache/multilevel.rs:54-58 | both levels in turn, stopping at the first failure |
| MultilevelCache.SharedLevelIsLastFull | rinfra-plugins/src/cache/multilevel.rs:37-58 | after every history the second level holds exactly what the last full write left |
| MultilevelCache.FastLevelNotOlder | rinfra-plugins/src/cache/multilevel.rs:25-58 | what the first level holds was written by the last full write or a later one |
| MultilevelCache.GetNotOlder | rinfra-plugins/src/cache/multilevel.rs:25-58 | a successful get never answers a state older than the last full write, with any evictions and failures |
| MultilevelCache.AnswerIsSeen | rinfra-plugins/src/cache/multilevel.rs:25-58 | after every history the answer is the value of a half write still in the first level, or else what the last full write left |
| MultilevelCache.SurvivesEviction | rinfra-plugins/src/cache/multilevel.rs:25-41 | an eviction leaves the answer as it was iff the first level held what the last full write left |
| MultilevelCache.NeverGoesBackIff | rinfra-plugins/src/cache/multilevel.rs:25-58 | whatever gets, evictions and failures follow, every successful get answers the same iff no half write of a different value is still in the first level |
| MultilevelCache.SteadyIff | rinfra-plugins/src/cache/multilevel.rs:25-58 | along every history an answer changes only by a write that reached a level iff no eviction meets such a half write |

## Left out

- SQL comparison itself: equality, order and LIKE of two values, with collation, type coercion and NULL, are parameters of every result; ORDER BY sorts by an order that is a parameter too; which of two tied rows comes first is not promised.
- Entity mapping: `create`, `find_by_id`, `find_all`, `count`, `delete` and `exists` of the repository, and row conversion, which add only simpler statements; column and table names must be SQL names, and i64 results are unbounded integers.
- Sockets, TLS, JSON, YAML, tracing and metrics: messages are values, and what a payload or a number parses to is an input.
- The loops around the steps of connections, workers and timers: other tasks run between any two steps, so the order of steps is the state machine's, in which a task's next step follows from where it stands.
- ClusterProtocol: a node list is copied and queued in one step, since nothing can tell the two apart; the order of a listing is not fixed; server shutdown is any handler breaking off.
- Lock `acquire`: when a waiter wakes up and for how long it waits; the lock it finds and the clock it reads in each round are inputs.
- TimerEngine: cron parsing is a library's answer; abort takes effect at any step after it was asked for; the `next_run` and `last_run` times are not kept; a lock that cannot be asked is an event of its own, excluded only where a lemma says so.
- Widths of clocks and tokens: instants, durations and lock expiries are unbounded, and no overflow of u64 times is modelled; u64 saturation is modelled where a value is converted or multiplied.
- TokenBucket: tokens are real numbers, so f64 rounding is not modelled.
- FixedWindow: Redis is a map of counters with expiry on the callers' clock; INCR and EXPIRE of one call are one step.
- MessageBus: channels are unbounded; in the original a send waits for room, which delays its call and, since it holds the bus meanwhile, every other.
- ConfigMerge.SetThenGet: the tree is a value, so update in place is not captured; lower-casing and reading of values are parameters.
- MultilevelCache: `set_with_ttl`, concurrent calls and evictions of the second level; `exists`, which only asks both levels.
- TypeScript reconnect timing, ping timers and registration messages; the Go client's goroutines.
- Cancellation of a retry while it sleeps.
