# Verified model of libvirt-rest-api

A Dafny 4.11 model of the two concurrent protocols of the server, of the operations that run
under them, and of the pure decisions they rest on.
`dafny verify dfyconfig.toml` checks the whole project.

## What is modelled

**Lifecycle events.** `Brokers` says what `publish`, `subscribe`, `cancel` and `close` do to the
broker and to the channels it has handed out; `EventBroker` has the same operations as methods
that update fields and channels in place, each proved equal to its function in `Brokers`.
`BrokerRuns` takes any sequence of these operations by any number of subscribers and compares the
256-entry window and the bounded channels with a log that forgets nothing; `Publications` says what
that log holds and what cancelling and closing do without using those functions. `EventStream` has the
frames the HTTP handler writes and the client's parsing rules (WHATWG HTML Living Standard,
section 9.2.6); `EventHandler` is the handler's loop. `Delivery` puts them together: one client
that is cut off after any byte and reconnects any number of times, against brokers that publish,
evict, close and restart with new generations; `DeliveredContent` compares its messages with what was
published, and `ServedRuns` shows its connections to be the loop's.

**Action locks.** `LockTable` is the reference-counted lock table as a state machine over
unboundedly many threads, with every atomic section a step of its own; `ActionLocks` has the same
steps as methods on the map and the semaphores. `Actions` splits each VM operation into its single
libvirt calls; `DomainActions` has the operations written straight through, proved to be those
calls in a row. `ActionRuns` interleaves any number of requests on any number of VMs, each under
its lock, with contexts that end and outside changes of the VMs; `ActionProgress`, `Serialization`,
`Conservation` and `ActionReports` hold the global results. `Aliases` puts the lookups before them: every request
names its VM by an identifier, on a host whose domains come, go and change names meanwhile.

**Pure decisions.** `Cursors` (cursor printing and parsing), `Identity` (UUID recognition and
lookup), `Errors` (error chains and status codes), `SnapshotOrder` and `Configuration` (origin
lists, tokens and scopes).

Modelling choices:

- Strings are sequences of characters that stand for bytes (in `Configuration`, for code points).
  The event stream is parsed before UTF-8 decoding; line ends, colons and field names are ASCII, and
  UTF-8 never uses those bytes inside a longer character.
- `json` (how an event is marshalled) is any function whose results hold no raw line break. `url.Parse`
  is any test on origins. Generations are words over `0-9a-z-`, distinct between restarts.
- A mutex section or a channel operation is one atomic step. Where Go picks one of several ready
  cases or iterates a map, the model allows every choice.
- Sending on or closing a closed channel panics in Go; in `EventBroker` both have the precondition
  that the channel is open, so the proofs show that neither happens.
- A restart is a move of its own that needs the client's connection to have been cut, which may happen at
  any byte right before it.
- The hypervisor is abstract: a VM has an activity flag, a state and the names of its snapshots; each
  operation names the VMs it is possible for and its effect (a reset keeps the state, a snapshot name
  can be taken once); what is impossible is refused with any code, and every call may also fail with
  any code and no effect. A call that fails and still changes the VM is that failure together with an
  outside change. What a revert restores and what a deletion takes along are parameters of the request.
- A domain is told by its UUID, which it keeps; UUIDs are printed in lower case. A lookup that fails
  of itself fails otherwise than with "no such domain".

## Findings

1. **A client that follows the standard to the letter can lose its place.** The standard starts the
   last event ID buffer of every connection empty, and a blank line copies that buffer to the last event
   ID. The handler opens with `: connected` and a blank line (`internal/api/server.go:206`), so a
   connection that ends after these 13 bytes and before its first whole item erases the client's ID
   (`Forgetting.ForgetsExactly`); its next request carries no cursor. What that costs is exact on every
   run: `Delivery.NoGapEndToEnd` says that the log the client sees is free of silent gaps and repeats
   if and only if no item reached it on a connection it began astray, and `Forgetting.ForgottenPlace`
   says what astray is: no cursor although it has items, at most 256 events published, and its last
   item not the reset at position 0 of this generation. A client whose buffer starts from its own last
   event ID never is (`Delivery.NoGapForCarryingClients`). `Forgetting.EventRepeats` is a run on which
   event 1 arrives twice.
2. **The snapshot comparator is not an order on mixed lists.** With distinct names it is a strict total
   order if and only if no snapshot without a creation time has a name between those of two others
   that time and name order differently (`SnapshotOrder.OrderExactly`), and the listing depends on the
   order libvirt gives if and only if it is not (`ListingIsCanonical`); `MixedListCycles` shows three
   that go in a circle and two listings of them.
3. **A failed snapshot creation may have created the snapshot.** Its description is read after the
   creation and may fail by itself (`internal/hypervisor/snapshots.go:112-117`). `Actions.FailureHidesChange`
   gives the exact condition on the request and the VM: a creation, in time, whose call does not fail, of a
   name that is free, and whose description cannot be read; `ActionRuns.FailedButDone` says the same on
   every run, of the VM as the creating call found it. The caller is told 503. `SnapshotLeftBehind` is a
   run that ends so; asking again can then only fail.
4. **Resetting a paused VM reports "running".** `internal/hypervisor/libvirt.go:724-726` passes a fixed
   state, and a reset is taken to leave a paused VM paused. `Serialization.SuccessReportsState`: without
   outside changes, the state a successful power operation reports is the VM's, except exactly for a Reset
   of a VM that was not running. `ResetReportsRunning` is a run on which that happens.

## Model

| member | source | states |
|---|---|---|
| Delivery.NoGapEndToEnd | internal/api/server.go:194-246 | over every run of publishes, reads, evictions, closes, restarts and cuts at any byte, what the client's parser dispatched are entries of the logs of their generations; and each event directly follows its predecessor of the same generation, or a reset, or is event 1 at the very start, if and only if no cut on the way brought an item to a client that had connected astray |
| Delivery.ClientSeesASequence | internal/api/server.go:206-241 | by nothing but the messages the client holds: each is a `stream.reset`, or a `vm.lifecycle` whose ID is the cursor right after the previous message's ID in one generation, or the cursor of event 1 at the start, if and only if the same condition holds |
| DeliveredContent.MessagesTellWhatWasPublished | internal/api/server.go:206-241 | in the same runs every message carries, marshalled, the notice that its generation published under its number, with name, UUID, event, detail and time, or is a reset; what was published is read off the moves alone |
| Delivery.NoGapForCarryingClients | internal/api/server.go:194-246 | no gap, no repeat and no condition for a client whose buffer starts from its own last event ID |
| Delivery.PlacedNeverStrays | internal/api/server.go:200-208 | a client whose last event ID is that of its last item, as at the beginning, and whom no move deprives of it, still has it at the end of the run with no connection begun astray, and no cut on the way strays |
| Delivery.CarryingNeverForgets | internal/api/server.go:200-208 | no move of any run empties the last event ID of a client whose buffer starts from it |
| Delivery.CaughtUp | internal/hypervisor/events.go:60-67 | a registered client with an empty queue that received everything written is at the newest event of the current generation, however often it reconnected, exactly unless nothing was published and it has nothing of this generation |
| Delivery.ResumesWhereItStopped | internal/hypervisor/events.go:78-90 | reconnecting with the cursor of the last item, after any restarts, gives a feed that starts right after that item or with a reset |
| Delivery.CarriesOnExactly | internal/hypervisor/events.go:78-90 | a new subscription carries on from what the client has, or begins with a reset, if and only if the client is not astray |
| Delivery.StepSafe | internal/api/server.go:206-241 | every single move (publish, connect, attach, relay, heartbeat, any cut, restart) keeps the end-to-end invariant, and only a cut that strays makes a gap |
| Forgetting.ForgetsExactly | internal/api/server.go:206-207 | a cut empties a client's last event ID if and only if its buffer started empty and only comments came whole |
| Forgetting.ForgottenPlace | internal/hypervisor/events.go:78-90 | at any reconnect of any run, the new feed carries on and the first item it brings is in sequence, if and only if not: no cursor, items received, at most 256 events published, and the last item not the reset at position 0 of this generation |
| Forgetting.EventRepeats | internal/api/server.go:206-208 | a concrete run on which such a client receives event 1 twice in a row |
| BrokerRuns.RefinesLog | internal/hypervisor/events.go:46-114 | on every run, what a registered subscriber was sent is at most one reset marker and then the log without a gap up to the newest event; with an empty queue its last item is the newest |
| Publications.EventsSayWhatWasPublished | internal/hypervisor/events.go:46-68 | on every run, event i is the i-th notice published before the broker was closed, with its name, UUID, event, detail, time and cursor; the counter is their number and the window their last 256; the broker is closed exactly if the run closes it |
| Publications.SubscribeTakesEffect | internal/hypervisor/events.go:70-114 | a new subscription has 33 slots more than the window is long, and is registered with the dated marker or precisely the log after the cursor; on a closed broker it is closed and empty |
| Publications.CancelTakesEffect | internal/hypervisor/events.go:98-103 | a cancellation unregisters and closes a registered channel, keeps its queue, touches nobody else, and nothing is sent to it on any continuation; any other cancellation changes nothing |
| Publications.CloseTakesEffect | internal/hypervisor/events.go:135-146 | closing leaves the broker closed without subscribers and every channel closed with its queue |
| BrokerRuns.ReplayExactly | internal/hypervisor/events.go:78-90 | in every reachable broker, `subscribe` resets exactly when the cursor is not honoured or `after + 256 < nextID`, otherwise preloads precisely events `after+1..nextID`; the subtraction never underflows |
| BrokerRuns.ChannelDiscipline | internal/hypervisor/events.go:91-112 | on every run a channel is registered exactly while open; a closed one never reopens, re-registers or is sent to again; after `close` all are closed, the log stands still, and a channel subscribed later is closed and never sent anything |
| BrokerRuns.OwnStream | internal/hypervisor/events.go:60-67 | removing all other subscribers' actions from a run changes nothing that a subscriber can see |
| BrokerRuns.EvictedExactly | internal/hypervisor/events.go:60-67 | a subscriber that does not read is still registered after any run if and only if the publishes in it fit its free slots |
| BrokerRuns.FreshSubscriberAbsorbs | internal/hypervisor/events.go:72-91 | a new subscription's preload fits its channel, and unread it survives 33 publishes, or just 32 exactly when it began with a reset on an empty history |
| BrokerRuns.StepKeeps | internal/hypervisor/events.go:46-146 | publish, subscribe, receive, cancel and close each keep window, numbering, feeds and registration consistent |
| EventBroker.EventBroker.Publish | internal/hypervisor/events.go:46-68 | in place: the newest entry carries the notice, the time, the next number and its cursor; the whole new state of broker and channels is `Brokers.Publish` of the old one, whatever the iteration order; no closed channel is sent to or closed |
| EventBroker.EventBroker.Broadcast | internal/hypervisor/events.go:60-67 | every subscriber with room got the event, every other one was closed and removed |
| EventBroker.EventBroker.Subscribe | internal/hypervisor/events.go:70-114 | in place: a fresh channel with the replay or the reset marker, registered unless the broker is closed; no send blocks |
| EventBroker.EventBroker.Requeue | internal/hypervisor/events.go:85-90 | the loop queues exactly the history entries after the cursor |
| EventBroker.EventBroker.Fill | internal/hypervisor/events.go:78-90 | the channel holds one reset marker, or that replay |
| EventBroker.EventBroker.Cancel | internal/hypervisor/events.go:98-103 | closes and removes the channel if it is registered, else changes nothing; it is closed and unregistered afterwards, with its queue |
| EventBroker.EventBroker.Close | internal/hypervisor/events.go:135-146 | closes every registered channel once and empties the set |
| EventBroker.Subscription.Cancel | internal/hypervisor/events.go:93-113 | acts at most once however often it is called |
| Cursors.RoundTrip | internal/hypervisor/events.go:116-133 | a printed cursor of a 64-bit position up to `nextID` is read back as that position |
| Cursors.Injective | internal/hypervisor/events.go:116-118 | two positions of any generations never share a cursor |
| Cursors.HonouredExactly | internal/hypervisor/events.go:120-133 | honoured are the empty cursor and exactly own generation, colon, nonempty digits with a value up to `nextID` |
| Cursors.ForeignCursor | internal/hypervisor/events.go:124-127 | a cursor of another generation always leads to a reset |
| Cursors.Cut | internal/hypervisor/events.go:124 | splits at the first separator; the contract has one solution |
| DecimalReading.ValueIsPositional | internal/hypervisor/events.go:128-129 | digits are read in decimal: each by its place, from the left |
| DecimalReading.NoLeadingZero | internal/hypervisor/events.go:116-118 | a printed number begins with 0 for zero alone |
| EventStream.CutAnywhere | internal/api/server.go:206-241 | any byte prefix of any stream of comments, events and resets dispatches exactly the items whose frames are whole, with type, data and cursor, and leaves the last one's cursor as last event ID (or the initial buffer if only comments are whole) |
| EventStream.WholeFrame | internal/api/server.go:219-238 | one frame dispatches one message of the right type, or for a comment only copies the ID buffer |
| EventStream.NoBlankLine | internal/api/server.go:223-233 | text without a blank line dispatches nothing wherever it is cut |
| EventHandler.Serve | internal/api/server.go:206-245 | for any arrivals and any point where writing fails, the bytes that left are an initial part, whole if they fit, of the opening comment and one frame for each arrival before the first that is a closed channel or a finished request, and none after it |
| EventHandler.DueByIndex | internal/api/server.go:210-245 | the frames due, index by index: an item for an event, a heartbeat for a tick, and an end at the first closed channel or finished request |
| EventHandler.ClientOfServe | internal/api/server.go:206-245 | of what the loop sends over a transport that breaks anywhere, a client dispatches exactly the items whose frames left whole, and has the last one's cursor |
| ServedRuns.CutsAreServed | internal/api/server.go:194-246 | on every run of `Delivery`, at every cut, the client's bytes are what the loop sends for arrivals holding exactly the events read from the channel, and the client goes on with what it parsed of them |
| LockTable.MutualExclusion | internal/hypervisor/libvirt.go:794-840 | in every interleaving at most one thread per key is between taking and returning the token, and all threads on a key refer to one lock object, also across deletion and re-creation |
| LockTable.Accounting | internal/hypervisor/libvirt.go:817-840 | `users` counts the referring threads, free token plus holders is 1, entries are exactly the keys in flight and hold the retained objects, returning never blocks |
| LockTable.NoDeadlock | internal/hypervisor/libvirt.go:794-815 | while a thread is in flight, some thread on its key can step without any cancellation |
| LockTable.Drains | internal/hypervisor/libvirt.go:794-840 | without new requests every run is no longer than the work left, and where it cannot go on no thread and no entry remains |
| LockTable.GivingUpIsHarmless | internal/hypervisor/libvirt.go:803-815 | a cancelled waiter moves no token and removes an entry only if no other thread is on that key |
| LockTable.StepKeeps | internal/hypervisor/libvirt.go:794-840 | each atomic step keeps the books of every lock |
| LockTable.WorkShrinks | internal/hypervisor/libvirt.go:797-840 | every step but a new request leaves strictly less work |
| ActionLocks.ActionLocks.Retain | internal/hypervisor/libvirt.go:817-831 | in place: one more user of the entry's lock, or a new lock with a free token and one user |
| ActionLocks.ActionLocks.Take | internal/hypervisor/libvirt.go:796 | in place: the token moves to the thread |
| ActionLocks.ActionLocks.Return | internal/hypervisor/libvirt.go:798 | in place: the token goes back; the semaphore has room |
| ActionLocks.ActionLocks.Release | internal/hypervisor/libvirt.go:833-840 | in place: one user fewer; the last one deletes the entry by name, which is this lock's |
| Serialization.ActionsSerialize | internal/hypervisor/libvirt.go:562-792 | every interleaving of any requests with any call failures and contexts ending at any time, but no outside change, gives each finished request, whether or not it still has the lock, the outcome, and each VM not being worked on the state, of running them one at a time in lock order |
| Serialization.CheckedStateHolds | internal/hypervisor/libvirt.go:574-586 | in such runs the operation is refused only by its own failure, or a snapshot creation by a name that is taken (so a snapshot that was found is still there when acted on), and the re-check after a failure never reports a conflict |
| Serialization.SuccessReportsState | internal/hypervisor/libvirt.go:724-763 | in such runs the state a successful power operation reports is the VM's state, exactly unless it is a Reset of a VM that was not running |
| Serialization.ResetAlone | internal/hypervisor/libvirt.go:724-763 | a Reset of any active VM leaves it as it is and reports "running" |
| Serialization.ResetReportsRunning | internal/hypervisor/libvirt.go:724-763 | a run on which a paused VM is reset, the request succeeds with "running", and the VM is paused |
| Serialization.RacingStarts | internal/hypervisor/libvirt.go:562-588 | any number of concurrent Starts of a stopped VM: exactly one success, all others "already running" |
| Serialization.StepFollows | internal/hypervisor/libvirt.go:794-801 | each step keeps the interleaved world equal to the serial one |
| Actions.StartAndStopAlone | internal/hypervisor/libvirt.go:562-588 | alone and without failures: what Start and Stop make of each VM, field by field, and what they answer |
| Actions.PauseAndResumeAlone | internal/hypervisor/libvirt.go:706-764 | likewise for Pause and Resume |
| Actions.ResetRebootAndShutdownAlone | internal/hypervisor/libvirt.go:615-764 | likewise for Reset, Reboot and Shutdown |
| Actions.ChangesAlone | internal/hypervisor/snapshots.go:120-183 | likewise for reverting to and deleting a snapshot, with any failures: the first thing that goes wrong decides, and else the VM's activity, state and snapshots are as the revert or deletion makes them |
| Actions.CreatesAlone | internal/hypervisor/snapshots.go:87-118 | likewise for creating a snapshot |
| Conservation.ActivityIsConserved | internal/hypervisor/libvirt.go:562-588 | with any outside changes and failures: successful Starts minus successful Stops plus other net activations is the net change of activity |
| ActionRuns.OutcomesAreTruthful | internal/hypervisor/libvirt.go:574-647 | with outside changes between any two calls, a state conflict is reported only if one of the request's own calls found the VM in that state (or libvirt refused), success only if the request's own operation call took the VM from one state to the next, and the status is the one the last answer calls for |
| ActionReports.SuccessesReport | internal/hypervisor/libvirt.go:643-646 | with outside changes, a successful Shutdown reports the state in which its last call found the VM, or if that read failed the one found before acting; a Reboot the one found before; the others a fixed state |
| ActionReports.ActsUnlessExcused | internal/hypervisor/snapshots.go:136-179 | with outside changes, a finished request has acted unless its context ended, or a call before failed or found the VM in a state that rules the operation out or without the snapshot; so a revert or deletion that found its snapshot in time is carried to the hypervisor |
| Actions.FailureHidesChange | internal/hypervisor/snapshots.go:98-117 | for every request and VM: alone, it fails and leaves the VM changed if and only if it is a snapshot creation whose context goes on and whose call does not fail, of a name the VM does not have, with a failing look at the description |
| ActionRuns.FailedButDone | internal/hypervisor/snapshots.go:112-117 | on every run, a finished request failed with its operation carried out if and only if it is a snapshot creation without a failure of its call, which found the VM without that name, and with a failing look at the description; then it is a 503 and that call brought the snapshot about |
| ActionRuns.SnapshotLeftBehind | internal/hypervisor/snapshots.go:112-117 | a run that ends with the creation failed, nobody at the VM and the snapshot there; any further creation of that name fails |
| ActionRuns.LateNeverActs | internal/hypervisor/snapshots.go:98-112 | a snapshot request whose context ends at any time before its re-check never acts, whatever happens afterwards, and ends cancelled or with the snapshot lookup's error |
| ActionRuns.OnlyTheLateAreCancelled | internal/hypervisor/libvirt.go:803-815 | a request is told of a cancellation only if it is a snapshot request, its context has ended and it has not acted |
| ActionProgress.OneAtWork | internal/hypervisor/libvirt.go:562-588 | on every run with outside changes, at most one request per VM is between its first call and its last |
| ActionProgress.CallsAreUndivided | internal/hypervisor/libvirt.go:562-588 | meanwhile nothing reaches that VM but the request's own calls and outside changes |
| ActionProgress.RequestsEnd | internal/hypervisor/libvirt.go:794-840 | without new requests, whatever happens outside, the requests make no more moves than lock steps and calls are left, and when none can move all are over and the table is empty |
| Actions.StatusAsIntended | internal/api/server.go:576-590 | through all wrapping, each failing answer comes out as the intended one of 404, 409, 422 and 503 |
| Errors.StatusIsOfRoot | internal/api/server.go:576-590 | wrapping never changes the status; `errors.Is` finds exactly the root; an error without a sentinel is 503 |
| DomainActions.Start | internal/hypervisor/libvirt.go:574-587 | the straight-line method leaves the VM and returns the outcome that the call-by-call request gives |
| DomainActions.Stop | internal/hypervisor/libvirt.go:778-791 | likewise for Stop |
| DomainActions.RequestGracefulShutdown | internal/hypervisor/libvirt.go:615-647 | likewise for the graceful shutdown with its re-check and re-read |
| DomainActions.SimpleAction | internal/hypervisor/libvirt.go:728-764 | likewise for Pause, Resume and Reset, with the error classified by looking into the chain |
| DomainActions.Operation | internal/hypervisor/libvirt.go:706-726 | refuses exactly a Pause of a paused and a Resume of a non-paused VM before any call |
| DomainActions.Reboot | internal/hypervisor/libvirt.go:683-703 | likewise for Reboot |
| DomainActions.ChangeSnapshot | internal/hypervisor/snapshots.go:136-148 | likewise for reverting and deleting a snapshot: lookup on the VM's snapshots, re-check of the context, operation |
| DomainActions.SnapshotLookupError | internal/hypervisor/snapshots.go:239-244 | looking into the chain gives the error that the call-by-call request ends with |
| DomainActions.SnapshotOperationError | internal/hypervisor/snapshots.go:246-255 | the classification by code is the one the call-by-call requests use |
| DomainActions.CreateSnapshot | internal/hypervisor/snapshots.go:104-117 | likewise for creating a snapshot and reading its description; the VM has changed exactly if the creation succeeded or its description could not be read, and then by that snapshot alone |
| Identity.IsCanonicalUUID | internal/hypervisor/libvirt.go:871-888 | the rune loop over arbitrary bytes accepts exactly the text form of section 4 of RFC 9562: 36 characters, dashes at 8, 13, 18 and 23 and 0-9, a-f or A-F elsewhere |
| Identity.DecodeRune | internal/hypervisor/libvirt.go:875 | a byte below 0x80 is its own rune; everything else, valid or not, reads as a rune outside ASCII |
| Identity.LookupStatus | internal/hypervisor/libvirt.go:848-869 | for every pair of answers by name and by UUID: which domain is found, and otherwise 404 exactly if each lookup made said "no such domain", else 503 with the code of the one that broke down |
| Identity.ResolvesExactly | internal/hypervisor/libvirt.go:848-869 | on a host, what is found is the one domain the identifier stands for, names before UUIDs; 404 says that it stands for none, anything else that a lookup broke down |
| Identity.PrintedByValue | internal/hypervisor/libvirt.go:890-900 | two UUID texts lead to one printed UUID, the lock key, exactly if they spell the same number |
| Aliases.FindsExactly | internal/hypervisor/libvirt.go:562-571 | a domain is found exactly if the lookup finds it and its name and UUID can be read; failing to read them is a 503 |
| Aliases.AliasesShareALock | internal/hypervisor/libvirt.go:562-573 | on every run of lookups, renamings and requests, any two requests in flight refer to one lock object if and only if they found the same domain, under whatever identifiers; and then not both are between taking and returning the token |
| Aliases.AliasesTakeTurns | internal/hypervisor/libvirt.go:562-588 | no two requests are between their first and last call on one domain, by whatever names they know it |
| Aliases.WorksOnWhatItNamed | internal/hypervisor/libvirt.go:562-573 | a request works on the domain its identifier stood for when it was looked up; one that found none never works at all, and fails with 404 only if there was none |
| Aliases.RunsOfRequests | internal/hypervisor/libvirt.go:562-573 | such a run is a run of `ActionRuns`, so all that holds of those holds here |
| SnapshotOrder.OrderExactly | internal/hypervisor/snapshots.go:70-84 | with distinct names the comparator is a strict total order if and only if no untimed snapshot straddles two timed ones |
| SnapshotOrder.UniformIsOrdered | internal/hypervisor/snapshots.go:70-84 | with distinct names it is one when all or none have a creation time |
| SnapshotOrder.MixedListCycles | internal/hypervisor/snapshots.go:70-84 | three snapshots that the comparator puts in a circle, and two orders of them that come out as different listings |
| SnapshotOrder.ListingIsCanonical | internal/hypervisor/snapshots.go:62-85 | snapshots with distinct names have one possible listing whatever order libvirt gives them in, if and only if none straddles; otherwise two orders come out as two listings |
| SnapshotOrder.ListSnapshots | internal/hypervisor/snapshots.go:54-85 | one unreadable description fails the listing; otherwise it is a sorted permutation with every snapshot's name and, if positive, creation time, and the only one when names are distinct and none straddles |
| SnapshotOrder.TimesDecide | internal/hypervisor/snapshots.go:70-76 | with distinct names and none straddling, of two snapshots with positive creation times the earlier is listed first, whatever their names |
| SnapshotOrder.LexExactly | internal/hypervisor/snapshots.go:77-82 | names are compared by the first byte in which they differ, a name coming before its continuations |
| SnapshotOrder.ListingReadsInOrder | internal/hypervisor/snapshots.go:70-84 | a sorted listing of distinct names without straddling goes from older to newer, and by name where time does not decide |
| SnapshotOrder.ListingSorts | internal/hypervisor/snapshots.go:62-85 | a permutation without neighbours out of order always exists |
| Configuration.ParseOrigins | internal/config/config.go:170-192 | the loop returns the trimmed first occurrences in order, or refuses exactly when an entry is blank or fails the URL test |
| Configuration.OriginsSettle | internal/config/config.go:170-192 | an accepted list has no repeats or blanks, and joining it with commas and parsing again gives it back |
| Configuration.RefusedExactly | internal/config/config.go:170-192 | a setting is refused exactly if it is not blank and one of its comma-separated parts is blank or fails the URL test; a blank one is the empty list |
| Configuration.KeepsFirsts | internal/config/config.go:170-192 | what is kept are the first occurrences, all of them, in their order |
| Configuration.TrimsSpaceOnly | internal/config/config.go:175-178 | trimming takes off all white space at both ends and nothing else |
| Configuration.JoinSplit | internal/config/config.go:175-178 | the parts of a setting, joined by commas, are the setting |
| Configuration.ValidateTokens | internal/config/config.go:114-135 | accepts exactly token sets without white space and without two equal nonempty tokens |
| Configuration.AnyVisitingOrder | internal/config/config.go:121-133 | the verdict does not depend on map iteration order |
| Configuration.ScopeForToken | internal/api/server.go:623-639 | the loop returns the scope of the first matching candidate |
| Configuration.CandidateOrderIsFree | internal/api/server.go:624-637 | for accepted tokens any candidate order gives the same scope: the token's own |
| Configuration.ServedExactly | internal/api/server.go:592-617 | a protected route serves exactly the headers with scheme "bearer" in any case, one space and a configured token of enough scope |
| Configuration.UnauthorizedExactly | internal/api/server.go:592-617 | a request is unauthorized exactly if the route is protected, some credential is configured and the header carries none of them; public routes and servers without credentials serve every header |
| Configuration.FoldsExactly | internal/api/server.go:599-600 | the scheme is "bearer" in any mixture of cases |
| Configuration.WhatTokensGrant | internal/api/server.go:619-639 | the read token only reads, the control token also controls, the bearer and admin tokens may do everything |
| Configuration.BearerGetsItsScope | internal/api/server.go:598-611 | "Bearer " and a configured token is served up to its own scope and forbidden beyond |

## Left out

- The libvirt binding, connection set-up and the event loop goroutine: foreign code; the VM side is abstract.
- Statistics, host information, XML extraction, viewer, screenshots, autostart: field copying or library behaviour.
- HTTP routing, JSON decoding, CORS and security headers, access log, panic recovery, listen-address checks: single-branch facts.
- Wall-clock fields are parameters; heartbeats come at any time; constant-time comparison is equality.
- Wrap-around of the 64-bit event counter: `Publish` asks for `nextID + 1 < 2^64`.
- A failing `json.Marshal`: the handler then ends the connection without writing, which is a cut at that byte.
- The goroutine watching a subscription's context: it calls the same cancel function, so it is one more `Cancel` action.
- EventBroker.EventBroker: the class works one method call at a time, as the mutex makes it do; runs of many calls are stated on values in `BrokerRuns`.
- ActionLocks.ActionLocks: blocking on the semaphore is the precondition of `Take`; who waits how long is in `LockTable`.
- Fairness: a waiting thread may be overtaken for ever; only deadlock freedom and draining are proved.
- SnapshotOrder.Listing: `slices.SortFunc` itself is library code and is represented by an insertion sort; what else it makes of a list on which the comparator is no order is not stated.
- SnapshotOrder.ListSnapshots: which snapshot is current, and the failures of that lookup, are not modelled.
- Aliases.AliasesShareALock: a domain keeps its UUID; the domain's name in messages is not modelled.
