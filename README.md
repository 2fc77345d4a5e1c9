# apnsservice, modelled in Dafny

This project models the Go package `apnsservice`. The package keeps one
Apple Push Notification (APNS) connection manager per application:
- `connectionAPNS` has a lifecycle status (Unknown, NoCerts, CertsFound,
  Active). Its `launch`, `close` and `pushOne` are guarded by that status.
- Two socket workers per connection drain the send channel. Each keeps:
  - a 32-slot circular cache of recently sent payloads, with a cursor
    that starts at 31;
  - an exponential backoff that starts at 1 s, doubles on each closure
    while it is below 128 s, and falls back to 1 s on a successful send.
- When Apple closes a socket and reports N unsent payloads,
  `handleCloseError` re-submits the newest min(N, 32) cached payloads,
  oldest first. It uses the slot formula `(cur + C - i + 1) mod C` for
  `i = N .. 1`, and goes through `pushOne`.
- A package-level registry `mapAPNS` holds one connection per app ID.
  `InitURLs`, `LaunchConnection`, `PushOne`, `CloseConnection` and
  `CloseAllConnections` act on it.

Layout:
- `retry_cache.dfy` (module `RetryCache`) is the value-level
  specification of the cache ring:
  - `Write` is one successful send;
  - `Order` is the contents from the oldest entry to the newest;
  - `Replay` is what a closure re-submits;
  - `LoopReads` is what the replay loop reads, counter value by counter
    value.
- `backoff.dfy` (module `Backoff`) specifies the backoff variable.
- `apnsobject.dfy` (module `ApnsObject`) holds:
  - the class `Connection`, which is `connectionAPNS`. Its channels are
    the sequences `sendQueue` and `logQueue`, and its done channel is
    the flag `done`;
  - the class `Socket`, which is the state of one `launchSocket`
    goroutine. Its cache is an `array` updated in place at the cursor
    `idx`. It has one method per event that the goroutine's `select`
    handles.
- `apnsservice.dfy` (module `ApnsService`) holds the class `Registry`.
  Its fields are the map `connections` and the package-level URLs.

External effects become inputs:
- Whether the log file opens, and whether the feedback poll succeeds,
  are boolean parameters of `Launch`.
- Whether a connection attempt succeeds is the parameter of
  `Socket.Connect`.
- The closure report is made of the unsent count and the optional
  error payload given to `Socket.Closed`.
- Whether a send beats the backoff timer decides which event method is
  called: `SendSucceeded` or `SendTimedOut`.

Behaviour of the code that the model follows, which may surprise a
reader:
- The two sockets of a connection do not share one cache. The cache is
  local to each `launchSocket` call (apnsobject.go:184-186).
- When the backoff timer wins (apnsobject.go:222-227), the payload has
  already been taken off the send channel. It is dropped: it is neither
  cached nor re-queued.
- An unsent count larger than the number of successful sends so far
  reaches back into the fresh cache: the replay re-submits zero-value
  payloads before the real ones (`RetryCache.FewSendsScenario`).
- `LaunchConnection` always passes a non-nil certificate
  (apnsservice.go:49). So a registry connection always starts in
  CertsFound.
- There are two compile slips, and the evident intent is modelled:
  - apnsservice.go:65 and apnsservice.go:67 use `apnsNoCerts`/`apnsCertsFound` for
    `ApnsNoCerts`/`ApnsCertsFound`;
  - apnsobject.go:301 calls `a.PushOne` for `a.pushOne`.

## Model

| member | source | states |
|---|---|---|
| ApnsObject.InitialStatus | apnsservice.go:64-68 | the initial status is NoCerts iff the certificate is absent, and CertsFound iff it is present |
| ApnsObject.Connection.constructor | apnsservice.go:64-76 | newConnection: the status is InitialStatus(cert), isLogging is true, and the channels are empty |
| ApnsObject.LaunchStatus | apnsobject.go:57-107 | after launch the status is Active iff it was Active, or it was neither Active nor NoCerts and both the log file and the feedback poll succeeded; any change is to Active |
| ApnsObject.LaunchOutcome | apnsobject.go:59-107 | launch reports success iff the status was Active or NoCerts, or both inputs succeeded; it reports the log-open error iff it reached the open and the open failed |
| ApnsObject.Connection.Launch | apnsobject.go:52-108 | isLogging is always assigned. From Active or NoCerts nothing else changes. Otherwise the hosts are set. On an error the status, the channels and the workers are unchanged. On success: fresh channels, two fresh Idle and Valid workers with socket IDs 1 and 2 and caches that are distinct arrays, and status Active |
| ApnsObject.Connection.Start | apnsobject.go:90-106 | the success tail of launch: done cleared, both queues empty, two distinct fresh workers whose caches are distinct arrays, status Active |
| ApnsObject.CloseStatus | apnsobject.go:111-116 | close never leaves the status Active; it changes the status iff it was Active, and then to CertsFound |
| ApnsObject.CloseTwice | apnsobject.go:111-116 | a second close changes no status |
| ApnsObject.Connection.Close | apnsobject.go:111-116 | the status becomes CloseStatus of the old one; the done channel is closed iff the status was Active |
| ApnsObject.Connection.PushOne | apnsobject.go:119-123 | the send queue grows by exactly the payload iff the status is Active, and is unchanged otherwise |
| ApnsObject.Entries | apnsobject.go:126-156 | a log call appends one entry per message, tagged with the socket ID, when logging is on, and nothing when it is off |
| ApnsObject.EntriesAppend | apnsobject.go:126-156 | the entries of consecutive log calls are the concatenation of the entries of each call |
| ApnsObject.Connection.LogPrint | apnsobject.go:125-134 | the log queue grows by exactly one entry (socket ID, message) iff logging is on |
| ApnsObject.Connection.LogPrintln | apnsobject.go:136-145 | as LogPrint, with the message ended by a line break |
| ApnsObject.Connection.LogPrintf | apnsobject.go:147-156 | as LogPrint, with the format as the message |
| ApnsObject.CloseErrorMessages | apnsobject.go:275-290 | the closure log is the heading line, then the unsent-count line iff the count is positive, then the payload line iff there is an error payload |
| ApnsObject.Connection.LogCloseError | apnsobject.go:275-290 | the log queue grows by exactly the entries of CloseErrorMessages |
| ApnsObject.Connection.Resubmit | apnsobject.go:292-303 | the send queue grows by LoopReads over the clamped unsent count while Active, and is unchanged otherwise |
| ApnsObject.Connection.HandleCloseError | apnsobject.go:272-303 | the send queue grows by Replay of the ring (cache, cursor) while Active, and is unchanged otherwise; the log queue grows by the closure log |
| RetryCache.Clamp | apnsobject.go:292-297 | the unsent count is cut to the capacity and never exceeds it |
| RetryCache.ReplaySlot | apnsobject.go:299 | the slot formula always yields an index inside the cache |
| RetryCache.ReplaySlotIsOrder | apnsobject.go:298-300 | for counter value i in 1..C, the slot read is the entry i places from the newest end of the cache (newest counts as 1) |
| RetryCache.LoopReadsIsOrder | apnsobject.go:298-302 | once the loop started at n is down to i, it has read the stretch from n to i entries before the newest end, oldest first |
| RetryCache.LoopReadsIsReplay | apnsobject.go:292-303 | the full loop over the clamped count reads exactly Replay |
| RetryCache.Replay | apnsobject.go:292-303 | a replay of n re-submits nothing for n <= 0, exactly n entries for 0 < n <= C, and the whole cache oldest-first for n >= C; the last entry re-submitted is the one at the cursor |
| RetryCache.Fresh | apnsobject.go:184-186 | a fresh cache holds only zero payloads, with the cursor on the last slot |
| RetryCache.Write | apnsobject.go:229-230 | a send advances the cursor by one mod C (the last slot wraps to 0), writes the payload there, and leaves every other slot unchanged |
| RetryCache.WriteShiftsOrder | apnsobject.go:229-230 | a send drops the oldest entry of the cache order and appends the payload as the newest |
| RetryCache.WriteAllKeepsNewest | apnsobject.go:184-230 | after a run of sends, the cache order is the newest C entries of the old order followed by the sends |
| RetryCache.ReplayIsNewestSends | apnsobject.go:229-303 | after at least min(n, C) sends, replay re-submits exactly the newest min(n, C) sends, oldest first |
| RetryCache.FewSendsScenario | apnsobject.go:184-303 | capacity 4 after only the sends A, B: an unsent count of 3 replays a zero slot and then AB |
| RetryCache.CapacityFourScenario | apnsobject.go:292-303 | capacity 4 after sends A..F: an unsent count of 3 replays DEF, and 10 is clamped to CDEF |
| ApnsObject.FreshCache | apnsobject.go:184-186 | a socket's cache has 32 slots and its cursor starts at 31 |
| ApnsObject.Socket.constructor | apnsobject.go:181-187 | a socket starts not connected and not shut down, with a zero cache, cursor 31 and backoff 1 |
| ApnsObject.Socket.Connect | apnsobject.go:196-205 | connected becomes the outcome of the attempt; the log gains "Establishing connection", then the established line or the error line |
| ApnsObject.Socket.SendSucceeded | apnsobject.go:222-232 | the head of the send queue is taken; the ring becomes Write(ring, payload); the send is appended to the history; the backoff resets to 1 |
| ApnsObject.Socket.SendTimedOut | apnsobject.go:222-227 | the head of the send queue is taken and dropped; the cache, cursor and backoff are unchanged |
| ApnsObject.Socket.Closed | apnsobject.go:235-246 | the backoff becomes OnClosure of the old one; the socket is no longer connected; the send queue grows by the replay of its own cache while Active; the log gains the closure lines |
| ApnsObject.Socket.ReplayIsNewestSent | apnsobject.go:229-303 | for a valid socket, what Closed re-submits is exactly the newest min(n, 32) successful sends, oldest first |
| ApnsObject.Socket.Done | apnsobject.go:190-250 | with the done channel closed, the socket shuts down and logs the close line and the breaking line |
| Backoff.OnClosure | apnsobject.go:187-243 | from any level, a closure gives min(2b, 128), which is again a level; at or above the limit the backoff stays |
| Backoff.ClosuresFromFloor | apnsobject.go:187-243 | k closures in a row from 1 give min(2^k, 128), always one of 1, 2, 4, ..., 128 |
| Backoff.ThreeClosuresScenario | apnsobject.go:187-243 | closures from 1 give 2, 4 and 8; seven or more give 128 |
| ApnsService.Registry.constructor | apnsservice.go:21-29 | init: the registry is empty and the URLs are empty strings |
| ApnsService.Registry.InitURLs | apnsservice.go:34-42 | isDev selects the sandbox gateway and feedback hosts; otherwise the production hosts |
| ApnsService.Registry.LaunchConnection | apnsservice.go:47-61 | without push enabled: success and no change. On a launch error: that error and no change. On success: a fresh launched Active connection under appID, replacing any previous one, and every other entry unchanged |
| ApnsService.Registry.PushOne | apnsservice.go:79-84 | with appID missing nothing changes; otherwise only that connection's send queue changes, and as pushOne says |
| ApnsService.Registry.CloseConnection | apnsservice.go:87-92 | with appID missing nothing changes; otherwise only that connection is closed, as close says |
| ApnsService.Registry.CloseAllConnections | apnsservice.go:96-100 | the key set is unchanged, each connection's status is CloseStatus of its old one (so none is Active), and its done flag is set iff it was Active, and its queues, isLogging, workers and hosts are unchanged |

## Left out

- TLS connect, send, disconnect and the close channel of go-libapns are not modelled. Their outcomes are inputs to the socket methods, because they are calls into a foreign library.
- Opening the log file, `log.Logger` output, the `utils.Trace`/`Warning`/`Info` prints and the `logListener` relay are left out. These are I/O, and `launch` never starts the relay.
- Feedback-service polling (`getBadTokens`) is only a success/failure input to `Launch`, because it is network I/O.
- Goroutines, channel blocking and the channel capacity of 100 are left out, because they are concurrency. The queues are unbounded sequences, and each socket event is one method call.
- Timers are left out because they are timing: the backoff wait, the 5-second reconnect wait with its done check (apnsobject.go:207-213), and the post-loop drain of the last connection (apnsobject.go:255-264).
- The tail of `launchSocket` after its outer loop (apnsobject.go:255-268) is left out: the drain of the last connection waits on a timer, and the "Shutting down apns service" line and the closing of `chanDoneLog` come after it. The model's last socket event is Done.
- Printf and Println arguments are not rendered, and the error text of the closure is not rendered either. A logged message is its format, or its first operand followed by a line break. Payloads are opaque values.
- ApnsObject.Connection.Launch: requires that a certificate exists unless the status is NoCerts (the invariant `Valid`). With status Unknown and a nil certificate, the Go code dereferences nil. `LaunchConnection` never creates that state.
- ApnsObject.Connection.Launch: does not model the goroutines of an earlier launch, which keep running after a relaunch from CertsFound. The model keeps only the newest two workers.
- ApnsService.Registry.PushOne: a nil value stored in `mapAPNS` is not modelled. Only `LaunchConnection` stores values, and it never stores nil.
