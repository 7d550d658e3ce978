# Subscription coordinator loop of go.rssfeed, in Dafny

A subscription polls an RSS feed through a `Fetcher` and hands the feed's
items, one at a time, to a consumer reading its `Updates()` channel;
`Unsubscribe()` stops it and returns the error of the last completed fetch.
All of that is done by one goroutine, `loop` in `subscription.go`, whose
local variables are the subscription's whole state: the queue of items not
yet handed out, the refresh time of the feed, the last fetch error and the
channel of the pending fetch. Every iteration arms a timer for the next
fetch and then `select`s one of four branches:

- the timer fires: a fresh `fetchDone` channel replaces the pending one and
  a fetch starts in a new goroutine, which sends its result on whatever
  channel `fetchDone` holds when the fetch returns;
- the consumer receives the front item (the branch exists only when the
  queue is non-empty, because a nil channel never becomes ready);
- a result arrives on `fetchDone`: a failure records its error; a success
  appends the feed's items, takes the feed's refresh time and clears the
  error;
- an unsubscribe request arrives: the loop replies with the error, closes
  the item channel and returns.

The model has three layers.

- `fetch.dfy` (module `Fetch`): instants, the largest `time.Duration` and
  `FetchResult`, either `Success(items, refresh)` or `Failure(err)`.
- `coordinator.dfy` (module `Coordinator`): the loop as a state machine over
  values. `State` holds the loop's variables, `Event` is the branch an
  iteration takes, `Enabled` says whether that branch can be selected, `Next`
  is one iteration and `Run` a sequence of iterations. The Go runtime's
  choice among ready branches becomes the choice of the next event.
  `coordinator_props.dfy` (module `CoordinatorProps`) proves what single
  branches and whole runs guarantee.
- `subscription.dfy` (module `Subscription`): the class `Loop`, whose
  fields are the loop's variables. It has one method per branch, `Select`
  for one iteration and `Serve` for the `for`/`select` loop itself. Each
  method's requires clause is its branch's enabling condition, and its
  ensures clause states the new fields and ties them to `Next`. Two ghost
  fields record what was handed out and what was fetched, and the class
  invariant `Valid` states the FIFO balance between them and the queue.

Time is an integer count of nanoseconds after Go's zero `time.Time`, and
`refreshTime` starts at that zero. The fetch delay of an iteration is
`refreshTime - now` when the refresh time is after `now`, and 0 otherwise;
like `time.Time.Sub`, it saturates at the largest `time.Duration`. A timer
event carries the instant the timer was armed (the iteration's
`time.Now()`) and the instant it fired, so clock readings are parameters.

Each call to `make` gives a fresh `fetchDone` channel. The model numbers
these channels as handles, and a completion is enabled only on the handle
still pending. A handle names a channel, not a fetch: the result a
completion carries is arbitrary, so it may be that of any fetch started
earlier, including one whose own channel was replaced. A channel that was
replaced is never received on again (`ReplacedChannelNeverReceived`).

The model follows the code where a reader might expect otherwise:

- One fetch at a time is not enforced. The timer of every iteration fires
  regardless of a pending fetch and replaces it, so `StartFetch` does not
  require that no fetch is pending (`SecondFetchWhilePending`).
- Unsubscribing twice is not idempotent. After the first reply the loop has
  returned, so a second `Unsubscribe` blocks forever on `s.closing`. In the
  model no branch is enabled in the closed state (`CloseIsTerminal`).
- A failed fetch leaves the refresh time as it was. When that time is
  already due, the next timer fires at once: the loop retries without
  backoff (`FailedFetchRecordsError`).

## Model

| member | source | states |
|---|---|---|
| Coordinator.Init | subscription.go:37-42 | the loop starts with an empty queue, no error, the zero refresh time, no channel to receive results on, no channel made yet, and not closed; delivery is disabled and closing is enabled (`FirstFetchDue` shows the first timer fires at once) |
| Coordinator.FetchDelay | subscription.go:53-59 | the delay is never negative; it is 0 exactly when the refresh time is not after now; it never waits past the refresh time; it reaches the refresh time unless the distance exceeds the largest Duration, in which case it is exactly the largest Duration |
| Coordinator.Enabled | subscription.go:48-88 | which `select` branch can be taken: none once the loop has returned; closing exactly while it runs; delivery only with a non-empty queue (a nil `updates` channel blocks); a completion only on the pending `fetchDone` channel (`TimerBranchWaitsForRefresh`, `DeliverPopsFront`, `CompletionOnPending` and `CloseIsTerminal` give each branch's condition in both directions) |
| Coordinator.Complete | subscription.go:78-86 | receiving a result clears `fetchDone`; a failure sets the error and keeps queue and refresh time; a success clears the error, takes the feed's refresh time and appends the feed's items after the old queue (`FailedFetchRecordsError`, `SuccessfulFetchAppends`) |
| Coordinator.Next | subscription.go:63-93 | one iteration: only the close branch ends the loop; at most one channel is made; an item is sent exactly for the delivery branch and it is the front of the queue, the rest staying queued; the close reply is the current error (`FifoOrder` and `CloseRelaysLastError` carry these across runs) |
| Coordinator.Run | subscription.go:44-94 | a run through a schedule of branches yields one output per branch, never decreases the count of channels made, and from a closed state admits no branch (`CloseEndsRun`, `RunKeepsWellFormed`, `ErrorOfLastCompletion`) |
| CoordinatorProps.FirstFetchDue | subscription.go:38-59 | with the zero initial refresh time, the first timer has delay 0, so the first fetch can start at once |
| CoordinatorProps.TimerFiresAtRefreshTime | subscription.go:53-64 | unless the delay saturates, the timer armed at an iteration's start has fired by `now` exactly when the refresh time is not after `now` |
| CoordinatorProps.TimerBranchWaitsForRefresh | subscription.go:53-64 | unless the delay saturates, the timer branch of a running loop can be selected at `now` exactly when the refresh time is not after `now`: no fetch starts before its timer has fired |
| CoordinatorProps.CompletionOnPending | subscription.go:63-78 | a result, whatever it is, can be received exactly on the pending `fetchDone` channel of a running loop |
| CoordinatorProps.StartFetchReplacesPending | subscription.go:64-69 | a fired timer makes a fresh channel that becomes the pending one and starts a fetch; the replaced channel can no longer be received on; nothing else changes |
| CoordinatorProps.DeliverPopsFront | subscription.go:48-76 | delivery is enabled exactly when the loop runs and the queue is non-empty; it yields the front item, the new queue is the rest, nothing else changes |
| CoordinatorProps.FailedFetchRecordsError | subscription.go:78-82 | a failed fetch sets the error to the reported one, keeps queue and refresh time, clears the pending handle and does not end the loop; with the refresh time due, the next timer fires at once |
| CoordinatorProps.SuccessfulFetchAppends | subscription.go:78-86 | a successful fetch keeps the old queue as a prefix and appends the fetched items in order after it, sets the refresh time to the feed's, clears the error and the pending handle |
| CoordinatorProps.CloseIsTerminal | subscription.go:88-92 | closing is enabled exactly while the loop runs; it replies with the current error and reaches a state in which no branch is enabled |
| CoordinatorProps.RunKeepsWellFormed | subscription.go:64-79 | in every reachable state the pending handle is one that was already made |
| CoordinatorProps.FifoOrder | subscription.go:71-86 | FIFO: the initial queue followed by the items of all successful fetches, in completion order, equals the items handed out followed by the current queue |
| CoordinatorProps.ErrorOfLastCompletion | subscription.go:78-86 | after any run the error is that of the last completed fetch (its error, or nil after a success), or the starting error when no fetch completed |
| CoordinatorProps.CloseEndsRun | subscription.go:88-92 | in any run a close request can only be the last event, and the run ends closed exactly when it started closed or ended with the close request |
| CoordinatorProps.CloseRelaysLastError | subscription.go:81-90 | the reply to a close request is the error of the last fetch completed before it |
| CoordinatorProps.ReplacedChannelNeverReceived | subscription.go:64-79 | a channel that was made but is no longer pending is never received on again in any later run |
| CoordinatorProps.SecondFetchWhilePending | subscription.go:55-69 | two timer firings in a row start two fetches: channel 0 is no longer pending and only channel 1 is |
| CoordinatorProps.LastErrorOfFailingFetcher | subscription_test.go:23-27 | with a fetcher that always fails with `e`, the error after a run is `e` once a fetch completed, and unchanged otherwise |
| CoordinatorProps.LastErrorOfEmptyFetcher | subscription_test.go:29-33 | with a fetcher that always succeeds with no items, the error after a run is nil once a fetch completed, and nothing is fetched |
| CoordinatorProps.FailingFetcherRelaysOnClose | subscription_test.go:35-53 | a subscription to an always-failing fetcher, closed after at least one completion, replies with that fetcher's error |
| CoordinatorProps.EmptyFetcherSendsNothing | subscription_test.go:55-70 | a subscription to a fetcher that succeeds with no items never sends an update, keeps an empty queue so delivery stays disabled, and holds no error after a completion; this is what the test means to check, since its `len(sub.Updates())` on an unbuffered channel is always 0 |
| Subscription.Loop.constructor | subscription.go:37-42 | the loop starts with an empty queue, the zero refresh time, no error, no pending fetch, and the FIFO invariant |
| Subscription.Loop.StartFetch | subscription.go:64-69 | a fresh handle becomes the pending fetch; the queue, refresh time and error are unchanged; the result agrees with `Next` |
| Subscription.Loop.Deliver | subscription.go:71-76 | requires a non-empty queue; returns the front item, drops it from the queue and records it as delivered; the FIFO invariant is kept |
| Subscription.Loop.FetchComplete | subscription.go:78-86 | clears the pending handle; on failure sets the error only; on success appends the items, sets the refresh time and clears the error; the FIFO invariant is kept |
| Subscription.Loop.Close | subscription.go:88-92 | replies with the current error and marks the loop closed, changing nothing else |
| Subscription.Loop.Select | subscription.go:45-93 | one iteration takes the branch of the given event and agrees with `Next`; the histories grow by what that branch fetched and handed out |
| Subscription.Loop.Serve | subscription.go:44-94 | the loop over a possible schedule of branches ends in the state and with the outputs of `Run`, stopping after the close reply; the fetched and delivered histories grow accordingly |

## Left out

- Goroutines, channels and the fairness of `select` (subscription.go:63-69, 105): each branch is an event chosen by the caller, and an enabled event can always be chosen.
- The request/reply handshake of `Unsubscribe` over a channel of channels (subscription.go:21, 30-34), and `Updates()` (subscription.go:26-28): only the error the close branch replies with is modelled.
- `Subscribe` (subscription.go:98-107): it makes the channels and starts the goroutine; the model starts from the loop's initial state (`Subscription.Loop.constructor`).
- `time.Now` and `time.After` (subscription.go:53, 61): instants are parameters of the timer event.
- The concrete fetcher `fetcher.Fetch` and `NewFetcher` (fetcher.go:18-30): network I/O and feed parsing in the external `rss` library.
- A result with neither an error nor a feed, which would make the loop dereference a nil feed: `Success` always carries items and a refresh time.
- Which fetch a result comes from (subscription.go:65-68): a fetch goroutine sends on whatever channel `fetchDone` holds when its fetch returns, so the result of a fetch whose channel was replaced can arrive on a newer channel, and a goroutine that finds `fetchDone` nil blocks forever. A handle identifies a channel, not a fetch; a `FetchCompleted` event carries an arbitrary result, which covers results from any earlier fetch, but the model does not tie a result to the fetch that produced it.
- The closing of the item channel (subscription.go:91): the closed state stands for it, and no event is enabled after it.
- The sleeps of the tests (subscription_test.go:12, 43, 62): the test lemmas quantify over all runs that contain a completion.
