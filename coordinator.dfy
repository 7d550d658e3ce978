// The coordinator loop of a subscription (subscription.go, `loop`) as a
// state machine over values. Each `select` branch is one event; the Go
// runtime's choice among ready branches is the choice of the next event, and
// an event whose branch could not be selected is not enabled.
module Coordinator {
  import opened Fetch

  /** Identifies a channel made for `fetchDone`: `make` gives a fresh channel
      each time, so handles are numbered. A handle names a channel, not a
      fetch: each fetch goroutine sends on whatever channel `fetchDone` holds
      when its fetch returns. */
  type Handle = nat

  /** The local variables of `loop` that survive from one iteration to the next. */
  datatype State<Item, Error> = State(
    queue: seq<Item>,              // `items`, delivered from the front
    refreshTime: Time,             // the earliest instant of the next fetch
    err: Option<Error>,            // the error of the last completed fetch
    fetchDone: Option<Handle>,     // the channel the loop receives results on, or nil
    handles: nat,                  // how many fetch channels have been made
    closed: bool)                  // the loop has returned

  /** The `select` branch taken by one iteration. */
  datatype Event<Item, Error> =
    | TimerFired(armedAt: Time, now: Time)            // `<-startFetch`, armed at `armedAt`
    | Received                                        // `updates <- first`
    | FetchCompleted(handle: Handle, result: FetchResult<Item, Error>)  // `<-fetchDone`, from any fetch
    | CloseRequested                                  // `<-s.closing`

  /** What one iteration makes visible outside the loop. */
  datatype Output<Item, Error> =
    | Spawned(handle: Handle)       // a fetch goroutine started, channel `handle` made
    | Sent(item: Item)              // an item handed to the consumer
    | Quiet                         // nothing
    | Replied(err: Option<Error>)   // the error sent back to `Unsubscribe`

  datatype Step<Item, Error> = Step(next: State<Item, Error>, out: Output<Item, Error>)

  datatype Outcome<Item, Error> = Outcome(final: State<Item, Error>, outputs: seq<Output<Item, Error>>)

  /** The state `loop` starts in: no items, the zero refresh time, no error,
      no pending fetch. */
  function Init<Item, Error>(): (s: State<Item, Error>)
    ensures s.queue == [] && s.err == None && s.refreshTime == ZeroTime && !s.closed
    ensures !Enabled(s, Received) && Enabled(s, CloseRequested)
    ensures s.fetchDone == None && s.handles == 0
  {
    State([], ZeroTime, None, None, 0, false)
  }

  /** The delay the timer of an iteration starting at `now` is armed with. */
  function FetchDelay(refreshTime: Time, now: Time): (d: nat)
    ensures d == 0 <==> refreshTime <= now
    ensures d <= MaxDuration
    ensures refreshTime > now ==> now + d <= refreshTime
    ensures refreshTime - now <= MaxDuration ==> refreshTime <= now + d
    ensures refreshTime - now > MaxDuration ==> d == MaxDuration
  {
    if refreshTime > now then
      // `refreshTime.Sub(currentTime)` saturates at the largest Duration
      if refreshTime - now <= MaxDuration then refreshTime - now else MaxDuration
    else
      0
  }

  /** The timer armed at `armedAt` (the iteration's `time.Now()`) has fired by `now`. */
  predicate TimerElapsed(refreshTime: Time, armedAt: Time, now: Time)
  {
    armedAt + FetchDelay(refreshTime, armedAt) <= now
  }

  /** Whether the branch of `e` can be selected in state `s`. */
  function Enabled<Item, Error>(s: State<Item, Error>, e: Event<Item, Error>): (enabled: bool)
    ensures enabled ==> !s.closed
    ensures e.CloseRequested? ==> (enabled <==> !s.closed)
    ensures e.Received? && enabled ==> |s.queue| > 0
    ensures e.FetchCompleted? && enabled ==> s.fetchDone == Some(e.handle)
  {
    !s.closed &&
    match e
    case TimerFired(armedAt, now) => TimerElapsed(s.refreshTime, armedAt, now)
    case Received => |s.queue| > 0
    case FetchCompleted(h, _) => s.fetchDone == Some(h)
    case CloseRequested => true
  }

  /** The state after receiving `r` on `fetchDone`. */
  function Complete<Item, Error>(s: State<Item, Error>, r: FetchResult<Item, Error>): (t: State<Item, Error>)
    ensures t.fetchDone == None && t.handles == s.handles && t.closed == s.closed
    ensures r.Failure? ==> t.err == Some(r.err) && t.queue == s.queue && t.refreshTime == s.refreshTime
    ensures r.Success? ==>
      t.err == None && t.refreshTime == r.refresh && |s.queue| <= |t.queue| && t.queue[..|s.queue|] == s.queue && t.queue[|s.queue|..] == r.items
  {
    match r
    case Failure(e) => s.(fetchDone := None, err := Some(e))
    case Success(items, refresh) =>
      s.(fetchDone := None, err := None, queue := s.queue + items, refreshTime := refresh)
  }

  /** One iteration of the loop that takes the branch of `e`. */
  function Next<Item, Error>(s: State<Item, Error>, e: Event<Item, Error>): (step: Step<Item, Error>)
    requires Enabled(s, e)
    ensures step.next.closed <==> e.CloseRequested?
    ensures s.handles <= step.next.handles <= s.handles + 1
    ensures step.out.Sent? <==> e.Received?
    ensures step.out.Sent? ==> [step.out.item] + step.next.queue == s.queue
    ensures step.out.Replied? ==> step.out.err == s.err
  {
    match e
    case TimerFired(_, _) => Step(s.(fetchDone := Some(s.handles), handles := s.handles + 1), Spawned(s.handles))
    case Received => Step(s.(queue := s.queue[1..]), Sent(s.queue[0]))
    case FetchCompleted(_, r) => Step(Complete(s, r), Quiet)
    case CloseRequested => Step(s.(closed := true), Replied(s.err))
  }

  /** The loop run from `s` through the branches `es`, in order, or None when
      one of them could not have been selected. */
  function Run<Item, Error>(s: State<Item, Error>, es: seq<Event<Item, Error>>): (o: Option<Outcome<Item, Error>>)
    ensures o.Some? ==> |o.value.outputs| == |es|
    ensures o.Some? ==> s.handles <= o.value.final.handles
    ensures o.Some? && s.closed ==> es == []
    decreases |es|
  {
    if es == [] then Some(Outcome(s, []))
    else if !Enabled(s, es[0]) then None
    else
      var step := Next(s, es[0]);
      match Run(step.next, es[1..])
      case None => None
      case Some(rest) => Some(Outcome(rest.final, [step.out] + rest.outputs))
  }

  /** The items a single event brings in: those of a successful fetch. */
  function FetchedBy<Item, Error>(e: Event<Item, Error>): seq<Item>
  {
    if e.FetchCompleted? && e.result.Success? then e.result.items else []
  }

  /** The items of the successful fetch completions in `es`, in completion order. */
  function Fetched<Item, Error>(es: seq<Event<Item, Error>>): seq<Item>
    decreases |es|
  {
    if es == [] then [] else FetchedBy(es[0]) + Fetched(es[1..])
  }

  /** The item a single output hands to the consumer, if any. */
  function DeliveredBy<Item, Error>(o: Output<Item, Error>): seq<Item>
  {
    if o.Sent? then [o.item] else []
  }

  /** The items handed to the consumer in `outs`, in order. */
  function Delivered<Item, Error>(outs: seq<Output<Item, Error>>): seq<Item>
    decreases |outs|
  {
    if outs == [] then [] else DeliveredBy(outs[0]) + Delivered(outs[1..])
  }

  /** The error `err` holds after the completions in `es`, starting from `err0`. */
  function LastError<Item, Error>(err0: Option<Error>, es: seq<Event<Item, Error>>): Option<Error>
    decreases |es|
  {
    if es == [] then err0
    else
      var err1 := if !es[0].FetchCompleted? then err0
                  else if es[0].result.Failure? then Some(es[0].result.err)
                  else None;
      LastError(err1, es[1..])
  }
}
