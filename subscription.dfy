// The coordinator loop of subscription.go as the object that owns its
// state: one method per `select` branch, and `Serve`, the `for`/`select`
// loop itself, driven by the branches the Go runtime happens to select.
module Subscription {
  import opened Fetch
  import opened Coordinator
  import opened CoordinatorProps

  /** A history extended by one step is the base followed by the longer record. */
  lemma Extend<T>(base: seq<T>, sofar: seq<T>, step: seq<T>, whole: seq<T>, before: seq<T>, after: seq<T>)
    requires before == base + sofar && after == before + step && whole == sofar + step
    ensures after == base + whole
  {
  }

  class Loop<Item, Error> {
    var queue: seq<Item>          // `items`
    var refreshTime: Time
    var err: Option<Error>
    var fetchDone: Option<Handle>
    var handles: nat              // fetch channels made so far
    var closed: bool

    ghost var delivered: seq<Item>  // every item handed out on `updates`, in order
    ghost var fetched: seq<Item>    // the items of every successful fetch, in completion order

    /** FIFO: the items handed out, then the queue, are the fetched items;
        and the pending handle is one already made. */
    ghost predicate Valid()
      reads this
    {
      delivered + queue == fetched && WellFormed(Snapshot())
    }

    /** The loop's variables as a value of the state machine. */
    function Snapshot(): State<Item, Error>
      reads this
    {
      State(queue, refreshTime, err, fetchDone, handles, closed)
    }

    /** The variables `loop` declares before its first iteration. */
    constructor ()
      ensures Valid() && Snapshot() == Init()
      ensures queue == [] && refreshTime == ZeroTime && err == None && fetchDone == None && !closed
      ensures delivered == [] && fetched == []
    {
      queue := [];
      refreshTime := ZeroTime;
      err := None;
      fetchDone := None;
      handles := 0;
      closed := false;
      delivered := [];
      fetched := [];
    }

    /** The timer armed at `armedAt` has fired by `now`: make a fresh
        `fetchDone` channel, which replaces the pending one, and start a fetch. */
    method StartFetch(armedAt: Time, now: Time) returns (h: Handle)
      requires Valid() && !closed
      requires TimerElapsed(refreshTime, armedAt, now)
      modifies this
      ensures Valid()
      ensures h == old(handles) && fetchDone == Some(h) && handles == old(handles) + 1
      ensures queue == old(queue) && refreshTime == old(refreshTime) && err == old(err) && !closed
      ensures delivered == old(delivered) && fetched == old(fetched)
      ensures Step(Snapshot(), Spawned(h)) == Next(old(Snapshot()), TimerFired(armedAt, now))
    {
      h := handles;
      fetchDone := Some(h);
      handles := handles + 1;
    }

    /** The consumer takes the front item, which leaves the queue. */
    method Deliver() returns (item: Item)
      requires Valid() && !closed && |queue| > 0
      modifies this
      ensures Valid()
      ensures item == old(queue)[0] && queue == old(queue)[1..]
      ensures refreshTime == old(refreshTime) && err == old(err) && fetchDone == old(fetchDone)
      ensures handles == old(handles) && !closed
      ensures delivered == old(delivered) + [item] && fetched == old(fetched)
      ensures Step(Snapshot(), Sent(item)) == Next(old(Snapshot()), Received)
    {
      item := queue[0];
      queue := queue[1..];
      delivered := delivered + [item];
      assert old(queue) == [item] + queue;
    }

    /** The pending fetch reports `r` on channel `h`. */
    method FetchComplete(h: Handle, r: FetchResult<Item, Error>)
      requires Valid() && !closed && fetchDone == Some(h)
      modifies this
      ensures Valid()
      ensures fetchDone == None && handles == old(handles) && !closed
      ensures r.Failure? ==>
        err == Some(r.err) && queue == old(queue) && refreshTime == old(refreshTime) && fetched == old(fetched)
      ensures r.Success? ==>
        err == None && queue == old(queue) + r.items && refreshTime == r.refresh
        && fetched == old(fetched) + r.items
      ensures delivered == old(delivered)
      ensures Step(Snapshot(), Quiet) == Next(old(Snapshot()), FetchCompleted(h, r))
    {
      fetchDone := None;
      match r
      case Failure(e) =>
        err := Some(e);
      case Success(items, refresh) =>
        err := None;
        queue := queue + items;
        refreshTime := refresh;
        fetched := fetched + items;
        assert delivered + queue == (delivered + old(queue)) + items;
    }

    /** An `Unsubscribe` request: reply with the current error and stop. */
    method Close() returns (reply: Option<Error>)
      requires Valid() && !closed
      modifies this
      ensures Valid()
      ensures reply == old(err) && closed
      ensures queue == old(queue) && refreshTime == old(refreshTime) && err == old(err)
      ensures fetchDone == old(fetchDone) && handles == old(handles)
      ensures delivered == old(delivered) && fetched == old(fetched)
      ensures Step(Snapshot(), Replied(reply)) == Next(old(Snapshot()), CloseRequested)
    {
      reply := err;
      closed := true;
    }

    /** One iteration of the loop: the `select` takes the branch of `e`. */
    method Select(e: Event<Item, Error>) returns (out: Output<Item, Error>)
      requires Valid() && Enabled(Snapshot(), e)
      modifies this
      ensures Valid()
      ensures Step(Snapshot(), out) == Next(old(Snapshot()), e)
      ensures fetched == old(fetched) + Fetched([e])
      ensures delivered == old(delivered) + Delivered([out])
    {
      assert [e][1..] == [];
      match e {
        case TimerFired(armedAt, now) =>
          var h := StartFetch(armedAt, now);
          out := Spawned(h);
        case Received =>
          var item := Deliver();
          out := Sent(item);
        case FetchCompleted(h, r) =>
          FetchComplete(h, r);
          out := Quiet;
        case CloseRequested =>
          var reply := Close();
          out := Replied(reply);
      }
      assert [out][1..] == [];
    }

    /** The `for`/`select` loop, taking the branches of `schedule` in order
        and returning once the close branch has replied. */
    method Serve(schedule: seq<Event<Item, Error>>) returns (outs: seq<Output<Item, Error>>)
      requires Valid()
      requires Run(Snapshot(), schedule).Some?
      modifies this
      ensures Valid()
      ensures Outcome(Snapshot(), outs) == Run(old(Snapshot()), schedule).value
      ensures fetched == old(fetched) + Fetched(schedule)
      ensures delivered == old(delivered) + Delivered(outs)
    {
      ghost var start := Snapshot();
      CloseEndsRun(start, schedule);
      outs := [];
      var i := 0;
      assert schedule[..0] == [];
      while i < |schedule|
        invariant 0 <= i <= |schedule|
        invariant Valid()
        invariant Run(start, schedule[..i]) == Some(Outcome(Snapshot(), outs))
        invariant fetched == old(fetched) + Fetched(schedule[..i])
        invariant delivered == old(delivered) + Delivered(outs)
        decreases |schedule| - i
      {
        ghost var fetchedBefore, deliveredBefore, done := fetched, delivered, outs;
        RunPrefixStep(start, schedule, i, Snapshot(), outs);
        assert schedule[..i + 1] == schedule[..i] + [schedule[i]];
        FetchedAppend(schedule[..i], [schedule[i]]);
        var out := Select(schedule[i]);
        outs := outs + [out];
        DeliveredAppend(done, [out]);
        Extend(old(fetched), Fetched(schedule[..i]), Fetched([schedule[i]]), Fetched(schedule[..i + 1]), fetchedBefore, fetched);
        Extend(old(delivered), Delivered(done), Delivered([out]), Delivered(outs), deliveredBefore, delivered);
        i := i + 1;
        if out.Replied? {
          // the close branch returns: no branch can follow it
          assert schedule[i - 1].CloseRequested?;
          break;
        }
      }
      assert schedule[..i] == schedule;
    }
  }
}
