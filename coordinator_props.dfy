// What the coordinator loop of subscription.go guarantees: one lemma per
// property of a single branch, then properties of whole runs of the loop.
module CoordinatorProps {
  import opened Fetch
  import opened Coordinator

  // ---------------------------------------------------------------------
  // Fetch timing

  /** `refreshTime` starts at the zero time, so the first timer of a loop
      whose clock reads at or after the zero time fires at once. */
  lemma FirstFetchDue<Item, Error>(now: Time)
    requires ZeroTime <= now
    ensures FetchDelay(Init<Item, Error>().refreshTime, now) == 0
    ensures Enabled(Init<Item, Error>(), TimerFired(now, now))
  {
  }

  /** Unless the delay saturates, the timer armed at `armedAt` has fired by
      `now` exactly when the refresh time is not after `now`. */
  lemma TimerFiresAtRefreshTime(refreshTime: Time, armedAt: Time, now: Time)
    requires armedAt <= now
    requires refreshTime - armedAt <= MaxDuration
    ensures TimerElapsed(refreshTime, armedAt, now) <==> refreshTime <= now
  {
  }

  /** The timer branch of a running loop is selectable exactly once the
      refresh time has come (unless the delay saturates): a fetch never
      starts before its timer has fired. */
  lemma TimerBranchWaitsForRefresh<Item, Error>(s: State<Item, Error>, armedAt: Time, now: Time)
    requires armedAt <= now
    requires s.refreshTime - armedAt <= MaxDuration
    ensures Enabled(s, TimerFired(armedAt, now)) <==> !s.closed && s.refreshTime <= now
  {
    TimerFiresAtRefreshTime(s.refreshTime, armedAt, now);
  }

  // ---------------------------------------------------------------------
  // The four branches, one at a time

  /** A fetch can start in every running state whose timer has fired; it
      always makes a fresh channel that replaces the pending one, so the
      replaced channel can no longer be received on. */
  lemma StartFetchReplacesPending<Item, Error>(s: State<Item, Error>, armedAt: Time, now: Time, r: FetchResult<Item, Error>)
    requires WellFormed(s)
    requires Enabled(s, TimerFired(armedAt, now))
    ensures var step := Next(s, TimerFired(armedAt, now));
      && step.out == Spawned(s.handles)
      && step.next.fetchDone == Some(s.handles)
      && (forall h :: s.fetchDone == Some(h) ==> !Enabled(step.next, FetchCompleted(h, r)))
      && step.next.(fetchDone := s.fetchDone, handles := s.handles) == s
      && WellFormed(step.next)
  {
  }

  /** Delivery is possible exactly when the loop runs with a non-empty
      queue; it hands out the front item and removes it, and changes
      nothing else. */
  lemma DeliverPopsFront<Item, Error>(s: State<Item, Error>)
    ensures Enabled(s, Received) <==> !s.closed && s.queue != []
    ensures Enabled(s, Received) ==>
      var step := Next(s, Received);
      && step.out.Sent?
      && [step.out.item] + step.next.queue == s.queue
      && step.next.(queue := s.queue) == s
  {
  }

  /** A failed fetch records its error, keeps the queue and the refresh
      time, clears the pending handle and does not end the loop; with the
      refresh time already due, the next timer fires at once. */
  lemma FailedFetchRecordsError<Item, Error>(s: State<Item, Error>, h: Handle, e: Error, now: Time)
    requires Enabled(s, FetchCompleted(h, Failure(e)))
    ensures var step := Next(s, FetchCompleted(h, Failure(e)));
      && step.next.err == Some(e)
      && step.next.queue == s.queue
      && step.next.refreshTime == s.refreshTime
      && step.next.fetchDone == None
      && !step.next.closed
      && step.out == Quiet
      && (s.refreshTime <= now ==> Enabled(step.next, TimerFired(now, now)))
  {
  }

  /** A successful fetch appends its items, in their order, after the
      queued ones, takes the feed's refresh time, clears the error and the
      pending handle. */
  lemma SuccessfulFetchAppends<Item, Error>(s: State<Item, Error>, h: Handle, items: seq<Item>, refresh: Time)
    requires Enabled(s, FetchCompleted(h, Success(items, refresh)))
    ensures var step := Next(s, FetchCompleted(h, Success(items, refresh)));
      && step.next.queue[..|s.queue|] == s.queue
      && step.next.queue[|s.queue|..] == items
      && step.next.refreshTime == refresh
      && step.next.err == None
      && step.next.fetchDone == None
      && !step.next.closed
      && step.out == Quiet
  {
  }

  /** Closing replies with the current error and reaches a state from which
      no branch can be taken. */
  lemma CloseIsTerminal<Item, Error>(s: State<Item, Error>, e: Event<Item, Error>)
    ensures Enabled(s, CloseRequested) <==> !s.closed
    ensures Enabled(s, CloseRequested) ==>
      && Next(s, CloseRequested).out == Replied(s.err)
      && Next(s, CloseRequested).next.closed
      && !Enabled(Next(s, CloseRequested).next, e)
  {
  }

  /** A result can be received exactly on the pending `fetchDone` channel
      of a running loop, whatever the result is. */
  lemma CompletionOnPending<Item, Error>(s: State<Item, Error>, h: Handle, r: FetchResult<Item, Error>)
    ensures Enabled(s, FetchCompleted(h, r)) <==> !s.closed && s.fetchDone == Some(h)
  {
  }

  // ---------------------------------------------------------------------
  // Runs of the loop

  /** Every pending handle was made before: it is below the count of made handles. */
  ghost predicate WellFormed<Item, Error>(s: State<Item, Error>)
  {
    s.fetchDone.Some? ==> s.fetchDone.value < s.handles
  }

  /** Running through `es` and then through `fs` is running through `es + fs`. */
  lemma {:induction false} RunAppend<Item, Error>(s: State<Item, Error>, es: seq<Event<Item, Error>>, fs: seq<Event<Item, Error>>)
    ensures Run(s, es + fs) ==
      match Run(s, es)
      case None => None
      case Some(o) =>
        match Run(o.final, fs)
        case None => None
        case Some(p) => Some(Outcome(p.final, o.outputs + p.outputs))
    decreases |es|
  {
    if es == [] {
      assert es + fs == fs;
      match Run(s, fs)
      case None =>
      case Some(p) => assert [] + p.outputs == p.outputs;
    } else {
      assert (es + fs)[0] == es[0];
      assert (es + fs)[1..] == es[1..] + fs;
      if Enabled(s, es[0]) {
        var step := Next(s, es[0]);
        RunAppend(step.next, es[1..], fs);
        match Run(step.next, es[1..])
        case None =>
        case Some(o) =>
          match Run(o.final, fs)
          case None =>
          case Some(p) =>
            assert [step.out] + (o.outputs + p.outputs) == ([step.out] + o.outputs) + p.outputs;
      }
    }
  }

  /** The items fetched in `es + fs` are those fetched in `es`, then in `fs`. */
  lemma {:induction false} FetchedAppend<Item, Error>(es: seq<Event<Item, Error>>, fs: seq<Event<Item, Error>>)
    ensures Fetched(es + fs) == Fetched(es) + Fetched(fs)
    decreases |es|
  {
    if es == [] {
      assert es + fs == fs;
    } else {
      assert (es + fs)[0] == es[0] && (es + fs)[1..] == es[1..] + fs;
      FetchedAppend(es[1..], fs);
    }
  }

  /** The items handed out by `a + b` are those handed out by `a`, then by `b`. */
  lemma {:induction false} DeliveredAppend<Item, Error>(a: seq<Output<Item, Error>>, b: seq<Output<Item, Error>>)
    ensures Delivered(a + b) == Delivered(a) + Delivered(b)
    decreases |a|
  {
    if a == [] {
      assert a + b == b;
    } else {
      assert (a + b)[0] == a[0] && (a + b)[1..] == a[1..] + b;
      DeliveredAppend(a[1..], b);
    }
  }

  /** A run through a non-empty `es` takes the branch of `es[0]` first. */
  lemma RunUnfold<Item, Error>(s: State<Item, Error>, es: seq<Event<Item, Error>>)
    requires es != [] && Run(s, es).Some?
    ensures Enabled(s, es[0])
    ensures Run(Next(s, es[0]).next, es[1..]).Some?
    ensures var rest := Run(Next(s, es[0]).next, es[1..]).value;
      Run(s, es).value == Outcome(rest.final, [Next(s, es[0]).out] + rest.outputs)
  {
  }

  /** A run through a prefix of a possible run can take the next branch of
      that run: the prefix grows by one event and one output. */
  lemma RunPrefixStep<Item, Error>(s: State<Item, Error>, es: seq<Event<Item, Error>>, i: nat, t: State<Item, Error>, outs: seq<Output<Item, Error>>)
    requires Run(s, es).Some?
    requires i < |es| && Run(s, es[..i]) == Some(Outcome(t, outs))
    ensures Enabled(t, es[i])
    ensures Run(s, es[..i + 1]) == Some(Outcome(Next(t, es[i]).next, outs + [Next(t, es[i]).out]))
  {
    assert es[..i] + es[i..] == es;
    RunAppend(s, es[..i], es[i..]);
    RunUnfold(t, es[i..]);
    assert es[i..][0] == es[i];
    assert es[..i + 1] == es[..i] + [es[i]];
    RunAppend(s, es[..i], [es[i]]);
    var step := Next(t, es[i]);
    assert [es[i]][1..] == [];
    assert Run(t, [es[i]]) == Some(Outcome(step.next, [step.out] + []));
    assert [step.out] + [] == [step.out];
  }

  /** Every state the loop reaches from a well-formed one is well-formed. */
  lemma {:induction false} RunKeepsWellFormed<Item, Error>(s: State<Item, Error>, es: seq<Event<Item, Error>>)
    requires WellFormed(s)
    requires Run(s, es).Some?
    ensures WellFormed(Run(s, es).value.final)
    decreases |es|
  {
    if es != [] {
      RunKeepsWellFormed(Next(s, es[0]).next, es[1..]);
    }
  }

  /** FIFO: what was queued, followed by the items of every successful fetch
      in completion order, is what was handed out followed by what is still
      queued. From the initial state: the items delivered so far, then the
      queue, are the successful fetches' items in completion order. */
  lemma {:induction false} FifoOrder<Item, Error>(s: State<Item, Error>, es: seq<Event<Item, Error>>)
    requires Run(s, es).Some?
    ensures s.queue + Fetched(es) == Delivered(Run(s, es).value.outputs) + Run(s, es).value.final.queue
    decreases |es|
  {
    if es != [] {
      var step := Next(s, es[0]);
      RunUnfold(s, es);
      var rest := Run(step.next, es[1..]).value;
      FifoOrder(step.next, es[1..]);
      StepFifo(s, es[0]);
      var outs := [step.out] + rest.outputs;
      assert outs[0] == step.out && outs[1..] == rest.outputs;
      assert Fetched(es) == FetchedBy(es[0]) + Fetched(es[1..]);
      assert Delivered(outs) == DeliveredBy(step.out) + Delivered(rest.outputs);
      Rebalance(s.queue, FetchedBy(es[0]), Fetched(es[1..]), DeliveredBy(step.out), step.next.queue,
                Delivered(rest.outputs), rest.final.queue);
    }
  }

  /** Two balances chained: what was queued plus what came in equals what
      went out plus what is queued, across two steps. */
  lemma Rebalance<T>(q0: seq<T>, in1: seq<T>, in2: seq<T>, out1: seq<T>, q1: seq<T>, out2: seq<T>, q2: seq<T>)
    requires q0 + in1 == out1 + q1
    requires q1 + in2 == out2 + q2
    ensures q0 + (in1 + in2) == (out1 + out2) + q2
  {
    calc {
      q0 + (in1 + in2);
      (q0 + in1) + in2;
      (out1 + q1) + in2;
      out1 + (q1 + in2);
      out1 + (out2 + q2);
      (out1 + out2) + q2;
    }
  }

  /** One branch keeps the FIFO balance: the queue plus what the branch
      fetched is what it handed out plus the new queue. */
  lemma StepFifo<Item, Error>(s: State<Item, Error>, e: Event<Item, Error>)
    requires Enabled(s, e)
    ensures s.queue + FetchedBy(e) == DeliveredBy(Next(s, e).out) + Next(s, e).next.queue
  {
  }

  /** The error the loop holds is that of the last completed fetch: the
      fetch's error after a failure, nil after a success, and the starting
      value when no fetch completed. */
  lemma {:induction false} ErrorOfLastCompletion<Item, Error>(s: State<Item, Error>, es: seq<Event<Item, Error>>)
    requires Run(s, es).Some?
    ensures Run(s, es).value.final.err == LastError(s.err, es)
    decreases |es|
  {
    if es != [] {
      ErrorOfLastCompletion(Next(s, es[0]).next, es[1..]);
    }
  }

  /** Once closed, the loop takes no branch: in any run, a close request can
      only be the last event, and the run ends closed exactly when it started
      closed (and is empty) or its last event was the close request. */
  lemma {:induction false} CloseEndsRun<Item, Error>(s: State<Item, Error>, es: seq<Event<Item, Error>>)
    requires Run(s, es).Some?
    ensures forall i :: 0 <= i < |es| - 1 ==> !es[i].CloseRequested?
    ensures Run(s, es).value.final.closed <==> s.closed || (es != [] && es[|es| - 1].CloseRequested?)
    decreases |es|
  {
    if es != [] {
      var t := Next(s, es[0]).next;
      CloseEndsRun(t, es[1..]);
      if es[0].CloseRequested? && |es| > 1 {
        assert false;
      }
      forall i | 0 <= i < |es| - 1
        ensures !es[i].CloseRequested?
      {
        if i > 0 {
          assert es[i] == es[1..][i - 1];
        }
      }
    }
  }

  /** `Unsubscribe` learns the error of the last fetch completed before the
      close request: the close branch replies with `LastError`. */
  lemma CloseRelaysLastError<Item, Error>(s: State<Item, Error>, es: seq<Event<Item, Error>>)
    requires Run(s, es + [CloseRequested]).Some?
    ensures var outs := Run(s, es + [CloseRequested]).value.outputs;
      |outs| == |es| + 1 && outs[|es|] == Replied(LastError(s.err, es))
  {
    RunAppend(s, es, [CloseRequested]);
    ErrorOfLastCompletion(s, es);
  }

  /** A channel that was made but is no longer pending is never received on
      again. (The result of the fetch it was made for can still arrive, on a
      newer channel: the goroutine sends on whatever `fetchDone` then holds.) */
  lemma {:induction false} ReplacedChannelNeverReceived<Item, Error>(s: State<Item, Error>, es: seq<Event<Item, Error>>, h: Handle)
    requires h < s.handles && s.fetchDone != Some(h)
    requires Run(s, es).Some?
    ensures forall i :: 0 <= i < |es| && es[i].FetchCompleted? ==> es[i].handle != h
    decreases |es|
  {
    if es != [] {
      ReplacedChannelNeverReceived(Next(s, es[0]).next, es[1..], h);
      forall i | 0 <= i < |es| && es[i].FetchCompleted?
        ensures es[i].handle != h
      {
        if i > 0 {
          assert es[i] == es[1..][i - 1];
        }
      }
    }
  }

  /** The loop does not keep to one fetch at a time: while the first fetch is
      outstanding, a timer that has fired starts a second one, and channel 0
      is no longer pending. */
  lemma SecondFetchWhilePending<Item, Error>()
    ensures var es: seq<Event<Item, Error>> := [TimerFired(0, 0), TimerFired(0, 0)];
      && Run(Init(), es).Some?
      && Run(Init(), es).value.outputs == [Spawned(0), Spawned(1)]
      && Run(Init(), es).value.final.fetchDone == Some(1)
  {
  }

  // ---------------------------------------------------------------------
  // The fetchers of the tests

  /** Every fetch in `es` that completes fails with `e`. */
  ghost predicate AllFail<Item, Error>(es: seq<Event<Item, Error>>, e: Error)
  {
    forall i :: 0 <= i < |es| && es[i].FetchCompleted? ==> es[i].result == Failure(e)
  }

  /** Every fetch in `es` that completes succeeds with no items. */
  ghost predicate AllEmpty<Item, Error>(es: seq<Event<Item, Error>>)
  {
    forall i :: 0 <= i < |es| && es[i].FetchCompleted? ==> es[i].result.Success? && es[i].result.items == []
  }

  /** Some fetch in `es` completes. */
  ghost predicate SomeCompletion<Item, Error>(es: seq<Event<Item, Error>>)
  {
    exists i :: 0 <= i < |es| && es[i].FetchCompleted?
  }

  /** With a fetcher that always fails with `e`, once a fetch has completed
      the loop holds `e`; without a completion it holds its starting error. */
  lemma {:induction false} LastErrorOfFailingFetcher<Item, Error>(err0: Option<Error>, es: seq<Event<Item, Error>>, e: Error)
    requires AllFail(es, e)
    ensures LastError(err0, es) == if SomeCompletion(es) then Some(e) else err0
    decreases |es|
  {
    if es != [] {
      var err1 := if !es[0].FetchCompleted? then err0 else Some(e);
      assert AllFail(es[1..], e) by {
        forall i | 0 <= i < |es[1..]| && es[1..][i].FetchCompleted?
          ensures es[1..][i].result == Failure(e)
        {
          assert es[1..][i] == es[i + 1];
        }
      }
      LastErrorOfFailingFetcher(err1, es[1..], e);
      SomeCompletionUnfold(es);
    }
  }

  /** With a fetcher that always succeeds, once a fetch has completed the
      loop holds no error. */
  lemma {:induction false} LastErrorOfEmptyFetcher<Item, Error>(err0: Option<Error>, es: seq<Event<Item, Error>>)
    requires AllEmpty(es)
    ensures LastError(err0, es) == if SomeCompletion(es) then None else err0
    ensures Fetched(es) == []
    decreases |es|
  {
    if es != [] {
      var err1 := if !es[0].FetchCompleted? then err0 else None;
      assert AllEmpty(es[1..]) by {
        forall i | 0 <= i < |es[1..]| && es[1..][i].FetchCompleted?
          ensures es[1..][i].result.Success? && es[1..][i].result.items == []
        {
          assert es[1..][i] == es[i + 1];
        }
      }
      LastErrorOfEmptyFetcher(err1, es[1..]);
      SomeCompletionUnfold(es);
    }
  }

  /** A completion occurs in `es` when it is its first event or occurs in the rest. */
  lemma SomeCompletionUnfold<Item, Error>(es: seq<Event<Item, Error>>)
    requires es != []
    ensures SomeCompletion(es) <==> es[0].FetchCompleted? || SomeCompletion(es[1..])
  {
  }

  /** No item is handed out by outputs that deliver nothing. */
  lemma {:induction false} NothingDelivered<Item, Error>(outs: seq<Output<Item, Error>>)
    requires Delivered(outs) == []
    ensures forall i :: 0 <= i < |outs| ==> !outs[i].Sent?
    decreases |outs|
  {
    if outs != [] {
      NothingDelivered(outs[1..]);
      forall i | 0 <= i < |outs|
        ensures !outs[i].Sent?
      {
        if i > 0 {
          assert outs[i] == outs[1..][i - 1];
        }
      }
    }
  }

  /** A subscription to a fetcher that always fails with `e` relays `e` on
      close once a fetch has completed. */
  lemma FailingFetcherRelaysOnClose<Item, Error>(es: seq<Event<Item, Error>>, e: Error)
    requires AllFail(es, e) && SomeCompletion(es)
    requires Run(Init(), es + [CloseRequested]).Some?
    ensures var outs := Run(Init(), es + [CloseRequested]).value.outputs;
      |outs| == |es| + 1 && outs[|es|] == Replied(Some(e))
  {
    CloseRelaysLastError(Init(), es);
    LastErrorOfFailingFetcher(Init<Item, Error>().err, es, e);
  }

  /** A subscription to a fetcher that always succeeds with no items never
      sends an update, its queue stays empty so delivery stays disabled, and
      once a fetch has completed it holds no error. */
  lemma EmptyFetcherSendsNothing<Item, Error>(es: seq<Event<Item, Error>>)
    requires AllEmpty(es)
    requires Run(Init(), es).Some?
    ensures var o := Run(Init(), es).value;
      && (forall i :: 0 <= i < |o.outputs| ==> !o.outputs[i].Sent?)
      && o.final.queue == []
      && !Enabled(o.final, Received)
      && (SomeCompletion(es) ==> o.final.err == None)
  {
    var o := Run(Init(), es).value;
    FifoOrder(Init(), es);
    LastErrorOfEmptyFetcher(Init<Item, Error>().err, es);
    ErrorOfLastCompletion(Init(), es);
    assert Delivered(o.outputs) + o.final.queue == [];
    NothingDelivered(o.outputs);
  }
}
