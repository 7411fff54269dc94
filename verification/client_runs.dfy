/** Properties of whole runs of the client sync engine: the invariant every
    event keeps, the alternation of typing pushes and of connection
    notifications, and the linear reconnect backoff. */
module ClientRuns {
  import opened ChatTypes
  import opened ClientEngine

  /** `bs` alternates between the two flags, beginning with `first`. */
  predicate Alternates(bs: seq<bool>, first: bool)
    decreases |bs|
  {
    |bs| == 0 || (bs[0] == first && Alternates(bs[1..], !first))
  }

  /** The last flag of `bs`, or `b` when there is none. */
  function LastOr(bs: seq<bool>, b: bool): bool {
    if |bs| == 0 then b else bs[|bs| - 1]
  }

  /** Every run keeps the engine's invariant. */
  lemma {:induction false} RunKeepsInv(c: Client, evs: seq<Event>)
    requires Inv(c)
    ensures Inv(Run(c, evs).state)
    decreases |evs|
  {
    if evs != [] {
      RunKeepsInv(Step(c, evs[0]).state, evs[1..]);
    }
  }

  /** The typing flags pushed during any run alternate, beginning with the
      opposite of the local flag, and the local flag ends equal to the last
      flag pushed. */
  lemma {:induction false} TypingPushesAlternate(c: Client, evs: seq<Event>)
    ensures var r := Run(c, evs);
      && Alternates(TypingPushes(r.outputs), !c.isCurrentlyTyping)
      && r.state.isCurrentlyTyping == LastOr(TypingPushes(r.outputs), c.isCurrentlyTyping)
    decreases |evs|
  {
    if evs != [] {
      var t := Step(c, evs[0]);
      var rest := Run(t.state, evs[1..]);
      TypingPushesAlternate(t.state, evs[1..]);
      assert Run(c, evs) == Transition(rest.state, t.outputs + rest.outputs);
      PickConcat(t.outputs, rest.outputs, TypingPushOf);
      var tail := TypingPushes(rest.outputs);
      assert TypingPushes(Run(c, evs).outputs) == Flip(c.isCurrentlyTyping, t.state.isCurrentlyTyping) + tail;
      if t.state.isCurrentlyTyping != c.isCurrentlyTyping {
        var all := [t.state.isCurrentlyTyping] + tail;
        assert all[0] == !c.isCurrentlyTyping;
        assert all[1..] == tail;
        assert Alternates(all, !c.isCurrentlyTyping);
        assert LastOr(all, c.isCurrentlyTyping) == LastOr(tail, t.state.isCurrentlyTyping);
      } else {
        assert Flip(c.isCurrentlyTyping, t.state.isCurrentlyTyping) + tail == tail;
      }
    }
  }

  /** From a fresh manager the first typing push is `true`. */
  lemma FirstTypingPushIsTrue(evs: seq<Event>)
    ensures Alternates(TypingPushes(Run(Initial, evs).outputs), true)
  {
    TypingPushesAlternate(Initial, evs);
  }

  predicate NoDisconnect(evs: seq<Event>) {
    forall i :: 0 <= i < |evs| ==> !evs[i].Disconnect?
  }

  /** In a run without `disconnect`, connection notifications alternate,
      beginning with the opposite of the current connection flag, and the
      flag ends equal to the last notification. */
  lemma {:induction false} NotificationsAlternate(c: Client, evs: seq<Event>)
    requires NoDisconnect(evs)
    ensures var r := Run(c, evs);
      && Alternates(Notifications(r.outputs), !c.isConnected)
      && r.state.isConnected == LastOr(Notifications(r.outputs), c.isConnected)
    decreases |evs|
  {
    if evs != [] {
      var t := Step(c, evs[0]);
      var rest := Run(t.state, evs[1..]);
      assert NoDisconnect(evs[1..]) by {
        forall i | 0 <= i < |evs[1..]| ensures !evs[1..][i].Disconnect? {
          assert evs[1..][i] == evs[i + 1];
        }
      }
      NotificationsAlternate(t.state, evs[1..]);
      assert Run(c, evs) == Transition(rest.state, t.outputs + rest.outputs);
      PickConcat(t.outputs, rest.outputs, NotificationOf);
      var tail := Notifications(rest.outputs);
      assert !evs[0].Disconnect?;
      assert Notifications(Run(c, evs).outputs) == Flip(c.isConnected, t.state.isConnected) + tail;
      if t.state.isConnected != c.isConnected {
        var all := [t.state.isConnected] + tail;
        assert all[0] == !c.isConnected;
        assert all[1..] == tail;
        assert Alternates(all, !c.isConnected);
        assert LastOr(all, c.isConnected) == LastOr(tail, t.state.isConnected);
      } else {
        assert Flip(c.isConnected, t.state.isConnected) + tail == tail;
      }
    }
  }

  /** `disconnect` clears the connection flag silently, so a later reconnect
      notifies `true` twice in a row: notifications alternate only between
      disconnects. */
  lemma DisconnectRepeatsConnected()
    ensures var quiet := PollData(None, None, None, None);
      var evs := [Connect("ann", 1), PollSucceeded(quiet), Disconnect("ann"), Connect("ann", 2), PollSucceeded(quiet)];
      Notifications(Run(Initial, evs).outputs) == [true, true]
  {
    var quiet := PollData(None, None, None, None);
    var evs := [Connect("ann", 1), PollSucceeded(quiet), Disconnect("ann"), Connect("ann", 2), PollSucceeded(quiet)];
    var c1 := Step(Initial, evs[0]);
    var c2 := Step(c1.state, evs[1]);
    var c3 := Step(c2.state, evs[2]);
    var c4 := Step(c3.state, evs[3]);
    var c5 := Step(c4.state, evs[4]);
    assert Run(c5.state, evs[5..]) == Transition(c5.state, []);
    assert Run(c4.state, evs[4..]).outputs == c5.outputs;
    assert Run(c3.state, evs[3..]).outputs == c4.outputs + c5.outputs;
    assert Run(c2.state, evs[2..]).outputs == c3.outputs + (c4.outputs + c5.outputs);
    assert Run(c1.state, evs[1..]).outputs == c2.outputs + (c3.outputs + (c4.outputs + c5.outputs));
    var all := c1.outputs + (c2.outputs + (c3.outputs + (c4.outputs + c5.outputs)));
    assert Run(Initial, evs).outputs == all;
    PickConcat(c4.outputs, c5.outputs, NotificationOf);
    PickConcat(c3.outputs, c4.outputs + c5.outputs, NotificationOf);
    PickConcat(c2.outputs, c3.outputs + (c4.outputs + c5.outputs), NotificationOf);
    PickConcat(c1.outputs, c2.outputs + (c3.outputs + (c4.outputs + c5.outputs)), NotificationOf);
  }

  /** Only `disconnect` disarms the poll interval: repeated failures, even at
      the reconnect cap, leave the engine polling on every tick. */
  lemma {:induction false} PollingSurvivesFailures(c: Client, evs: seq<Event>)
    requires c.polling && NoDisconnect(evs)
    ensures Run(c, evs).state.polling
    ensures OnTick(Run(c, evs).state).outputs == [PollRequest(Run(c, evs).state.username, Run(c, evs).state.lastTimestamp)]
    decreases |evs|
  {
    if evs != [] {
      assert NoDisconnect(evs[1..]) by {
        forall i | 0 <= i < |evs[1..]| ensures !evs[1..][i].Disconnect? {
          assert evs[1..][i] == evs[i + 1];
        }
      }
      PollingSurvivesFailures(Step(c, evs[0]).state, evs[1..]);
    }
  }

  /** `n` poll failures in a row. */
  function Failures(n: nat): (r: seq<Event>)
    ensures |r| == n && forall i :: 0 <= i < n ==> r[i] == PollFailed
  {
    seq(n, _ => PollFailed)
  }

  /** The reconnect delays of attempts `a + 1` through `a + k`. */
  function Backoffs(a: nat, k: nat): (r: seq<int>)
    ensures |r| == k
  {
    seq(k, i => ReconnectStepMs * (a + i + 1))
  }

  function Min(x: int, y: int): int { if x <= y then x else y }

  lemma BackoffsCons(a: nat, k: nat)
    requires k > 0
    ensures Backoffs(a, k) == [ReconnectStepMs * (a + 1)] + Backoffs(a + 1, k - 1)
  {
    var l := Backoffs(a, k);
    var r := [ReconnectStepMs * (a + 1)] + Backoffs(a + 1, k - 1);
    forall i | 0 <= i < k
      ensures l[i] == r[i]
    {
      if i > 0 {
        assert r[i] == Backoffs(a + 1, k - 1)[i - 1];
      }
    }
  }

  /** One scheduled restart followed by the next `k - 1` backoffs is the
      schedule of `k` attempts. */
  lemma RestartsCons(first: seq<Output>, rest: seq<Output>, a: nat, k: nat)
    requires k > 0
    requires Restarts(first) == [ReconnectStepMs * (a + 1)]
    requires Restarts(rest) == Backoffs(a + 1, k - 1)
    ensures Restarts(first + rest) == Backoffs(a, k)
  {
    PickConcat(first, rest, RestartOf);
    BackoffsCons(a, k);
  }

  /** A run of `n > 0` failures is one failure followed by `n - 1` more. */
  lemma FailuresUnfold(c: Client, n: nat)
    requires n > 0
    ensures var t := OnPollFailure(c);
      var rest := Run(t.state, Failures(n - 1));
      Run(c, Failures(n)) == Transition(rest.state, t.outputs + rest.outputs)
  {
    var evs := Failures(n);
    assert evs[0] == PollFailed;
    assert Step(c, evs[0]) == OnPollFailure(c);
    assert evs[1..] == Failures(n - 1);
  }

  /** `n` failures in a row, applied directly to the failure path. */
  function FailureRun(c: Client, n: nat): Transition
    decreases n
  {
    if n == 0 then Transition(c, [])
    else
      var t := OnPollFailure(c);
      var rest := FailureRun(t.state, n - 1);
      Transition(rest.state, t.outputs + rest.outputs)
  }

  lemma {:induction false} FailureRunIsRun(c: Client, n: nat)
    ensures Run(c, Failures(n)) == FailureRun(c, n)
    decreases n
  {
    if n == 0 {
      assert Failures(0) == [];
    } else {
      FailuresUnfold(c, n);
      FailureRunIsRun(OnPollFailure(c).state, n - 1);
    }
  }

  lemma {:induction false} FailureRunBackoffs(c: Client, n: nat)
    requires c.reconnectAttempts <= MaxReconnectAttempts
    ensures var r := FailureRun(c, n);
      var k := Min(n, MaxReconnectAttempts - c.reconnectAttempts);
      && r.state.reconnectAttempts == c.reconnectAttempts + k
      && Restarts(r.outputs) == Backoffs(c.reconnectAttempts, k)
    decreases n
  {
    if n > 0 {
      var t := OnPollFailure(c);
      FailureRunBackoffs(t.state, n - 1);
      BackoffStep(c.reconnectAttempts, n, t, FailureRun(t.state, n - 1));
    }
  }

  /** One failure in front of a run of `n - 1` failures adds its restart in
      front of theirs. */
  lemma BackoffStep(a: nat, n: nat, t: Transition, rest: Transition)
    requires a <= MaxReconnectAttempts && n > 0
    requires a < MaxReconnectAttempts ==>
      t.state.reconnectAttempts == a + 1 && Restarts(t.outputs) == [ReconnectStepMs * (a + 1)]
    requires a >= MaxReconnectAttempts ==> t.state.reconnectAttempts == a && Restarts(t.outputs) == []
    requires var k := Min(n - 1, MaxReconnectAttempts - t.state.reconnectAttempts);
      && rest.state.reconnectAttempts == t.state.reconnectAttempts + k
      && Restarts(rest.outputs) == Backoffs(t.state.reconnectAttempts, k)
    ensures var k := Min(n, MaxReconnectAttempts - a);
      && rest.state.reconnectAttempts == a + k
      && Restarts(t.outputs + rest.outputs) == Backoffs(a, k)
  {
    if a < MaxReconnectAttempts {
      var k := Min(n, MaxReconnectAttempts - a);
      assert Min(n - 1, MaxReconnectAttempts - (a + 1)) == k - 1;
      RestartsCons(t.outputs, rest.outputs, a, k);
    } else {
      PickConcat(t.outputs, rest.outputs, RestartOf);
    }
  }

  /** Consecutive failures schedule restarts after 1000, 2000, ... ms, one per
      attempt, and stop scheduling once the counter reaches the cap. */
  lemma RepeatedFailures(c: Client, n: nat)
    requires c.reconnectAttempts <= MaxReconnectAttempts
    ensures var r := Run(c, Failures(n));
      var k := Min(n, MaxReconnectAttempts - c.reconnectAttempts);
      && r.state.reconnectAttempts == c.reconnectAttempts + k
      && Restarts(r.outputs) == Backoffs(c.reconnectAttempts, k)
  {
    FailureRunIsRun(c, n);
    FailureRunBackoffs(c, n);
  }

  /** From a zero counter, any number of failures from five on schedules
      exactly five restarts, 1000 to 5000 ms: there is no sixth retry. */
  lemma FiveRetriesAtMost(c: Client, n: nat)
    requires c.reconnectAttempts == 0 && n >= MaxReconnectAttempts
    ensures Restarts(Run(c, Failures(n)).outputs) == [1000, 2000, 3000, 4000, 5000]
  {
    RepeatedFailures(c, n);
    assert Min(n, MaxReconnectAttempts) == 5;
    var b := Backoffs(0, 5);
    assert b[0] == 1000 && b[1] == 2000 && b[2] == 3000 && b[3] == 4000 && b[4] == 5000;
    assert b == [1000, 2000, 3000, 4000, 5000];
  }

  /** Two keystrokes inside the idle window push `true` once; the idle timer
      then pushes `false` once. */
  lemma TypingBurst(c: Client, u: string)
    requires Inv(c) && !c.isCurrentlyTyping
    ensures TypingPushes(Run(c, [StartTyping(u), StartTyping(u)]).outputs) == [true]
    ensures TypingPushes(Run(c, [StartTyping(u), StartTyping(u), IdleTimerFired]).outputs) == [true, false]
  {
    var t1 := Step(c, StartTyping(u));
    var t2 := Step(t1.state, StartTyping(u));
    var t3 := Step(t2.state, IdleTimerFired);
    assert TypingPushes(t1.outputs) == [true];
    assert TypingPushes(t2.outputs) == [];
    assert TypingPushes(t3.outputs) == [false];
    assert [StartTyping(u), StartTyping(u)][1..] == [StartTyping(u)];
    assert [StartTyping(u), StartTyping(u), IdleTimerFired][1..] == [StartTyping(u), IdleTimerFired];
    assert [StartTyping(u), IdleTimerFired][1..] == [IdleTimerFired];
    assert Run(t1.state, [StartTyping(u)]).outputs == t2.outputs + [];
    assert Run(t2.state, [IdleTimerFired]).outputs == t3.outputs + [];
    PickConcat(t1.outputs, t2.outputs + [], TypingPushOf);
    PickConcat(t2.outputs, t3.outputs + [], TypingPushOf);
    PickConcat(t1.outputs, t2.outputs + (t3.outputs + []), TypingPushOf);
  }

  /** Nothing stops a poll that was in flight when `disconnect` ran: its
      success marks the disconnected client connected again, resets the
      attempt count and notifies `true`, with the poll interval still off. */
  lemma LatePollAfterDisconnect(c: Client, u: string, d: PollData)
    requires c.isConnected && c.polling && !c.isCurrentlyTyping
    ensures var r := Run(c, [Disconnect(u), PollSucceeded(d)]);
      && r.state.isConnected && !r.state.polling && r.state.reconnectAttempts == 0
      && Notifications(r.outputs) == [true]
  {
    var evs := [Disconnect(u), PollSucceeded(d)];
    var t1 := Step(c, evs[0]);
    var t2 := Step(t1.state, evs[1]);
    assert !t1.state.isConnected && !t1.state.polling;
    assert Run(t2.state, evs[2..]) == Transition(t2.state, []);
    assert Run(t1.state, evs[1..]) == Transition(t2.state, t2.outputs);
    assert Run(c, evs) == Transition(t2.state, t1.outputs + t2.outputs);
    PickConcat(t1.outputs, t2.outputs, NotificationOf);
  }

  /** `disconnect` does not cancel a scheduled reconnect: when it fires, the
      poll interval is armed again and a poll goes out. */
  lemma RestartAfterDisconnectResumesPolling(c: Client, u: string)
    requires c.polling
    ensures var d := OnDisconnect(c, u).state;
      && !d.polling
      && var r := Step(d, RestartFired);
      r.state.polling && Polls(r.outputs) == [c.lastTimestamp]
  {
  }
}
