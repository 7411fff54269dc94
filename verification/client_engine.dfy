/** The client sync engine (`WebSocketManager`) as a state machine. Timers,
    network completions and user actions arrive as events; callbacks, HTTP
    requests and timer arming leave as an output trace. */
module ClientEngine {
  import opened ChatTypes

  const MaxReconnectAttempts := 5
  const PollIntervalMs := 1000
  const ReconnectStepMs := 1000
  const TypingIdleMs := 3000

  /** `polling` says whether the poll interval is armed; `idleTimer` holds the
      username the pending idle timer will stop typing for. */
  datatype Client = Client(
    username: string,
    lastTimestamp: int,
    reconnectAttempts: nat,
    isConnected: bool,
    polling: bool,
    isCurrentlyTyping: bool,
    idleTimer: Option<string>)

  /** A freshly constructed manager. */
  const Initial := Client("", 0, 0, false, false, false, None)

  /** A poll response body; each field may be missing. */
  datatype PollData = PollData(
    messages: Option<seq<Message>>,
    users: Option<seq<Presence>>,
    typingUsers: Option<seq<string>>,
    timestamp: Option<int>)

  datatype Output =
    | PollRequest(username: string, since: int)
    | ConnectionChanged(connected: bool)
    | Deliver(message: Message)
    | UsersChanged(users: seq<Presence>)
    | TypingChanged(typingUsers: seq<string>)
    | ScheduleRestart(delayMs: int)
    | ArmIdleTimer(delayMs: int)
    | PushTyping(username: string, isTyping: bool)
    | PushMessage(id: string, content: string, sender: string, kind: string)

  datatype Event =
    | Connect(username: string, now: int)
    | Tick
    | PollSucceeded(data: PollData)
    | PollFailed
    | RestartFired
    | Send(content: string, sender: string, kind: string, trackDelivery: bool, freshId: string)
    | StartTyping(username: string)
    | StopTyping(username: string)
    | IdleTimerFired
    | Disconnect(username: string)

  datatype Transition = Transition(state: Client, outputs: seq<Output>)

  // ---------------------------------------------------------------------
  // Views of an output trace

  /** The payloads `pick` selects from a trace, in trace order. */
  function Pick<T>(outs: seq<Output>, pick: Output -> Option<T>): (r: seq<T>)
    ensures |r| <= |outs|
    decreases |outs|
  {
    if outs == [] then []
    else
      var rest := Pick(outs[1..], pick);
      match pick(outs[0])
      case Some(x) => [x] + rest
      case None => rest
  }

  lemma {:induction false} PickConcat<T>(a: seq<Output>, b: seq<Output>, pick: Output -> Option<T>)
    ensures Pick(a + b, pick) == Pick(a, pick) + Pick(b, pick)
    decreases |a|
  {
    if a == [] {
      assert a + b == b;
    } else {
      assert (a + b)[0] == a[0];
      assert (a + b)[1..] == a[1..] + b;
      PickConcat(a[1..], b, pick);
    }
  }

  function NotificationOf(o: Output): Option<bool> {
    if o.ConnectionChanged? then Some(o.connected) else None
  }

  function DeliveryOf(o: Output): Option<Message> {
    if o.Deliver? then Some(o.message) else None
  }

  function TypingPushOf(o: Output): Option<bool> {
    if o.PushTyping? then Some(o.isTyping) else None
  }

  function UsersOf(o: Output): Option<seq<Presence>> {
    if o.UsersChanged? then Some(o.users) else None
  }

  function TypingUsersOf(o: Output): Option<seq<string>> {
    if o.TypingChanged? then Some(o.typingUsers) else None
  }

  function RestartOf(o: Output): Option<int> {
    if o.ScheduleRestart? then Some(o.delayMs) else None
  }

  function PollOf(o: Output): Option<int> {
    if o.PollRequest? then Some(o.since) else None
  }

  /** The `onConnectionChange` notifications of a trace. */
  function Notifications(outs: seq<Output>): seq<bool> { Pick(outs, NotificationOf) }

  /** The messages handed to `onMessage`. */
  function Delivered(outs: seq<Output>): seq<Message> { Pick(outs, DeliveryOf) }

  /** The typing flags pushed to the server. */
  function TypingPushes(outs: seq<Output>): seq<bool> { Pick(outs, TypingPushOf) }

  /** The user tables handed to `onUsersChange`. */
  function UsersUpdates(outs: seq<Output>): seq<seq<Presence>> { Pick(outs, UsersOf) }

  /** The typing sets handed to `onTypingChange`. */
  function TypingUpdates(outs: seq<Output>): seq<seq<string>> { Pick(outs, TypingUsersOf) }

  /** The delays of the scheduled reconnects. */
  function Restarts(outs: seq<Output>): seq<int> { Pick(outs, RestartOf) }

  /** The cursors of the poll requests issued. */
  function Polls(outs: seq<Output>): seq<int> { Pick(outs, PollOf) }

  /** One `onMessage` call per message, in the given order. */
  function Deliveries(ms: seq<Message>): (r: seq<Output>)
    ensures Delivered(r) == ms
    ensures Notifications(r) == [] && TypingPushes(r) == [] && Restarts(r) == [] && Polls(r) == []
    decreases |ms|
  {
    if ms == [] then []
    else
      var r := [Deliver(ms[0])] + Deliveries(ms[1..]);
      assert r[1..] == Deliveries(ms[1..]);
      r
  }

  /** Every output of `Deliveries` is an `onMessage` call. */
  lemma {:induction false} DeliveriesAreDeliver(ms: seq<Message>)
    ensures forall o :: o in Deliveries(ms) ==> o.Deliver?
    decreases |ms|
  {
    if ms != [] {
      DeliveriesAreDeliver(ms[1..]);
      assert Deliveries(ms) == [Deliver(ms[0])] + Deliveries(ms[1..]);
    }
  }

  // ---------------------------------------------------------------------
  // Transitions

  /** `startPolling`: (re)arm the one-second interval and poll at once with
      the current cursor. */
  function StartPolling(c: Client): (r: Transition)
    ensures r.state == c.(polling := true)
    ensures r.outputs == [PollRequest(c.username, c.lastTimestamp)]
    ensures Polls(r.outputs) == [c.lastTimestamp]
    ensures Notifications(r.outputs) == [] && Delivered(r.outputs) == []
    ensures TypingPushes(r.outputs) == [] && Restarts(r.outputs) == []
  {
    Transition(c.(polling := true), [PollRequest(c.username, c.lastTimestamp)])
  }

  /** `connect(username)` at instant `now`: the cursor starts at `now`. */
  function ConnectAt(c: Client, u: string, now: int): (r: Transition)
    ensures r.state.username == u && r.state.lastTimestamp == now && r.state.polling
    ensures r.state.isConnected == c.isConnected && r.state.reconnectAttempts == c.reconnectAttempts
    ensures r.state.isCurrentlyTyping == c.isCurrentlyTyping && r.state.idleTimer == c.idleTimer
    ensures r.outputs == [PollRequest(u, now)]
  {
    StartPolling(c.(username := u, lastTimestamp := now))
  }

  /** One firing of the poll interval; with no interval armed nothing fires. */
  function OnTick(c: Client): (r: Transition)
    ensures r.state == c
    ensures r.outputs == (if c.polling then [PollRequest(c.username, c.lastTimestamp)] else [])
    ensures Polls(r.outputs) == (if c.polling then [c.lastTimestamp] else [])
    ensures Notifications(r.outputs) == [] && TypingPushes(r.outputs) == [] && Restarts(r.outputs) == []
  {
    if c.polling then Transition(c, [PollRequest(c.username, c.lastTimestamp)]) else Transition(c, [])
  }

  /** A trace selects nothing when no element is of the selected kind. */
  lemma {:induction false} PickNone<T>(outs: seq<Output>, pick: Output -> Option<T>)
    requires forall o :: o in outs ==> pick(o).None?
    ensures Pick(outs, pick) == []
    decreases |outs|
  {
    if outs != [] {
      assert outs[0] in outs;
      assert forall o :: o in outs[1..] ==> o in outs;
      PickNone(outs[1..], pick);
    }
  }

  /** A view of a trace whose tail it ignores is the view of the head. */
  lemma PickIgnoringTail<T>(a: seq<Output>, b: seq<Output>, tail: seq<Output>, pick: Output -> Option<T>)
    requires forall o :: o in tail ==> pick(o).None?
    ensures Pick(a + b + tail, pick) == Pick(a, pick) + Pick(b, pick)
  {
    PickConcat(a + b, tail, pick);
    PickConcat(a, b, pick);
    PickNone(tail, pick);
  }

  /** The views of a successful poll's trace: an optional connection
      notification, the deliveries, then user and typing snapshots. */
  lemma PollTraceViews(connect: seq<Output>, ms: seq<Message>, extras: seq<Output>)
    requires connect == [] || connect == [ConnectionChanged(true)]
    requires forall o :: o in extras ==> o.UsersChanged? || o.TypingChanged?
    ensures var outs := connect + Deliveries(ms) + extras;
      && Notifications(outs) == (if connect == [] then [] else [true])
      && Delivered(outs) == ms
      && TypingPushes(outs) == [] && Restarts(outs) == [] && Polls(outs) == []
  {
    var ds := Deliveries(ms);
    PickIgnoringTail(connect, ds, extras, NotificationOf);
    PickIgnoringTail(connect, ds, extras, DeliveryOf);
    PickIgnoringTail(connect, ds, extras, TypingPushOf);
    PickIgnoringTail(connect, ds, extras, RestartOf);
    PickIgnoringTail(connect, ds, extras, PollOf);
  }

  /** Where a callback sits in the order `pollForUpdates` calls them:
      `onConnectionChange`, then `onMessage`, then `onUsersChange`, then
      `onTypingChange`. */
  function CallbackRank(o: Output): nat {
    match o
    case ConnectionChanged(_) => 0
    case Deliver(_) => 1
    case UsersChanged(_) => 2
    case TypingChanged(_) => 3
    case _ => 4
  }

  /** A successful poll's trace carries one user table and one typing set,
      each exactly when the body carries it. */
  lemma PollTraceSnapshots(head: seq<Output>, du: Option<seq<Presence>>, dt: Option<seq<string>>)
    requires forall o :: o in head ==> o.ConnectionChanged? || o.Deliver?
    ensures var users := if du.Some? then [UsersChanged(du.value)] else [];
      var typing := if dt.Some? then [TypingChanged(dt.value)] else [];
      var outs := head + (users + typing);
      && UsersUpdates(outs) == (if du.Some? then [du.value] else [])
      && TypingUpdates(outs) == (if dt.Some? then [dt.value] else [])
  {
    var users := if du.Some? then [UsersChanged(du.value)] else [];
    var typing := if dt.Some? then [TypingChanged(dt.value)] else [];
    PickNone(head, UsersOf);
    PickNone(head, TypingUsersOf);
    PickNone(typing, UsersOf);
    PickNone(users, TypingUsersOf);
    PickConcat(head, users + typing, UsersOf);
    PickConcat(users, typing, UsersOf);
    PickConcat(head, users + typing, TypingUsersOf);
    PickConcat(users, typing, TypingUsersOf);
  }

  /** The callbacks of a trace come in the order `pollForUpdates` calls them. */
  predicate InCallbackOrder(outs: seq<Output>) {
    forall i, j :: 0 <= i < j < |outs| ==> CallbackRank(outs[i]) <= CallbackRank(outs[j])
  }

  lemma InCallbackOrderConcat(a: seq<Output>, b: seq<Output>)
    requires InCallbackOrder(a) && InCallbackOrder(b)
    requires forall x, y :: x in a && y in b ==> CallbackRank(x) <= CallbackRank(y)
    ensures InCallbackOrder(a + b)
  {
    var ab := a + b;
    forall i, j | 0 <= i < j < |ab| ensures CallbackRank(ab[i]) <= CallbackRank(ab[j]) {
      if j < |a| {
        assert ab[i] == a[i] && ab[j] == a[j];
      } else if i >= |a| {
        assert ab[i] == b[i - |a|] && ab[j] == b[j - |a|];
      } else {
        assert ab[i] == a[i] && a[i] in a;
        assert ab[j] == b[j - |a|] && b[j - |a|] in b;
      }
    }
  }

  /** The callbacks of a successful poll come in the order the handler
      calls them. */
  lemma PollTraceOrder(connect: seq<Output>, ms: seq<Message>, users: seq<Output>, typing: seq<Output>)
    requires connect == [] || connect == [ConnectionChanged(true)]
    requires |users| <= 1 && forall o :: o in users ==> o.UsersChanged?
    requires |typing| <= 1 && forall o :: o in typing ==> o.TypingChanged?
    ensures forall o :: o in connect + Deliveries(ms) ==> o.ConnectionChanged? || o.Deliver?
    ensures InCallbackOrder(connect + Deliveries(ms) + (users + typing))
    ensures forall o :: o in connect + Deliveries(ms) + (users + typing) ==> CallbackRank(o) < 4
  {
    var ds := Deliveries(ms);
    DeliveriesAreDeliver(ms);
    assert forall o :: o in connect ==> CallbackRank(o) == 0;
    assert forall o :: o in ds ==> CallbackRank(o) == 1;
    assert forall o :: o in users ==> CallbackRank(o) == 2;
    assert forall o :: o in typing ==> CallbackRank(o) == 3;
    assert InCallbackOrder(ds) by {
      forall i, j | 0 <= i < j < |ds| ensures CallbackRank(ds[i]) <= CallbackRank(ds[j]) {
        assert ds[i] in ds && ds[j] in ds;
      }
    }
    InCallbackOrderConcat(connect, ds);
    InCallbackOrderConcat(users, typing);
    var head, tail := connect + ds, users + typing;
    assert forall o :: o in head ==> CallbackRank(o) <= 1;
    assert forall o :: o in tail ==> CallbackRank(o) >= 2;
    InCallbackOrderConcat(head, tail);
    assert forall o :: o in tail ==> CallbackRank(o) <= 3;
  }

  /** The success path of `pollForUpdates`. */
  function OnPollSuccess(c: Client, d: PollData): (r: Transition)
    ensures r.state.isConnected
    ensures r.state.reconnectAttempts == (if c.isConnected then c.reconnectAttempts else 0)
    ensures Notifications(r.outputs) == (if c.isConnected then [] else [true])
    ensures Delivered(r.outputs) == d.messages.GetOr([])
    ensures r.state.lastTimestamp == (if d.timestamp.Some? && d.timestamp.value != 0 then d.timestamp.value else c.lastTimestamp)
    ensures TypingPushes(r.outputs) == [] && Restarts(r.outputs) == [] && Polls(r.outputs) == []
    ensures r.state.polling == c.polling && r.state.username == c.username
    ensures r.state.isCurrentlyTyping == c.isCurrentlyTyping && r.state.idleTimer == c.idleTimer
  {
    var connect := if c.isConnected then [] else [ConnectionChanged(true)];
    var delivered := Deliveries(d.messages.GetOr([]));
    var users := if d.users.Some? then [UsersChanged(d.users.value)] else [];
    var typing := if d.typingUsers.Some? then [TypingChanged(d.typingUsers.value)] else [];
    var c' := c.(
      isConnected := true,
      reconnectAttempts := if c.isConnected then c.reconnectAttempts else 0,
      lastTimestamp := if d.timestamp.Some? && d.timestamp.value != 0 then d.timestamp.value else c.lastTimestamp);
    PollTraceViews(connect, d.messages.GetOr([]), users + typing);
    Transition(c', connect + delivered + (users + typing))
  }

  /** The rest of a successful poll's trace: `onUsersChange` and
      `onTypingChange` get the body's user table and typing set, once each
      and only when present, and the callbacks come in the handler's order,
      so the `true` notification precedes every delivered message. */
  lemma PollSuccessSnapshots(c: Client, d: PollData)
    ensures var r := OnPollSuccess(c, d);
      && UsersUpdates(r.outputs) == (if d.users.Some? then [d.users.value] else [])
      && TypingUpdates(r.outputs) == (if d.typingUsers.Some? then [d.typingUsers.value] else [])
      && InCallbackOrder(r.outputs)
      && forall o :: o in r.outputs ==> CallbackRank(o) < 4
  {
    var connect := if c.isConnected then [] else [ConnectionChanged(true)];
    var delivered := Deliveries(d.messages.GetOr([]));
    var users := if d.users.Some? then [UsersChanged(d.users.value)] else [];
    var typing := if d.typingUsers.Some? then [TypingChanged(d.typingUsers.value)] else [];
    assert OnPollSuccess(c, d).outputs == connect + delivered + (users + typing);
    PollTraceOrder(connect, d.messages.GetOr([]), users, typing);
    PollTraceSnapshots(connect + delivered, d.users, d.typingUsers);
  }

  /** `attemptReconnect`: below the cap, count one more attempt and schedule
      a restart after `1000 * attempts` ms; at the cap, do nothing. */
  function AttemptReconnect(c: Client): (r: Transition)
    ensures c.reconnectAttempts < MaxReconnectAttempts ==>
      && r.state == c.(reconnectAttempts := c.reconnectAttempts + 1)
      && r.outputs == [ScheduleRestart(ReconnectStepMs * r.state.reconnectAttempts)]
      && Restarts(r.outputs) == [ReconnectStepMs * r.state.reconnectAttempts]
    ensures c.reconnectAttempts >= MaxReconnectAttempts ==> r.state == c && r.outputs == []
    ensures Notifications(r.outputs) == [] && TypingPushes(r.outputs) == [] && Polls(r.outputs) == []
  {
    if c.reconnectAttempts < MaxReconnectAttempts then
      var attempts := c.reconnectAttempts + 1;
      Transition(c.(reconnectAttempts := attempts), [ScheduleRestart(ReconnectStepMs * attempts)])
    else
      Transition(c, [])
  }

  /** The failure path of `pollForUpdates` (network error, HTTP error or a
      body that does not parse). The poll interval stays armed. */
  function OnPollFailure(c: Client): (r: Transition)
    ensures !r.state.isConnected
    ensures r.outputs ==
      (if c.isConnected then [ConnectionChanged(false)] else []) +
      (if c.reconnectAttempts < MaxReconnectAttempts then [ScheduleRestart(ReconnectStepMs * (c.reconnectAttempts + 1))] else [])
    ensures Notifications(r.outputs) == (if c.isConnected then [false] else [])
    ensures c.reconnectAttempts < MaxReconnectAttempts ==>
      && r.state.reconnectAttempts == c.reconnectAttempts + 1
      && Restarts(r.outputs) == [ReconnectStepMs * (c.reconnectAttempts + 1)]
    ensures c.reconnectAttempts >= MaxReconnectAttempts ==>
      r.state.reconnectAttempts == c.reconnectAttempts && Restarts(r.outputs) == []
    ensures r.state.polling == c.polling && r.state.lastTimestamp == c.lastTimestamp && r.state.username == c.username
    ensures r.state.isCurrentlyTyping == c.isCurrentlyTyping && r.state.idleTimer == c.idleTimer
    ensures TypingPushes(r.outputs) == [] && Delivered(r.outputs) == [] && Polls(r.outputs) == []
  {
    var lost := if c.isConnected then [ConnectionChanged(false)] else [];
    var t := AttemptReconnect(c.(isConnected := false));
    PickConcat(lost, t.outputs, NotificationOf);
    PickConcat(lost, t.outputs, RestartOf);
    PickConcat(lost, t.outputs, TypingPushOf);
    PickConcat(lost, t.outputs, DeliveryOf);
    PickConcat(lost, t.outputs, PollOf);
    Transition(t.state, lost + t.outputs)
  }

  datatype SendValue = ReturnedId(id: string) | ReturnedTrue

  datatype SendResult = SendResult(state: Client, returned: SendValue, outputs: seq<Output>)

  /** `sendMessage`: fire one POST carrying a fresh id and return that id
      when delivery is tracked, `true` otherwise. */
  function SendMessage(c: Client, content: string, sender: string, kind: string, trackDelivery: bool, freshId: string): (r: SendResult)
    ensures r.state == c
    ensures r.returned == (if trackDelivery then ReturnedId(freshId) else ReturnedTrue)
    ensures r.outputs == [PushMessage(freshId, content, sender, kind)]
  {
    SendResult(c, if trackDelivery then ReturnedId(freshId) else ReturnedTrue, [PushMessage(freshId, content, sender, kind)])
  }

  /** `startTyping(u)`: push `true` unless already typing, then (re)arm the
      idle timer. */
  function OnStartTyping(c: Client, u: string): (r: Transition)
    ensures r.state.isCurrentlyTyping && r.state.idleTimer == Some(u)
    ensures TypingPushes(r.outputs) == (if c.isCurrentlyTyping then [] else [true])
    ensures r.state == c.(isCurrentlyTyping := true, idleTimer := Some(u))
    ensures r.outputs == (if c.isCurrentlyTyping then [] else [PushTyping(u, true)]) + [ArmIdleTimer(TypingIdleMs)]
    ensures Notifications(r.outputs) == [] && Restarts(r.outputs) == [] && Delivered(r.outputs) == [] && Polls(r.outputs) == []
  {
    var pushed := if c.isCurrentlyTyping then [] else [PushTyping(u, true)];
    PickConcat(pushed, [ArmIdleTimer(TypingIdleMs)], TypingPushOf);
    PickConcat(pushed, [ArmIdleTimer(TypingIdleMs)], NotificationOf);
    PickConcat(pushed, [ArmIdleTimer(TypingIdleMs)], RestartOf);
    PickConcat(pushed, [ArmIdleTimer(TypingIdleMs)], DeliveryOf);
    PickConcat(pushed, [ArmIdleTimer(TypingIdleMs)], PollOf);
    Transition(c.(isCurrentlyTyping := true, idleTimer := Some(u)), pushed + [ArmIdleTimer(TypingIdleMs)])
  }

  /** `stopTyping(u)`: push `false` only if typing, and clear the idle timer. */
  function OnStopTyping(c: Client, u: string): (r: Transition)
    ensures !r.state.isCurrentlyTyping && r.state.idleTimer.None?
    ensures TypingPushes(r.outputs) == (if c.isCurrentlyTyping then [false] else [])
    ensures r.state == c.(isCurrentlyTyping := false, idleTimer := None)
    ensures r.outputs == (if c.isCurrentlyTyping then [PushTyping(u, false)] else [])
    ensures Notifications(r.outputs) == [] && Restarts(r.outputs) == [] && Delivered(r.outputs) == [] && Polls(r.outputs) == []
  {
    Transition(c.(isCurrentlyTyping := false, idleTimer := None),
               if c.isCurrentlyTyping then [PushTyping(u, false)] else [])
  }

  /** The idle timer fires: it stops typing for the user it was armed for. */
  function OnIdleTimer(c: Client): (r: Transition)
    ensures c.idleTimer.Some? ==> r == OnStopTyping(c, c.idleTimer.value)
    ensures c.idleTimer.None? ==> r == Transition(c, [])
  {
    match c.idleTimer
    case Some(u) => OnStopTyping(c, u)
    case None => Transition(c, [])
  }

  /** `disconnect(u)`: with the poll interval armed, stop typing, disarm the
      interval and mark the client disconnected without notifying anyone;
      otherwise nothing happens. */
  function OnDisconnect(c: Client, u: string): (r: Transition)
    ensures c.polling ==>
      && r.state == c.(polling := false, isConnected := false, isCurrentlyTyping := false, idleTimer := None)
      && r.outputs == (if c.isCurrentlyTyping then [PushTyping(u, false)] else [])
      && !r.state.polling && !r.state.isConnected
      && !r.state.isCurrentlyTyping && r.state.idleTimer.None?
      && r.state.reconnectAttempts == c.reconnectAttempts
      && TypingPushes(r.outputs) == (if c.isCurrentlyTyping then [false] else [])
      && Notifications(r.outputs) == []
    ensures !c.polling ==> r == Transition(c, [])
    ensures Restarts(r.outputs) == [] && Delivered(r.outputs) == [] && Polls(r.outputs) == []
  {
    if c.polling then
      var t := OnStopTyping(c, u);
      Transition(t.state.(polling := false, isConnected := false), t.outputs)
    else
      Transition(c, [])
  }

  /** The engine's invariant: the attempt counter stays within the cap and is
      zero while connected, and the typing flag is set exactly while an idle
      timer is pending. */
  predicate Inv(c: Client) {
    && c.reconnectAttempts <= MaxReconnectAttempts
    && (c.isConnected ==> c.reconnectAttempts == 0)
    && (c.isCurrentlyTyping <==> c.idleTimer.Some?)
  }

  /** A flag's notification when it changes, nothing when it does not. */
  function Flip(before: bool, after: bool): seq<bool> {
    if before == after then [] else [after]
  }

  /** One event. */
  function Step(c: Client, e: Event): (r: Transition)
    ensures Inv(c) ==> Inv(r.state)
    ensures TypingPushes(r.outputs) == Flip(c.isCurrentlyTyping, r.state.isCurrentlyTyping)
    ensures !e.Disconnect? ==> Notifications(r.outputs) == Flip(c.isConnected, r.state.isConnected)
    ensures e.Disconnect? ==> Notifications(r.outputs) == []
    ensures !e.Disconnect? && c.polling ==> r.state.polling
  {
    match e
    case Connect(u, now) => ConnectAt(c, u, now)
    case Tick => OnTick(c)
    case PollSucceeded(d) => OnPollSuccess(c, d)
    case PollFailed => OnPollFailure(c)
    case RestartFired => StartPolling(c)
    case Send(content, sender, kind, track, id) =>
      var s := SendMessage(c, content, sender, kind, track, id);
      Transition(s.state, s.outputs)
    case StartTyping(u) => OnStartTyping(c, u)
    case StopTyping(u) => OnStopTyping(c, u)
    case IdleTimerFired => OnIdleTimer(c)
    case Disconnect(u) => OnDisconnect(c, u)
  }

  /** A sequence of events, left to right, with the concatenated trace. */
  function Run(c: Client, evs: seq<Event>): Transition
    decreases |evs|
  {
    if evs == [] then Transition(c, [])
    else
      var t := Step(c, evs[0]);
      var rest := Run(t.state, evs[1..]);
      Transition(rest.state, t.outputs + rest.outputs)
  }
}
