/** The server store and the client engine together: what one poll carries
    from the log to `onMessage`, when consecutive polls cover the log without
    gaps or repeats, and the cases where they do not. */
module Sync {
  import opened ChatTypes
  import opened ServerStore
  import opened ClientEngine
  import opened TypingIndicator

  /** The body a pull reply becomes on the wire: every field present. */
  function AsPollData(reply: PullReply): (d: PollData)
    requires reply.Snapshot?
    ensures d.messages == Some(reply.messages) && d.timestamp == Some(reply.timestamp)
    ensures d.users == Some(reply.users) && d.typingUsers == Some(reply.typingUsers)
  {
    PollData(Some(reply.messages), Some(reply.users), Some(reply.typingUsers), Some(reply.timestamp))
  }

  /** The POST body `sendMessage` produces. */
  function AsPostBody(o: Output): (b: PostBody)
    requires o.PushMessage?
    ensures b.id == Some(o.id) && b.kind == Some(o.kind) && b.sender == o.sender && b.content == o.content
  {
    PostBody(Some(o.kind), Some(o.id), o.sender, o.content, false)
  }

  /** One poll end to end: the client asks with its cursor, the server
      answers, and the client hands exactly the log entries stamped after
      the cursor to `onMessage`, in log order, passes the server's user
      table and typing set on once each, and moves its cursor to the
      server's instant. */
  lemma PollDeliversDelta(s: Store, c: Client, now: nat, freshId: string)
    requires c.username != ""
    ensures var served := Pull(s, PullRequest(Some(c.username), At(c.lastTimestamp)), now, freshId);
      && served.reply.Snapshot?
      && var t := OnPollSuccess(c, AsPollData(served.reply));
      && Delivered(t.outputs) == (if ValidTime(c.lastTimestamp) then After(served.store.log, c.lastTimestamp) else [])
      && UsersUpdates(t.outputs) == [served.store.presence]
      && TypingUpdates(t.outputs) == [served.store.typing]
      && (now != 0 ==> t.state.lastTimestamp == now)
  {
    var served := Pull(s, PullRequest(Some(c.username), At(c.lastTimestamp)), now, freshId);
    PollSuccessSnapshots(c, AsPollData(served.reply));
  }

  /** A client without a name never connects: every pull is rejected. */
  lemma NamelessPullRejected(s: Store, since: Since, now: nat, freshId: string)
    ensures Pull(s, PullRequest(Some(""), since), now, freshId) == Served(s, BadRequest)
  {
  }

  /** The id `sendMessage` returns when tracking delivery is the id the
      server stores the message under. */
  lemma TrackedIdIsStoredId(s: Store, c: Client, content: string, sender: string, kind: string,
                            freshId: string, now: nat, serverId: string)
    requires freshId != "" && kind != TypingKind
    ensures var sent := SendMessage(c, content, sender, kind, true, freshId);
      && sent.returned == ReturnedId(freshId)
      && var served := Post(s, AsPostBody(sent.outputs[0]), now, serverId);
      && served.reply.Echo?
      && served.reply.message.id == sent.returned.id
      && served.store.log == s.log + [served.reply.message]
  {
  }

  /** After a pull at `now`, nothing in the log is stamped later than the
      cursor the reply hands out. */
  lemma PullCursorCoversLog(s: Store, req: PullRequest, now: nat, freshId: string)
    requires StampedBy(s, now)
    ensures var r := Pull(s, req, now, freshId);
      r.reply.Snapshot? ==> forall m :: m in r.store.log ==> m.timestamp <= r.reply.timestamp
  {
  }

  /** Everything stamped after `t` survives the filter. */
  lemma {:induction false} AfterKeepsNewer(log: seq<Message>, t: int)
    requires forall m :: m in log ==> m.timestamp > t
    ensures After(log, t) == log
  {
    FilterKeepsAll(log, (m: Message) => m.timestamp > t);
  }

  /** Nothing stamped at or before `t` survives the filter. */
  lemma {:induction false} AfterDropsOlder(log: seq<Message>, t: int)
    requires forall m :: m in log ==> m.timestamp <= t
    ensures After(log, t) == []
    decreases |log|
  {
    if log != [] {
      assert log[0] in log;
      assert forall m :: m in log[1..] ==> m in log;
      AfterDropsOlder(log[1..], t);
      assert After(log, t) == After(log[1..], t);
    }
  }

  /** No gaps and no repeats, under a condition: if every entry present at
      the first pull is stamped at or before the cursor it returned, and
      every entry appended afterwards strictly after it, then the two deltas
      together are the log after `since`, each entry once, in log order. */
  lemma ConsecutiveDeltas(log: seq<Message>, added: seq<Message>, since: int, cursor: int)
    requires since <= cursor
    requires forall m :: m in log ==> m.timestamp <= cursor
    requires forall m :: m in added ==> m.timestamp > cursor
    ensures After(log, since) + After(log + added, cursor) == After(log + added, since)
  {
    AfterConcat(log, added, cursor);
    AfterConcat(log, added, since);
    AfterDropsOlder(log, cursor);
    AfterKeepsNewer(added, cursor);
    assert forall m :: m in added ==> m.timestamp > since;
    AfterKeepsNewer(added, since);
    assert After(log + added, cursor) == [] + added;
    assert [] + added == added;
  }

  /** The condition above is needed: a message posted in the millisecond a
      pull returned as its cursor is never delivered to that client, since
      the next pull asks for entries strictly after the cursor. */
  lemma SameMillisecondPostIsMissed()
    ensures var r1 := Pull(Empty, PullRequest(Some("ann"), At(0)), 5, "join-ann");
      var r2 := Post(r1.store, PostBody(None, Some("m1"), "bob", "hi", false), 5, "unused");
      var r3 := Pull(r2.store, PullRequest(Some("ann"), At(r1.reply.timestamp)), 6, "unused");
      var hi := Message("m1", "hi", "bob", 5, MessageKind);
      && r1.reply.Snapshot? && r1.reply.timestamp == 5
      && r2.reply == Echo(hi)
      && hi in r3.store.log
      && hi !in r1.reply.messages
      && r3.reply.Snapshot? && r3.reply.messages == []
  {
    var r1 := Pull(Empty, PullRequest(Some("ann"), At(0)), 5, "join-ann");
    var r2 := Post(r1.store, PostBody(None, Some("m1"), "bob", "hi", false), 5, "unused");
    var r3 := Pull(r2.store, PullRequest(Some("ann"), At(r1.reply.timestamp)), 6, "unused");
    var hi := Message("m1", "hi", "bob", 5, MessageKind);
    assert r2.store.log == [JoinMessage("ann", "join-ann", 5), hi];
    AfterDropsOlder(r2.store.log, 5);
  }

  /** Two users: ann pulls first and sees ann's own join; ann posts "hi";
      bob's first pull from 0 sees ann's join, that message and bob's own
      join, in that order. */
  lemma TwoUserScenario()
    ensures var a1 := Pull(Empty, PullRequest(Some("ann"), At(0)), 1, "j-ann");
      var a2 := Post(a1.store, PostBody(None, None, "ann", "hi", false), 2, "m-hi");
      var b1 := Pull(a2.store, PullRequest(Some("bob"), At(0)), 3, "j-bob");
      && a1.reply == Snapshot([JoinMessage("ann", "j-ann", 1)], [Presence("ann", 1, 1, false)], [], 1)
      && a2.reply == Echo(Message("m-hi", "hi", "ann", 2, MessageKind))
      && b1.reply.Snapshot?
      && b1.reply.messages == [JoinMessage("ann", "j-ann", 1), Message("m-hi", "hi", "ann", 2, MessageKind), JoinMessage("bob", "j-bob", 3)]
  {
    FirstPullOnEmpty("ann", 1, "j-ann");
    var ann := Presence("ann", 1, 1, false);
    var st := Store([JoinMessage("ann", "j-ann", 1)], [ann], []);
    var a2 := Post(st, PostBody(None, None, "ann", "hi", false), 2, "m-hi");
    var hi := Message("m-hi", "hi", "ann", 2, MessageKind);
    assert a2.store.log == st.log + [hi];
    assert Lookup(a2.store.presence, "bob") == Lookup([ann], "bob");
    NewcomerSeesHistory(a2.store, "bob", 3, "j-bob");
  }

  /** A user the server does not know, pulling from 0, gets the whole history
      followed by their own join, when every entry is stamped after 0. */
  lemma NewcomerSeesHistory(s: Store, u: string, now: nat, freshId: string)
    requires u != "" && now > 0 && Lookup(s.presence, u).None?
    requires forall m :: m in s.log ==> m.timestamp > 0
    ensures var r := Pull(s, PullRequest(Some(u), At(0)), now, freshId);
      r.reply.Snapshot? && r.reply.messages == s.log + [JoinMessage(u, freshId, now)]
  {
    AfterKeepsNewer(s.log + [JoinMessage(u, freshId, now)], 0);
  }

  /** The first pull a server ever serves registers its user and returns
      that user's join as the whole delta. */
  lemma FirstPullOnEmpty(u: string, now: nat, freshId: string)
    requires u != "" && now > 0
    ensures var r := Pull(Empty, PullRequest(Some(u), At(0)), now, freshId);
      var p := Presence(u, now, now, false);
      && r.store == Store([JoinMessage(u, freshId, now)], [p], [])
      && r.reply == Snapshot([JoinMessage(u, freshId, now)], [p], [], now)
  {
    AfterKeepsNewer([JoinMessage(u, freshId, now)], 0);
  }

  /** A user who starts typing and is not yet in the typing set goes last. */
  lemma TypingStartAppends(s: Store, u: string, now: nat)
    requires u !in s.typing
    ensures Post(s, PostBody(Some(TypingKind), None, u, "", true), now, "unused").store.typing == s.typing + [u]
  {
  }

  /** The typing set keeps the order in which users started typing: two
      new typers go last, first come first. */
  lemma TypingStartsKeepOrder(s: Store, a: string, b: string, t1: nat, t2: nat)
    requires a != b && a !in s.typing && b !in s.typing
    ensures var s1 := Post(s, PostBody(Some(TypingKind), None, a, "", true), t1, "unused").store;
      Post(s1, PostBody(Some(TypingKind), None, b, "", true), t2, "unused").store.typing == s.typing + [a, b]
  {
    TypingStartAppends(s, a, t1);
    var s1 := Post(s, PostBody(Some(TypingKind), None, a, "", true), t1, "unused").store;
    assert b !in s.typing + [a];
    TypingStartAppends(s1, b, t2);
    SnocTwice(s.typing, a, b);
  }

  /** Appending two names one at a time appends both; kept apart so that the
      sequence identity is proved outside the context of two `Post` calls. */
  lemma SnocTwice(x: seq<string>, a: string, b: string)
    ensures x + [a] + [b] == x + [a, b]
  {
  }

  /** That order reaches the indicator: with nobody typing, `a` starts, then
      `b`, and a third user's next pull shows "<a> and <b> are typing...". */
  lemma TypingOrderReachesIndicator(s: Store, a: string, b: string, viewer: string,
                                    t1: nat, t2: nat, t3: nat, since: Since, freshId: string)
    requires s.typing == []
    requires a != b && viewer != "" && viewer != a && viewer != b
    ensures var s1 := Post(s, PostBody(Some(TypingKind), None, a, "", true), t1, "unused").store;
      var s2 := Post(s1, PostBody(Some(TypingKind), None, b, "", true), t2, "unused").store;
      var r := Pull(s2, PullRequest(Some(viewer), since), t3, freshId);
      && r.reply.Snapshot?
      && r.reply.typingUsers == [a, b]
      && TypingText(r.reply.typingUsers, viewer) == Some(a + " and " + b + AreTypingSuffix)
  {
    TypingStartsKeepOrder(s, a, b, t1, t2);
    assert [] + [a, b] == [a, b];
    TwoOthersText(a, b, viewer);
  }

  /** A typing update from a name the server has never seen puts that name
      in the typing set without a presence entry, and the sweep, which only
      clears the names it evicts, leaves it there. */
  lemma OrphanTypingSurvivesSweep(s: Store, u: string, now: nat, later: nat, ids: seq<string>)
    requires Lookup(s.presence, u).None?
    requires |ids| >= |s.presence|
    ensures var t := Post(s, PostBody(Some(TypingKind), None, u, "", true), now, "unused").store;
      && u in t.typing
      && Lookup(t.presence, u).None?
      && u in Reap(t, later, ids).typing
  {
  }
}
