/** The chat endpoint's process-wide state and its four transitions: a pull
    (GET), a typing or message push (POST) and the presence reaper's sweep.
    The state is an immutable record; each transition takes the current
    instant `now` and the fresh identifiers it would otherwise draw at random.
    The presence table and the typing set keep JavaScript's insertion order,
    so they are sequences. */
module ServerStore {
  import opened ChatTypes

  /** Idle time in milliseconds after which the sweep evicts a user. */
  const PresenceTimeoutMs := 60000

  datatype Store = Store(log: seq<Message>, presence: seq<Presence>, typing: seq<string>)

  /** The state at process start. */
  const Empty := Store([], [], [])

  /** The `since` query parameter: absent or empty (read as "0"), a number,
      or text that does not parse (NaN, which no comparison satisfies). */
  datatype Since = Absent | At(t: int) | Unparsable

  /** The largest distance from the epoch, in milliseconds, that a JavaScript
      `Date` can hold; ECMAScript's TimeClip turns any instant farther out
      into an Invalid Date (NaN). */
  const MaxTimeValue := 8_640_000_000_000_000

  /** An instant `new Date(t)` accepts. */
  predicate ValidTime(t: int) {
    -MaxTimeValue <= t <= MaxTimeValue
  }

  datatype PullRequest = PullRequest(username: Option<string>, since: Since)

  datatype PullReply =
    | BadRequest
    | Snapshot(messages: seq<Message>, users: seq<Presence>, typingUsers: seq<string>, timestamp: int)

  /** A parsed POST body. `kind` is the `type` field; a body whose type is
      "typing" is a typing update, any other body is a chat message. */
  datatype PostBody = PostBody(kind: Option<string>, id: Option<string>, sender: string, content: string, isTyping: bool)

  datatype PostReply = TypingAck | Echo(message: Message)

  /** A transition's new state together with what it answers. */
  datatype Served<R> = Served(store: Store, reply: R)

  // ---------------------------------------------------------------------
  // Presence table

  /** `Map.get`: the entry stored under `u`, if any. */
  function Lookup(ps: seq<Presence>, u: string): (r: Option<Presence>)
    ensures r.Some? ==> r.value in ps && r.value.username == u
    ensures r.None? <==> forall p :: p in ps ==> p.username != u
    decreases |ps|
  {
    if ps == [] then None
    else if ps[0].username == u then Some(ps[0])
    else Lookup(ps[1..], u)
  }

  /** `Map.set` of a new key puts it last; earlier keys keep their entries. */
  lemma {:induction false} LookupSnoc(ps: seq<Presence>, p: Presence, v: string)
    ensures Lookup(ps + [p], v) ==
      match Lookup(ps, v)
      case Some(q) => Some(q)
      case None => if p.username == v then Some(p) else None
    decreases |ps|
  {
    if ps == [] {
      assert ps + [p] == [p];
    } else {
      assert (ps + [p])[0] == ps[0];
      assert (ps + [p])[1..] == ps[1..] + [p];
      if ps[0].username != v {
        LookupSnoc(ps[1..], p, v);
      }
    }
  }

  /** An entry after activity at `now`: seen now and, for a typing update,
      carrying the new typing flag. */
  function Refreshed(p: Presence, now: int, flag: Option<bool>): Presence {
    p.(lastSeen := now, isTyping := flag.GetOr(p.isTyping))
  }

  /** Refreshes the entry of `u` in place; every other entry and every
      position is kept. */
  function Touch(ps: seq<Presence>, u: string, now: int, flag: Option<bool>): (r: seq<Presence>)
    ensures |r| == |ps|
    ensures forall i :: 0 <= i < |ps| ==> r[i].username == ps[i].username && r[i].joinedAt == ps[i].joinedAt
    ensures forall i :: 0 <= i < |ps| ==> r[i] == ps[i] || r[i] == Refreshed(ps[i], now, flag)
    ensures Lookup(r, u) == (match Lookup(ps, u) case None => None case Some(p) => Some(Refreshed(p, now, flag)))
    ensures forall v :: v != u ==> Lookup(r, v) == Lookup(ps, v)
    decreases |ps|
  {
    if ps == [] then []
    else [if ps[0].username == u then Refreshed(ps[0], now, flag) else ps[0]] + Touch(ps[1..], u, now, flag)
  }

  // ---------------------------------------------------------------------
  // Typing set

  /** `Set.add`: a new name goes last, a present one stays where it is. */
  function AddName(ts: seq<string>, u: string): (r: seq<string>)
    ensures u in ts ==> r == ts
    ensures u !in ts ==> r == ts + [u]
    ensures forall v :: v in r <==> v in ts || v == u
    ensures NoRepeats(ts) ==> NoRepeats(r)
  {
    if u in ts then ts
    else
      var r := ts + [u];
      assert forall i :: 0 <= i < |ts| ==> r[i] == ts[i] && ts[i] in ts;
      r
  }

  /** The test `Set.delete(u)` keeps a name by. */
  function NotNamed(u: string): string -> bool {
    v => v != u
  }

  /** `Set.delete`: the other names keep their order. */
  function RemoveName(ts: seq<string>, u: string): (r: seq<string>)
    ensures u !in ts ==> r == ts
    ensures forall v :: v in r <==> v in ts && v != u
    ensures NoRepeats(ts) ==> NoRepeats(r)
  {
    if u !in ts then
      FilterKeepsAll(ts, NotNamed(u));
      Filter(ts, NotNamed(u))
    else if NoRepeats(ts) then
      FilterKeepsDistinct(ts, NotNamed(u), NameKey);
      Filter(ts, NotNamed(u))
    else
      Filter(ts, NotNamed(u))
  }

  /** Deleting a name that sits at position `i` of a repeat-free set closes
      the gap: the names before and after it stay in order. */
  lemma RemoveNameAt(ts: seq<string>, i: nat)
    requires NoRepeats(ts) && i < |ts|
    ensures RemoveName(ts, ts[i]) == ts[..i] + ts[i + 1..]
  {
    var u := ts[i];
    var keep := NotNamed(u);
    assert ts == ts[..i] + [u] + ts[i + 1..];
    forall v | v in ts[..i] ensures keep(v) {
      var k :| 0 <= k < i && ts[..i][k] == v;
      assert NameKey(ts[k]) != NameKey(ts[i]);
    }
    forall v | v in ts[i + 1..] ensures keep(v) {
      var k :| 0 <= k < |ts| - i - 1 && ts[i + 1..][k] == v;
      assert NameKey(ts[i]) != NameKey(ts[i + 1 + k]);
    }
    FilterDropsOne(ts[..i], u, ts[i + 1..], keep);
    assert RemoveName(ts, u) == Filter(ts, keep);
  }

  // ---------------------------------------------------------------------
  // Deltas

  /** The log entries stamped strictly after `t`, in log order. */
  function After(log: seq<Message>, t: int): (r: seq<Message>)
    ensures forall m :: m in r <==> m in log && m.timestamp > t
    ensures forall m :: m in r ==> m.timestamp != t
  {
    Filter(log, (m: Message) => m.timestamp > t)
  }

  /** The delta of one pull: an absent `since` counts as 0; one that does not
      parse, or lies outside the range of a `Date`, is NaN and selects
      nothing. */
  function Delta(log: seq<Message>, since: Since): (r: seq<Message>)
    ensures since.Unparsable? ==> r == []
    ensures since.At? && !ValidTime(since.t) ==> r == []
    ensures since.At? ==> forall m :: m in r <==> ValidTime(since.t) && m in log && m.timestamp > since.t
    ensures since.Absent? ==> forall m :: m in r <==> m in log && m.timestamp > 0
  {
    match since
    case Absent => After(log, 0)
    case At(t) => if ValidTime(t) then After(log, t) else []
    case Unparsable => []
  }

  /** Both parts of the log's growth: filtering the extended log filters the
      old log and then the appended entries. */
  lemma {:induction false} AfterConcat(a: seq<Message>, b: seq<Message>, t: int)
    ensures After(a + b, t) == After(a, t) + After(b, t)
  {
    FilterConcat(a, b, (m: Message) => m.timestamp > t);
  }

  function JoinMessage(u: string, id: string, now: int): Message {
    Message(id, u + " joined the chat", u, now, JoinKind)
  }

  function LeaveMessage(u: string, id: string, now: int): Message {
    Message(id, u + " left the chat", u, now, LeaveKind)
  }

  /** A username parameter the endpoint accepts: present and non-empty. */
  predicate Named(u: Option<string>) {
    u.Some? && u.value != ""
  }

  // ---------------------------------------------------------------------
  // GET: pull

  /** Handles `GET /api/chat?username=u&since=t` at instant `now`; `freshId`
      is the identifier a join message would get. */
  function Pull(s: Store, req: PullRequest, now: nat, freshId: string): (r: Served<PullReply>)
    ensures r.reply.BadRequest? <==> !Named(req.username)
    ensures r.reply.BadRequest? ==> r.store == s
    ensures Named(req.username) && Lookup(s.presence, req.username.value).None? ==>
      var u := req.username.value;
      && r.store.presence == s.presence + [Presence(u, now, now, false)]
      && Lookup(r.store.presence, u) == Some(Presence(u, now, now, false))
      && (forall v :: v != u ==> Lookup(r.store.presence, v) == Lookup(s.presence, v))
      && r.store.log == s.log + [JoinMessage(u, freshId, now)]
      && r.store.typing == s.typing
    ensures Named(req.username) && Lookup(s.presence, req.username.value).Some? ==>
      var u := req.username.value;
      && r.store.log == s.log
      && r.store.typing == s.typing
      && r.store.presence == Touch(s.presence, u, now, None)
      && |r.store.presence| == |s.presence|
      && Lookup(r.store.presence, u) == Some(Lookup(s.presence, u).value.(lastSeen := now))
      && (forall v :: v != u ==> Lookup(r.store.presence, v) == Lookup(s.presence, v))
    ensures r.reply.Snapshot? ==>
      && r.reply.messages == Delta(r.store.log, req.since)
      && r.reply.users == r.store.presence
      && r.reply.typingUsers == r.store.typing
      && r.reply.timestamp == now
  {
    if !Named(req.username) then Served(s, BadRequest)
    else
      var u := req.username.value;
      var s' :=
        if Lookup(s.presence, u).None? then
          var entry := Presence(u, now, now, false);
          assert forall v :: Lookup(s.presence + [entry], v) == (if v == u then Some(entry) else Lookup(s.presence, v)) by {
            forall v { LookupSnoc(s.presence, entry, v); }
          }
          s.(presence := s.presence + [entry], log := s.log + [JoinMessage(u, freshId, now)])
        else
          s.(presence := Touch(s.presence, u, now, None));
      Served(s', Snapshot(Delta(s'.log, req.since), s'.presence, s'.typing, now))
  }

  /** A user's first pull carries their own join message, as the last entry
      of the delta, whenever the cursor is an instant a `Date` can hold and
      lies before `now`. */
  lemma OwnJoinDelivered(s: Store, u: string, since: int, now: nat, freshId: string)
    requires u != "" && Lookup(s.presence, u).None?
    requires ValidTime(since) && since < now
    ensures var r := Pull(s, PullRequest(Some(u), At(since)), now, freshId);
      && r.reply.Snapshot?
      && |r.reply.messages| > 0
      && r.reply.messages[|r.reply.messages| - 1] == JoinMessage(u, freshId, now)
  {
    AfterConcat(s.log, [JoinMessage(u, freshId, now)], since);
  }

  // ---------------------------------------------------------------------
  // POST: push

  /** Handles `POST /api/chat` at instant `now`; `freshId` is the identifier
      a message without its own id gets. No field is validated. */
  function Post(s: Store, body: PostBody, now: nat, freshId: string): (r: Served<PostReply>)
    ensures r.reply.TypingAck? <==> body.kind == Some(TypingKind)
    ensures r.reply.TypingAck? ==>
      var u := body.sender;
      && r.store.log == s.log
      && r.store.typing == (if body.isTyping then AddName(s.typing, u) else RemoveName(s.typing, u))
      && (u in r.store.typing <==> body.isTyping)
      && (forall v :: v != u ==> (v in r.store.typing <==> v in s.typing))
      && Lookup(r.store.presence, u) == (match Lookup(s.presence, u)
                                          case None => None
                                          case Some(p) => Some(p.(isTyping := body.isTyping, lastSeen := now)))
      && (forall v :: v != u ==> Lookup(r.store.presence, v) == Lookup(s.presence, v))
      && r.store.presence == Touch(s.presence, u, now, Some(body.isTyping))
    ensures r.reply.Echo? ==>
      var m := r.reply.message;
      && r.store.log == s.log + [m]
      && m.id == OrElse(body.id, freshId)
      && m.kind == OrElse(body.kind, MessageKind)
      && m.kind != TypingKind
      && m.sender == body.sender && m.content == body.content && m.timestamp == now
      && r.store.typing == s.typing
      && Lookup(r.store.presence, m.sender) == (match Lookup(s.presence, m.sender)
                                                 case None => None
                                                 case Some(p) => Some(p.(lastSeen := now)))
      && (forall v :: v != m.sender ==> Lookup(r.store.presence, v) == Lookup(s.presence, v))
      && r.store.presence == Touch(s.presence, m.sender, now, None)
  {
    if body.kind == Some(TypingKind) then
      var typing := if body.isTyping then AddName(s.typing, body.sender) else RemoveName(s.typing, body.sender);
      var presence := Touch(s.presence, body.sender, now, Some(body.isTyping));
      Served(s.(typing := typing, presence := presence), TypingAck)
    else
      var m := Message(OrElse(body.id, freshId), body.content, body.sender, now, OrElse(body.kind, MessageKind));
      Served(s.(log := s.log + [m], presence := Touch(s.presence, body.sender, now, None)), Echo(m))
  }

  // ---------------------------------------------------------------------
  // Reaper sweep

  predicate Stale(p: Presence, now: int) {
    now - p.lastSeen > PresenceTimeoutMs
  }

  /** The entries a sweep at `now` evicts, in table order. */
  function Evicted(ps: seq<Presence>, now: int): (r: seq<Presence>)
    ensures forall p :: p in r <==> p in ps && Stale(p, now)
  {
    Filter(ps, (p: Presence) => Stale(p, now))
  }

  /** The entries a sweep at `now` keeps, in table order. */
  function Kept(ps: seq<Presence>, now: int): (r: seq<Presence>)
    ensures forall p :: p in r <==> p in ps && !Stale(p, now)
  {
    Filter(ps, (p: Presence) => !Stale(p, now))
  }

  /** The kept entries of a table are the kept entries of each part, so a
      sweep never reorders the users it keeps. */
  lemma KeptConcat(a: seq<Presence>, b: seq<Presence>, now: int)
    ensures Kept(a + b, now) == Kept(a, now) + Kept(b, now)
  {
    FilterConcat(a, b, (p: Presence) => !Stale(p, now));
  }

  /** Splitting a table into stale and live entries loses nothing. */
  lemma {:induction false} EvictedPlusKept(ps: seq<Presence>, now: int)
    ensures |Evicted(ps, now)| + |Kept(ps, now)| == |ps|
    decreases |ps|
  {
    if ps != [] {
      EvictedPlusKept(ps[1..], now);
    }
  }

  /** The names whose entries a sweep at `now` evicts. */
  function StaleNames(ps: seq<Presence>, now: int): set<string> {
    set p | p in ps && Stale(p, now) :: p.username
  }

  /** One leave message per evicted entry, in eviction order; the i-th
      evicted user's message gets `ids[i]`. */
  function Leaves(gone: seq<Presence>, ids: seq<string>, now: int): (r: seq<Message>)
    requires |ids| >= |gone|
    ensures |r| == |gone|
    ensures forall i :: 0 <= i < |gone| ==> r[i] == LeaveMessage(gone[i].username, ids[i], now)
  {
    seq(|gone|, i requires 0 <= i < |gone| => LeaveMessage(gone[i].username, ids[i], now))
  }

  /** The log after a sweep: each appended entry is a leave message for an
      evicted user, and every evicted user gets one. */
  lemma ReapLog(log: seq<Message>, ps: seq<Presence>, now: int, ids: seq<string>)
    requires |ids| >= |ps|
    ensures var out := log + Leaves(Evicted(ps, now), ids, now);
      && (forall i :: |log| <= i < |out| ==>
            && out[i] == LeaveMessage(out[i].sender, out[i].id, now)
            && out[i].sender in StaleNames(ps, now))
      && (forall p :: p in ps && Stale(p, now) ==>
            exists i :: |log| <= i < |out| && out[i].sender == p.username)
  {
    var gone := Evicted(ps, now);
    var leaves := Leaves(gone, ids, now);
    var out := log + leaves;
    forall i | |log| <= i < |out|
      ensures out[i] == LeaveMessage(out[i].sender, out[i].id, now)
      ensures out[i].sender in StaleNames(ps, now)
    {
      var k := i - |log|;
      assert out[i] == leaves[k];
      assert gone[k] in gone;
    }
    forall p | p in ps && Stale(p, now)
      ensures exists i :: |log| <= i < |out| && out[i].sender == p.username
    {
      assert p in gone;
      var k :| 0 <= k < |gone| && gone[k] == p;
      assert out[|log| + k] == leaves[k];
    }
  }

  /** One pass of the reaper at instant `now`. */
  function Reap(s: Store, now: nat, ids: seq<string>): (r: Store)
    requires |ids| >= |s.presence|
    ensures r.presence == Kept(s.presence, now)
    ensures r.log == s.log + Leaves(Evicted(s.presence, now), ids, now)
    ensures r.typing == Filter(s.typing, (u: string) => u !in StaleNames(s.presence, now))
    ensures forall p :: p in r.presence <==> p in s.presence && !Stale(p, now)
    ensures forall u :: u in r.typing <==> u in s.typing && u !in StaleNames(s.presence, now)
    ensures |r.log| == |s.log| + |s.presence| - |r.presence|
    ensures |s.log| <= |r.log| && r.log[..|s.log|] == s.log
    ensures forall i :: |s.log| <= i < |r.log| ==>
      && r.log[i] == LeaveMessage(r.log[i].sender, r.log[i].id, now)
      && r.log[i].sender in StaleNames(s.presence, now)
    ensures forall p :: p in s.presence && Stale(p, now) ==>
      exists i :: |s.log| <= i < |r.log| && r.log[i].sender == p.username
  {
    var names := StaleNames(s.presence, now);
    ReapLog(s.log, s.presence, now, ids);
    EvictedPlusKept(s.presence, now);
    Store(s.log + Leaves(Evicted(s.presence, now), ids, now), Kept(s.presence, now),
          Filter(s.typing, (u: string) => u !in names))
  }

  // ---------------------------------------------------------------------
  // Store invariants

  /** The shape every reachable store has: each user has one entry and was
      seen no earlier than they joined, and the typing set has no repeats. */
  predicate Wf(s: Store) {
    && DistinctBy(s.presence, NameOf)
    && NoRepeats(s.typing)
    && forall p :: p in s.presence ==> p.joinedAt <= p.lastSeen
  }

  /** Nothing in the store is stamped later than `now`. */
  predicate StampedBy(s: Store, now: int) {
    && (forall m :: m in s.log ==> m.timestamp <= now)
    && (forall p :: p in s.presence ==> p.lastSeen <= now)
  }

  lemma TouchKeepsWf(ps: seq<Presence>, u: string, now: int, flag: Option<bool>)
    requires DistinctBy(ps, NameOf)
    requires forall p :: p in ps ==> p.joinedAt <= p.lastSeen <= now
    ensures var r := Touch(ps, u, now, flag);
      && DistinctBy(r, NameOf)
      && forall p :: p in r ==> p.joinedAt <= p.lastSeen <= now
  {
    var r := Touch(ps, u, now, flag);
    forall p | p in r
      ensures p.joinedAt <= p.lastSeen <= now
    {
      var i :| 0 <= i < |r| && r[i] == p;
      assert ps[i] in ps;
    }
  }

  /** A pull keeps the store well formed and stamped by its instant. */
  lemma {:induction false} PullKeepsWf(s: Store, req: PullRequest, now: nat, freshId: string)
    requires Wf(s) && StampedBy(s, now)
    ensures Wf(Pull(s, req, now, freshId).store)
    ensures StampedBy(Pull(s, req, now, freshId).store, now)
  {
    if Named(req.username) {
      var u := req.username.value;
      if Lookup(s.presence, u).None? {
        var ps := s.presence + [Presence(u, now, now, false)];
        forall i, j | 0 <= i < j < |ps|
          ensures NameOf(ps[i]) != NameOf(ps[j])
        {
          if j < |s.presence| {
            assert ps[i] == s.presence[i] && ps[j] == s.presence[j];
          } else {
            assert ps[i] in s.presence;
          }
        }
      } else {
        TouchKeepsWf(s.presence, u, now, None);
      }
    }
  }

  /** A push keeps the store well formed and stamped by its instant. */
  lemma {:induction false} PostKeepsWf(s: Store, body: PostBody, now: nat, freshId: string)
    requires Wf(s) && StampedBy(s, now)
    ensures Wf(Post(s, body, now, freshId).store)
    ensures StampedBy(Post(s, body, now, freshId).store, now)
  {
    if body.kind == Some(TypingKind) {
      TouchKeepsWf(s.presence, body.sender, now, Some(body.isTyping));
    } else {
      TouchKeepsWf(s.presence, body.sender, now, None);
    }
  }

  /** A sweep keeps the store well formed and stamped by its instant. */
  lemma {:induction false} ReapKeepsWf(s: Store, now: nat, ids: seq<string>)
    requires |ids| >= |s.presence|
    requires Wf(s) && StampedBy(s, now)
    ensures Wf(Reap(s, now, ids)) && StampedBy(Reap(s, now, ids), now)
  {
    var names := StaleNames(s.presence, now);
    FilterKeepsDistinct(s.presence, (p: Presence) => !Stale(p, now), NameOf);
    FilterKeepsDistinct(s.typing, (u: string) => u !in names, NameKey);
    var r := Reap(s, now, ids);
    forall m | m in r.log
      ensures m.timestamp <= now
    {
      var i :| 0 <= i < |r.log| && r.log[i] == m;
      if i < |s.log| {
        assert r.log[..|s.log|][i] == m;
      }
    }
  }
}
