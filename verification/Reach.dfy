/** What the cursor machine can still deliver. An owner whose clock is behind may sign an
    event at or before a peer's cursor. This module says, for every state and every future,
    exactly when pulls can still bring such an event to the peer. */
module Reach {
  import opened Events
  import opened Buckets
  import opened Cursors

  // ----- What every feasible run keeps

  ghost predicate PullSane(log: Bucket, p: Pull) {
    && p.after >= 0 && p.maxTS >= 0
    && (!p.served ==> p.pending == [] && p.maxTS == 0)
    && Ascending(p.pending)
    && forall q :: q in p.pending ==> InBucket(log, q) && q.event.timestamp >= p.maxTS
  }

  ghost predicate PullsSane(log: Bucket, pulls: map<nat, Pull>) {
    forall id :: id in pulls ==> PullSane(log, pulls[id])
  }

  ghost predicate Sane(s: System, owner: Identity, name: LogName) {
    LogOk(s.log, owner, name) && HeldOk(s.held, owner) && s.cursor >= 0 && PullsSane(s.log, s.pulls)
  }

  lemma AppendKeepsSane(s: System, se: SignedEvent, owner: Identity, name: LogName)
    requires Sane(s, owner, name) && Entry(se, owner, name)
    ensures Sane(Next(s, Append(se)), owner, name)
    ensures Extends(Next(s, Append(se)).log, s.log)
  {
    InsertEffect(s.log, se);
    var log' := Insert(s.log, se);
    forall id | id in s.pulls ensures PullSane(log', s.pulls[id]) {
      assert PullSane(s.log, s.pulls[id]);
    }
  }

  lemma ServedIsSane(log: Bucket, p: Pull)
    requires Keyed(log) && PullSane(log, p) && !p.served
    ensures forall q :: q in Served(log, p).pending <==> InBucket(log, q) && q.event.timestamp > p.after
    ensures PullSane(log, Served(log, p))
  {
    RequestedEvents(Listing(log), p.after);
    ListingHolds(log);
  }

  lemma ReceivedIsSane(log: Bucket, p: Pull)
    requires PullSane(log, p) && p.pending != []
    ensures PullSane(log, Received(p)) && Received(p).maxTS == p.pending[0].event.timestamp
    ensures InBucket(log, p.pending[0])
  {
    assert p.pending[0] in p.pending;
    TailOf(p.pending);
  }

  lemma ReplacedIsSane(log: Bucket, pulls: map<nat, Pull>, id: nat, p: Pull)
    requires PullsSane(log, pulls) && PullSane(log, p)
    ensures PullsSane(log, pulls[id := p])
  {}

  lemma ReceiveKeepsSane(s: System, id: nat, owner: Identity, name: LogName)
    requires Sane(s, owner, name) && id in s.pulls && s.pulls[id].pending != []
    ensures Sane(Next(s, Receive(id)), owner, name)
    ensures Covered(Next(s, Receive(id)).held, s.pulls[id].pending[0])
    ensures Next(s, Receive(id)).pulls == s.pulls[id := Received(s.pulls[id])]
  {
    var p := s.pulls[id];
    ReceivedIsSane(s.log, p);
    InsertKeepsHeld(s.held, owner, p.pending[0]);
    ReplacedIsSane(s.log, s.pulls, id, Received(p));
  }

  lemma ServeKeepsSane(s: System, id: nat, owner: Identity, name: LogName)
    requires Sane(s, owner, name) && id in s.pulls && !s.pulls[id].served
    ensures Sane(Next(s, Serve(id)), owner, name)
    ensures Next(s, Serve(id)).log == s.log && Next(s, Serve(id)).pulls == s.pulls[id := Served(s.log, s.pulls[id])]
  {
    ServedIsSane(s.log, s.pulls[id]);
    ReplacedIsSane(s.log, s.pulls, id, Served(s.log, s.pulls[id]));
  }

  lemma StartKeepsSane(s: System, id: nat, owner: Identity, name: LogName)
    requires Sane(s, owner, name)
    ensures Sane(Next(s, Start(id)), owner, name)
    ensures Next(s, Start(id)).pulls == s.pulls[id := Pull(s.cursor, false, {}, [], 0)]
  {
    ReplacedIsSane(s.log, s.pulls, id, Pull(s.cursor, false, {}, [], 0));
  }

  lemma FinishKeepsSane(s: System, id: nat, owner: Identity, name: LogName)
    requires Sane(s, owner, name) && id in s.pulls
    ensures Sane(Next(s, Finish(id)), owner, name)
    ensures Sane(Next(s, Abort(id)), owner, name)
  {
    assert PullSane(s.log, s.pulls[id]);
  }

  lemma StepKeepsSane(s: System, m: Move, owner: Identity, name: LogName)
    requires Sane(s, owner, name) && Possible(s, m, owner, name)
    ensures Sane(Next(s, m), owner, name)
  {
    match m
    case Append(se) => AppendKeepsSane(s, se, owner, name);
    case Start(id) => StartKeepsSane(s, id, owner, name);
    case Serve(id) => ServeKeepsSane(s, id, owner, name);
    case Receive(id) => ReceiveKeepsSane(s, id, owner, name);
    case Finish(id) => FinishKeepsSane(s, id, owner, name);
    case Abort(id) => FinishKeepsSane(s, id, owner, name);
    case Arrive(se) => InsertKeepsHeld(s.held, owner, se);
    case Crawl(se) => CrawlKeepsHeld(s.held, owner, se);
  }

  lemma {:induction false} RunKeepsSane(s: System, moves: seq<Move>, owner: Identity, name: LogName)
    requires Sane(s, owner, name) && Feasible(s, moves, owner, name)
    ensures Sane(Run(s, moves), owner, name)
    decreases moves
  {
    if moves != [] {
      StepKeepsSane(s, moves[0], owner, name);
      RunKeepsSane(Next(s, moves[0]), moves[1..], owner, name);
    }
  }

  // ----- What pulls can still deliver

  /** Finishing now, or after one more event, this pull records a cursor before t. */
  ghost predicate CanLower(p: Pull, t: int) {
    && p.after < t
    && if p.maxTS > 0 then p.maxTS - SKEW_WINDOW < t
       else p.pending != [] && p.pending[0].event.timestamp - SKEW_WINDOW < t
  }

  ghost predicate Reaches(p: Pull, se: SignedEvent) {
    if p.served then se in p.pending || CanLower(p, se.event.timestamp) else se.event.timestamp > p.after
  }

  ghost predicate NoneReaches(pulls: map<nat, Pull>, se: SignedEvent) {
    forall id :: id in pulls ==> !Reaches(pulls[id], se)
  }

  /** A later pull will ask for the event, or one in flight has it under way, has not been
      answered and started early enough, or can move the cursor back before it. */
  ghost predicate InReach(s: System, se: SignedEvent) {
    se.event.timestamp > s.cursor || !NoneReaches(s.pulls, se)
  }

  /** x would cover se: the same event, or a Like of the same pair. */
  ghost predicate StandsFor(x: SignedEvent, se: SignedEvent) {
    x.Id() == se.Id() || (IsLike(se) && LikeOf(x, se.author, se.event.like.value))
  }

  /** The move brings the event by another way than a pull. */
  ghost predicate Brings(m: Move, se: SignedEvent) {
    (m.Arrive? || m.Crawl?) && StandsFor(m.se, se)
  }

  ghost predicate Unaided(moves: seq<Move>, se: SignedEvent) {
    forall m :: m in moves ==> !Brings(m, se)
  }

  ghost predicate Missed(s: System, se: SignedEvent) {
    InBucket(s.log, se) && !Covered(s.held, se) && !InReach(s, se)
  }

  lemma CoverNeedsStandIn(held: Bucket, x: SignedEvent, more: Bucket, se: SignedEvent)
    requires !Covered(held, se) && !StandsFor(x, se)
    requires more == Insert(held, x) || more == held[x.Id() := x]
    ensures !Covered(more, se)
  {
    forall id | id in more && IsLike(se) ensures !LikeOf(more[id], se.author, se.event.like.value) {
      if more[id] != x {
        assert id in held && more[id] == held[id];
      }
    }
  }

  /** No other event of the log can stand for an event of the log. */
  lemma LogStandsApart(log: Bucket, q: SignedEvent, se: SignedEvent)
    requires WellFormed(log) && InBucket(log, q) && InBucket(log, se) && q != se
    ensures !StandsFor(q, se)
  {}

  lemma ReplacedPullMisses(pulls: map<nat, Pull>, id: nat, p: Pull, se: SignedEvent)
    requires NoneReaches(pulls, se) && !Reaches(p, se)
    ensures NoneReaches(pulls[id := p], se)
  {}

  lemma ReceiveMisses(s: System, id: nat, se: SignedEvent, owner: Identity, name: LogName)
    requires Sane(s, owner, name) && Missed(s, se) && id in s.pulls && s.pulls[id].pending != []
    ensures Missed(Next(s, Receive(id)), se)
  {
    var p := s.pulls[id];
    var q := p.pending[0];
    assert PullSane(s.log, p) && !Reaches(p, se);
    ReceivedIsSane(s.log, p);
    assert q in p.pending;
    LogStandsApart(s.log, q, se);
    CoverNeedsStandIn(s.held, q, Insert(s.held, q), se);
    TailOf(p.pending);
    assert !Reaches(Received(p), se);
    ReplacedPullMisses(s.pulls, id, Received(p), se);
  }

  lemma ServedPullMisses(log: Bucket, p: Pull, se: SignedEvent)
    requires Keyed(log) && PullSane(log, p) && !p.served && !Reaches(p, se)
    ensures !Reaches(Served(log, p), se)
  {
    ServedIsSane(log, p);
  }

  lemma ServeMisses(s: System, id: nat, se: SignedEvent, owner: Identity, name: LogName)
    requires Sane(s, owner, name) && Missed(s, se) && id in s.pulls && !s.pulls[id].served
    ensures Missed(Next(s, Serve(id)), se)
  {
    hide Covered, Requested, HeldOk, CanonicalEncode;
    ServedPullMisses(s.log, s.pulls[id], se);
    ReplacedPullMisses(s.pulls, id, Served(s.log, s.pulls[id]), se);
  }

  lemma FinishStaysBehind(cursor: int, p: Pull, se: SignedEvent)
    requires se.event.timestamp <= cursor && p.maxTS >= 0 && (p.maxTS > 0 ==> p.served) && !Reaches(p, se)
    ensures se.event.timestamp <= Advanced(cursor, p.after, p.maxTS)
  {}

  lemma DroppedPullMisses(pulls: map<nat, Pull>, id: nat, se: SignedEvent)
    requires NoneReaches(pulls, se)
    ensures NoneReaches(pulls - {id}, se)
  {}

  lemma FinishMisses(s: System, id: nat, se: SignedEvent, owner: Identity, name: LogName)
    requires Sane(s, owner, name) && Missed(s, se) && id in s.pulls
    ensures Missed(Next(s, Finish(id)), se) && Missed(Next(s, Abort(id)), se)
  {
    hide Reaches, LogOk, HeldOk;
    assert PullSane(s.log, s.pulls[id]);
    FinishStaysBehind(s.cursor, s.pulls[id], se);
    DroppedPullMisses(s.pulls, id, se);
  }

  lemma AppendMisses(s: System, x: SignedEvent, se: SignedEvent, owner: Identity, name: LogName)
    requires Sane(s, owner, name) && Missed(s, se) && Entry(x, owner, name)
    ensures Missed(Next(s, Append(x)), se)
  {
    AppendKeepsSane(s, x, owner, name);
  }

  lemma StaysMissed(s: System, m: Move, se: SignedEvent, owner: Identity, name: LogName)
    requires Sane(s, owner, name) && Possible(s, m, owner, name) && Missed(s, se) && !Brings(m, se)
    ensures Missed(Next(s, m), se)
  {
    match m
    case Append(x) => AppendMisses(s, x, se, owner, name);
    case Start(id) =>
      StartKeepsSane(s, id, owner, name);
      ReplacedPullMisses(s.pulls, id, Pull(s.cursor, false, {}, [], 0), se);
    case Serve(id) => ServeMisses(s, id, se, owner, name);
    case Receive(id) => ReceiveMisses(s, id, se, owner, name);
    case Finish(id) => FinishMisses(s, id, se, owner, name);
    case Abort(id) => FinishMisses(s, id, se, owner, name);
    case Arrive(x) => CoverNeedsStandIn(s.held, x, Insert(s.held, x), se);
    case Crawl(x) => CoverNeedsStandIn(s.held, x, s.held[x.Id() := x], se);
  }

  /** What is out of reach stays missed, whatever is pulled afterwards. */
  lemma {:induction false} MissedForGood(s: System, moves: seq<Move>, se: SignedEvent, owner: Identity, name: LogName)
    requires Sane(s, owner, name) && Missed(s, se)
    requires Feasible(s, moves, owner, name) && Unaided(moves, se)
    ensures Missed(Run(s, moves), se)
    decreases moves
  {
    if moves != [] {
      assert moves[0] in moves;
      StaysMissed(s, moves[0], se, owner, name);
      StepKeepsSane(s, moves[0], owner, name);
      MissedForGood(Next(s, moves[0]), moves[1..], se, owner, name);
    }
  }

  // ----- The runs that deliver

  ghost predicate Delivers(s: System, moves: seq<Move>, se: SignedEvent, owner: Identity, name: LogName) {
    Feasible(s, moves, owner, name) && Unaided(moves, se) && Covered(Run(s, moves).held, se)
  }

  /** Some run of pulls delivers the event. */
  ghost predicate Deliverable(s: System, se: SignedEvent, owner: Identity, name: LogName) {
    exists moves :: Delivers(s, moves, se, owner, name)
  }

  lemma OneMoveEarlier(s: System, m: Move, se: SignedEvent, owner: Identity, name: LogName)
    requires Possible(s, m, owner, name) && !Brings(m, se) && Deliverable(Next(s, m), se, owner, name)
    ensures Deliverable(s, se, owner, name)
  {
    var rest :| Delivers(Next(s, m), rest, se, owner, name);
    assert ([m] + rest)[1..] == rest;
    assert Delivers(s, [m] + rest, se, owner, name);
  }

  lemma FirstArrives(s: System, id: nat, owner: Identity, name: LogName)
    requires Sane(s, owner, name) && id in s.pulls && s.pulls[id].pending != []
    ensures Deliverable(s, s.pulls[id].pending[0], owner, name)
  {
    hide Sane;
    ReceiveKeepsSane(s, id, owner, name);
    assert Delivers(Next(s, Receive(id)), [], s.pulls[id].pending[0], owner, name);
    OneMoveEarlier(s, Receive(id), s.pulls[id].pending[0], owner, name);
  }

  lemma ReceiveShifts(s: System, id: nat, k: nat, owner: Identity, name: LogName)
    requires Sane(s, owner, name) && id in s.pulls && 0 < k < |s.pulls[id].pending|
    ensures var s' := Next(s, Receive(id));
      && Sane(s', owner, name) && id in s'.pulls
      && k - 1 < |s'.pulls[id].pending| && s'.pulls[id].pending[k - 1] == s.pulls[id].pending[k]
  {
    ReceiveKeepsSane(s, id, owner, name);
  }

  /** An event under way arrives if the pull is left to receive it. */
  lemma {:induction false} PendingArrives(s: System, id: nat, k: nat, owner: Identity, name: LogName)
    requires Sane(s, owner, name) && id in s.pulls && k < |s.pulls[id].pending|
    ensures Deliverable(s, s.pulls[id].pending[k], owner, name)
    decreases k
  {
    hide Deliverable, Sane;
    if k == 0 {
      FirstArrives(s, id, owner, name);
    } else {
      ReceiveShifts(s, id, k, owner, name);
      PendingArrives(Next(s, Receive(id)), id, k - 1, owner, name);
      OneMoveEarlier(s, Receive(id), s.pulls[id].pending[k], owner, name);
    }
  }

  lemma PendingIsDelivered(s: System, id: nat, se: SignedEvent, owner: Identity, name: LogName)
    requires Sane(s, owner, name) && id in s.pulls && se in s.pulls[id].pending
    ensures Deliverable(s, se, owner, name)
  {
    hide Deliverable, Sane;
    var k :| 0 <= k < |s.pulls[id].pending| && s.pulls[id].pending[k] == se;
    PendingArrives(s, id, k, owner, name);
  }

  lemma WillBeServed(log: Bucket, p: Pull, se: SignedEvent)
    requires Keyed(log) && PullSane(log, p) && !p.served && InBucket(log, se) && se.event.timestamp > p.after
    ensures se in Served(log, p).pending
  {
    ServedIsSane(log, p);
  }

  lemma ServePuts(s: System, id: nat, se: SignedEvent, owner: Identity, name: LogName)
    requires Sane(s, owner, name) && InBucket(s.log, se)
    requires id in s.pulls && !s.pulls[id].served && se.event.timestamp > s.pulls[id].after
    ensures var s' := Next(s, Serve(id)); Sane(s', owner, name) && id in s'.pulls && se in s'.pulls[id].pending
  {
    ServeKeepsSane(s, id, owner, name);
    WillBeServed(s.log, s.pulls[id], se);
  }

  lemma UnansweredPullDelivers(s: System, id: nat, se: SignedEvent, owner: Identity, name: LogName)
    requires Sane(s, owner, name) && InBucket(s.log, se)
    requires id in s.pulls && !s.pulls[id].served && se.event.timestamp > s.pulls[id].after
    ensures Deliverable(s, se, owner, name)
  {
    hide Deliverable, Sane;
    ServePuts(s, id, se, owner, name);
    PendingIsDelivered(Next(s, Serve(id)), id, se, owner, name);
    OneMoveEarlier(s, Serve(id), se, owner, name);
  }

  lemma {:induction false} FreshId(ids: set<nat>) returns (id: nat)
    ensures id !in ids && forall i :: i in ids ==> i < id
  {
    id := 0;
    var rest := ids;
    while rest != {}
      invariant rest <= ids && forall i :: i in ids - rest ==> i < id
      decreases rest
    {
      var i :| i in rest;
      assert ids - (rest - {i}) == ids - rest + {i};
      rest := rest - {i};
      if i >= id { id := i + 1; }
    }
    assert ids - rest == ids;
  }

  lemma NewPullDelivers(s: System, se: SignedEvent, owner: Identity, name: LogName)
    requires Sane(s, owner, name) && InBucket(s.log, se) && se.event.timestamp > s.cursor
    ensures Deliverable(s, se, owner, name)
  {
    hide Deliverable;
    var id := FreshId(s.pulls.Keys);
    StartKeepsSane(s, id, owner, name);
    UnansweredPullDelivers(Next(s, Start(id)), id, se, owner, name);
    OneMoveEarlier(s, Start(id), se, owner, name);
  }

  /** A pull that can lower the cursor makes way for one that asks for the event. */
  lemma LoweredCursorDelivers(s: System, id: nat, se: SignedEvent, owner: Identity, name: LogName)
    requires Sane(s, owner, name) && InBucket(s.log, se)
    requires id in s.pulls && s.pulls[id].maxTS > 0 && CanLower(s.pulls[id], se.event.timestamp)
    ensures Deliverable(s, se, owner, name)
  {
    hide Deliverable;
    FinishKeepsSane(s, id, owner, name);
    NewPullDelivers(Next(s, Finish(id)), se, owner, name);
    OneMoveEarlier(s, Finish(id), se, owner, name);
  }

  lemma OneMoreLowers(s: System, id: nat, se: SignedEvent, owner: Identity, name: LogName)
    requires Sane(s, owner, name) && InBucket(s.log, se)
    requires id in s.pulls && s.pulls[id].maxTS == 0 && CanLower(s.pulls[id], se.event.timestamp)
    ensures Deliverable(s, se, owner, name)
  {
    hide Deliverable, CanonicalEncode;
    ReceiveKeepsSane(s, id, owner, name);
    ReceivedIsSane(s.log, s.pulls[id]);
    LoweredCursorDelivers(Next(s, Receive(id)), id, se, owner, name);
    OneMoveEarlier(s, Receive(id), se, owner, name);
  }

  lemma PullDelivers(s: System, id: nat, se: SignedEvent, owner: Identity, name: LogName)
    requires Sane(s, owner, name) && InBucket(s.log, se) && id in s.pulls && Reaches(s.pulls[id], se)
    ensures Deliverable(s, se, owner, name)
  {
    hide Deliverable;
    var p := s.pulls[id];
    assert PullSane(s.log, p);
    if !p.served {
      UnansweredPullDelivers(s, id, se, owner, name);
    } else if se in p.pending {
      PendingIsDelivered(s, id, se, owner, name);
    } else if p.maxTS > 0 {
      LoweredCursorDelivers(s, id, se, owner, name);
    } else {
      OneMoreLowers(s, id, se, owner, name);
    }
  }

  /** The exact condition: some future of pulls, appends and unrelated arrivals brings an
      uncovered event of the log to the puller if and only if it is in reach now. */
  lemma DeliverableExactlyInReach(s: System, se: SignedEvent, owner: Identity, name: LogName)
    requires Sane(s, owner, name) && InBucket(s.log, se) && !Covered(s.held, se)
    ensures Deliverable(s, se, owner, name) <==> InReach(s, se)
  {
    if se.event.timestamp > s.cursor {
      NewPullDelivers(s, se, owner, name);
    } else if id :| id in s.pulls && Reaches(s.pulls[id], se) {
      PullDelivers(s, id, se, owner, name);
    } else {
      forall moves | Feasible(s, moves, owner, name) && Unaided(moves, se)
        ensures !Covered(Run(s, moves).held, se)
      {
        MissedForGood(s, moves, se, owner, name);
      }
    }
  }

  /** Signing a fresh event keeps the cursor safe if and only if the event is later than the
      cursor. Otherwise a peer without it gets it by a pull if and only if a pull that was
      under way before can still reach it. */
  lemma StaleAppendIsMissed(s: System, se: SignedEvent, owner: Identity, name: LogName)
    requires Inv(s, owner, name) && Entry(se, owner, name)
    requires !Covered(s.log, se) && !Covered(s.held, se)
    ensures var s' := Next(s, Append(se));
      && (CursorSafe(s'.log, s'.held, s'.cursor) <==> se.event.timestamp > s.cursor)
      && (Deliverable(s', se, owner, name) <==>
            se.event.timestamp > s.cursor || !NoneReaches(s.pulls, se))
  {
    hide Deliverable, CanonicalEncode;
    InvIsSane(s, owner, name);
    AppendKeepsSane(s, se, owner, name);
    DeliverableExactlyInReach(Next(s, Append(se)), se, owner, name);
  }

  lemma InvIsSane(s: System, owner: Identity, name: LogName)
    requires Inv(s, owner, name)
    ensures Sane(s, owner, name)
  {
    forall id | id in s.pulls ensures PullSane(s.log, s.pulls[id]) {
      assert PullOk(s.log, s.held, s.pulls[id]);
    }
  }
}
