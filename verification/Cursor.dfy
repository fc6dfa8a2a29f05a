/** The pull cursor of one (peer, log) pair as a state machine (internal/sync/session.go):
    the owner appends to a log while any number of pulls of it, complete or cut short,
    overlap at the puller. The cursor backs off from the newest received timestamp by a skew
    window; the theorem is that it never steps over an event the puller does not hold. */
module Cursors {
  import opened Events
  import opened Projection
  import opened Buckets

  /** Five minutes in nanoseconds. */
  const SKEW_WINDOW: int := 300_000_000_000

  // ----- What the server sends

  function Later(s: seq<SignedEvent>, after: int): (r: seq<SignedEvent>)
    ensures forall se :: se in r <==> se in s && se.event.timestamp > after
  {
    if s == [] then []
    else
      var r := Later(s[..|s| - 1], after);
      if s[|s| - 1].event.timestamp > after then r + [s[|s| - 1]] else r
  }

  /** The events of a log after a time, in time order. */
  function Requested(events: seq<SignedEvent>, after: int): seq<SignedEvent> {
    Later(SortedByTime(events), after)
  }

  ghost predicate Ascending(s: seq<SignedEvent>) {
    forall i, j :: 0 <= i < j < |s| ==> s[i].event.timestamp <= s[j].event.timestamp
  }

  lemma {:induction false} LaterKeepsOrder(s: seq<SignedEvent>, after: int)
    requires Ascending(s)
    ensures Ascending(Later(s, after))
  {
    if s != [] {
      LaterKeepsOrder(s[..|s| - 1], after);
      var r := Later(s[..|s| - 1], after);
      forall i | 0 <= i < |r| ensures r[i].event.timestamp <= s[|s| - 1].event.timestamp {
        assert r[i] in s[..|s| - 1];
      }
    }
  }

  /** The reply holds exactly the later events and is sent oldest first. */
  lemma {:induction false} LaterCounts(s: seq<SignedEvent>, after: int, se: SignedEvent)
    ensures multiset(Later(s, after))[se] == if se.event.timestamp > after then multiset(s)[se] else 0
  {
    if s != [] {
      LaterCounts(s[..|s| - 1], after, se);
      assert s == s[..|s| - 1] + [s[|s| - 1]];
    }
  }

  lemma RequestedEvents(events: seq<SignedEvent>, after: int)
    ensures Ascending(Requested(events, after))
    ensures forall se :: multiset(Requested(events, after))[se]
              == if se.event.timestamp > after then multiset(events)[se] else 0
    ensures forall se :: se in Requested(events, after) <==> se in events && se.event.timestamp > after
  {
    var sorted := SortedByTime(events);
    StableSortSorts(ByTime, events);
    SameElements(events, sorted);
    forall i, j | 0 <= i < j < |sorted| ensures sorted[i].event.timestamp <= sorted[j].event.timestamp {
      assert !Less(ByTime, sorted[j], sorted[i]);
    }
    LaterKeepsOrder(sorted, after);
    forall se ensures multiset(Later(sorted, after))[se] == if se.event.timestamp > after then multiset(events)[se] else 0 {
      LaterCounts(sorted, after, se);
    }
  }

  // ----- The machine

  /** One pull in progress: the time it asked for, whether the owner has answered, the log's
      identifiers when it did, the events under way, and the newest timestamp received. */
  datatype Pull = Pull(after: int, served: bool, snapshot: set<EventID>, pending: seq<SignedEvent>, maxTS: int)

  datatype System = System(log: Bucket, held: Bucket, cursor: int, pulls: map<nat, Pull>)

  datatype Move =
    | Append(se: SignedEvent)  // the owner signs an event
    | Start(id: nat)           // a session reads the cursor and sends its request
    | Serve(id: nat)           // the owner reads its log and starts answering
    | Receive(id: nat)         // the puller merges the next event
    | Finish(id: nat)          // done, or end of stream at any point: the cursor advances
    | Abort(id: nat)           // any other error: the cursor stays
    | Arrive(se: SignedEvent)  // an event of the owner reaches the puller by another way
    | Crawl(se: SignedEvent)   // a crawl writes a fetched profile event over what is there

  /** The new cursor, or the old one when nothing arrived. */
  function Advanced(cursor: int, after: int, maxTS: int): int {
    if maxTS == 0 then cursor
    else if maxTS - SKEW_WINDOW < after then after
    else maxTS - SKEW_WINDOW
  }

  /** What can happen at all. A Like may arrive that is not in the owner's log: another
      device of the same identity may have signed it. */
  ghost predicate Possible(s: System, m: Move, owner: Identity, name: LogName) {
    match m
    case Append(se) => Entry(se, owner, name)
    case Start(id) => id !in s.pulls
    case Serve(id) => id in s.pulls && !s.pulls[id].served
    case Receive(id) => id in s.pulls && s.pulls[id].pending != []
    case Finish(id) => id in s.pulls
    case Abort(id) => id in s.pulls
    case Arrive(se) => se.author == owner && Verified(se)
    case Crawl(se) => Verified(se) && se.event.log == ProfileLog
  }

  /** The owner's clock never falls a full window behind its log. */
  ghost predicate Timely(s: System, m: Move) {
    m.Append? ==> forall id :: id in s.log ==> s.log[id].event.timestamp - SKEW_WINDOW < m.se.event.timestamp
  }

  ghost predicate Enabled(s: System, m: Move, owner: Identity, name: LogName) {
    Possible(s, m, owner, name) && Timely(s, m)
  }

  /** What the owner's log may hold: its own valid events with positive timestamps. */
  predicate Entry(se: SignedEvent, owner: Identity, name: LogName) {
    && se.author == owner && se.event.log == name && ValidEvent(se.event) && se.event.timestamp > 0
  }

  ghost function Next(s: System, m: Move): System {
    match m
    case Append(se) => s.(log := Insert(s.log, se))
    case Start(id) => s.(pulls := s.pulls[id := Pull(if s.cursor > 0 then s.cursor else 0, false, {}, [], 0)])
    case Serve(id) =>
      if id !in s.pulls then s
      else s.(pulls := s.pulls[id := Served(s.log, s.pulls[id])])
    case Receive(id) =>
      if id !in s.pulls || s.pulls[id].pending == [] then s
      else s.(held := Insert(s.held, s.pulls[id].pending[0]), pulls := s.pulls[id := Received(s.pulls[id])])
    case Finish(id) =>
      if id !in s.pulls then s
      else s.(cursor := Advanced(s.cursor, s.pulls[id].after, s.pulls[id].maxTS), pulls := s.pulls - {id})
    case Abort(id) => s.(pulls := s.pulls - {id})
    case Arrive(se) => s.(held := Insert(s.held, se))
    case Crawl(se) => s.(held := s.held[se.Id() := se])
  }

  // ----- The invariant

  ghost predicate LogOk(log: Bucket, owner: Identity, name: LogName) {
    WellFormed(log) && forall id :: id in log ==> Entry(log[id], owner, name)
  }

  /** The puller's bucket for the owner. A crawl may have put events of others into it, but
      no Likes. */
  ghost predicate HeldOk(held: Bucket, owner: Identity) {
    WellFormed(held) && LikesBy(held, owner)
  }

  /** A cursor value is zero or lies a full window behind some event of the log. */
  ghost predicate Anchored(log: Bucket, v: int) {
    v == 0 || (v > 0 && exists id :: id in log && log[id].event.timestamp >= v + SKEW_WINDOW)
  }

  /** Cursor safety: every event of the log at or before the cursor is covered: the puller
      holds it or, for a Like, another Like of the same target. */
  ghost predicate CursorSafe(log: Bucket, held: Bucket, cursor: int) {
    forall id :: id in log && log[id].event.timestamp <= cursor ==> Covered(held, log[id])
  }

  /** An event a pull may still leave behind: later than anything its cursor can become. */
  ghost predicate OutOfReach(se: SignedEvent, p: Pull) {
    && se.event.timestamp > p.after
    && (p.served ==>
          && se.event.timestamp + SKEW_WINDOW > p.maxTS
          && (se in p.pending || forall q :: q in p.pending ==> se.event.timestamp + SKEW_WINDOW > q.event.timestamp))
  }

  ghost predicate PullShape(log: Bucket, p: Pull) {
    && Anchored(log, p.after) && p.maxTS >= 0
    && (!p.served ==> p.pending == [] && p.maxTS == 0 && p.snapshot == {})
    && (p.maxTS > 0 ==> exists id :: id in log && log[id].event.timestamp >= p.maxTS)
    && Ascending(p.pending)
    && forall q :: q in p.pending ==>
         q.Id() in log && log[q.Id()] == q && q.event.timestamp >= p.maxTS && q.event.timestamp > p.after
  }

  ghost predicate PullOk(log: Bucket, held: Bucket, p: Pull) {
    && PullShape(log, p)
    && (forall id :: id in log ==> Covered(held, log[id]) || OutOfReach(log[id], p))
    && (forall id :: id in p.snapshot ==> id in log && (Covered(held, log[id]) || log[id] in p.pending))
  }

  ghost predicate PullsOk(log: Bucket, held: Bucket, pulls: map<nat, Pull>) {
    forall id :: id in pulls ==> PullOk(log, held, pulls[id])
  }

  ghost predicate Inv(s: System, owner: Identity, name: LogName) {
    && LogOk(s.log, owner, name)
    && HeldOk(s.held, owner)
    && Anchored(s.log, s.cursor)
    && CursorSafe(s.log, s.held, s.cursor)
    && PullsOk(s.log, s.held, s.pulls)
  }

  // ----- Each move keeps the invariant

  lemma InsertKeepsHeld(held: Bucket, owner: Identity, se: SignedEvent)
    requires HeldOk(held, owner) && se.author == owner
    ensures HeldOk(Insert(held, se), owner) && Keeps(Insert(held, se), held) && Covered(Insert(held, se), se)
  {
    InsertEffect(held, se);
  }

  lemma CrawlKeepsHeld(held: Bucket, owner: Identity, se: SignedEvent)
    requires HeldOk(held, owner) && Verified(se) && se.event.log == ProfileLog
    ensures HeldOk(held[se.Id() := se], owner) && Keeps(held[se.Id() := se], held)
  {
    OverwriteEffect(held, se);
  }

  lemma AppendKeepsPull(log: Bucket, held: Bucket, p: Pull, se: SignedEvent)
    requires PullOk(log, held, p) && Keyed(log) && se.Id() !in log && se.event.timestamp > 0
    requires forall id :: id in log ==> log[id].event.timestamp - SKEW_WINDOW < se.event.timestamp
    ensures PullOk(log[se.Id() := se], held, p)
  {
    hide Covered;
    var log' := log[se.Id() := se];
    AnchorStays(log, se, p.after);
    if p.maxTS > 0 {
      var id :| id in log && log[id].event.timestamp >= p.maxTS;
      assert id in log' && log'[id] == log[id];
    }
    assert OutOfReach(se, p) by {
      forall q | q in p.pending ensures se.event.timestamp + SKEW_WINDOW > q.event.timestamp {
        assert q.Id() in log;
      }
    }
  }

  lemma AnchorStays(log: Bucket, se: SignedEvent, v: int)
    requires Anchored(log, v) && se.Id() !in log && se.event.timestamp > 0
    requires forall id :: id in log ==> log[id].event.timestamp - SKEW_WINDOW < se.event.timestamp
    ensures Anchored(log[se.Id() := se], v) && se.event.timestamp > v
  {
    if v > 0 {
      var id :| id in log && log[id].event.timestamp >= v + SKEW_WINDOW;
      assert id in log[se.Id() := se] && log[se.Id() := se][id] == log[id];
    }
  }

  lemma AppendKeepsInv(s: System, se: SignedEvent, owner: Identity, name: LogName)
    requires Inv(s, owner, name) && Enabled(s, Append(se), owner, name)
    ensures Inv(Next(s, Append(se)), owner, name)
  {
    if !Covered(s.log, se) {
      AnchorStays(s.log, se, s.cursor);
      LogGrows(s.log, s.held, s.cursor, se, owner, name);
      AppendKeepsPulls(s.log, s.held, s.pulls, se);
    }
  }

  lemma LogGrows(log: Bucket, held: Bucket, cursor: int, se: SignedEvent, owner: Identity, name: LogName)
    requires LogOk(log, owner, name) && CursorSafe(log, held, cursor)
    requires !Covered(log, se) && Entry(se, owner, name) && se.event.timestamp > cursor
    ensures LogOk(log[se.Id() := se], owner, name)
    ensures CursorSafe(log[se.Id() := se], held, cursor)
  {
    InsertEffect(log, se);
  }

  lemma AppendKeepsPulls(log: Bucket, held: Bucket, pulls: map<nat, Pull>, se: SignedEvent)
    requires Keyed(log) && se.Id() !in log && se.event.timestamp > 0
    requires forall id :: id in log ==> log[id].event.timestamp - SKEW_WINDOW < se.event.timestamp
    requires PullsOk(log, held, pulls)
    ensures PullsOk(log[se.Id() := se], held, pulls)
  {
    forall id | id in pulls ensures PullOk(log[se.Id() := se], held, pulls[id]) {
      AppendKeepsPull(log, held, pulls[id], se);
    }
  }

  lemma HoldingMoreKeepsPull(log: Bucket, held: Bucket, more: Bucket, p: Pull)
    requires Keeps(more, held) && PullOk(log, held, p)
    ensures PullOk(log, more, p)
  {
    forall i | i in log && Covered(held, log[i]) ensures Covered(more, log[i]) {
      CoverageLasts(held, more, log[i]);
    }
  }

  lemma HoldingMoreKeepsPulls(log: Bucket, held: Bucket, more: Bucket, pulls: map<nat, Pull>)
    requires Keeps(more, held) && PullsOk(log, held, pulls)
    ensures PullsOk(log, more, pulls)
  {
    forall id | id in pulls ensures PullOk(log, more, pulls[id]) {
      HoldingMoreKeepsPull(log, held, more, pulls[id]);
    }
  }

  function Served(log: Bucket, p: Pull): Pull {
    p.(served := true, snapshot := log.Keys, pending := Requested(Listing(log), p.after))
  }

  lemma ServedPullShape(log: Bucket, p: Pull)
    requires Keyed(log) && PullShape(log, p) && !p.served
    ensures PullShape(log, Served(log, p))
    ensures forall id :: id in log ==>
      (log[id] in Served(log, p).pending <==> log[id].event.timestamp > p.after)
  {
    RequestedEvents(Listing(log), p.after);
    ListingHolds(log);
  }

  lemma ServedPullIsOk(log: Bucket, held: Bucket, p: Pull)
    requires Keyed(log) && PullOk(log, held, p) && !p.served
    ensures PullOk(log, held, Served(log, p))
  {
    ServedPullShape(log, p);
    var p' := Served(log, p);
    forall id | id in log
      ensures Covered(held, log[id]) || (log[id] in p'.pending && OutOfReach(log[id], p'))
    {
      assert Covered(held, log[id]) || OutOfReach(log[id], p);
    }
  }

  function Received(p: Pull): Pull
    requires p.pending != []
  {
    p.(pending := p.pending[1..],
       maxTS := if p.pending[0].event.timestamp > p.maxTS then p.pending[0].event.timestamp else p.maxTS)
  }

  lemma TailOf(s: seq<SignedEvent>)
    requires s != []
    ensures forall x :: x in s <==> x == s[0] || x in s[1..]
    ensures Ascending(s) ==> Ascending(s[1..]) && forall x :: x in s[1..] ==> s[0].event.timestamp <= x.event.timestamp
  {
    assert s == [s[0]] + s[1..];
  }

  lemma ReceivedPullShape(log: Bucket, p: Pull)
    requires PullShape(log, p) && p.pending != []
    ensures PullShape(log, Received(p)) && Received(p).maxTS == p.pending[0].event.timestamp
    ensures p.pending[0].Id() in log && log[p.pending[0].Id()] == p.pending[0]
  {
    TailOf(p.pending);
  }

  /** What a pull may leave behind it may still leave behind after its next event. */
  lemma StaysOutOfReach(log: Bucket, se: SignedEvent, p: Pull)
    requires PullShape(log, p) && p.pending != [] && OutOfReach(se, p) && se != p.pending[0]
    ensures OutOfReach(se, Received(p))
  {
    TailOf(p.pending);
  }

  lemma ReceivedPullIsOk(log: Bucket, held: Bucket, more: Bucket, p: Pull)
    requires PullOk(log, held, p) && Keyed(log) && p.pending != []
    requires Keeps(more, held) && Covered(more, p.pending[0])
    ensures PullOk(log, more, Received(p))
  {
    var e, p' := p.pending[0], Received(p);
    ReceivedPullShape(log, p);
    TailOf(p.pending);
    HoldingMoreKeepsPull(log, held, more, p);
    forall id | id in log ensures Covered(more, log[id]) || OutOfReach(log[id], p') {
      if log[id] != e {
        if !Covered(more, log[id]) { StaysOutOfReach(log, log[id], p); }
      }
    }
    forall id | id in p.snapshot ensures id in log && (Covered(more, log[id]) || log[id] in p'.pending) {}
  }

  lemma ReceiveKeepsInv(s: System, id: nat, owner: Identity, name: LogName)
    requires Inv(s, owner, name) && Enabled(s, Receive(id), owner, name)
    ensures Inv(Next(s, Receive(id)), owner, name)
  {
    var p := s.pulls[id];
    var e := p.pending[0];
    assert e in p.pending;
    InsertKeepsHeld(s.held, owner, e);
    ReceiveKeepsPulls(s.log, s.held, Insert(s.held, e), s.pulls, id);
    SafeWithMore(s.log, s.held, Insert(s.held, e), s.cursor);
  }

  lemma ReceiveKeepsPulls(log: Bucket, held: Bucket, more: Bucket, pulls: map<nat, Pull>, id: nat)
    requires Keyed(log) && Keeps(more, held) && PullsOk(log, held, pulls)
    requires id in pulls && pulls[id].pending != [] && Covered(more, pulls[id].pending[0])
    ensures PullsOk(log, more, pulls[id := Received(pulls[id])])
  {
    ReceivedPullIsOk(log, held, more, pulls[id]);
    HoldingMoreKeepsPulls(log, held, more, pulls);
    PullReplaced(log, more, pulls, id, Received(pulls[id]));
  }

  lemma SafeWithMore(log: Bucket, held: Bucket, more: Bucket, cursor: int)
    requires CursorSafe(log, held, cursor) && Keeps(more, held)
    ensures CursorSafe(log, more, cursor)
  {
    forall id | id in log && log[id].event.timestamp <= cursor ensures Covered(more, log[id]) {
      CoverageLasts(held, more, log[id]);
    }
  }

  lemma HoldingMoreKeepsInv(s: System, more: Bucket, owner: Identity, name: LogName)
    requires Inv(s, owner, name) && HeldOk(more, owner) && Keeps(more, s.held)
    ensures Inv(s.(held := more), owner, name)
  {
    HoldingMoreKeepsPulls(s.log, s.held, more, s.pulls);
    SafeWithMore(s.log, s.held, more, s.cursor);
  }

  lemma ArriveKeepsInv(s: System, se: SignedEvent, owner: Identity, name: LogName)
    requires Inv(s, owner, name) && se.author == owner
    ensures Inv(Next(s, Arrive(se)), owner, name)
  {
    InsertKeepsHeld(s.held, owner, se);
    HoldingMoreKeepsInv(s, Insert(s.held, se), owner, name);
  }

  lemma CrawlKeepsInv(s: System, se: SignedEvent, owner: Identity, name: LogName)
    requires Inv(s, owner, name) && Verified(se) && se.event.log == ProfileLog
    ensures Inv(Next(s, Crawl(se)), owner, name)
  {
    CrawlKeepsHeld(s.held, owner, se);
    HoldingMoreKeepsInv(s, s.held[se.Id() := se], owner, name);
  }

  lemma FinishKeepsInv(s: System, id: nat, owner: Identity, name: LogName)
    requires Inv(s, owner, name) && Enabled(s, Finish(id), owner, name)
    ensures Inv(Next(s, Finish(id)), owner, name)
  {
    hide PullOk, CursorSafe, Anchored, LogOk, HeldOk;
    FinishIsSafe(s.log, s.held, s.cursor, s.pulls[id]);
    PullDropped(s.log, s.held, s.pulls, id);
  }

  /** The heart of the matter: no event the pull has left behind is at or before the cursor
      it records. */
  lemma FinishIsSafe(log: Bucket, held: Bucket, cursor: int, p: Pull)
    requires PullOk(log, held, p) && Anchored(log, cursor) && CursorSafe(log, held, cursor)
    ensures Anchored(log, Advanced(cursor, p.after, p.maxTS))
    ensures CursorSafe(log, held, Advanced(cursor, p.after, p.maxTS))
  {
    var c := Advanced(cursor, p.after, p.maxTS);
    if p.maxTS != 0 {
      forall id | id in log && !Covered(held, log[id]) ensures log[id].event.timestamp > c {
        assert OutOfReach(log[id], p);
      }
      if c != p.after {
        var id :| id in log && log[id].event.timestamp >= p.maxTS;
        assert log[id].event.timestamp >= c + SKEW_WINDOW;
      }
    }
  }

  lemma PullReplaced(log: Bucket, held: Bucket, pulls: map<nat, Pull>, id: nat, p: Pull)
    requires PullsOk(log, held, pulls) && PullOk(log, held, p)
    ensures PullsOk(log, held, pulls[id := p])
  {}

  lemma PullDropped(log: Bucket, held: Bucket, pulls: map<nat, Pull>, id: nat)
    requires PullsOk(log, held, pulls)
    ensures PullsOk(log, held, pulls - {id})
  {}

  lemma FreshPullIsOk(log: Bucket, held: Bucket, cursor: int)
    requires Anchored(log, cursor) && CursorSafe(log, held, cursor) && cursor >= 0
    ensures PullOk(log, held, Pull(cursor, false, {}, [], 0))
  {
    var p := Pull(cursor, false, {}, [], 0);
    forall i | i in log ensures Covered(held, log[i]) || OutOfReach(log[i], p) {}
  }

  lemma StartKeepsInv(s: System, id: nat, owner: Identity, name: LogName)
    requires Inv(s, owner, name)
    ensures Inv(Next(s, Start(id)), owner, name)
  {
    FreshPullIsOk(s.log, s.held, s.cursor);
    PullReplaced(s.log, s.held, s.pulls, id, Pull(s.cursor, false, {}, [], 0));
  }

  lemma ServeKeepsInv(s: System, id: nat, owner: Identity, name: LogName)
    requires Inv(s, owner, name) && Enabled(s, Serve(id), owner, name)
    ensures Inv(Next(s, Serve(id)), owner, name)
  {
    ServedPullIsOk(s.log, s.held, s.pulls[id]);
    PullReplaced(s.log, s.held, s.pulls, id, Served(s.log, s.pulls[id]));
  }

  lemma AbortKeepsInv(s: System, id: nat, owner: Identity, name: LogName)
    requires Inv(s, owner, name)
    ensures Inv(Next(s, Abort(id)), owner, name)
  {
    PullDropped(s.log, s.held, s.pulls, id);
  }

  lemma MoveKeepsInv(s: System, m: Move, owner: Identity, name: LogName)
    requires Inv(s, owner, name) && Enabled(s, m, owner, name)
    ensures Inv(Next(s, m), owner, name)
  {
    match m
    case Append(se) => AppendKeepsInv(s, se, owner, name);
    case Start(id) => StartKeepsInv(s, id, owner, name);
    case Serve(id) => ServeKeepsInv(s, id, owner, name);
    case Receive(id) => ReceiveKeepsInv(s, id, owner, name);
    case Finish(id) => FinishKeepsInv(s, id, owner, name);
    case Abort(id) => AbortKeepsInv(s, id, owner, name);
    case Arrive(se) => ArriveKeepsInv(s, se, owner, name);
    case Crawl(se) => CrawlKeepsInv(s, se, owner, name);
  }

  // ----- Whole runs

  ghost function Run(s: System, moves: seq<Move>): System
    decreases moves
  {
    if moves == [] then s else Run(Next(s, moves[0]), moves[1..])
  }

  ghost predicate Admissible(s: System, moves: seq<Move>, owner: Identity, name: LogName)
    decreases moves
  {
    moves != [] ==>
      Enabled(s, moves[0], owner, name) && Admissible(Next(s, moves[0]), moves[1..], owner, name)
  }

  lemma {:induction false} RunKeepsInv(s: System, moves: seq<Move>, owner: Identity, name: LogName)
    requires Inv(s, owner, name) && Admissible(s, moves, owner, name)
    ensures Inv(Run(s, moves), owner, name)
    decreases moves
  {
    if moves != [] {
      MoveKeepsInv(s, moves[0], owner, name);
      RunKeepsInv(Next(s, moves[0]), moves[1..], owner, name);
    }
  }

  lemma {:induction false} RunThenOne(s: System, moves: seq<Move>, m: Move)
    ensures Run(s, moves + [m]) == Next(Run(s, moves), m)
    decreases moves
  {
    if moves == [] {
      assert moves + [m] == [m];
      assert [m][1..] == [];
    } else {
      assert (moves + [m])[1..] == moves[1..] + [m];
      RunThenOne(Next(s, moves[0]), moves[1..], m);
    }
  }

  lemma {:induction false} AdmissibleThenOne(s: System, moves: seq<Move>, m: Move, owner: Identity, name: LogName)
    requires Admissible(s, moves, owner, name) && Enabled(Run(s, moves), m, owner, name)
    ensures Admissible(s, moves + [m], owner, name)
    decreases moves
  {
    if moves == [] {
      assert [m][1..] == [];
    } else {
      assert (moves + [m])[1..] == moves[1..] + [m];
      AdmissibleThenOne(Next(s, moves[0]), moves[1..], m, owner, name);
    }
  }

  /** A run of possible moves, with no condition on the owner's clock. */
  ghost predicate Feasible(s: System, moves: seq<Move>, owner: Identity, name: LogName)
    decreases moves
  {
    moves != [] ==>
      Possible(s, moves[0], owner, name) && Feasible(Next(s, moves[0]), moves[1..], owner, name)
  }

  lemma {:induction false} FeasibleThenOne(s: System, moves: seq<Move>, m: Move, owner: Identity, name: LogName)
    requires Feasible(s, moves, owner, name) && Possible(Run(s, moves), m, owner, name)
    ensures Feasible(s, moves + [m], owner, name)
    decreases moves
  {
    if moves == [] {
      assert [m][1..] == [];
    } else {
      assert (moves + [m])[1..] == moves[1..] + [m];
      FeasibleThenOne(Next(s, moves[0]), moves[1..], m, owner, name);
    }
  }

  const INITIAL: System := System(map[], map[], 0, map[])

  lemma SafeCursorCovers(s: System, owner: Identity, name: LogName)
    requires Inv(s, owner, name)
    ensures forall id :: id in s.log && s.log[id].event.timestamp <= s.cursor ==>
      Covered(s.held, s.log[id]) && (id in s.held <==> !Displaced(s.held, s.log[id]))
  {
    forall id | id in s.log && s.log[id].event.timestamp <= s.cursor
      ensures Covered(s.held, s.log[id]) && (id in s.held <==> !Displaced(s.held, s.log[id]))
    {
      HeldUnlessDisplaced(s.held, s.log[id]);
    }
  }

  /** Cursor safety over whole runs: however appends, arrivals and pulls interleave, and
      wherever the pulls are cut, the cursor is never negative and every event of the log with
      a timestamp up to the cursor is covered; it is held unless it is a displaced Like. */
  lemma CursorNeverStepsOver(moves: seq<Move>, owner: Identity, name: LogName)
    requires Admissible(INITIAL, moves, owner, name)
    ensures var s := Run(INITIAL, moves);
      && s.cursor >= 0
      && forall id :: id in s.log && s.log[id].event.timestamp <= s.cursor ==>
           Covered(s.held, s.log[id]) && (id in s.held <==> !Displaced(s.held, s.log[id]))
  {
    hide Admissible, Run;
    RunKeepsInv(INITIAL, moves, owner, name);
    SafeCursorCovers(Run(INITIAL, moves), owner, name);
  }

  lemma DrainedPullCovers(s: System, id: nat, owner: Identity, name: LogName)
    requires Inv(s, owner, name) && id in s.pulls && s.pulls[id].pending == []
    ensures forall i :: i in s.pulls[id].snapshot ==>
      i in s.log && Covered(s.held, s.log[i]) && (i in s.held <==> !Displaced(s.held, s.log[i]))
  {
    assert PullOk(s.log, s.held, s.pulls[id]);
    forall i | i in s.pulls[id].snapshot
      ensures i in s.log && Covered(s.held, s.log[i]) && (i in s.held <==> !Displaced(s.held, s.log[i]))
    {
      HeldUnlessDisplaced(s.held, s.log[i]);
    }
  }

  /** A pull that has received all it was sent leaves everything the log held when the owner
      answered covered, whatever earlier pulls missed. */
  lemma CompletePullHoldsTheLog(moves: seq<Move>, owner: Identity, name: LogName, id: nat)
    requires Admissible(INITIAL, moves, owner, name)
    requires id in Run(INITIAL, moves).pulls
    requires Run(INITIAL, moves).pulls[id].served && Run(INITIAL, moves).pulls[id].pending == []
    ensures var s := Run(INITIAL, moves);
      forall i :: i in s.pulls[id].snapshot ==>
        i in s.log && Covered(s.held, s.log[i]) && (i in s.held <==> !Displaced(s.held, s.log[i]))
  {
    hide Admissible, Run, CanonicalEncode;
    RunKeepsInv(INITIAL, moves, owner, name);
    DrainedPullCovers(Run(INITIAL, moves), id, owner, name);
  }

  // ----- When the cursor can go down

  /** A pull never records a cursor below the one it started from; finishing lowers the
      stored cursor exactly when another pull has raised it meanwhile, past both the start of
      this pull and the window behind its newest event. */
  lemma FinishLowersExactly(s: System, id: nat)
    requires id in s.pulls && s.pulls[id].maxTS >= 0
    ensures Next(s, Finish(id)).cursor < s.cursor
       <==> s.pulls[id].maxTS > 0 && s.pulls[id].after < s.cursor
            && s.pulls[id].maxTS - SKEW_WINDOW < s.cursor
  {
    assert Next(s, Finish(id)).cursor == Advanced(s.cursor, s.pulls[id].after, s.pulls[id].maxTS);
  }

  /** Every pull in flight started from the present cursor. */
  ghost predicate Aligned(s: System) {
    s.cursor >= 0 && forall id :: id in s.pulls ==> s.pulls[id].after == s.cursor && s.pulls[id].maxTS >= 0
  }

  /** Pulls follow one another: none starts while another is in flight. */
  ghost predicate OneAtATime(s: System, moves: seq<Move>)
    decreases moves
  {
    && |s.pulls| <= 1
    && (moves != [] ==> OneAtATime(Next(s, moves[0]), moves[1..]))
  }

  lemma OnlyKey(keys: set<nat>, a: nat, b: nat)
    requires a in keys && b in keys && |keys| <= 1
    ensures a == b
  {
    SubsetSize({a, b}, keys);
  }

  lemma AlignedFinish(s: System, id: nat)
    requires Aligned(s) && |s.pulls| <= 1 && id in s.pulls
    ensures Aligned(Next(s, Finish(id))) && Next(s, Finish(id)).cursor >= s.cursor
  {
    forall k | k in s.pulls ensures k == id {
      OnlyKey(s.pulls.Keys, k, id);
    }
    assert (s.pulls - {id}).Keys == {};
  }

  lemma AlignedStart(s: System, id: nat)
    requires Aligned(s) && id !in s.pulls && |Next(s, Start(id)).pulls| <= 1
    ensures Aligned(Next(s, Start(id)))
  {
    var pulls := Next(s, Start(id)).pulls;
    forall k | k in pulls ensures k == id {
      OnlyKey(pulls.Keys, k, id);
    }
  }

  lemma AlignedStep(s: System, m: Move, owner: Identity, name: LogName)
    requires Aligned(s) && |s.pulls| <= 1 && |Next(s, m).pulls| <= 1 && Possible(s, m, owner, name)
    ensures Aligned(Next(s, m)) && Next(s, m).cursor >= s.cursor
  {
    match m
    case Start(id) => AlignedStart(s, id);
    case Finish(id) => AlignedFinish(s, id);
    case _ =>
  }

  /** While pulls follow one another the cursor never goes down, whatever the owner's clock
      does. */
  lemma {:induction false} SequentialPullsNeverLower(s: System, moves: seq<Move>, owner: Identity, name: LogName)
    requires Aligned(s) && Feasible(s, moves, owner, name) && OneAtATime(s, moves)
    ensures Run(s, moves).cursor >= s.cursor && Aligned(Run(s, moves))
    decreases moves
  {
    if moves != [] {
      AlignedStep(s, moves[0], owner, name);
      SequentialPullsNeverLower(Next(s, moves[0]), moves[1..], owner, name);
    }
  }
}
