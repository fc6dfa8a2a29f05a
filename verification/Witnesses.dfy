/** Concrete runs that show each departure from the expected behaviour actually happening. */
module Witnesses {
  import opened Events
  import opened Projection
  import opened Buckets
  import opened Cursors
  import opened Reach

  const KEY: Pubkey := [1]
  const OWNER: Identity := OfKey(KEY)
  const SECOND: int := 1_000_000_000

  function Signed1(e: Event): SignedEvent {
    SignedEvent(e, OWNER, Signed(KEY, CanonicalEncode(e)))
  }

  function PostAt(seconds: int): SignedEvent {
    Signed1(Event(KindPost, PostLog, seconds * SECOND, 1, None, None, Some(Post([], ZERO_ID)), None, None, None))
  }

  function LikeAt(seconds: int): SignedEvent {
    Signed1(Event(KindLike, PostLog, seconds * SECOND, 1, None, None, None, Some([7]), None, None))
  }

  lemma TimesTellApart(a: SignedEvent, b: SignedEvent)
    requires a.event.timestamp != b.event.timestamp
    ensures a.Id() != b.Id()
  {
    assert a.Id()[2] == a.event.timestamp && b.Id()[2] == b.event.timestamp;
  }

  // ----- What a log of one or two events answers

  function One(e: SignedEvent): Bucket {
    map[e.Id() := e]
  }

  function Two(e: SignedEvent, f: SignedEvent): Bucket {
    One(e)[f.Id() := f]
  }

  lemma SortOne(e: SignedEvent)
    ensures SortedByTime([e]) == [e]
  {
    assert [e][1..] == [] && StableSort(ByTime, []) == [];
    assert SortedByTime([e]) == SortIn(ByTime, e, []) == [e] + [] == [e];
  }

  lemma SortTwo(e: SignedEvent, f: SignedEvent)
    requires e.event.timestamp < f.event.timestamp
    ensures SortedByTime([e, f]) == [e, f] && SortedByTime([f, e]) == [e, f]
  {
    SortOne(e);
    SortOne(f);
    assert [e, f][1..] == [f] && [f, e][1..] == [e] && [e][1..] == [];
  }

  lemma OneAnswers(e: SignedEvent, after: int)
    requires e.event.timestamp > after
    ensures Requested(Listing(One(e)), after) == [e]
  {
    var l := Listing(One(e));
    assert One(e)[e.Id()] == e && |l| == 1 && e in l;
    assert l == [e];
    SortOne(e);
    assert [e][..0] == [] && Later([], after) == [] && [] + [e] == [e];
  }

  lemma LaterThan(e: SignedEvent, f: SignedEvent, after: int)
    requires after < e.event.timestamp < f.event.timestamp
    ensures Later([e, f], after) == [e, f]
  {
    assert [e, f][..1] == [e] && [e][..0] == [] && Later([], after) == [] && [] + [e] == [e];
    assert Later([e], after) == [e] && [e] + [f] == [e, f];
  }

  lemma TwoListed(e: SignedEvent, f: SignedEvent)
    requires e.Id() != f.Id()
    ensures Listing(Two(e, f)) == [e, f] || Listing(Two(e, f)) == [f, e]
  {
    var b, l := Two(e, f), Listing(Two(e, f));
    assert b.Keys == {e.Id(), f.Id()};
    assert b[e.Id()] == e && b[f.Id()] == f && e in l && f in l && |l| == 2;
  }

  lemma TwoAnswers(e: SignedEvent, f: SignedEvent, after: int)
    requires after < e.event.timestamp < f.event.timestamp
    ensures Requested(Listing(Two(e, f)), after) == [e, f]
  {
    TimesTellApart(e, f);
    TwoListed(e, f);
    SortTwo(e, f);
    LaterThan(e, f, after);
  }

  // ----- Runs, one move at a time

  ghost predicate Gets(moves: seq<Move>, s: System) {
    Admissible(INITIAL, moves, OWNER, PostLog) && Run(INITIAL, moves) == s
  }

  lemma OneMove(moves: seq<Move>, s: System, m: Move) returns (more: seq<Move>, t: System)
    requires Gets(moves, s) && Enabled(s, m, OWNER, PostLog)
    ensures more == moves + [m] && t == Next(s, m) && Gets(more, t)
  {
    AdmissibleThenOne(INITIAL, moves, m, OWNER, PostLog);
    RunThenOne(INITIAL, moves, m);
    more, t := moves + [m], Next(s, m);
  }

  function Answered(e: SignedEvent, f: SignedEvent): Pull {
    Pull(0, true, {e.Id(), f.Id()}, [e, f], 0)
  }

  /** A log of two events, both under way in one pull. */
  lemma TwoServed(e: SignedEvent, f: SignedEvent) returns (moves: seq<Move>)
    requires Entry(e, OWNER, PostLog) && Entry(f, OWNER, PostLog)
    requires e.event.timestamp < f.event.timestamp
    requires IsLike(e) ==> !IsLike(f)
    ensures Gets(moves, System(Two(e, f), map[], 0, map[0 := Answered(e, f)]))
  {
    hide Admissible, Run, Requested, CanonicalEncode;
    TimesTellApart(e, f);
    var s := INITIAL;
    moves := NoMoves();
    moves, s := OneMove(moves, s, Append(e));
    assert s.log == One(e);
    moves, s := OneMove(moves, s, Append(f));
    assert s.log == Two(e, f) && s.log.Keys == {e.Id(), f.Id()};
    moves, s := OneMove(moves, s, Start(0));
    TwoAnswers(e, f, 0);
    moves, s := OneMove(moves, s, Serve(0));
    assert s.pulls == map[0 := Answered(e, f)];
  }

  lemma NoMoves() returns (moves: seq<Move>)
    ensures moves == [] && Gets(moves, INITIAL)
  {
    moves := [];
  }

  /** A second pull is answered as well and receives both events. */
  lemma SecondPull(moves: seq<Move>, e: SignedEvent, f: SignedEvent) returns (more: seq<Move>, s: System)
    requires 0 < e.event.timestamp < f.event.timestamp
    requires !IsLike(e) && !IsLike(f)
    requires Gets(moves, System(Two(e, f), map[], 0, map[0 := Answered(e, f)]))
    ensures Gets(more, s)
    ensures 0 in s.pulls && s.pulls[0] == Answered(e, f) && s.cursor == 0
    ensures 1 in s.pulls && s.pulls[1].after == 0 && s.pulls[1].maxTS == f.event.timestamp
  {
    hide Admissible, Run, Requested;
    more, s := moves, System(Two(e, f), map[], 0, map[0 := Answered(e, f)]);
    more, s := OneMove(more, s, Start(1));
    TwoAnswers(e, f, 0);
    more, s := OneMove(more, s, Serve(1));
    assert Two(e, f).Keys == {e.Id(), f.Id()};
    assert s.pulls[1] == Answered(e, f);
    more, s := OneMove(more, s, Receive(1));
    assert s.pulls[1].pending == [f];
    more, s := OneMove(more, s, Receive(1));
  }

  /** A pull that is overtaken by another one moves the stored cursor back, from 700 seconds
      to 100. */
  lemma OverlappingPullsLowerTheCursor() returns (before: seq<Move>, after: seq<Move>)
    ensures Admissible(INITIAL, before + after, OWNER, PostLog)
    ensures Run(INITIAL, before).cursor == 700 * SECOND
    ensures Run(INITIAL, before + after).cursor == 100 * SECOND
  {
    hide Admissible, Run, CanonicalEncode;
    var e, f := PostAt(400), PostAt(1000);
    before := TwoServed(e, f);
    var s;
    before, s := SecondPull(before, e, f);
    before, s := OneMove(before, s, Finish(1));
    assert s.cursor == 700 * SECOND && s.pulls[0] == Answered(e, f);
    var moves;
    moves, s := OneMove(before, s, Receive(0));
    assert s.pulls[0].maxTS == 400 * SECOND && s.pulls[0].after == 0;
    moves, s := OneMove(moves, s, Finish(0));
    after := [Receive(0), Finish(0)];
    assert before + after == before + [Receive(0)] + [Finish(0)];
  }

  /** Another device's Like of the target is there first, so the owner's is dropped. */
  lemma ReceivedBesideAnother(e: SignedEvent, f: SignedEvent, other: SignedEvent)
    requires IsLike(e) && LikeOf(other, e.author, e.event.like.value) && !IsLike(f)
    requires e.Id() != other.Id() && f.Id() != other.Id()
    ensures Insert(map[], other) == One(other) && Insert(One(other), e) == One(other)
    ensures Insert(One(other), f) == Two(other, f)
  {
    assert other.Id() in One(other) && LikeOf(One(other)[other.Id()], e.author, e.event.like.value);
  }

  /** A Like that the owner signed is passed over by the cursor although the peer does not
      hold it: the peer has another Like of the target, signed on another device. */
  lemma DisplacedLikeIsPassedOver() returns (moves: seq<Move>)
    ensures Admissible(INITIAL, moves, OWNER, PostLog)
    ensures var s, e := Run(INITIAL, moves), LikeAt(1000);
      InBucket(s.log, e) && e.event.timestamp <= s.cursor && Displaced(s.held, e) && e.Id() !in s.held
  {
    hide Admissible, Run, Insert, CanonicalEncode;
    var e, f, other := LikeAt(1000), PostAt(1400), LikeAt(900);
    TimesTellApart(e, f);
    TimesTellApart(e, other);
    TimesTellApart(f, other);
    ReceivedBesideAnother(e, f, other);
    moves := TwoServed(e, f);
    var s;
    moves, s := AfterTheOther(moves, e, f, other);
    PassedOver(s, e, f, other);
    moves, s := OneMove(moves, s, Finish(0));
  }

  lemma PassedOver(s: System, e: SignedEvent, f: SignedEvent, other: SignedEvent)
    requires s.log == Two(e, f) && s.held == Two(other, f) && s.cursor == 0
    requires 0 in s.pulls && s.pulls[0].after == 0 && s.pulls[0].maxTS == f.event.timestamp
    requires 0 < e.event.timestamp <= f.event.timestamp - SKEW_WINDOW
    requires IsLike(e) && LikeOf(other, e.author, e.event.like.value) && !IsLike(f)
    requires e.Id() != other.Id() && f.Id() != other.Id() && e.Id() != f.Id()
    ensures var t := Next(s, Finish(0));
      InBucket(t.log, e) && e.event.timestamp <= t.cursor && Displaced(t.held, e) && e.Id() !in t.held
  {
    assert other.Id() in s.held && s.held[other.Id()] == other;
  }

  lemma AfterTheOther(moves: seq<Move>, e: SignedEvent, f: SignedEvent,
          other: SignedEvent) returns (more: seq<Move>, s: System)
    requires Gets(moves, System(Two(e, f), map[], 0, map[0 := Answered(e, f)]))
    requires Possible(INITIAL, Arrive(other), OWNER, PostLog)
    requires Insert(map[], other) == One(other) && Insert(One(other), e) == One(other)
    requires Insert(One(other), f) == Two(other, f)
    requires 0 < e.event.timestamp < f.event.timestamp
    ensures Gets(more, s) && s.log == Two(e, f) && s.held == Two(other, f) && s.cursor == 0
    ensures 0 in s.pulls && s.pulls[0].after == 0 && s.pulls[0].maxTS == f.event.timestamp
  {
    hide Admissible, Run, Insert;
    more, s := OneMove(moves, System(Two(e, f), map[], 0, map[0 := Answered(e, f)]), Arrive(other));
    more, s := OneMove(more, s, Receive(0));
    assert s.held == One(other) && s.pulls[0].pending == [f];
    more, s := OneMove(more, s, Receive(0));
  }

  // ----- Runs in which the owner's clock falls behind

  ghost predicate Comes(moves: seq<Move>, s: System) {
    Feasible(INITIAL, moves, OWNER, PostLog) && Run(INITIAL, moves) == s && Sane(s, OWNER, PostLog)
  }

  lemma OnePossibleMove(moves: seq<Move>, s: System, m: Move) returns (more: seq<Move>, t: System)
    requires Comes(moves, s) && Possible(s, m, OWNER, PostLog)
    ensures more == moves + [m] && t == Next(s, m) && Comes(more, t)
  {
    hide Feasible, Run, Sane;
    FeasibleThenOne(INITIAL, moves, m, OWNER, PostLog);
    RunThenOne(INITIAL, moves, m);
    StepKeepsSane(s, m, OWNER, PostLog);
    more, t := moves + [m], Next(s, m);
  }

  lemma NoPossibleMoves() returns (moves: seq<Move>)
    ensures moves == [] && Comes(moves, INITIAL)
  {
    moves := [];
  }

  lemma SignedOnce(early: bool) returns (moves: seq<Move>, s: System)
    ensures Comes(moves, s)
    ensures s == System(One(PostAt(1000)), map[], 0, EarlyPull(early)[0 := Pull(0, false, {}, [], 0)])
  {
    hide Feasible, Run, Sane, Requested;
    moves := NoPossibleMoves();
    moves, s := OnePossibleMove(moves, INITIAL, Append(PostAt(1000)));
    assert s == System(One(PostAt(1000)), map[], 0, map[]);
    if early {
      moves, s := OnePossibleMove(moves, s, Start(1));
    }
    moves, s := OnePossibleMove(moves, s, Start(0));
  }

  /** The owner has signed one post, which pull 0 has under way. Before that, another pull
      may have been started and not been answered yet. */
  lemma UnderWay(early: bool) returns (moves: seq<Move>, s: System)
    ensures Comes(moves, s)
    ensures s.log == One(PostAt(1000)) && s.held == map[] && s.cursor == 0
    ensures s.pulls == EarlyPull(early)[0 := Pull(0, true, {PostAt(1000).Id()}, [PostAt(1000)], 0)]
  {
    hide Feasible, Run, Sane, Requested, CanonicalEncode;
    var e := PostAt(1000);
    moves, s := SignedOnce(early);
    OneAnswers(e, 0);
    assert One(e).Keys == {e.Id()};
    moves, s := OnePossibleMove(moves, s, Serve(0));
  }

  function EarlyPull(early: bool): map<nat, Pull> {
    if early then map[1 := Pull(0, false, {}, [], 0)] else map[]
  }

  /** That pull is over, and the cursor stands at 700 seconds. */
  lemma PulledOnce(early: bool) returns (moves: seq<Move>, s: System)
    ensures Comes(moves, s)
    ensures s.log == s.held == One(PostAt(1000)) && s.cursor == 700 * SECOND
    ensures s.pulls == EarlyPull(early)
  {
    hide Feasible, Run, Sane, Requested;
    var e := PostAt(1000);
    moves, s := UnderWay(early);
    moves, s := OnePossibleMove(moves, s, Receive(0));
    assert s.pulls[0] == Pull(0, true, {e.Id()}, [], 1000 * SECOND) && s.held == One(e);
    moves, s := OnePossibleMove(moves, s, Finish(0));
    assert s.pulls == EarlyPull(early);
  }

  lemma StaleAppend(moves: seq<Move>, s: System) returns (more: seq<Move>, t: System)
    requires Comes(moves, s) && s.log == s.held == One(PostAt(1000))
    ensures Comes(more, t) && more == moves + [Append(PostAt(100))]
    ensures InBucket(t.log, PostAt(100)) && !Covered(t.held, PostAt(100))
    ensures t.cursor == s.cursor && t.pulls == s.pulls
  {
    TimesTellApart(PostAt(1000), PostAt(100));
    more, t := OnePossibleMove(moves, s, Append(PostAt(100)));
  }

  /** An event that its owner signs behind a peer's cursor is missed for good. */
  lemma StaleEventIsMissed() returns (moves: seq<Move>)
    ensures Feasible(INITIAL, moves, OWNER, PostLog)
    ensures var s := Run(INITIAL, moves);
      Missed(s, PostAt(100)) && !Deliverable(s, PostAt(100), OWNER, PostLog)
  {
    hide Feasible, Run, Deliverable;
    var s;
    moves, s := PulledOnce(false);
    moves, s := StaleAppend(moves, s);
    DeliverableExactlyInReach(s, PostAt(100), OWNER, PostLog);
  }

  /** A pull that was sent before the cursor moved still brings it. */
  lemma EarlierPullRescues() returns (moves: seq<Move>)
    ensures Feasible(INITIAL, moves, OWNER, PostLog)
    ensures var s := Run(INITIAL, moves);
      && !Covered(s.held, PostAt(100)) && PostAt(100).event.timestamp <= s.cursor
      && Deliverable(s, PostAt(100), OWNER, PostLog)
  {
    hide Feasible, Run, Deliverable;
    var s;
    moves, s := PulledOnce(true);
    moves, s := StaleAppend(moves, s);
    assert 1 in s.pulls && Reaches(s.pulls[1], PostAt(100));
    DeliverableExactlyInReach(s, PostAt(100), OWNER, PostLog);
  }
}
