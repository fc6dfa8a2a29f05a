/** The breadth-first crawl of internal/crawler/crawler.go over the follow graph. A run may
    be resumed: the visited set and the queue are fields that outlive it. */
module Crawlers {
  import opened Events
  import Projection
  import opened Buckets
  import opened Timeline
  import Stores

  type Graph = Identity -> set<Identity>

  /** What fetching from the network returns. A failed profile fetch is None; the events of a
      followers fetch are used even when it also reports an error. */
  datatype Network = Network(
    profile: Identity -> Option<seq<SignedEvent>>,
    followers: Identity -> seq<SignedEvent>)

  /** The neighbours of an identity: the replayed follows of its profile log and the authors
      of the verified events that its followers fetch returns, none when the profile fetch fails. */
  function Edges(net: Network, id: Identity): set<Identity> {
    match net.profile(id)
    case None => {}
    case Some(events) =>
      (set k | k in Projection.FollowSetOf(events) :: OfKey(k)) +
      (set se | se in net.followers(id) && Verified(se) :: se.author)
  }

  function GraphOf(net: Network): Graph {
    id => Edges(net, id)
  }

  /** Fetching id leads to x: the profile of id was fetched and its last word on the key of x
      is a Follow, or the followers fetch of id returned a verified event of x. */
  ghost predicate Discovers(net: Network, id: Identity, x: Identity) {
    && net.profile(id).Some?
    && (|| (exists k, i: nat :: x == OfKey(k) && Projection.LastWord(net.profile(id).value, k, i)
                                && net.profile(id).value[i].event.kind == KindFollow)
        || (exists se :: se in net.followers(id) && Verified(se) && se.author == x))
  }

  /** The graph of a crawl is the graph of discoveries. */
  lemma EdgesAreDiscoveries(net: Network, id: Identity)
    ensures forall x :: x in Edges(net, id) <==> Discovers(net, id, x)
  {
    if net.profile(id).Some? {
      var events := net.profile(id).value;
      forall x ensures x in Edges(net, id) <==> Discovers(net, id, x) {
        if x.OfKey? {
          Projection.FollowSetIsLastWordWins(events, x.key);
        }
      }
    }
  }

  // ----- Distance in the graph

  ghost predicate IsNeighbour(g: Graph, s: set<Identity>, id: Identity) {
    exists u :: u in s && id in g(u)
  }

  /** s and the neighbours of todo. */
  ghost function Joined(g: Graph, s: set<Identity>, todo: set<Identity>): set<Identity>
    decreases todo
  {
    if todo == {} then s
    else
      var u :| u in todo;
      Joined(g, s + g(u), todo - {u})
  }

  /** One round: s and the neighbours of s. */
  ghost function Round(g: Graph, s: set<Identity>): set<Identity> {
    Joined(g, s, s)
  }

  lemma {:induction false} JoinedMembers(g: Graph, s: set<Identity>, todo: set<Identity>)
    ensures forall id :: id in Joined(g, s, todo) <==> id in s || IsNeighbour(g, todo, id)
    decreases todo
  {
    if todo != {} {
      var u :| u in todo && Joined(g, s, todo) == Joined(g, s + g(u), todo - {u});
      JoinedMembers(g, s + g(u), todo - {u});
      forall id ensures IsNeighbour(g, todo, id) <==> id in g(u) || IsNeighbour(g, todo - {u}, id) {
        if IsNeighbour(g, todo, id) && id !in g(u) {
          var x :| x in todo && id in g(x);
          assert x in todo - {u};
        }
      }
    }
  }

  lemma RoundMembers(g: Graph, s: set<Identity>)
    ensures forall id :: id in Round(g, s) <==> id in s || IsNeighbour(g, s, id)
    ensures s <= Round(g, s)
  {
    JoinedMembers(g, s, s);
  }

  /** The identities that n rounds reach. */
  ghost function Grow(g: Graph, s: set<Identity>, n: nat): set<Identity> {
    if n == 0 then s else Round(g, Grow(g, s, n - 1))
  }

  ghost predicate IsPath(g: Graph, p: seq<Identity>) {
    forall i :: 0 < i < |p| ==> p[i] in g(p[i - 1])
  }

  /** p leads from a seed to id. Its length in edges is |p| - 1. */
  ghost predicate Leads(g: Graph, seeds: set<Identity>, p: seq<Identity>, id: Identity) {
    |p| > 0 && p[0] in seeds && p[|p| - 1] == id && IsPath(g, p)
  }

  ghost predicate Within(g: Graph, seeds: set<Identity>, n: nat, id: Identity) {
    exists p :: Leads(g, seeds, p, id) && |p| <= n + 1
  }

  lemma {:induction false} PathIsGrown(g: Graph, s: set<Identity>, n: nat, p: seq<Identity>, id: Identity)
    requires Leads(g, s, p, id) && |p| <= n + 1
    ensures id in Grow(g, s, n)
  {
    if n > 0 {
      RoundMembers(g, Grow(g, s, n - 1));
      if |p| == 1 {
        PathIsGrown(g, s, n - 1, p, id);
      } else {
        var q := p[..|p| - 1];
        PathIsGrown(g, s, n - 1, q, q[|q| - 1]);
        assert id in g(q[|q| - 1]);
      }
    }
  }

  lemma {:induction false} GrownHasPath(g: Graph, s: set<Identity>, n: nat, id: Identity)
    requires id in Grow(g, s, n)
    ensures Within(g, s, n, id)
  {
    if n == 0 {
      assert Leads(g, s, [id], id);
    } else {
      RoundMembers(g, Grow(g, s, n - 1));
      if id in Grow(g, s, n - 1) {
        GrownHasPath(g, s, n - 1, id);
      } else {
        var u :| u in Grow(g, s, n - 1) && id in g(u);
        GrownHasPath(g, s, n - 1, u);
        var p :| Leads(g, s, p, u) && |p| <= n;
        assert Leads(g, s, p + [id], id);
      }
    }
  }

  lemma {:induction false} GrowAdds(g: Graph, s: set<Identity>, a: nat, b: nat)
    ensures Grow(g, Grow(g, s, a), b) == Grow(g, s, a + b)
  {
    if b > 0 {
      GrowAdds(g, s, a, b - 1);
      assert Grow(g, s, a + b) == Round(g, Grow(g, s, a + b - 1));
    }
  }

  lemma {:induction false} GrowIsMonotone(g: Graph, s: set<Identity>, m: nat, n: nat)
    requires m <= n
    ensures Grow(g, s, m) <= Grow(g, s, n)
  {
    if m < n {
      GrowIsMonotone(g, s, m, n - 1);
      RoundMembers(g, Grow(g, s, n - 1));
    }
  }

  /** Once a round adds nothing, no later round does. */
  lemma {:induction false} GrowStops(g: Graph, s: set<Identity>, m: nat, n: nat)
    requires m <= n && Round(g, Grow(g, s, m)) == Grow(g, s, m)
    ensures Grow(g, s, n) == Grow(g, s, m)
  {
    if m < n {
      GrowStops(g, s, m, n - 1);
    }
  }

  // ----- What a run does to the visited set and the queue

  datatype State = State(visited: set<Identity>, queue: seq<Identity>) {
    /** Everything discovered: the visited identities and the frontier. */
    function Known(): set<Identity> {
      visited + set id | id in queue
    }
  }

  /** No neighbour of a visited identity has been forgotten. */
  ghost predicate Settled(g: Graph, s: State) {
    forall id :: IsNeighbour(g, s.visited, id) ==> id in s.Known()
  }

  function Max(a: int, b: int): int { if a < b then b else a }

  /** An uncancelled run of depth levels under a cap on the visited identities. */
  ghost predicate Ran(g: Graph, s: State, depth: int, cap: int, t: State) {
    if depth <= 0 then t == s
    else
      var goal := Grow(g, s.Known(), depth - 1);
      && s.visited <= t.visited <= goal
      && t.Known() <= Grow(g, s.Known(), depth)
      && |t.visited| <= Max(cap, |s.visited|)
      && (Settled(g, s) ==>
            if t.visited == goal
            then t.Known() == Grow(g, s.Known(), depth) && Settled(g, t)
            else |t.visited| == Max(cap, |s.visited|))
  }

  /** From a fresh crawler a run visits exactly the identities at distance below its depth,
      if and only if the cap admits that many. */
  lemma CrawlIsExact(g: Graph, seeds: seq<Identity>, depth: nat, cap: nat, t: State, near: set<Identity>)
    requires depth > 0 && Ran(g, State({}, seeds), depth, cap, t)
    requires forall id :: id in near <==> Within(g, (set x | x in seeds), depth - 1, id)
    ensures t.visited == near <==> |near| <= cap
    ensures |near| > cap ==> t.visited < near && |t.visited| == cap
  {
    var s := State({}, seeds);
    assert s.Known() == set x | x in seeds;
    forall id ensures id in near <==> id in Grow(g, s.Known(), depth - 1) {
      if id in near {
        var p :| Leads(g, s.Known(), p, id) && |p| <= depth;
        PathIsGrown(g, s.Known(), depth - 1, p, id);
      }
      if id in Grow(g, s.Known(), depth - 1) {
        GrownHasPath(g, s.Known(), depth - 1, id);
      }
    }
    assert near == Grow(g, s.Known(), depth - 1);
    SubsetIsNoLarger(t.visited, near);
  }

  /** From one of seeds, discovery by discovery, over at most depth identities. */
  ghost predicate Trace(net: Network, seeds: seq<Identity>, depth: nat, p: seq<Identity>) {
    0 < |p| <= depth && p[0] in seeds && forall i :: 0 < i < |p| ==> Discovers(net, p[i - 1], p[i])
  }

  /** The same in terms of what is fetched: a fresh full crawl visits exactly the identities
      to which a trace of at most depth identities leads, if the cap admits them, and otherwise
      as many of these as the cap allows. */
  lemma CrawlFindsExactly(net: Network, seeds: seq<Identity>, depth: nat, cap: nat, t: State, near: set<Identity>)
    requires depth > 0 && Ran(GraphOf(net), State({}, seeds), depth, cap, t)
    requires forall id :: id in near <==> exists p :: Trace(net, seeds, depth, p) && p[|p| - 1] == id
    ensures t.visited == near <==> |near| <= cap
    ensures |near| > cap ==> t.visited < near && |t.visited| == cap
  {
    hide Ran, Discovers, Edges;
    var g, s := GraphOf(net), set x | x in seeds;
    forall id ensures id in near <==> Within(g, s, depth - 1, id) {
      forall p ensures Trace(net, seeds, depth, p) && p[|p| - 1] == id <==> Leads(g, s, p, id) && |p| <= depth {
        TracesArePaths(net, seeds, depth, p);
      }
    }
    CrawlIsExact(g, seeds, depth, cap, t, near);
  }

  lemma TracesArePaths(net: Network, seeds: seq<Identity>, depth: nat, p: seq<Identity>)
    ensures Trace(net, seeds, depth, p) <==> 0 < |p| <= depth && p[0] in seeds && IsPath(GraphOf(net), p)
  {
    hide Discovers, Edges;
    forall id ensures forall x :: x in GraphOf(net)(id) <==> Discovers(net, id, x) {
      EdgesAreDiscoveries(net, id);
    }
  }

  /** Stopping after a levels and resuming for b more is one run of a + b levels, as long as
      the cap admits what the whole run visits. */
  lemma ResumedRunIsOneRun(g: Graph, s: State, a: nat, b: nat, cap: int, mid: State, end: State, whole: State,
                           goal: set<Identity>, known: set<Identity>)
    requires a > 0 && b > 0 && Settled(g, s)
    requires goal == Grow(g, s.Known(), a + b - 1) && known == Grow(g, s.Known(), a + b)
    requires |goal| <= Max(cap, |s.visited|)
    requires Ran(g, s, a, cap, mid) && Ran(g, mid, b, cap, end) && Ran(g, s, a + b, cap, whole)
    ensures end.visited == whole.visited == goal
    ensures end.Known() == whole.Known() == known
    ensures Settled(g, end) && Settled(g, whole)
  {
    HalfWay(g, s, a, b, cap, mid, goal, known);
    RanInFull(g, mid, b, cap, end, goal, known);
    RanInFull(g, s, a + b, cap, whole, goal, known);
  }

  lemma HalfWay(g: Graph, s: State, a: nat, b: nat, cap: int, mid: State, goal: set<Identity>, known: set<Identity>)
    requires a > 0 && b > 0 && Settled(g, s)
    requires goal == Grow(g, s.Known(), a + b - 1) && known == Grow(g, s.Known(), a + b)
    requires |goal| <= Max(cap, |s.visited|)
    requires Ran(g, s, a, cap, mid)
    ensures goal == Grow(g, mid.Known(), b - 1) && known == Grow(g, mid.Known(), b)
    ensures |goal| <= Max(cap, |mid.visited|) && Settled(g, mid)
  {
    GrowIsMonotone(g, s.Known(), a - 1, a + b - 1);
    FirstHalf(g, s, a, cap, mid, goal, Grow(g, s.Known(), a - 1), Grow(g, s.Known(), a));
    GrowsOn(g, s.Known(), mid.Known(), a, b);
  }

  lemma FirstHalf(g: Graph, s: State, a: nat, cap: int, mid: State, goal: set<Identity>,
                  reached: set<Identity>, known: set<Identity>)
    requires a > 0 && Settled(g, s) && Ran(g, s, a, cap, mid)
    requires reached == Grow(g, s.Known(), a - 1) && known == Grow(g, s.Known(), a)
    requires reached <= goal && |goal| <= Max(cap, |s.visited|)
    ensures mid.Known() == known && Settled(g, mid)
    ensures |goal| <= Max(cap, |mid.visited|)
  {
    SubsetIsNoLarger(reached, goal);
    RanInFull(g, s, a, cap, mid, reached, known);
    SubsetIsNoLarger(s.visited, mid.visited);
  }

  lemma GrowsOn(g: Graph, f: set<Identity>, k: set<Identity>, a: nat, b: nat)
    requires b > 0 && k == Grow(g, f, a)
    ensures Grow(g, k, b - 1) == Grow(g, f, a + b - 1)
    ensures Grow(g, k, b) == Grow(g, f, a + b)
  {
    GrowAdds(g, f, a, b - 1);
    GrowAdds(g, f, a, b);
  }

  /** A cap that admits the goal does not cut the run short. */
  lemma RanInFull(g: Graph, s: State, depth: nat, cap: int, t: State, goal: set<Identity>, known: set<Identity>)
    requires depth > 0 && Settled(g, s) && Ran(g, s, depth, cap, t)
    requires goal == Grow(g, s.Known(), depth - 1) && known == Grow(g, s.Known(), depth)
    requires |goal| <= Max(cap, |s.visited|)
    ensures t.visited == goal && t.Known() == known && Settled(g, t)
  {
    SubsetIsNoLarger(t.visited, goal);
  }

  lemma {:induction false} SubsetIsNoLarger(a: set<Identity>, b: set<Identity>)
    requires a <= b
    ensures |a| <= |b|
    ensures a < b ==> |a| < |b|
  {
    assert b == a + (b - a);
    if a < b {
      var x :| x in b && x !in a;
      assert x in b - a;
    }
  }

  // ----- One level of a run

  /** A level of a run: what happens between taking the queue and refilling it. Either the
      whole batch ends up visited, or the cap kept some of it out. */
  ghost predicate Level(g: Graph, v: set<Identity>, batch: seq<Identity>, cap: int,
          w: set<Identity>, next: seq<Identity>) {
    && v <= w <= v + (set id | id in batch)
    && |w| <= Max(cap, |v|)
    && (w == v + (set id | id in batch) || (|w| >= cap && exists id :: id in batch && id !in w))
    && (forall id :: id in next ==> IsNeighbour(g, w - v, id))
    && (forall id :: IsNeighbour(g, w - v, id) ==> id in w || id in next)
  }

  /** The state after k levels, seen from the state s before the run. */
  ghost predicate After(g: Graph, s: State, k: nat, cap: int, t: State) {
    && s.visited <= t.visited <= Due(g, s, k)
    && t.Known() <= Grow(g, s.Known(), k)
    && |t.visited| <= Max(cap, |s.visited|)
    && (Settled(g, s) ==>
          || (t.visited == Due(g, s, k) && t.Known() == Grow(g, s.Known(), k) && Settled(g, t))
          || (|t.visited| >= cap && t.visited != Due(g, s, k)))
  }

  ghost function Due(g: Graph, s: State, k: nat): set<Identity> {
    if k == 0 then s.visited else Grow(g, s.Known(), k - 1)
  }

  lemma DueIsMonotone(g: Graph, s: State, k: nat, n: nat)
    requires k < n
    ensures Due(g, s, k) <= Due(g, s, n)
  {
    if k == 0 {
      GrowIsMonotone(g, s.Known(), 0, n - 1);
    } else {
      GrowIsMonotone(g, s.Known(), k - 1, n - 1);
    }
  }

  lemma LevelGrows(g: Graph, s: State, k: nat, cap: int, t: State, u: State)
    requires After(g, s, k, cap, t) && Level(g, t.visited, t.queue, cap, u.visited, u.queue)
    ensures After(g, s, k + 1, cap, u)
  {
    var f := s.Known();
    assert Due(g, s, k + 1) == Grow(g, f, k);
    SubsetIsNoLarger(s.visited, t.visited);
    SubsetIsNoLarger(t.visited, u.visited);
    KnownGrows(g, Grow(g, f, k), cap, t, u);
    if Settled(g, s) && u.visited == Grow(g, f, k) {
      FullStaysFull(g, s, k, cap, t, u);
      KnownIsRound(g, cap, t, u);
    }
  }

  lemma KnownGrows(g: Graph, reached: set<Identity>, cap: int, t: State, u: State)
    requires t.Known() <= reached && Level(g, t.visited, t.queue, cap, u.visited, u.queue)
    ensures u.visited <= reached && u.Known() <= Round(g, reached)
  {
    RoundMembers(g, reached);
    forall id | id in u.queue ensures id in Round(g, reached) {
      var x :| x in u.visited - t.visited && id in g(x);
      assert x in reached;
    }
  }

  /** A level that visits its whole queue reaches the neighbours of all it has visited. */
  lemma KnownIsRound(g: Graph, cap: int, t: State, u: State)
    requires Settled(g, t) && u.visited == t.Known()
    requires Level(g, t.visited, t.queue, cap, u.visited, u.queue)
    ensures u.Known() == Round(g, u.visited) && Settled(g, u)
  {
    RoundMembers(g, u.visited);
    KnownGrows(g, u.visited, cap, t, u);
    forall id | IsNeighbour(g, u.visited, id) ensures id in u.Known() {
      var x :| x in u.visited && id in g(x);
      if x in t.visited {
        assert IsNeighbour(g, t.visited, id);
      } else {
        assert x in u.visited - t.visited;
        assert IsNeighbour(g, u.visited - t.visited, id);
      }
    }
  }

  /** A run that the cap has cut short never completes a later level. */
  lemma FullStaysFull(g: Graph, s: State, k: nat, cap: int, t: State, u: State)
    requires After(g, s, k, cap, t) && Level(g, t.visited, t.queue, cap, u.visited, u.queue)
    requires Settled(g, s) && u.visited == Grow(g, s.Known(), k)
    ensures t.visited == Due(g, s, k) && t.Known() == Grow(g, s.Known(), k) && Settled(g, t)
  {
    DueIsMonotone(g, s, k, k + 1);
    if t.visited != Due(g, s, k) {
      assert t.visited < u.visited;
      SubsetIsNoLarger(t.visited, u.visited);
      assert false;
    }
  }

  /** Levels with an empty queue change nothing, so a run may stop at the first one. */
  lemma EmptyQueueEnds(g: Graph, s: State, k: nat, cap: int, t: State, depth: nat)
    requires After(g, s, k, cap, t) && t.queue == [] && k < depth
    ensures After(g, s, depth, cap, t)
  {
    var f := s.Known();
    assert t.Known() == t.visited;
    GrowIsMonotone(g, f, k, depth);
    DueIsMonotone(g, s, k, depth);
    if Settled(g, s) && t.visited == Due(g, s, k) && t.Known() == Grow(g, f, k) && Settled(g, t) {
      RoundMembers(g, t.visited);
      assert Round(g, t.visited) == t.visited;
      GrowStops(g, f, k, depth);
      GrowStops(g, f, k, depth - 1);
    }
  }

  /** A run ends after its last level or when its queue is empty. */
  lemma AfterIsRan(g: Graph, s: State, k: nat, depth: int, cap: int, t: State)
    requires After(g, s, k, cap, t) && k <= Max(0, depth)
    requires k < depth ==> t.queue == []
    requires k == 0 ==> t == s
    ensures Ran(g, s, depth, cap, t)
  {
    if depth > 0 {
      if k < depth {
        EmptyQueueEnds(g, s, k, cap, t, depth);
      }
      assert Due(g, s, depth) == Grow(g, s.Known(), depth - 1);
      SubsetIsNoLarger(s.visited, t.visited);
    }
  }

  // ----- The crawler

  function Unvisited(visited: set<Identity>, ids: seq<Identity>): (r: seq<Identity>)
    ensures forall id :: id in r <==> id in ids && id !in visited
  {
    if ids == [] then []
    else (if ids[0] in visited then [] else [ids[0]]) + Unvisited(visited, ids[1..])
  }

  lemma NoneUnvisited(visited: set<Identity>)
    ensures Unvisited(visited, []) == []
  {}

  lemma {:induction false} UnvisitedGrows(visited: set<Identity>, ids: seq<Identity>, id: Identity)
    ensures Unvisited(visited, ids + [id]) == Unvisited(visited, ids) + if id in visited then [] else [id]
  {
    if ids == [] {
      assert ids + [id] == [id];
    } else {
      assert (ids + [id])[1..] == ids[1..] + [id];
      UnvisitedGrows(visited, ids[1..], id);
    }
  }

  /** The identities whose profile fetch succeeds. */
  function Answered(net: Network, ids: set<Identity>): set<Identity> {
    set id | id in ids && net.profile(id).Some?
  }

  /** What a run cancelled within its first depth levels has visited. */
  ghost predicate Halted(g: Graph, s: State, depth: int, cap: int, w: set<Identity>)
    requires depth > 0
  {
    s.visited <= w <= Grow(g, s.Known(), depth - 1) && |w| <= Max(cap, |s.visited|)
  }

  /** The states of a run, level by level. */
  ghost predicate IsTrail(g: Graph, cap: int, trail: seq<State>) {
    |trail| > 0 && forall i :: 0 <= i < |trail| - 1 ==> IsStep(g, cap, trail, i)
  }

  ghost predicate IsStep(g: Graph, cap: int, trail: seq<State>, i: nat)
    requires i < |trail| - 1
  {
    Level(g, trail[i].visited, trail[i].queue, cap, trail[i + 1].visited, trail[i + 1].queue)
  }

  lemma TrailBegins(g: Graph, cap: int, s: State)
    ensures IsTrail(g, cap, [s])
  {}

  lemma TrailExtends(g: Graph, cap: int, trail: seq<State>, t: State)
    requires IsTrail(g, cap, trail)
    requires var s := trail[|trail| - 1]; Level(g, s.visited, s.queue, cap, t.visited, t.queue)
    ensures IsTrail(g, cap, trail + [t])
  {
    forall i | 0 <= i < |trail| ensures IsStep(g, cap, trail + [t], i) {
      if i < |trail| - 1 {
        assert IsStep(g, cap, trail, i);
      }
    }
  }

  lemma {:induction false} TrailIsAfter(g: Graph, cap: int, trail: seq<State>)
    requires IsTrail(g, cap, trail)
    ensures After(g, trail[0], |trail| - 1, cap, trail[|trail| - 1])
  {
    if |trail| > 1 {
      var n := |trail| - 1;
      forall i | 0 <= i < n - 1 ensures IsStep(g, cap, trail[..n], i) {
        assert IsStep(g, cap, trail, i);
      }
      TrailIsAfter(g, cap, trail[..n]);
      assert IsStep(g, cap, trail, n - 1);
      LevelGrows(g, trail[0], n - 1, cap, trail[n - 1], trail[n]);
    }
  }

  /** A run ends after its last level or when its queue is empty. */
  lemma TrailIsRan(g: Graph, cap: int, trail: seq<State>, depth: int)
    requires IsTrail(g, cap, trail) && |trail| - 1 <= Max(0, depth)
    requires |trail| - 1 < depth ==> trail[|trail| - 1].queue == []
    ensures Ran(g, trail[0], depth, cap, trail[|trail| - 1])
  {
    TrailIsAfter(g, cap, trail);
    AfterIsRan(g, trail[0], |trail| - 1, depth, cap, trail[|trail| - 1]);
  }

  /** A run cancelled while passing over the queue of the last state of the trail. */
  lemma TrailHalts(g: Graph, cap: int, trail: seq<State>, w: set<Identity>, depth: int)
    requires IsTrail(g, cap, trail) && |trail| <= depth
    requires trail[|trail| - 1].visited <= w
    requires forall id :: id in w ==> id in trail[|trail| - 1].visited || id in trail[|trail| - 1].queue
    requires |w| <= Max(cap, |trail[|trail| - 1].visited|)
    ensures Halted(g, trail[0], depth, cap, w)
  {
    TrailIsAfter(g, cap, trail);
    assert w <= trail[|trail| - 1].Known();
    GrowIsMonotone(g, trail[0].Known(), |trail| - 1, depth - 1);
  }

  /** The first i identities of the batch have been passed over: v was visited before and w
      is now, and next lists what has been found. */
  ghost predicate Passed(g: Graph, v: set<Identity>, batch: seq<Identity>, i: nat, cap: int,
          w: set<Identity>, next: seq<Identity>)
    requires i <= |batch|
  {
    && v <= w
    && |w| <= Max(cap, |v|)
    && (forall id :: id in w ==> id in v || id in batch)
    && (forall j :: 0 <= j < i ==> batch[j] in w || |w| >= cap)
    && (forall id :: id in next ==> IsNeighbour(g, w - v, id))
    && (forall id :: IsNeighbour(g, w - v, id) ==> id in w || id in next)
  }

  lemma PassedNone(g: Graph, v: set<Identity>, batch: seq<Identity>, cap: int)
    ensures Passed(g, v, batch, 0, cap, v, [])
  {}

  lemma PassedBounds(g: Graph, v: set<Identity>, batch: seq<Identity>, i: nat, cap: int,
          w: set<Identity>, next: seq<Identity>)
    requires i <= |batch| && Passed(g, v, batch, i, cap, w, next)
    ensures v <= w && |w| <= Max(cap, |v|) && forall id :: id in w ==> id in v || id in batch
  {}

  lemma PassedSkips(g: Graph, v: set<Identity>, batch: seq<Identity>, i: nat, cap: int,
          w: set<Identity>, next: seq<Identity>)
    requires i < |batch| && Passed(g, v, batch, i, cap, w, next)
    requires batch[i] in w || |w| >= cap
    ensures Passed(g, v, batch, i + 1, cap, w, next)
  {}

  lemma PassedVisits(g: Graph, v: set<Identity>, batch: seq<Identity>, i: nat, cap: int,
          w: set<Identity>, next: seq<Identity>, found: seq<Identity>)
    requires i < |batch| && Passed(g, v, batch, i, cap, w, next)
    requires batch[i] !in w && |w| < cap
    requires forall x :: x in found <==> x in g(batch[i]) && x !in w + {batch[i]}
    ensures Passed(g, v, batch, i + 1, cap, w + {batch[i]}, next + found)
  {
    var id, w' := batch[i], w + {batch[i]};
    assert w' - v == (w - v) + {id};
    forall x | x in next + found ensures IsNeighbour(g, w' - v, x) {
      if x in next {
        var u :| u in w - v && x in g(u);
        assert u in w' - v;
      } else {
        assert id in w' - v;
      }
    }
    forall x | IsNeighbour(g, w' - v, x) ensures x in w' || x in next + found {
      var u :| u in w' - v && x in g(u);
      if u != id {
        assert u in w - v;
        assert IsNeighbour(g, w - v, x);
      }
    }
  }

  lemma PassedIsLevel(g: Graph, v: set<Identity>, batch: seq<Identity>, cap: int, w: set<Identity>, next: seq<Identity>)
    requires Passed(g, v, batch, |batch|, cap, w, next)
    ensures Level(g, v, batch, cap, w, next)
  {
    var all := v + set id | id in batch;
    if w != all {
      var id :| id in all && id !in w;
      var j :| 0 <= j < |batch| && batch[j] == id;
    }
  }

  // ----- What a crawl stores

  /** Each verified ProfileLog event is written over what is there, whoever its author is. */
  function Stored(b: Bucket, events: seq<SignedEvent>): Bucket {
    if events == [] then b
    else
      var r, se := Stored(b, events[..|events| - 1]), events[|events| - 1];
      if se.event.log == ProfileLog && Verified(se) then r[se.Id() := se] else r
  }

  /** A crawl loses no event and disturbs no Like. */
  lemma {:induction false} StoredKeeps(b: Bucket, events: seq<SignedEvent>)
    requires WellFormed(b)
    ensures WellFormed(Stored(b, events)) && Keeps(Stored(b, events), b)
  {
    if events != [] {
      var front, se := events[..|events| - 1], events[|events| - 1];
      StoredKeeps(b, front);
      if se.event.log == ProfileLog && Verified(se) {
        OverwriteEffect(Stored(b, front), se);
      }
    }
  }

  /** It holds every event it was to store, and whatever it changed is one of these. */
  lemma {:induction false} StoredHolds(b: Bucket, events: seq<SignedEvent>)
    ensures forall se :: se in events && se.event.log == ProfileLog && Verified(se) ==> se.Id() in Stored(b, events)
    ensures forall id :: id in Stored(b, events) && (id !in b || Stored(b, events)[id] != b[id]) ==>
      Stored(b, events)[id] in events && Stored(b, events)[id].event.log == ProfileLog
  {
    if events != [] {
      var front, se := events[..|events| - 1], events[|events| - 1];
      StoredHolds(b, front);
      assert events == front + [se];
    }
  }

  lemma NothingStored(b: Bucket)
    ensures Stored(b, []) == b
  {}

  lemma OneMoreStored(b: Bucket, events: seq<SignedEvent>, i: nat)
    requires i < |events|
    ensures Stored(b, events[..i + 1])
         == if events[i].event.log == ProfileLog && Verified(events[i])
            then Stored(b, events[..i])[events[i].Id() := events[i]] else Stored(b, events[..i])
  {
    hide Verified;
    assert events[..i + 1][..i] == events[..i];
  }

  lemma StoredMeans(b: Bucket, events: seq<SignedEvent>)
    ensures var r := Stored(b, events);
      && (forall se :: se in events && se.event.log == ProfileLog && Verified(se) ==> se.Id() in r)
      && (forall k :: k in r ==>
            || (k in b && r[k] == b[k])
            || (r[k] in events && r[k].event.log == ProfileLog && Verified(r[k]) && r[k].Id() == k))
  {
    hide Verified, CanonicalEncode, Stored;
    forall k ensures k in Stored(b, events) ==>
      || (k in b && Stored(b, events)[k] == b[k])
      || (Stored(b, events)[k] in events && Stored(b, events)[k].event.log == ProfileLog && Verified(Stored(b, events)[k])
          && Stored(b, events)[k].Id() == k)
    {
      StoredExactly(b, events, k);
    }
    forall se | se in events && se.event.log == ProfileLog && Verified(se) ensures se.Id() in Stored(b, events) {
      var i :| 0 <= i < |events| && events[i] == se;
      assert Writes(events, i, se.Id());
      StoredExactly(b, events, se.Id());
    }
  }

  /** events[i] is a verified ProfileLog event with identifier k. */
  ghost predicate Writes(events: seq<SignedEvent>, i: int, k: EventID) {
    0 <= i < |events| && events[i].Id() == k && events[i].event.log == ProfileLog && Verified(events[i])
  }

  /** What is there afterwards: under each identifier the last verified ProfileLog event of the
      list that has it, and otherwise what was there before. */
  lemma {:induction false} StoredExactly(b: Bucket, events: seq<SignedEvent>, k: EventID)
    ensures var r := Stored(b, events);
      if exists i :: Writes(events, i, k)
      then k in r && exists i :: Writes(events, i, k) && r[k] == events[i] && forall j :: i < j ==> !Writes(events, j, k)
      else (k in r <==> k in b) && (k in r ==> r[k] == b[k])
  {
    hide Verified, CanonicalEncode;
    if events != [] {
      var front, last := events[..|events| - 1], |events| - 1;
      StoredExactly(b, front, k);
      forall i | i != last ensures Writes(events, i, k) <==> Writes(front, i, k) {}
      if !Writes(events, last, k) && (exists i :: Writes(front, i, k)) {
        var i :| Writes(front, i, k) && Stored(b, front)[k] == front[i] && forall j :: i < j ==> !Writes(front, j, k);
        assert Writes(events, i, k);
      }
    }
  }

  /** Exactly the answered identities of ids have had their profile events stored. */
  ghost predicate StoredFor(net: Network, was: Crawl, now: Crawl, ids: set<Identity>) {
    forall a ::
      CrawledOf(now, a)
      == if a in ids && net.profile(a).Some? then Stored(CrawledOf(was, a), net.profile(a).value) else CrawledOf(was, a)
  }

  /** What has been done for the identities ids: answers of their fetches succeeded, and
      exactly the answered ones have had their profile events stored. */
  ghost predicate Recorded(net: Network, was: Crawl, now: Crawl, ids: set<Identity>, answers: nat) {
    answers == |Answered(net, ids)| && StoredFor(net, was, now, ids)
  }

  lemma GainedInTurn(a: set<Identity>, b: set<Identity>, c: set<Identity>)
    requires a <= b <= c
    ensures (b - a) !! (c - b) && c - a == (b - a) + (c - b)
  {}

  lemma NothingRecorded(net: Network, crawl: Crawl, ids: set<Identity>)
    requires ids == {}
    ensures Recorded(net, crawl, crawl, ids, 0)
  {}

  lemma RecordedMeans(net: Network, was: Crawl, now: Crawl, v: set<Identity>, w: set<Identity>, answers: nat)
    requires Recorded(net, was, now, w - v, answers)
    ensures answers == |set id | id in w && id !in v && net.profile(id).Some?|
    ensures forall a :: CrawledOf(now, a)
              == if a in w && a !in v && net.profile(a).Some?
                 then Stored(CrawledOf(was, a), net.profile(a).value) else CrawledOf(was, a)
  {
    assert Answered(net, w - v) == set id | id in w && id !in v && net.profile(id).Some?;
  }

  lemma OneRecorded(net: Network, was: Crawl, now: Crawl, id: Identity)
    requires StoredFor(net, was, now, {id})
    ensures Recorded(net, was, now, {id}, if net.profile(id).Some? then 1 else 0)
  {
    assert Answered(net, {id}) == if net.profile(id).Some? then {id} else {};
  }

  lemma MoreRecorded(net: Network, was: Crawl, mid: Crawl, now: Crawl, ids: set<Identity>, a: nat,
          more: set<Identity>, b: nat,
                     all: set<Identity>)
    requires Recorded(net, was, mid, ids, a) && Recorded(net, mid, now, more, b)
    requires ids !! more && all == ids + more
    ensures Recorded(net, was, now, all, a + b)
  {
    assert Answered(net, all) == Answered(net, ids) + Answered(net, more);
  }

  datatype Outcome = Done | Busy | Cancelled

  class Crawler {
    const store: Stores.Store
    var visited: set<Identity>
    var queue: seq<Identity>
    var maxDepth: int
    var maxCache: int
    var running: bool
    /** The profile fetches since the visited set was last empty, in order. */
    ghost var fetches: seq<Identity>

    /** Exactly the visited identities have been fetched, each of them once. */
    ghost predicate Valid()
      reads this
    {
      multiset(fetches) == multiset(visited)
    }

    function Now(): State
      reads this
    {
      State(visited, queue)
    }

    constructor (store: Stores.Store)
      ensures Valid() && Now() == State({}, []) && !running
      ensures this.store == store && maxDepth == 5 && maxCache == 10000
    {
      this.store := store;
      visited, queue, fetches := {}, [], [];
      maxDepth, maxCache, running := 5, 10000, false;
    }

    method Seed(seeds: seq<Identity>)
      modifies `queue
      ensures queue == old(queue) + Unvisited(visited, seeds)
      ensures old(queue) <= queue && forall id :: id in queue[|old(queue)|..] <==> id in seeds && id !in visited
      ensures Now().Known() == old(Now().Known()) + set id | id in seeds
    {
      hide Unvisited;
      NoneUnvisited(visited);
      assert seeds[..0] == [];
      for i := 0 to |seeds|
        invariant queue == old(queue) + Unvisited(visited, seeds[..i])
      {
        UnvisitedGrows(visited, seeds[..i], seeds[i]);
        assert seeds[..i + 1] == seeds[..i] + [seeds[i]];
        if seeds[i] !in visited {
          queue := queue + [seeds[i]];
        }
      }
      assert seeds[..|seeds|] == seeds;
    }

    method Reset()
      requires Valid()
      modifies `visited, `queue, `fetches
      ensures Valid() && Now() == State({}, []) && fetches == []
    {
      visited, queue, fetches := {}, [], [];
    }

    /** Fetches one identity and lists the neighbours not visited yet, in no fixed order. */
    method Neighbours(net: Network, id: Identity) returns (answered: bool, found: seq<Identity>)
      ensures answered <==> net.profile(id).Some?
      ensures forall x :: x in found <==> x in Edges(net, id) && x !in visited
      ensures forall x :: x in found <==>
        && x !in visited && net.profile(id).Some?
        && (|| (exists k, i: nat :: x == OfKey(k) && Projection.LastWord(net.profile(id).value, k, i)
                                    && net.profile(id).value[i].event.kind == KindFollow)
            || (exists se :: se in net.followers(id) && Verified(se) && se.author == x))
    {
      hide Projection.LastWord, Projection.FollowSetOf, Verified;
      found := [];
      if net.profile(id).None? {
        return false, [];
      }
      var follows := Projection.FollowSet(net.profile(id).value);
      var left := follows;
      while left != {}
        invariant left <= follows
        invariant forall x :: x in found <==> exists k :: k in follows - left && x == OfKey(k) && x !in visited
        decreases left
      {
        var k :| k in left;
        if OfKey(k) !in visited {
          found := found + [OfKey(k)];
        }
        left := left - {k};
        assert follows - left == (follows - (left + {k})) + {k};
      }
      ghost var out := found;
      assert forall x :: x in out <==> x in (set k | k in follows :: OfKey(k)) && x !in visited;
      var events := net.followers(id);
      for i := 0 to |events|
        invariant forall x :: x in found <==>
          x in out || (x !in visited && exists j :: 0 <= j < i && Verified(events[j]) && events[j].author == x)
      {
        if Verified(events[i]) && events[i].author !in visited {
          found := found + [events[i].author];
        }
      }
      assert forall x :: x in found <==> x in Edges(net, id) && x !in visited;
      EdgesAreDiscoveries(net, id);
      return true, found;
    }

    /** Stores the profile log that was fetched for an identity. */
    method StoreProfiles(id: Identity, events: seq<SignedEvent>)
      modifies store`crawl
      ensures CrawledOf(store.crawl, id) == Stored(CrawledOf(old(store.crawl), id), events)
      ensures forall a :: a != id ==> CrawledOf(store.crawl, a) == CrawledOf(old(store.crawl), a)
      ensures forall se :: se in events && se.event.log == ProfileLog && Verified(se) ==>
        se.Id() in CrawledOf(store.crawl, id)
      ensures forall k :: k in CrawledOf(store.crawl, id) ==>
        var se := CrawledOf(store.crawl, id)[k];
        || (k in CrawledOf(old(store.crawl), id) && se == CrawledOf(old(store.crawl), id)[k])
        || (se in events && se.event.log == ProfileLog && Verified(se) && se.Id() == k)
    {
      hide Verified, Stored;
      StoredMeans(CrawledOf(store.crawl, id), events);
      NothingStored(CrawledOf(store.crawl, id));
      assert events[..0] == [];
      for i := 0 to |events|
        invariant CrawledOf(store.crawl, id) == Stored(CrawledOf(old(store.crawl), id), events[..i])
        invariant forall a :: a != id ==> CrawledOf(store.crawl, a) == CrawledOf(old(store.crawl), a)
      {
        OneMoreStored(CrawledOf(old(store.crawl), id), events, i);
        if events[i].event.log != ProfileLog {
          continue;
        }
        if !Verified(events[i]) {
          continue;
        }
        store.PutCrawledProfile(id, events[i]);
      }
      assert events[..|events|] == events;
    }

    method Visit(net: Network, id: Identity) returns (answered: bool, found: seq<Identity>)
      requires Valid() && id !in visited
      modifies `visited, `fetches, store`crawl
      ensures Valid() && visited == old(visited) + {id} && fetches == old(fetches) + [id]
      ensures answered <==> net.profile(id).Some?
      ensures forall x :: x in found <==> x in Edges(net, id) && x !in visited
      ensures Recorded(net, old(store.crawl), store.crawl, {id}, if answered then 1 else 0)
    {
      visited := visited + {id};
      fetches := fetches + [id];
      if net.profile(id).None? {
        OneRecorded(net, store.crawl, store.crawl, id);
        return false, [];
      }
      StoreProfiles(id, net.profile(id).value);
      OneRecorded(net, old(store.crawl), store.crawl, id);
      answered, found := Neighbours(net, id);
    }

    /** The pass over one batch. The n-th poll of the context finds it cancelled when
        cancelled(n) holds. */
    method RunLevel(net: Network, batch: seq<Identity>, cancelled: nat -> bool, polled: nat)
      returns (next: seq<Identity>, answers: nat, polls: nat, stopped: bool)
      requires Valid()
      modifies `visited, `fetches, store`crawl
      ensures Valid() && old(fetches) <= fetches
      ensures Recorded(net, old(store.crawl), store.crawl, visited - old(visited), answers)
      ensures old(visited) <= visited && forall id :: id in visited ==> id in old(visited) || id in batch
      ensures |visited| <= Max(maxCache, |old(visited)|)
      ensures !stopped ==> Level(GraphOf(net), old(visited), batch, maxCache, visited, next)
      ensures stopped ==> exists n :: cancelled(n)
    {
      hide Recorded, Edges, IsNeighbour, Level, Passed;
      next, answers, polls, stopped := [], 0, polled, false;
      ghost var g, v := GraphOf(net), visited;
      NothingRecorded(net, store.crawl, visited - v);
      PassedNone(g, v, batch, maxCache);
      for i := 0 to |batch|
        invariant Valid() && old(fetches) <= fetches
        invariant Recorded(net, old(store.crawl), store.crawl, visited - v, answers)
        invariant Passed(g, v, batch, i, maxCache, visited, next)
      {
        polls := polls + 1;
        PassedBounds(g, v, batch, i, maxCache, visited, next);
        if cancelled(polls - 1) {
          return next, answers, polls, true;
        }
        if batch[i] in visited || |visited| >= maxCache {
          PassedSkips(g, v, batch, i, maxCache, visited, next);
          continue;
        }
        ghost var w, crawl := visited, store.crawl;
        var answered, found := Visit(net, batch[i]);
        assert visited - w == {batch[i]};
        GainedInTurn(v, w, visited);
        MoreRecorded(net, old(store.crawl), crawl, store.crawl, w - v, answers, visited - w,
                     if answered then 1 else 0, visited - v);
        PassedVisits(g, v, batch, i, maxCache, w, next, found);
        next := next + found;
        if answered {
          answers := answers + 1;
        }
      }
      PassedBounds(g, v, batch, |batch|, maxCache, visited, next);
      PassedIsLevel(g, v, batch, maxCache, visited, next);
    }

    /** The levels of one crawl pass, up to the depth limit or an empty queue. */
    method Levels(net: Network, cancelled: nat -> bool) returns (answers: nat, stopped: bool)
      requires Valid()
      modifies `visited, `queue, `fetches, store`crawl
      ensures Valid() && old(fetches) <= fetches
      ensures Recorded(net, old(store.crawl), store.crawl, visited - old(visited), answers)
      ensures !stopped ==> Ran(GraphOf(net), old(Now()), maxDepth, maxCache, Now())
      ensures stopped ==>
        maxDepth > 0 && queue == [] && Halted(GraphOf(net), old(Now()), maxDepth, maxCache, visited)
      ensures stopped ==> exists n :: cancelled(n)
      ensures old(queue) == [] ==> !stopped && Now() == old(Now())
    {
      hide Recorded, Ran, Halted, IsTrail, Level, GraphOf;
      NothingRecorded(net, store.crawl, visited - old(visited));
      ghost var trail := [Now()];
      TrailBegins(GraphOf(net), maxCache, Now());
      answers, stopped := 0, false;
      var depth, polls := 0, 0;
      while depth < maxDepth && queue != []
        invariant 0 <= depth <= Max(0, maxDepth)
        invariant Valid() && old(fetches) <= fetches
        invariant old(visited) <= visited
        invariant Recorded(net, old(store.crawl), store.crawl, visited - old(visited), answers)
        invariant |trail| == depth + 1 && trail[0] == old(Now()) && trail[depth] == Now()
        invariant depth > 0 ==> old(queue) != []
        invariant IsTrail(GraphOf(net), maxCache, trail)
        decreases maxDepth - depth
      {
        var batch := queue;
        queue := [];
        ghost var v, crawl := visited, store.crawl;
        var next, more;
        next, more, polls, stopped := RunLevel(net, batch, cancelled, polls);
        GainedInTurn(old(visited), v, visited);
        MoreRecorded(net, old(store.crawl), crawl, store.crawl, v - old(visited), answers, visited - v, more,
                     visited - old(visited));
        answers := answers + more;
        if stopped {
          TrailHalts(GraphOf(net), maxCache, trail, visited, maxDepth);
          return;
        }
        queue := queue + next;
        assert queue == next;
        TrailExtends(GraphOf(net), maxCache, trail, Now());
        trail, depth := trail + [Now()], depth + 1;
      }
      TrailIsRan(GraphOf(net), maxCache, trail, maxDepth);
    }

    /** One crawl pass. A cancelled pass drops its frontier, and the next one then has
        nothing to start from. */
    method Run(net: Network, cancelled: nat -> bool) returns (answers: nat, outcome: Outcome)
      requires Valid()
      modifies `visited, `queue, `running, `fetches, store`crawl
      ensures Valid() && old(fetches) <= fetches && running == old(running)
      ensures outcome == Busy <==> old(running)
      ensures outcome == Busy ==> Now() == old(Now())
      ensures (forall n :: !cancelled(n)) ==> outcome != Cancelled
      ensures Recorded(net, old(store.crawl), store.crawl, visited - old(visited), answers)
      ensures answers == |set id | id in visited && id !in old(visited) && net.profile(id).Some?|
      ensures forall a :: CrawledOf(store.crawl, a)
                == if a in visited && a !in old(visited) && net.profile(a).Some?
                   then Stored(CrawledOf(old(store.crawl), a), net.profile(a).value) else CrawledOf(old(store.crawl), a)
      ensures outcome == Done ==> Ran(GraphOf(net), old(Now()), maxDepth, maxCache, Now())
      ensures outcome == Cancelled ==>
        maxDepth > 0 && queue == [] && Halted(GraphOf(net), old(Now()), maxDepth, maxCache, visited)
      ensures old(queue) == [] ==> Now() == old(Now())
    {
      if running {
        NothingRecorded(net, store.crawl, visited - old(visited));
        RecordedMeans(net, store.crawl, store.crawl, old(visited), visited, 0);
        return 0, Busy;
      }
      running := true;
      var stopped;
      answers, stopped := Levels(net, cancelled);
      running := false;
      outcome := if stopped then Cancelled else Done;
      RecordedMeans(net, old(store.crawl), store.crawl, old(visited), visited, answers);
    }
  }
}
