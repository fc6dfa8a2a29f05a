/** Following and unfollowing by several callers at once (internal/store/events.go). A call
    first signs its edge and then, in a transaction of its own, writes the follow cache. This
    module says exactly when the cache still agrees with the log after such calls interleave. */
module Following {
  import opened Events
  import opened Accounts

  datatype Progress = Begun | EdgeSigned | Over

  /** A Follow or an Unfollow of target. */
  datatype Call = Call(follow: bool, target: Pubkey, now: int, progress: Progress)

  datatype Desk = Desk(a: Account, calls: map<nat, Call>)

  datatype Action = SignEdge(c: nat) | RecordEdge(c: nat)

  function EdgeOf(x: Call): Event {
    EdgeEvent(if x.follow then KindFollow else KindUnfollow, x.target)
  }

  predicate Accepted(own: Logs, x: Call) {
    ValidEvent(Stamped(own, ProfileLog, EdgeOf(x), x.now))
  }

  ghost predicate Enabled(d: Desk, a: Action) {
    && a.c in d.calls
    && match a
       case SignEdge(c) => d.calls[c].progress.Begun? && ClockAhead(d.a, d.calls[c].now)
       case RecordEdge(c) => d.calls[c].progress.EdgeSigned?
  }

  /** The cache after the second transaction of a call. */
  function Written(f: map<Identity, FollowState>, x: Call): map<Identity, FollowState> {
    if x.follow then f[OfKey(x.target) := FollowState(true, false)] else f - {OfKey(x.target)}
  }

  ghost function Next(d: Desk, key: Pubkey, a: Action): Desk
    requires Enabled(d, a)
  {
    var x := d.calls[a.c];
    match a
    case SignEdge(c) =>
      if Accepted(d.a.own, x)
      then Desk(d.a.(own := AfterSigning(d.a.own, key, ProfileLog, EdgeOf(x), x.now)),
                d.calls[c := x.(progress := EdgeSigned)])
      else d.(calls := d.calls[c := x.(progress := Over)])
    case RecordEdge(c) =>
      Desk(d.a.(follows := Written(d.a.follows, x)), d.calls[c := x.(progress := Over)])
  }

  ghost predicate Feasible(d: Desk, key: Pubkey, actions: seq<Action>)
    decreases actions
  {
    actions != [] ==> Enabled(d, actions[0]) && Feasible(Next(d, key, actions[0]), key, actions[1..])
  }

  ghost function Run(d: Desk, key: Pubkey, actions: seq<Action>): Desk
    requires Feasible(d, key, actions)
    decreases actions
  {
    if actions == [] then d else Run(Next(d, key, actions[0]), key, actions[1..])
  }

  // ----- The last edge that was signed and the last one that was recorded

  /** What one action says about following target: nothing, or yes or no. */
  ghost function SaysSigned(d: Desk, a: Action, target: Pubkey, was: bool): bool
    requires Enabled(d, a)
  {
    if a.SignEdge? && d.calls[a.c].target == target && Accepted(d.a.own, d.calls[a.c]) then d.calls[a.c].follow else was
  }

  ghost function SaysRecorded(d: Desk, a: Action, target: Pubkey, was: bool): bool
    requires Enabled(d, a)
  {
    if a.RecordEdge? && d.calls[a.c].target == target then d.calls[a.c].follow else was
  }

  /** Whether the last edge to target that the run signs is a Follow; was, if it signs none. */
  ghost function LastSigned(d: Desk, key: Pubkey, actions: seq<Action>, target: Pubkey, was: bool): bool
    requires Feasible(d, key, actions)
    decreases actions
  {
    if actions == [] then was
    else LastSigned(Next(d, key, actions[0]), key, actions[1..], target, SaysSigned(d, actions[0], target, was))
  }

  /** The same for the edges that the run records. */
  ghost function LastRecorded(d: Desk, key: Pubkey, actions: seq<Action>, target: Pubkey, was: bool): bool
    requires Feasible(d, key, actions)
    decreases actions
  {
    if actions == [] then was
    else LastRecorded(Next(d, key, actions[0]), key, actions[1..], target, SaysRecorded(d, actions[0], target, was))
  }

  ghost predicate Replayed(d: Desk, target: Pubkey) {
    OfKey(target) in ReplayedFollows(d.a.own)
  }

  lemma OneActionReplays(d: Desk, key: Pubkey, a: Action, target: Pubkey)
    requires OwnLogs(d.a.own, OfKey(key)) && Enabled(d, a)
    ensures OwnLogs(Next(d, key, a).a.own, OfKey(key))
    ensures Replayed(Next(d, key, a), target) <==> SaysSigned(d, a, target, Replayed(d, target))
  {
    hide OwnLogs, ReplayedFollows, AfterSigning, Written, ClockAhead, ValidEvent, Stamped;
    var x := d.calls[a.c];
    if a.SignEdge? && Accepted(d.a.own, x) {
      SignedEdgeReplays(d.a, key, x, target);
    }
  }

  lemma SignedEdgeReplays(a: Account, key: Pubkey, x: Call, target: Pubkey)
    requires OwnLogs(a.own, OfKey(key)) && ClockAhead(a, x.now) && Accepted(a.own, x)
    ensures var own := AfterSigning(a.own, key, ProfileLog, EdgeOf(x), x.now);
      && OwnLogs(own, OfKey(key))
      && (OfKey(target) in ReplayedFollows(own)
          <==> if x.target == target then x.follow else OfKey(target) in ReplayedFollows(a.own))
  {
    hide OwnLogs, ReplayedFollows, AfterSigning, ClockAhead;
    SigningKeepsOwnLogs(a.own, key, ProfileLog, EdgeOf(x), x.now);
    EdgeDecides(a, key, if x.follow then KindFollow else KindUnfollow, x.target, x.now);
  }

  /** The replay follows exactly the targets whose last signed edge is a Follow. */
  lemma {:induction false} SignsDecide(d: Desk, key: Pubkey, actions: seq<Action>, target: Pubkey)
    requires OwnLogs(d.a.own, OfKey(key)) && Feasible(d, key, actions)
    ensures OwnLogs(Run(d, key, actions).a.own, OfKey(key))
    ensures Replayed(Run(d, key, actions), target) <==> LastSigned(d, key, actions, target, Replayed(d, target))
    decreases actions
  {
    if actions != [] {
      OneActionReplays(d, key, actions[0], target);
      SignsDecide(Next(d, key, actions[0]), key, actions[1..], target);
    }
  }

  /** The cache has exactly the targets whose last recorded edge is a Follow. */
  lemma {:induction false} RecordsDecide(d: Desk, key: Pubkey, actions: seq<Action>, target: Pubkey)
    requires Feasible(d, key, actions)
    ensures OfKey(target) in Run(d, key, actions).a.follows
       <==> LastRecorded(d, key, actions, target, OfKey(target) in d.a.follows)
    decreases actions
  {
    if actions != [] {
      RecordsDecide(Next(d, key, actions[0]), key, actions[1..], target);
    }
  }

  /** Every record of the cache is of a key and marked followed. */
  ghost predicate Plain(f: map<Identity, FollowState>) {
    forall id :: id in f ==> id.OfKey? && f[id].followed
  }

  lemma {:induction false} RunKeepsPlain(d: Desk, key: Pubkey, actions: seq<Action>)
    requires Plain(d.a.follows) && Feasible(d, key, actions)
    ensures Plain(Run(d, key, actions).a.follows)
    decreases actions
  {
    if actions != [] {
      RunKeepsPlain(Next(d, key, actions[0]), key, actions[1..]);
    }
  }

  /** The exact condition: after any interleaving from a consistent account, the cache agrees
      with the replay if and only if for every target the edge last recorded is of the kind of
      the edge last signed. */
  lemma CacheAgreesExactly(d: Desk, key: Pubkey, actions: seq<Action>)
    requires AccountOk(d.a, OfKey(key)) && Feasible(d, key, actions)
    ensures CacheAgrees(Run(d, key, actions).a)
       <==> forall t ::
              LastRecorded(d, key, actions, t, Replayed(d, t)) == LastSigned(d, key, actions, t, Replayed(d, t))
  {
    var r := Run(d, key, actions);
    RunKeepsPlain(d, key, actions);
    forall t ensures (OfKey(t) in r.a.follows <==> LastRecorded(d, key, actions, t, Replayed(d, t)))
             ensures (Replayed(r, t) <==> LastSigned(d, key, actions, t, Replayed(d, t)))
    {
      SignsDecide(d, key, actions, t);
      RecordsDecide(d, key, actions, t);
    }
    AgreesByKey(r);
  }

  lemma AgreesByKey(r: Desk)
    requires Plain(r.a.follows)
    ensures CacheAgrees(r.a) <==> forall t :: OfKey(t) in r.a.follows <==> Replayed(r, t)
  {
    if forall t :: OfKey(t) in r.a.follows <==> Replayed(r, t) {
      forall id ensures id in r.a.follows <==> id in ReplayedFollows(r.a.own) {
        if id.OfKey? {
          assert OfKey(id.key) in r.a.follows <==> Replayed(r, id.key);
        }
      }
      assert r.a.follows.Keys == ReplayedFollows(r.a.own);
    }
  }

  // ----- One call alone, and two that interleave

  lemma OneActionEarlier(d: Desk, key: Pubkey, a: Action, rest: seq<Action>)
    requires Enabled(d, a) && Feasible(Next(d, key, a), key, rest)
    ensures Feasible(d, key, [a] + rest) && Run(d, key, [a] + rest) == Run(Next(d, key, a), key, rest)
  {
    assert ([a] + rest)[1..] == rest;
  }

  /** Both transactions in a row do what Follow and Unfollow of the account say. */
  lemma UndisturbedCallIsFollow(d: Desk, key: Pubkey, c: nat)
    requires Enabled(d, SignEdge(c)) && Accepted(d.a.own, d.calls[c])
    ensures var x := d.calls[c];
      && Feasible(d, key, [SignEdge(c)] + ([RecordEdge(c)] + []))
      && Run(d, key, [SignEdge(c)] + ([RecordEdge(c)] + [])).a
         == if x.follow then Follow(d.a, key, x.target, x.now) else Unfollow(d.a, key, x.target, x.now)
  {
    OneActionEarlier(Next(d, key, SignEdge(c)), key, RecordEdge(c), []);
    OneActionEarlier(d, key, SignEdge(c), [RecordEdge(c)] + []);
  }

  lemma EdgeIsAccepted(own: Logs, x: Call)
    ensures Accepted(own, x) <==> x.now != 0
  {}

  lemma ClockAfterFirst(key: Pubkey, x: Call)
    requires x.now == 1
    ensures ClockAhead(EMPTY, 1)
    ensures ClockAhead(EMPTY.(own := AfterSigning(EMPTY.own, key, ProfileLog, EdgeOf(x), 1)), 2)
  {}

  /** Both edges are signed before either is recorded, and the first to be signed is recorded
      last. */
  lemma RecordedOutOfOrder(d: Desk, key: Pubkey, target: Pubkey) returns (actions: seq<Action>)
    requires OwnLogs(d.a.own, OfKey(key))
    requires 0 in d.calls && d.calls[0] == Call(true, target, 1, Begun) && Enabled(d, SignEdge(0))
    requires 1 in d.calls && d.calls[1] == Call(false, target, 2, Begun)
    requires Enabled(Next(d, key, SignEdge(0)), SignEdge(1))
    ensures Feasible(d, key, actions)
    ensures var r := Run(d, key, actions);
      && OfKey(target) in r.a.follows && !Replayed(r, target)
      && r.calls == d.calls[0 := Call(true, target, 1, Over)][1 := Call(false, target, 2, Over)]
  {
    hide OwnLogs, ReplayedFollows, AfterSigning, ClockAhead, Accepted, Replayed, Run, Feasible;
    EdgeIsAccepted(d.a.own, d.calls[0]);
    OneActionReplays(d, key, SignEdge(0), target);
    var d1 := Next(d, key, SignEdge(0));
    EdgeIsAccepted(d1.a.own, d1.calls[1]);
    OneActionReplays(d1, key, SignEdge(1), target);
    var d2 := Next(d1, key, SignEdge(1));
    OneActionReplays(d2, key, RecordEdge(1), target);
    var d3 := Next(d2, key, RecordEdge(1));
    OneActionReplays(d3, key, RecordEdge(0), target);
    var d4 := Next(d3, key, RecordEdge(0));
    NoAction(d4, key);
    OneActionEarlier(d3, key, RecordEdge(0), []);
    OneActionEarlier(d2, key, RecordEdge(1), [RecordEdge(0)] + []);
    OneActionEarlier(d1, key, SignEdge(1), [RecordEdge(1)] + ([RecordEdge(0)] + []));
    OneActionEarlier(d, key, SignEdge(0), [SignEdge(1)] + ([RecordEdge(1)] + ([RecordEdge(0)] + [])));
    actions := [SignEdge(0)] + ([SignEdge(1)] + ([RecordEdge(1)] + ([RecordEdge(0)] + [])));
    assert d4.calls == d.calls[0 := Call(true, target, 1, Over)][1 := Call(false, target, 2, Over)];
  }

  lemma NoAction(d: Desk, key: Pubkey)
    ensures Feasible(d, key, []) && Run(d, key, []) == d
  {}

  /** A Follow that is overtaken by an Unfollow between its two transactions: both calls are
      over, the cache shows the target, and the log does not. */
  lemma OvertakenFollowLeavesAnEdge(key: Pubkey) returns (d: Desk, actions: seq<Action>)
    ensures d.a == EMPTY && Feasible(d, key, actions)
    ensures var r := Run(d, key, actions);
      && (forall c :: c in r.calls ==> r.calls[c].progress.Over?)
      && OfKey([7]) in r.a.follows && OfKey([7]) !in ReplayedFollows(r.a.own) && !CacheAgrees(r.a)
  {
    hide Run, Feasible, ReplayedFollows, AfterSigning, ClockAhead, Accepted;
    var x, y := Call(true, [7], 1, Begun), Call(false, [7], 2, Begun);
    d := Desk(EMPTY, map[0 := x, 1 := y]);
    ClockAfterFirst(key, x);
    EdgeIsAccepted(d.a.own, x);
    actions := RecordedOutOfOrder(d, key, [7]);
  }
}
