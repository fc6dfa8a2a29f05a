/** Signing by several callers at once (internal/store/events.go). Each call is three
    transactions: look for an earlier Like, count the log, and append what was signed with the
    next number. Between them other calls may act. */
module Signing {
  import opened Events
  import opened Buckets
  import opened Accounts

  /** What a call gives its caller. */
  datatype Returned = Existing(id: EventID) | Refused | New(se: SignedEvent)

  datatype Stage =
    | Begun
    | Unliked                 // no earlier Like was found
    | Counted(count: nat)     // the log had this many events
    | Over(result: Returned)

  datatype Call = Call(log: LogName, ev: Event, now: int, stage: Stage)

  datatype Desk = Desk(own: Logs, calls: map<nat, Call>)

  datatype Action = Look(c: nat) | Count(c: nat) | Append(c: nat)

  ghost predicate Enabled(d: Desk, a: Action) {
    && a.c in d.calls
    && match a
       case Look(c) => d.calls[c].stage.Begun?
       case Count(c) => d.calls[c].stage.Unliked?
       case Append(c) => d.calls[c].stage.Counted?
  }

  function At(d: Desk, c: nat, stage: Stage): map<nat, Call>
    requires c in d.calls
  {
    d.calls[c := d.calls[c].(stage := stage)]
  }

  /** The event as it is signed after the count. */
  function Numbered(x: Call): Event
    requires x.stage.Counted?
  {
    x.ev.(log := x.log, timestamp := x.now, sequence := x.stage.count + 1)
  }

  ghost function AfterLook(own: Logs, me: Identity, ev: Event): Stage {
    if RepeatedLike(own, me, ev) then
      var id :| id in LogOf(own, PostLog) && LikeOf(LogOf(own, PostLog)[id], me, ev.like.value);
      Over(Existing(id))
    else Unliked
  }

  /** The event is returned whether or not the append has dropped it. */
  ghost function Next(d: Desk, key: Pubkey, a: Action): Desk
    requires Enabled(d, a)
  {
    var x := d.calls[a.c];
    match a
    case Look(c) => d.(calls := At(d, c, AfterLook(d.own, OfKey(key), x.ev)))
    case Count(c) => d.(calls := At(d, c, Counted(|LogOf(d.own, x.log)|)))
    case Append(c) =>
      match Sign(key, Numbered(x))
      case None => d.(calls := At(d, c, Over(Refused)))
      case Some(se) => Desk(Appended(d.own, x.log, se), At(d, c, Over(New(se))))
  }

  // ----- What every interleaving keeps

  /** No count is ahead of its log, and what has been returned is in its log or, for a Like, is
      covered by another Like of the target. */
  ghost predicate CallOk(own: Logs, me: Identity, x: Call) {
    match x.stage
    case Counted(count) => count <= |LogOf(own, x.log)|
    case Over(New(se)) => se.author == me && Covered(LogOf(own, x.log), se)
    case Over(Existing(id)) =>
      x.ev.like.Some? && id in LogOf(own, PostLog) && LikeOf(LogOf(own, PostLog)[id], me, x.ev.like.value)
    case _ => true
  }

  ghost predicate CallsOk(own: Logs, me: Identity, calls: map<nat, Call>) {
    forall c :: c in calls ==> CallOk(own, me, calls[c])
  }

  ghost predicate Inv(d: Desk, key: Pubkey) {
    OwnLogs(d.own, OfKey(key)) && CallsOk(d.own, OfKey(key), d.calls)
  }

  /** Every log only gains events. */
  ghost predicate Grown(more: Logs, own: Logs) {
    forall log :: Extends(LogOf(more, log), LogOf(own, log))
  }

  lemma AppendGrows(own: Logs, me: Identity, log: LogName, se: SignedEvent)
    requires OwnLogs(own, me)
    ensures Grown(Appended(own, log, se), own) && Covered(LogOf(Appended(own, log, se), log), se)
  {
    OwnLogOf(own, me, log);
    var more := Appended(own, log, se);
    InsertEffect(LogOf(own, log), se);
    assert LogOf(more, log) == Insert(LogOf(own, log), se);
    hide Insert, Appended;
    forall other | other != log ensures Extends(LogOf(more, other), LogOf(own, other)) {
      AppendLeaves(own, log, se, other);
    }
  }

  lemma AppendLeaves(own: Logs, log: LogName, se: SignedEvent, other: LogName)
    requires other != log
    ensures LogOf(Appended(own, log, se), other) == LogOf(own, other)
  {}

  lemma AppendKeepsLogs(own: Logs, key: Pubkey, log: LogName, se: SignedEvent)
    requires OwnLogs(own, OfKey(key)) && ValidEvent(se.event) && se.author == OfKey(key) && se.event.log == log
    requires 1 <= se.event.sequence <= |LogOf(own, log)| + 1
    ensures OwnLogs(Appended(own, log, se), OfKey(key))
  {
    OwnLogOf(own, OfKey(key), log);
    if !Covered(LogOf(own, log), se) {
      OwnLogExtends(LogOf(own, log), se, OfKey(key), log);
    }
    OwnLogReplaced(own, OfKey(key), log, Insert(LogOf(own, log), se));
  }

  lemma GrownKeepsCall(own: Logs, more: Logs, me: Identity, x: Call)
    requires CallOk(own, me, x) && Grown(more, own)
    ensures CallOk(more, me, x)
  {
    assert Extends(LogOf(more, x.log), LogOf(own, x.log));
    assert Extends(LogOf(more, PostLog), LogOf(own, PostLog));
    match x.stage
    case Counted(_) => SubsetSize(LogOf(own, x.log).Keys, LogOf(more, x.log).Keys);
    case Over(New(se)) => CoverageLasts(LogOf(own, x.log), LogOf(more, x.log), se);
    case _ =>
  }

  lemma CallReplaced(own: Logs, me: Identity, calls: map<nat, Call>, c: nat, x: Call)
    requires CallsOk(own, me, calls) && CallOk(own, me, x)
    ensures CallsOk(own, me, calls[c := x])
  {}

  lemma AppendKeepsInv(d: Desk, key: Pubkey, c: nat)
    requires Inv(d, key) && Enabled(d, Append(c))
    ensures Inv(Next(d, key, Append(c)), key) && Grown(Next(d, key, Append(c)).own, d.own)
  {
    var x, me := d.calls[c], OfKey(key);
    var r := Sign(key, Numbered(x));
    assert CallOk(d.own, me, x);
    if r.Some? {
      var own := Appended(d.own, x.log, r.value);
      AppendKeepsLogs(d.own, key, x.log, r.value);
      AppendGrows(d.own, me, x.log, r.value);
      forall k | k in d.calls ensures CallOk(own, me, d.calls[k]) {
        GrownKeepsCall(d.own, own, me, d.calls[k]);
      }
      CallReplaced(own, me, d.calls, c, x.(stage := Over(New(r.value))));
    } else {
      CallReplaced(d.own, me, d.calls, c, x.(stage := Over(Refused)));
    }
  }

  lemma ActionKeepsInv(d: Desk, key: Pubkey, a: Action)
    requires Inv(d, key) && Enabled(d, a)
    ensures Inv(Next(d, key, a), key) && Grown(Next(d, key, a).own, d.own)
  {
    match a
    case Append(c) => AppendKeepsInv(d, key, c);
    case _ => CallReplaced(d.own, OfKey(key), d.calls, a.c, Next(d, key, a).calls[a.c]);
  }

  // ----- Runs

  ghost predicate Feasible(d: Desk, key: Pubkey, actions: seq<Action>)
    decreases actions
  {
    actions != [] ==> Enabled(d, actions[0]) && Feasible(Next(d, key, actions[0]), key, actions[1..])
  }

  ghost function Run(d: Desk, key: Pubkey, actions: seq<Action>): Desk
    requires Feasible(d, key, actions)
    decreases actions
  {
    if actions == [] then d else Run(Next(d, key, actions[0]), key, actions[1..])
  }

  lemma {:induction false} RunKeepsInv(d: Desk, key: Pubkey, actions: seq<Action>)
    requires Inv(d, key) && Feasible(d, key, actions)
    ensures Inv(Run(d, key, actions), key) && Grown(Run(d, key, actions).own, d.own)
    decreases actions
  {
    if actions != [] {
      var d' := Next(d, key, actions[0]);
      ActionKeepsInv(d, key, actions[0]);
      RunKeepsInv(d', key, actions[1..]);
      GrownTwice(d.own, d'.own, Run(d, key, actions).own);
    }
  }

  lemma GrownTwice(a: Logs, b: Logs, c: Logs)
    requires Grown(b, a) && Grown(c, b)
    ensures Grown(c, a)
  {
    forall log ensures Extends(LogOf(c, log), LogOf(a, log)) {
      assert Extends(LogOf(b, log), LogOf(a, log)) && Extends(LogOf(c, log), LogOf(b, log));
    }
  }

  ghost predicate AllBegun(calls: map<nat, Call>) {
    forall c :: c in calls ==> calls[c].stage.Begun?
  }

  /** However the transactions of any number of calls interleave, the own logs only grow, and
      keep one Like per target and sequence numbers in 1..size. */
  lemma ConcurrentSigningKeepsOwnLogs(own: Logs, calls: map<nat, Call>, key: Pubkey, actions: seq<Action>)
    requires OwnLogs(own, OfKey(key)) && AllBegun(calls) && Feasible(Desk(own, calls), key, actions)
    ensures OwnLogs(Run(Desk(own, calls), key, actions).own, OfKey(key))
    ensures Grown(Run(Desk(own, calls), key, actions).own, own)
  {
    RunKeepsInv(Desk(own, calls), key, actions);
  }

  /** What a call has returned: the identifier of an earlier Like is held; that of a new event
      is held if and only if the log has no other Like of the same target. */
  lemma ReturnedIsHeldUnlessDisplaced(own: Logs, calls: map<nat, Call>, key: Pubkey, actions: seq<Action>, c: nat)
    requires OwnLogs(own, OfKey(key)) && AllBegun(calls) && Feasible(Desk(own, calls), key, actions)
    requires c in Run(Desk(own, calls), key, actions).calls && Run(Desk(own, calls), key, actions).calls[c].stage.Over?
    ensures var r := Run(Desk(own, calls), key, actions);
      match r.calls[c].stage.result
      case Existing(id) => id in LogOf(r.own, PostLog)
      case Refused => true
      case New(se) => se.Id() in LogOf(r.own, r.calls[c].log) <==> !Displaced(LogOf(r.own, r.calls[c].log), se)
  {
    RunKeepsInv(Desk(own, calls), key, actions);
    var r := Run(Desk(own, calls), key, actions);
    assert CallOk(r.own, OfKey(key), r.calls[c]);
    if r.calls[c].stage.result.New? {
      ReturnIsHeld(r, key, c);
    }
  }

  lemma ReturnIsHeld(r: Desk, key: Pubkey, c: nat)
    requires Inv(r, key) && c in r.calls && r.calls[c].stage.Over? && r.calls[c].stage.result.New?
    ensures var b, se := LogOf(r.own, r.calls[c].log), r.calls[c].stage.result.se;
      se.Id() in b <==> !Displaced(b, se)
  {
    assert CallOk(r.own, OfKey(key), r.calls[c]);
    OwnLogOf(r.own, OfKey(key), r.calls[c].log);
    HeldUnlessDisplaced(LogOf(r.own, r.calls[c].log), r.calls[c].stage.result.se);
  }

  // ----- When a number is above all others

  /** The append of a call puts its event into the log. */
  ghost predicate Enters(d: Desk, key: Pubkey, x: Call)
    requires x.stage.Counted?
  {
    Sign(key, Numbered(x)).Some? && !Covered(LogOf(d.own, x.log), Sign(key, Numbered(x)).value)
  }

  /** An append to the log that enters, by a call that counted at least n. */
  ghost predicate Exceeds(d: Desk, key: Pubkey, a: Action, log: LogName, n: nat)
    requires Enabled(d, a)
  {
    a.Append? && d.calls[a.c].log == log && d.calls[a.c].stage.count >= n && Enters(d, key, d.calls[a.c])
  }

  ghost predicate SomeExceeds(d: Desk, key: Pubkey, actions: seq<Action>, log: LogName, n: nat)
    requires Feasible(d, key, actions)
    decreases actions
  {
    actions != [] &&
    (Exceeds(d, key, actions[0], log, n) || SomeExceeds(Next(d, key, actions[0]), key, actions[1..], log, n))
  }

  ghost predicate AtMost(b: Bucket, n: nat) {
    forall id :: id in b ==> b[id].event.sequence <= n
  }

  lemma OneActionAtMost(d: Desk, key: Pubkey, a: Action, log: LogName, n: nat)
    requires Enabled(d, a) && AtMost(LogOf(d.own, log), n)
    ensures AtMost(LogOf(Next(d, key, a).own, log), n) <==> !Exceeds(d, key, a, log, n)
  {
    if a.Append? && d.calls[a.c].log == log && Enters(d, key, d.calls[a.c]) {
      var se := Sign(key, Numbered(d.calls[a.c])).value;
      var b := LogOf(Next(d, key, a).own, log);
      assert b == LogOf(d.own, log)[se.Id() := se];
      assert b[se.Id()].event.sequence == d.calls[a.c].stage.count + 1;
    }
  }

  lemma {:induction false} NumbersStayAtMost(d: Desk, key: Pubkey, actions: seq<Action>, log: LogName, n: nat)
    requires Inv(d, key) && AtMost(LogOf(d.own, log), n) && Feasible(d, key, actions)
    ensures AtMost(LogOf(Run(d, key, actions).own, log), n) <==> !SomeExceeds(d, key, actions, log, n)
    decreases actions
  {
    if actions != [] {
      var d' := Next(d, key, actions[0]);
      ActionKeepsInv(d, key, actions[0]);
      OneActionAtMost(d, key, actions[0], log, n);
      if Exceeds(d, key, actions[0], log, n) {
        RunKeepsInv(d', key, actions[1..]);
        NotAtMostLasts(LogOf(d'.own, log), LogOf(Run(d, key, actions).own, log), n);
      } else {
        NumbersStayAtMost(d', key, actions[1..], log, n);
      }
    }
  }

  lemma NotAtMostLasts(b: Bucket, r: Bucket, n: nat)
    requires Extends(r, b) && !AtMost(b, n)
    ensures !AtMost(r, n)
  {}

  /** The exact condition: from the moment a call has counted, however the others go on, the
      number it will use is above every one held if and only if no event has meanwhile entered
      that log from a call whose own count was at least as high. */
  lemma NumberIsFreshExactly(d: Desk, key: Pubkey, c: nat, actions: seq<Action>)
    requires Inv(d, key) && Enabled(d, Count(c)) && Feasible(Next(d, key, Count(c)), key, actions)
    requires var d1 := Next(d, key, Count(c)); c in Run(d1, key, actions).calls && Run(d1, key, actions).calls[c] == d1.calls[c]
    ensures var d1 := Next(d, key, Count(c));
      var log, r := d.calls[c].log, Run(d1, key, actions);
      (forall id :: id in LogOf(r.own, log) ==> LogOf(r.own, log)[id].event.sequence < Numbered(r.calls[c]).sequence)
      <==> !SomeExceeds(d1, key, actions, log, |LogOf(d.own, log)|)
  {
    var d1, log := Next(d, key, Count(c)), d.calls[c].log;
    ActionKeepsInv(d, key, Count(c));
    OwnLogOf(d.own, OfKey(key), log);
    NumbersStayAtMost(d1, key, actions, log, |LogOf(d.own, log)|);
  }

  /** In particular if the log has not grown since it was counted. */
  lemma UndisturbedNumberIsFresh(d: Desk, key: Pubkey, c: nat)
    requires Inv(d, key) && Enabled(d, Append(c))
    requires d.calls[c].stage.count == |LogOf(d.own, d.calls[c].log)|
    ensures forall id :: id in LogOf(d.own, d.calls[c].log) ==>
      LogOf(d.own, d.calls[c].log)[id].event.sequence < Numbered(d.calls[c]).sequence
  {
    OwnLogOf(d.own, OfKey(key), d.calls[c].log);
  }

  // ----- One call alone

  lemma OneActionEarlier(d: Desk, key: Pubkey, a: Action, rest: seq<Action>)
    requires Enabled(d, a) && Feasible(Next(d, key, a), key, rest)
    ensures Feasible(d, key, [a] + rest) && Run(d, key, [a] + rest) == Run(Next(d, key, a), key, rest)
  {
    assert ([a] + rest)[1..] == rest;
  }

  /** Three transactions in a row do what AfterSigning says. */
  lemma UndisturbedCallIsAfterSigning(d: Desk, key: Pubkey, c: nat)
    requires c in d.calls && d.calls[c].stage.Begun?
    ensures var x := d.calls[c];
      if RepeatedLike(d.own, OfKey(key), x.ev)
      then Feasible(d, key, [Look(c)]) && Run(d, key, [Look(c)]).own == AfterSigning(d.own, key, x.log, x.ev, x.now)
      else Feasible(d, key, [Look(c), Count(c), Append(c)])
           && Run(d, key, [Look(c), Count(c), Append(c)]).own == AfterSigning(d.own, key, x.log, x.ev, x.now)
  {
    var d1 := Next(d, key, Look(c));
    if RepeatedLike(d.own, OfKey(key), d.calls[c].ev) {
      assert [Look(c)][1..] == [];
    } else {
      var d2 := Next(d1, key, Count(c));
      assert Numbered(d2.calls[c]) == Stamped(d.own, d.calls[c].log, d.calls[c].ev, d.calls[c].now);
      OneActionEarlier(d2, key, Append(c), []);
      OneActionEarlier(d1, key, Count(c), [Append(c)] + []);
      OneActionEarlier(d, key, Look(c), [Count(c)] + ([Append(c)] + []));
      assert [Look(c), Count(c), Append(c)] == [Look(c)] + ([Count(c)] + ([Append(c)] + []));
    }
  }

  // ----- Two calls that interleave

  /** Two calls of number 0 and 1 on empty logs, both of which look and count before either
      appends. */
  lemma BothCount(key: Pubkey, x: Call, y: Call, rest: seq<Action>) returns (actions: seq<Action>)
    requires x.stage.Begun? && y.stage.Begun?
    requires Feasible(Desk(map[], map[0 := x.(stage := Counted(0)), 1 := y.(stage := Counted(0))]), key, rest)
    ensures var d := Desk(map[], map[0 := x, 1 := y]);
      && Feasible(d, key, actions)
      && Run(d, key, actions)
         == Run(Desk(map[], map[0 := x.(stage := Counted(0)), 1 := y.(stage := Counted(0))]), key, rest)
  {
    hide Run, Feasible;
    var d := Desk(map[], map[0 := x, 1 := y]);
    var d1 := Next(d, key, Look(0));
    var d2 := Next(d1, key, Look(1));
    var d3 := Next(d2, key, Count(0));
    var d4 := Next(d3, key, Count(1));
    assert d4 == Desk(map[], map[0 := x.(stage := Counted(0)), 1 := y.(stage := Counted(0))]);
    OneActionEarlier(d3, key, Count(1), rest);
    OneActionEarlier(d2, key, Count(0), [Count(1)] + rest);
    OneActionEarlier(d1, key, Look(1), [Count(0)] + ([Count(1)] + rest));
    OneActionEarlier(d, key, Look(0), [Look(1)] + ([Count(0)] + ([Count(1)] + rest)));
    actions := [Look(0)] + ([Look(1)] + ([Count(0)] + ([Count(1)] + rest)));
  }

  /** Both of them then append. */
  lemma BothAppend(key: Pubkey, d: Desk) returns (rest: seq<Action>)
    requires 0 in d.calls && 1 in d.calls && d.calls[0].stage.Counted? && d.calls[1].stage.Counted?
    ensures Feasible(d, key, rest)
    ensures Run(d, key, rest) == Next(Next(d, key, Append(0)), key, Append(1))
  {
    var d1 := Next(d, key, Append(0));
    OneActionEarlier(d1, key, Append(1), []);
    OneActionEarlier(d, key, Append(0), [Append(1)] + []);
    rest := [Append(0)] + ([Append(1)] + []);
  }

  function PostOf(text: Bytes): Event {
    Event(KindPost, PostLog, 0, 0, None, None, Some(Post(text, ZERO_ID)), None, None, None)
  }

  function LikeOfSeven(): Event {
    Event(KindLike, PostLog, 0, 0, None, None, None, Some([7]), None, None)
  }

  lemma IdsDiffer(e: Event, f: Event)
    requires e != f
    ensures IdOf(e) != IdOf(f)
  {
    if IdOf(e) == IdOf(f) {
      IdIsInjective(e, f);
    }
  }

  /** Two calls on an empty log that both count before either appends: the log ends up with
      two events of number 1. */
  lemma InterleavedCallsShareANumber(key: Pubkey) returns (d: Desk, actions: seq<Action>, i: EventID, j: EventID)
    ensures d.own == map[] && AllBegun(d.calls) && Feasible(d, key, actions)
    ensures var b := LogOf(Run(d, key, actions).own, PostLog);
      i != j && i in b && j in b && b[i].event.sequence == b[j].event.sequence == 1
  {
    hide Run, Feasible, CanonicalEncode;
    var x, y := Call(PostLog, PostOf([1]), 1, Begun), Call(PostLog, PostOf([2]), 1, Begun);
    var d4 := Desk(map[], map[0 := x.(stage := Counted(0)), 1 := y.(stage := Counted(0))]);
    var e, f := Numbered(d4.calls[0]), Numbered(d4.calls[1]);
    assert e.post != f.post;
    IdsDiffer(e, f);
    var rest := BothAppend(key, d4);
    actions := BothCount(key, x, y, rest);
    d, i, j := Desk(map[], map[0 := x, 1 := y]), IdOf(e), IdOf(f);
    TwoEntered(key, d4);
  }

  lemma TwoEntered(key: Pubkey, d: Desk)
    requires d.own == map[] && 0 in d.calls && 1 in d.calls
    requires d.calls[0] == Call(PostLog, PostOf([1]), 1, Counted(0))
    requires d.calls[1] == Call(PostLog, PostOf([2]), 1, Counted(0))
    requires IdOf(Numbered(d.calls[0])) != IdOf(Numbered(d.calls[1]))
    ensures var e, f := Numbered(d.calls[0]), Numbered(d.calls[1]);
      LogOf(Next(Next(d, key, Append(0)), key, Append(1)).own, PostLog)
      == map[IdOf(e) := Sign(key, e).value][IdOf(f) := Sign(key, f).value]
  {
    var e, f := Numbered(d.calls[0]), Numbered(d.calls[1]);
    hide IdOf;
    assert LogOf(Next(d, key, Append(0)).own, PostLog) == map[IdOf(e) := Sign(key, e).value];
  }

  /** Two calls that like one target and both look before either appends: both return a new
      event, and one of the two is not in the log. */
  lemma InterleavedLikesReturnAnUnheldEvent(key: Pubkey) returns (d: Desk, actions: seq<Action>)
    ensures d.own == map[] && AllBegun(d.calls) && Feasible(d, key, actions)
    ensures var r := Run(d, key, actions);
      && 0 in r.calls && r.calls[0].stage.Over? && r.calls[0].stage.result.New?
      && 1 in r.calls && r.calls[1].stage.Over? && r.calls[1].stage.result.New?
      && r.calls[0].stage.result.se.Id() in LogOf(r.own, PostLog)
      && r.calls[1].stage.result.se.Id() !in LogOf(r.own, PostLog)
  {
    hide Run, Feasible, CanonicalEncode;
    var x, y := Call(PostLog, LikeOfSeven(), 1, Begun), Call(PostLog, LikeOfSeven(), 2, Begun);
    var d4 := Desk(map[], map[0 := x.(stage := Counted(0)), 1 := y.(stage := Counted(0))]);
    var e, f := Numbered(d4.calls[0]), Numbered(d4.calls[1]);
    assert e.timestamp != f.timestamp;
    IdsDiffer(e, f);
    var rest := BothAppend(key, d4);
    actions := BothCount(key, x, y, rest);
    d := Desk(map[], map[0 := x, 1 := y]);
    var d5 := Next(d4, key, Append(0));
    var b := LogOf(d5.own, PostLog);
    assert b == map[IdOf(e) := Sign(key, e).value];
    assert IdOf(e) in b && LikeOf(b[IdOf(e)], OfKey(key), [7]);
    assert Covered(b, Sign(key, f).value);
  }
}
