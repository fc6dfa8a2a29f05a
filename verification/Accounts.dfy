/** The account's own state (internal/store/store.go, internal/store/events.go): own logs,
    the follow-state cache with its pins, the verified set, and what signing, following,
    pinning and importing a backup do to them. The class in Store.dfy refines these
    functions; here are the laws over whole runs. */
module Accounts {
  import opened Events
  import opened Projection
  import opened Buckets

  type Logs = map<LogName, Bucket>

  datatype FollowState = FollowState(followed: bool, pinned: bool)

  /** The flags cached for an identity; an absent record reads as two cleared flags. */
  function FlagsOf(f: map<Identity, FollowState>, id: Identity): FollowState {
    if id in f then f[id] else FollowState(false, false)
  }

  datatype Account = Account(
    own: Logs,
    follows: map<Identity, FollowState>,
    verified: set<Identity>,
    key: Option<Bytes>)

  /** The order of the two identity lists of a backup has no effect; empty stands for absent. */
  datatype Backup = Backup(
    key: Option<Bytes>,
    ownLogs: seq<SignedEvent>,
    verified: set<Identity>,
    pinned: set<Identity>)

  function LogOf(own: Logs, log: LogName): Bucket {
    if log in own then own[log] else map[]
  }

  function Appended(own: Logs, log: LogName, se: SignedEvent): Logs {
    own[log := Insert(LogOf(own, log), se)]
  }

  function AppendAll(own: Logs, s: seq<SignedEvent>): Logs {
    if s == [] then own
    else Appended(AppendAll(own, s[..|s| - 1]), s[|s| - 1].event.log, s[|s| - 1])
  }

  function Only(s: seq<SignedEvent>, log: LogName): (r: seq<SignedEvent>)
    ensures forall se :: se in r <==> se in s && se.event.log == log
  {
    if s == [] then []
    else
      var r := Only(s[..|s| - 1], log);
      if s[|s| - 1].event.log == log then r + [s[|s| - 1]] else r
  }

  lemma AppendedByLog(own: Logs, se: SignedEvent, log: LogName)
    ensures LogOf(Appended(own, se.event.log, se), log)
         == if se.event.log == log then Insert(LogOf(own, log), se) else LogOf(own, log)
  {}

  lemma InsertAllOneMore(b: Bucket, s: seq<SignedEvent>, se: SignedEvent)
    ensures InsertAll(b, s + [se]) == Insert(InsertAll(b, s), se)
  {
    assert (s + [se])[..|s|] == s;
  }

  /** An import touches each log with the events of that log alone. */
  lemma {:induction false} AppendAllByLog(own: Logs, s: seq<SignedEvent>, log: LogName)
    ensures LogOf(AppendAll(own, s), log) == InsertAll(LogOf(own, log), Only(s, log))
  {
    if s != [] {
      var front, se := s[..|s| - 1], s[|s| - 1];
      AppendAllByLog(own, front, log);
      AppendedByLog(AppendAll(own, front), se, log);
      InsertAllOneMore(LogOf(own, log), Only(front, log), se);
    }
  }

  // ----- Own logs and signing

  ghost predicate OwnLog(b: Bucket, me: Identity, log: LogName) {
    && WellFormed(b) && BucketBy(b, me) && Sequenced(b)
    && forall id :: id in b ==> b[id].event.log == log && ValidEvent(b[id].event)
  }

  ghost predicate OwnLogs(own: Logs, me: Identity) {
    forall log :: log in own ==> OwnLog(own[log], me, log)
  }

  lemma OwnLogOf(own: Logs, me: Identity, log: LogName)
    requires OwnLogs(own, me)
    ensures OwnLog(LogOf(own, log), me, log)
  {}

  /** The event as it is about to be signed: log, time and next sequence number filled in. */
  function Stamped(own: Logs, log: LogName, ev: Event, now: int): Event {
    ev.(log := log, timestamp := now, sequence := |LogOf(own, log)| + 1)
  }

  /** A Like of a target the author already likes; the original looks in the PostLog. */
  predicate RepeatedLike(own: Logs, me: Identity, ev: Event) {
    ev.kind == KindLike && ev.like.Some? && Liked(LogOf(own, PostLog), me, ev.like.value)
  }

  function AfterSigning(own: Logs, key: Pubkey, log: LogName, ev: Event, now: int): Logs {
    if RepeatedLike(own, OfKey(key), ev) then own
    else
      match Sign(key, Stamped(own, log, ev, now))
      case None => own
      case Some(se) => Appended(own, log, se)
  }

  /** What is signed always enters its log, as one more event under a fresh identifier, with
      a sequence number above every one held before; the other logs are untouched. */
  lemma SigningAppends(own: Logs, key: Pubkey, log: LogName, ev: Event, now: int)
    requires OwnLogs(own, OfKey(key))
    requires !RepeatedLike(own, OfKey(key), ev) && ValidEvent(Stamped(own, log, ev, now))
    ensures var se, b, own' := Sign(key, Stamped(own, log, ev, now)).value, LogOf(own, log),
              AfterSigning(own, key, log, ev, now);
      && se.Id() !in b
      && own' == own[log := b[se.Id() := se]]
      && |LogOf(own', log)| == |b| + 1
      && (forall id :: id in b ==> b[id].event.sequence < se.event.sequence)
  {
    OwnLogOf(own, OfKey(key), log);
    var b := LogOf(own, log);
    var se := Sign(key, Stamped(own, log, ev, now)).value;
    NextSequenceIsFresh(b, Stamped(own, log, ev, now));
    NotCovered(own, key, log, ev, now);
    GrowsByOne(b, se);
  }

  lemma NotCovered(own: Logs, key: Pubkey, log: LogName, ev: Event, now: int)
    requires !RepeatedLike(own, OfKey(key), ev) && ValidEvent(Stamped(own, log, ev, now))
    requires IdOf(Stamped(own, log, ev, now)) !in LogOf(own, log)
    ensures !Covered(LogOf(own, log), Sign(key, Stamped(own, log, ev, now)).value)
  {
    var se := Sign(key, Stamped(own, log, ev, now)).value;
    if IsLike(se) {
      assert log == PostLog;
    }
  }

  lemma GrowsByOne(b: Bucket, se: SignedEvent)
    requires se.Id() !in b
    ensures |b[se.Id() := se]| == |b| + 1
  {
    assert b[se.Id() := se].Keys == b.Keys + {se.Id()};
  }

  /** Signing keeps the own logs well formed: sequence numbers in range, one Like per target. */
  lemma SigningKeepsOwnLogs(own: Logs, key: Pubkey, log: LogName, ev: Event, now: int)
    requires OwnLogs(own, OfKey(key))
    ensures OwnLogs(AfterSigning(own, key, log, ev, now), OfKey(key))
  {
    if !RepeatedLike(own, OfKey(key), ev) && ValidEvent(Stamped(own, log, ev, now)) {
      var se := Sign(key, Stamped(own, log, ev, now)).value;
      OwnLogOf(own, OfKey(key), log);
      NextSequenceIsFresh(LogOf(own, log), Stamped(own, log, ev, now));
      NotCovered(own, key, log, ev, now);
      OwnLogExtends(LogOf(own, log), se, OfKey(key), log);
      OwnLogReplaced(own, OfKey(key), log, LogOf(own, log)[se.Id() := se]);
    }
  }

  lemma OwnLogReplaced(own: Logs, me: Identity, log: LogName, b: Bucket)
    requires OwnLogs(own, me) && OwnLog(b, me, log)
    ensures OwnLogs(own[log := b], me)
  {}

  lemma OwnLogExtends(b: Bucket, se: SignedEvent, me: Identity, log: LogName)
    requires OwnLog(b, me, log) && !Covered(b, se) && ValidEvent(se.event)
    requires se.author == me && se.event.log == log && 1 <= se.event.sequence <= |b| + 1
    ensures OwnLog(b[se.Id() := se], me, log)
  {
    InsertEffect(b, se);
    GrowsByOne(b, se);
  }

  // ----- Following

  function ReplayedFollows(own: Logs): set<Identity> {
    set k | k in FollowSetOf(Listing(LogOf(own, ProfileLog))) :: OfKey(k)
  }

  /** The cache agrees with the log: it has a record for exactly the identities the replay
      follows, each marked followed. Hence every pinned identity is followed. */
  ghost predicate CacheAgrees(a: Account) {
    CacheMatches(a.follows, ReplayedFollows(a.own))
  }

  ghost predicate CacheMatches(f: map<Identity, FollowState>, ids: set<Identity>) {
    f.Keys == ids && forall id :: id in f ==> f[id].followed
  }

  lemma CacheMoves(f: map<Identity, FollowState>, ids: set<Identity>, id: Identity)
    requires CacheMatches(f, ids)
    ensures CacheMatches(f[id := FollowState(true, false)], ids + {id})
    ensures CacheMatches(f - {id}, ids - {id})
  {}

  ghost predicate AccountOk(a: Account, me: Identity) {
    OwnLogs(a.own, me) && CacheAgrees(a)
  }

  function EdgeEvent(kind: Kind, target: Pubkey): Event {
    Event(kind, ProfileLog, 0, 0, None, Some(target), None, None, None, None)
  }

  function Follow(a: Account, key: Pubkey, target: Pubkey, now: int): Account {
    if !ValidEvent(Stamped(a.own, ProfileLog, EdgeEvent(KindFollow, target), now)) then a
    else a.(own := AfterSigning(a.own, key, ProfileLog, EdgeEvent(KindFollow, target), now),
            follows := a.follows[OfKey(target) := FollowState(true, false)])
  }

  function Unfollow(a: Account, key: Pubkey, target: Pubkey, now: int): Account {
    if !ValidEvent(Stamped(a.own, ProfileLog, EdgeEvent(KindUnfollow, target), now)) then a
    else a.(own := AfterSigning(a.own, key, ProfileLog, EdgeEvent(KindUnfollow, target), now),
            follows := a.follows - {OfKey(target)})
  }

  function Pin(a: Account, id: Identity): Account {
    if FlagsOf(a.follows, id).followed
    then a.(follows := a.follows[id := FlagsOf(a.follows, id).(pinned := true)])
    else a
  }

  function Unpin(a: Account, id: Identity): Account {
    if FlagsOf(a.follows, id).followed
    then a.(follows := a.follows[id := FlagsOf(a.follows, id).(pinned := false)])
    else a.(follows := a.follows - {id})
  }

  /** No event of the own ProfileLog is later than now. */
  ghost predicate ClockAhead(a: Account, now: int) {
    forall id :: id in LogOf(a.own, ProfileLog) ==> LogOf(a.own, ProfileLog)[id].event.timestamp <= now
  }

  /** A signed ProfileLog event no older than the log changes the replay as it would alone. */
  lemma ReplayAfterSigning(a: Account, key: Pubkey, ev: Event, now: int)
    requires OwnLogs(a.own, OfKey(key)) && ClockAhead(a, now)
    requires !RepeatedLike(a.own, OfKey(key), ev) && ValidEvent(Stamped(a.own, ProfileLog, ev, now))
    ensures FollowSetOf(Listing(LogOf(AfterSigning(a.own, key, ProfileLog, ev, now), ProfileLog)))
         == Apply(FollowSetOf(Listing(LogOf(a.own, ProfileLog))),
                  Sign(key, Stamped(a.own, ProfileLog, ev, now)).value)
  {
    var b := LogOf(a.own, ProfileLog);
    var se := Sign(key, Stamped(a.own, ProfileLog, ev, now)).value;
    SigningAppends(a.own, key, ProfileLog, ev, now);
    var p := ListingOfExtended(b, se);
    forall x | x in Listing(b) ensures Less(ByTime, x, se) {
      var id :| id in b && b[id] == x;
    }
    NewestEventDecides(Listing(b), p, se);
  }

  lemma EdgeDecides(a: Account, key: Pubkey, kind: Kind, target: Pubkey, now: int)
    requires OwnLogs(a.own, OfKey(key)) && ClockAhead(a, now)
    requires kind == KindFollow || kind == KindUnfollow
    requires ValidEvent(Stamped(a.own, ProfileLog, EdgeEvent(kind, target), now))
    ensures ReplayedFollows(AfterSigning(a.own, key, ProfileLog, EdgeEvent(kind, target), now))
         == if kind == KindFollow then ReplayedFollows(a.own) + {OfKey(target)}
            else ReplayedFollows(a.own) - {OfKey(target)}
  {
    ReplayAfterSigning(a, key, EdgeEvent(kind, target), now);
    IdentitiesOf(FollowSetOf(Listing(LogOf(a.own, ProfileLog))), target);
  }

  lemma IdentitiesOf(fs: set<Pubkey>, target: Pubkey)
    ensures (set k | k in fs + {target} :: OfKey(k)) == (set k | k in fs :: OfKey(k)) + {OfKey(target)}
    ensures (set k | k in fs - {target} :: OfKey(k)) == (set k | k in fs :: OfKey(k)) - {OfKey(target)}
  {}

  lemma FollowKeepsAccount(a: Account, key: Pubkey, target: Pubkey, now: int)
    requires AccountOk(a, OfKey(key)) && ClockAhead(a, now)
    ensures AccountOk(Follow(a, key, target, now), OfKey(key))
  {
    if ValidEvent(Stamped(a.own, ProfileLog, EdgeEvent(KindFollow, target), now)) {
      SigningKeepsOwnLogs(a.own, key, ProfileLog, EdgeEvent(KindFollow, target), now);
      EdgeDecides(a, key, KindFollow, target, now);
      CacheMoves(a.follows, ReplayedFollows(a.own), OfKey(target));
    }
  }

  lemma UnfollowKeepsAccount(a: Account, key: Pubkey, target: Pubkey, now: int)
    requires AccountOk(a, OfKey(key)) && ClockAhead(a, now)
    ensures AccountOk(Unfollow(a, key, target, now), OfKey(key))
  {
    if ValidEvent(Stamped(a.own, ProfileLog, EdgeEvent(KindUnfollow, target), now)) {
      SigningKeepsOwnLogs(a.own, key, ProfileLog, EdgeEvent(KindUnfollow, target), now);
      EdgeDecides(a, key, KindUnfollow, target, now);
      CacheMoves(a.follows, ReplayedFollows(a.own), OfKey(target));
    }
  }

  /** Signing any other event leaves the replay, and so the cache, as they are. */
  lemma SignKeepsAccount(a: Account, key: Pubkey, log: LogName, ev: Event, now: int)
    requires AccountOk(a, OfKey(key)) && ClockAhead(a, now)
    requires ev.kind != KindFollow && ev.kind != KindUnfollow
    ensures AccountOk(a.(own := AfterSigning(a.own, key, log, ev, now)), OfKey(key))
  {
    SigningKeepsOwnLogs(a.own, key, log, ev, now);
    SigningKeepsReplay(a, key, log, ev, now);
  }

  lemma OtherLogsStay(own: Logs, key: Pubkey, log: LogName, ev: Event, now: int, other: LogName)
    requires log != other
    ensures LogOf(AfterSigning(own, key, log, ev, now), other) == LogOf(own, other)
  {}

  lemma SigningKeepsReplay(a: Account, key: Pubkey, log: LogName, ev: Event, now: int)
    requires OwnLogs(a.own, OfKey(key)) && ClockAhead(a, now)
    requires ev.kind != KindFollow && ev.kind != KindUnfollow
    ensures ReplayedFollows(AfterSigning(a.own, key, log, ev, now)) == ReplayedFollows(a.own)
  {
    hide FollowSetOf, Listing, Insert, CanonicalEncode;
    if log != ProfileLog {
      OtherLogsStay(a.own, key, log, ev, now, ProfileLog);
    } else if !RepeatedLike(a.own, OfKey(key), ev) && ValidEvent(Stamped(a.own, log, ev, now)) {
      ReplayAfterSigning(a, key, ev, now);
    }
  }

  // ----- Backups

  /** Follow edges without pins. */
  ghost function Edges(ids: set<Identity>): (f: map<Identity, FollowState>)
    ensures f.Keys == ids && forall id :: id in f ==> f[id] == FollowState(true, false)
  {
    if ids == {} then map[]
    else
      var a :| a in ids;
      Edges(ids - {a})[a := FollowState(true, false)]
  }

  lemma EdgesGrow(ids: set<Identity>, id: Identity)
    ensures Edges(ids + {id}) == Edges(ids)[id := FollowState(true, false)]
  {}

  /** One more target of a rebuild. */
  lemma EdgesGrowBy(fs: set<Pubkey>, rest: set<Pubkey>, target: Pubkey)
    requires target in rest && rest <= fs
    ensures Edges(set k | k in fs - (rest - {target}) :: OfKey(k))
         == Edges(set k | k in fs - rest :: OfKey(k))[OfKey(target) := FollowState(true, false)]
  {
    hide Edges;
    IdentitiesOf(fs - rest, target);
    EdgesGrow(set k | k in fs - rest :: OfKey(k), OfKey(target));
    assert fs - (rest - {target}) == fs - rest + {target};
  }

  ghost function RebuiltFollows(own: Logs): map<Identity, FollowState> {
    Edges(ReplayedFollows(own))
  }

  /** Pins are applied onto existing follow edges only. */
  ghost function WithPins(f: map<Identity, FollowState>, pins: set<Identity>): (r: map<Identity, FollowState>)
    ensures r.Keys == f.Keys
    ensures forall id :: id in f ==>
      r[id] == if id in pins && f[id].followed then f[id].(pinned := true) else f[id]
  {
    if pins == {} then f
    else
      var a :| a in pins;
      var r := WithPins(f, pins - {a});
      if FlagsOf(r, a).followed then r[a := FlagsOf(r, a).(pinned := true)] else r
  }

  lemma NoPins(f: map<Identity, FollowState>)
    ensures WithPins(f, {}) == f
  {}

  lemma PinsGrow(f: map<Identity, FollowState>, pins: set<Identity>, id: Identity)
    ensures WithPins(f, pins + {id})
         == if FlagsOf(WithPins(f, pins), id).followed
            then WithPins(f, pins)[id := FlagsOf(WithPins(f, pins), id).(pinned := true)]
            else WithPins(f, pins)
  {
    var r, more := WithPins(f, pins), WithPins(f, pins + {id});
    if FlagsOf(r, id).followed {
      assert r[id := r[id].(pinned := true)].Keys == r.Keys;
      assert more == r[id := r[id].(pinned := true)];
    } else {
      assert more == r;
    }
  }

  function PinnedOf(f: map<Identity, FollowState>): set<Identity> {
    set id | id in f && f[id].pinned
  }

  function AllOwnEvents(own: Logs): seq<SignedEvent> {
    Listing(LogOf(own, ProfileLog)) + Listing(LogOf(own, DetailLog)) + Listing(LogOf(own, PostLog))
  }

  /** An account without a stored key cannot be exported. */
  function Export(a: Account): Option<Backup> {
    if a.key.None? then None
    else Some(Backup(a.key, AllOwnEvents(a.own), a.verified, PinnedOf(a.follows)))
  }

  /** A backup without a key is rejected; importing does not install the key itself. */
  ghost function Import(a: Account, bd: Backup): Account {
    if bd.key.None? then a
    else
      var own := AppendAll(a.own, bd.ownLogs);
      a.(own := own,
         verified := if bd.verified != {} then bd.verified else a.verified,
         follows := WithPins(RebuiltFollows(own), bd.pinned))
  }

  /** The list holds exactly the events of the given own logs. */
  ghost predicate Carries(s: seq<SignedEvent>, own: Logs) {
    forall log :: Holds(Only(s, log), LogOf(own, log))
  }

  lemma ExportCarries(own: Logs, me: Identity)
    requires OwnLogs(own, me)
    ensures Carries(AllOwnEvents(own), own)
  {
    forall log ensures Holds(Only(AllOwnEvents(own), log), LogOf(own, log)) {
      OwnLogOf(own, me, log);
      forall id | id in LogOf(own, log) ensures LogOf(own, log)[id] in AllOwnEvents(own) {
        InAllOwnEvents(own, me, LogOf(own, log)[id]);
      }
      forall se | se in AllOwnEvents(own) && se.event.log == log
        ensures se.Id() in LogOf(own, log) && LogOf(own, log)[se.Id()] == se
      {
        InAllOwnEvents(own, me, se);
      }
    }
  }

  lemma InListing(own: Logs, me: Identity, log: LogName, se: SignedEvent)
    requires OwnLogs(own, me)
    ensures se in Listing(LogOf(own, log)) <==> se.event.log == log && InBucket(LogOf(own, log), se)
  {
    OwnLogOf(own, me, log);
    ListingHolds(LogOf(own, log));
  }

  /** The three listings together hold each own event, and each in its own log. */
  lemma InAllOwnEvents(own: Logs, me: Identity, se: SignedEvent)
    requires OwnLogs(own, me)
    ensures se in AllOwnEvents(own) <==> InBucket(LogOf(own, se.event.log), se)
  {
    InListing(own, me, ProfileLog, se);
    InListing(own, me, DetailLog, se);
    InListing(own, me, PostLog, se);
    OwnLogOf(own, me, se.event.log);
  }

  /** Importing a backup of the same identity, taken on any device, keeps the account
      consistent: merged logs stay sequenced and the rebuilt cache agrees with the replay. */
  lemma ImportKeepsAccount(a: Account, bd: Backup, c: Logs, me: Identity)
    requires AccountOk(a, me) && OwnLogs(c, me) && Carries(bd.ownLogs, c)
    ensures AccountOk(Import(a, bd), me)
  {
    if bd.key.Some? {
      MergeKeepsOwnLogs(a.own, c, bd.ownLogs, me);
    }
  }

  lemma MergeKeepsOwnLogs(own: Logs, c: Logs, s: seq<SignedEvent>, me: Identity)
    requires OwnLogs(own, me) && OwnLogs(c, me) && Carries(s, c)
    ensures OwnLogs(AppendAll(own, s), me)
  {
    forall log | log in AppendAll(own, s) ensures OwnLog(AppendAll(own, s)[log], me, log) {
      MergeKeepsOwnLog(own, c, s, me, log);
    }
  }

  lemma MergeKeepsOwnLog(own: Logs, c: Logs, s: seq<SignedEvent>, me: Identity, log: LogName)
    requires OwnLogs(own, me) && OwnLogs(c, me) && Carries(s, c)
    ensures OwnLog(LogOf(AppendAll(own, s), log), me, log)
  {
    var b, d, t := LogOf(own, log), LogOf(c, log), Only(s, log);
    AppendAllByLog(own, s, log);
    OwnLogOf(own, me, log);
    OwnLogOf(c, me, log);
    assert Holds(t, d);
    MergeKeepsSequences(b, d, t, me);
    MergeEffect(b, t);
    var r := InsertAll(b, t);
    forall id | id in r
      ensures r[id].author == me && r[id].event.log == log && ValidEvent(r[id].event)
    {
      if id !in b { assert r[id] in t; }
    }
  }

  /** What merging a list into the own logs does: nothing held is lost or replaced, whatever is
      added was in the list, for that log, and whatever was in the list is covered. */
  lemma AppendAllMeans(own: Logs, s: seq<SignedEvent>)
    requires forall log :: WellFormed(LogOf(own, log))
    ensures var r := AppendAll(own, s);
      && (forall log :: WellFormed(LogOf(r, log)) && Extends(LogOf(r, log), LogOf(own, log)))
      && (forall log, id :: id in LogOf(r, log) && id !in LogOf(own, log) ==>
            LogOf(r, log)[id] in s && LogOf(r, log)[id].event.log == log)
      && (forall se :: se in s ==> Covered(LogOf(r, se.event.log), se))
  {
    hide AppendAll, InsertAll, LogOf, WellFormed, Covered;
    forall log
      ensures var b, r := LogOf(own, log), LogOf(AppendAll(own, s), log);
        && WellFormed(r) && Extends(r, b)
        && (forall id :: id in r && id !in b ==> r[id] in s && r[id].event.log == log)
        && (forall se :: se in s && se.event.log == log ==> Covered(r, se))
    {
      AppendAllByLog(own, s, log);
      MergeEffect(LogOf(own, log), Only(s, log));
    }
  }

  const EMPTY: Account := Account(map[], map[], {}, None)

  /** Backup round trip: an export imported into an empty store reproduces every own log, the
      verified set, and the followed and pinned sets. */
  lemma BackupRoundTrip(a: Account, me: Identity)
    requires AccountOk(a, me) && a.key.Some?
    ensures var r := Import(EMPTY, Export(a).value);
      && (forall log :: LogOf(r.own, log) == LogOf(a.own, log))
      && r.verified == a.verified
      && r.follows == a.follows
  {
    var r := Import(EMPTY, Export(a).value);
    RestoreLogs(a.own, me);
    assert LogOf(r.own, ProfileLog) == LogOf(a.own, ProfileLog);
    assert ReplayedFollows(r.own) == ReplayedFollows(a.own);
    RestoreFollows(a.follows, ReplayedFollows(a.own));
  }

  /** Backup round trip into any account of the same identity: nothing of either is lost but
      duplicate Likes, what is exported replaces the verified set unless it is empty, and the
      pins are afterwards exactly the exported ones whose identity is still followed. */
  lemma BackupRestoresInto(a: Account, b: Account, me: Identity)
    requires AccountOk(a, me) && AccountOk(b, me) && a.key.Some?
    ensures var r := Import(b, Export(a).value);
      && AccountOk(r, me) && r.key == b.key
      && r.verified == (if a.verified == {} then b.verified else a.verified)
      && PinnedOf(r.follows) == PinnedOf(a.follows) * ReplayedFollows(r.own)
      && forall log :: Gathers(LogOf(r.own, log), LogOf(b.own, log), LogOf(a.own, log))
  {
    hide OwnLogs, CacheAgrees, ReplayedFollows, AllOwnEvents, AppendAll, Gathers, Carries;
    var bd := Export(a).value;
    ExportCarries(a.own, me);
    ImportKeepsAccount(b, bd, a.own, me);
    ImportedPins(b, bd);
    LogsGather(a.own, b.own, me);
  }

  /** The pins after an import are those of the backup whose identity is followed, whatever was
      pinned before. */
  lemma ImportedPins(a: Account, bd: Backup)
    requires bd.key.Some?
    ensures PinnedOf(Import(a, bd).follows) == bd.pinned * ReplayedFollows(Import(a, bd).own)
  {
    hide ReplayedFollows, AppendAll;
    var f := Import(a, bd).follows;
    assert forall id :: id in f ==> f[id].pinned == (id in bd.pinned);
  }

  lemma LogsGather(from: Logs, own: Logs, me: Identity)
    requires OwnLogs(from, me) && OwnLogs(own, me)
    ensures forall log :: Gathers(LogOf(AppendAll(own, AllOwnEvents(from)), log), LogOf(own, log), LogOf(from, log))
  {
    LogsAreWellFormed(own, me);
    hide OwnLogs, AllOwnEvents, AppendAll, Gathers, LogOf;
    var s := AllOwnEvents(from);
    AppendAllMeans(own, s);
    forall log ensures Gathers(LogOf(AppendAll(own, s), log), LogOf(own, log), LogOf(from, log)) {
      GathersAll(from, me, own, s, AppendAll(own, s), log);
    }
  }

  /** r has all of b, nothing but entries of b and of c, and covers all of c. */
  ghost predicate Gathers(r: Bucket, b: Bucket, c: Bucket) {
    && Extends(r, b)
    && (forall id :: id in r ==> InBucket(b, r[id]) || InBucket(c, r[id]))
    && (forall id :: id in c ==> Covered(r, c[id]))
  }

  lemma GathersAll(own: Logs, me: Identity, was: Logs, s: seq<SignedEvent>, now: Logs, log: LogName)
    requires OwnLogs(own, me) && OwnLogs(was, me) && s == AllOwnEvents(own)
    requires var r, b := LogOf(now, log), LogOf(was, log);
      && Extends(r, b) && Keyed(r)
      && (forall id :: id in r && id !in b ==> r[id] in s && r[id].event.log == log)
    requires forall se :: se in s && se.event.log == log ==> Covered(LogOf(now, log), se)
    ensures Gathers(LogOf(now, log), LogOf(was, log), LogOf(own, log))
  {
    hide AllOwnEvents, Covered;
    var r, b, c := LogOf(now, log), LogOf(was, log), LogOf(own, log);
    OwnLogOf(own, me, log);
    OwnLogOf(was, me, log);
    forall id | id in r ensures InBucket(b, r[id]) || InBucket(c, r[id]) {
      if id !in b {
        InAllOwnEvents(own, me, r[id]);
      }
    }
    forall id | id in c ensures Covered(r, c[id]) {
      InAllOwnEvents(own, me, c[id]);
    }
  }

  lemma LogsAreWellFormed(own: Logs, me: Identity)
    requires OwnLogs(own, me)
    ensures forall log :: WellFormed(LogOf(own, log))
  {
    forall log ensures WellFormed(LogOf(own, log)) {
      OwnLogOf(own, me, log);
    }
  }

  lemma RestoreLogs(own: Logs, me: Identity)
    requires OwnLogs(own, me)
    ensures forall log :: LogOf(AppendAll(map[], AllOwnEvents(own)), log) == LogOf(own, log)
  {
    ExportCarries(own, me);
    forall log ensures LogOf(AppendAll(map[], AllOwnEvents(own)), log) == LogOf(own, log) {
      AppendAllByLog(map[], AllOwnEvents(own), log);
      OwnLogOf(own, me, log);
      RestoreLog(LogOf(own, log), Only(AllOwnEvents(own), log));
    }
  }

  lemma RestoreFollows(f: map<Identity, FollowState>, ids: set<Identity>)
    requires f.Keys == ids && forall id :: id in f ==> f[id].followed
    ensures WithPins(Edges(ids), PinnedOf(f)) == f
  {
    var g := WithPins(Edges(ids), PinnedOf(f));
    assert g.Keys == f.Keys;
  }

  /** Nothing of a well-formed log is dropped when it is merged into an empty one. */
  lemma NothingIsWellFormed()
    ensures WellFormed(map[])
  {}

  lemma {:induction false} RestoreLog(b: Bucket, s: seq<SignedEvent>)
    requires WellFormed(b) && Holds(s, b)
    ensures InsertAll(map[], s) == b
  {
    hide InsertAll, Covered, OneLike;
    NothingIsWellFormed();
    MergeEffect(map[], s);
    var r := InsertAll(map[], s);
    forall id | id in r ensures id in b && r[id] == b[id] {
      assert r[id] in s;
    }
    forall id | id in b ensures id in r {
      CoveredIsHeld(b, r, id);
    }
    assert r.Keys == b.Keys;
  }

  lemma CoveredIsHeld(b: Bucket, r: Bucket, id: EventID)
    requires WellFormed(b) && id in b && Covered(r, b[id])
    requires forall j :: j in r ==> j in b && r[j] == b[j]
    ensures id in r
  {
    assert b[id].Id() == id;
    if IsLike(b[id]) && Liked(r, b[id].author, b[id].event.like.value) {
      var j :| j in r && LikeOf(r[j], b[id].author, b[id].event.like.value);
      assert b[j] == r[j];
      assert j == id;
    }
  }

  /** Importing a backup a second time changes nothing, whatever the backup holds. */
  lemma ImportIsIdempotent(a: Account, bd: Backup)
    requires forall log :: log in a.own ==> WellFormed(a.own[log])
    ensures Import(Import(a, bd), bd) == Import(a, bd)
  {
    if bd.key.Some? {
      var own := AppendAll(a.own, bd.ownLogs);
      var again := AppendAll(own, bd.ownLogs);
      forall log ensures LogOf(again, log) == LogOf(own, log) {
        AppendAllByLog(a.own, bd.ownLogs, log);
        AppendAllByLog(own, bd.ownLogs, log);
        MergeIsIdempotent(LogOf(a.own, log), Only(bd.ownLogs, log), Only(bd.ownLogs, log));
      }
      AppendAllNames(a.own, bd.ownLogs);
      AppendAllNames(own, bd.ownLogs);
      assert again.Keys == own.Keys;
      forall log | log in own ensures again[log] == own[log] {
        assert LogOf(again, log) == LogOf(own, log);
      }
      assert again == own;
    }
  }

  lemma {:induction false} AppendAllNames(own: Logs, s: seq<SignedEvent>)
    ensures AppendAll(own, s).Keys == own.Keys + set se | se in s :: se.event.log
  {
    if s != [] {
      AppendAllNames(own, s[..|s| - 1]);
      assert s == s[..|s| - 1] + [s[|s| - 1]];
    }
  }

  // ----- Whole runs

  datatype Op =
    | OpFollow(target: Pubkey, now: int)
    | OpUnfollow(target: Pubkey, now: int)
    | OpSign(log: LogName, ev: Event, now: int)
    | OpPin(id: Identity)
    | OpUnpin(id: Identity)
    | OpImport(backup: Backup)

  ghost function Step(a: Account, key: Pubkey, op: Op): Account {
    match op
    case OpFollow(target, now) => Follow(a, key, target, now)
    case OpUnfollow(target, now) => Unfollow(a, key, target, now)
    case OpSign(log, ev, now) => a.(own := AfterSigning(a.own, key, log, ev, now))
    case OpPin(id) => Pin(a, id)
    case OpUnpin(id) => Unpin(a, id)
    case OpImport(bd) => Import(a, bd)
  }

  /** New events are never stamped before the own ProfileLog, follow edges are signed through
      Follow and Unfollow, and a backup was taken from logs of the same identity. */
  ghost predicate Admissible(a: Account, key: Pubkey, op: Op) {
    match op
    case OpFollow(_, now) => ClockAhead(a, now)
    case OpUnfollow(_, now) => ClockAhead(a, now)
    case OpSign(_, ev, now) => ClockAhead(a, now) && ev.kind != KindFollow && ev.kind != KindUnfollow
    case OpPin(_) => true
    case OpUnpin(_) => true
    case OpImport(bd) => exists c :: OwnLogs(c, OfKey(key)) && Carries(bd.ownLogs, c)
  }

  ghost function Run(a: Account, key: Pubkey, ops: seq<Op>): Account
    decreases ops
  {
    if ops == [] then a else Run(Step(a, key, ops[0]), key, ops[1..])
  }

  ghost predicate AdmissibleRun(a: Account, key: Pubkey, ops: seq<Op>)
    decreases ops
  {
    ops != [] ==> Admissible(a, key, ops[0]) && AdmissibleRun(Step(a, key, ops[0]), key, ops[1..])
  }

  lemma PinKeepsKeys(f: map<Identity, FollowState>, ids: set<Identity>, id: Identity)
    requires CacheMatches(f, ids)
    ensures FlagsOf(f, id).followed <==> id in f
    ensures id in f ==> CacheMatches(f[id := f[id].(pinned := true)], ids)
    ensures id in f ==> CacheMatches(f[id := f[id].(pinned := false)], ids)
    ensures id !in f ==> f - {id} == f
  {
    if id in f {
      assert f[id := f[id].(pinned := true)].Keys == f.Keys;
      assert f[id := f[id].(pinned := false)].Keys == f.Keys;
    }
  }

  lemma PinsKeepAccount(a: Account, key: Pubkey, id: Identity)
    requires AccountOk(a, OfKey(key))
    ensures AccountOk(Pin(a, id), OfKey(key)) && AccountOk(Unpin(a, id), OfKey(key))
  {
    PinKeepsKeys(a.follows, ReplayedFollows(a.own), id);
  }

  lemma StepKeepsAccount(a: Account, key: Pubkey, op: Op)
    requires AccountOk(a, OfKey(key)) && Admissible(a, key, op)
    ensures AccountOk(Step(a, key, op), OfKey(key))
  {
    match op
    case OpFollow(target, now) => FollowKeepsAccount(a, key, target, now);
    case OpUnfollow(target, now) => UnfollowKeepsAccount(a, key, target, now);
    case OpSign(log, ev, now) => SignKeepsAccount(a, key, log, ev, now);
    case OpPin(id) => PinsKeepAccount(a, key, id);
    case OpUnpin(id) => PinsKeepAccount(a, key, id);
    case OpImport(bd) =>
      var c :| OwnLogs(c, OfKey(key)) && Carries(bd.ownLogs, c);
      ImportKeepsAccount(a, bd, c, OfKey(key));
  }

  /** Over every admissible run the follow cache agrees with the replay of the signed log,
      pins stay on follow edges, and own logs stay sequenced with one Like per target. */
  lemma {:induction false} RunKeepsAccount(a: Account, key: Pubkey, ops: seq<Op>)
    requires AccountOk(a, OfKey(key)) && AdmissibleRun(a, key, ops)
    ensures AccountOk(Run(a, key, ops), OfKey(key))
    ensures PinnedOf(Run(a, key, ops).follows) <= ReplayedFollows(Run(a, key, ops).own)
    decreases ops
  {
    if ops != [] {
      StepKeepsAccount(a, key, ops[0]);
      RunKeepsAccount(Step(a, key, ops[0]), key, ops[1..]);
    }
  }
}
