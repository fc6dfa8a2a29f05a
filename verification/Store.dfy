/** The local store as the mutable object it is (internal/store/store.go,
    internal/store/events.go). Each method is one transaction, or a sequence of them run
    without interference, and is tied to the functions of Accounts and Timeline. */
module Stores {
  import opened Events
  import opened Projection
  import opened Buckets
  import opened Accounts
  import opened Timeline
  import opened Wire

  datatype SignResult =
    | Existing(id: EventID)
    | Refused
    | New(se: SignedEvent, newId: EventID)

  // ----- Cursor values

  const MIN_INT64: int := -0x8000_0000_0000_0000
  const MAX_INT64: int := 0x7fff_ffff_ffff_ffff

  predicate Int64(x: int) {
    MIN_INT64 <= x <= MAX_INT64
  }

  /** The 8 bytes that record a timestamp: its two's complement word, big-endian. */
  function CursorBytes(ts: int): Octets {
    BigEndian(ts % 0x1_0000_0000_0000_0000, 8)
  }

  function CursorValue(raw: Octets): int {
    var w := Word(raw);
    if w <= MAX_INT64 then w else w - 0x1_0000_0000_0000_0000
  }

  /** Zero when no cursor is recorded. */
  function StoredCursor(cursors: map<(Identity, LogName), Octets>, author: Identity, log: LogName): int {
    if (author, log) in cursors then CursorValue(cursors[(author, log)]) else 0
  }

  lemma EightByteRange()
    ensures Range(8) == 0x1_0000_0000_0000_0000
  {
    FourByteRange();
    assert Range(5) == 0x100_0000_0000 && Range(6) == 0x1_0000_0000_0000 && Range(7) == 0x100_0000_0000_0000;
  }

  /** A stored cursor reads back as the timestamp that was stored. */
  lemma CursorRoundTrip(ts: int)
    requires Int64(ts)
    ensures CursorValue(CursorBytes(ts)) == ts
  {
    EightByteRange();
    BigEndianRoundTrip(ts % 0x1_0000_0000_0000_0000, 8);
  }

  /** Every recorded cursor has its 8 bytes. */
  ghost predicate WellStored(cursors: map<(Identity, LogName), Octets>) {
    forall k :: k in cursors ==> |cursors[k]| == 8
  }

  lemma {:induction false} WordInRange(b: Octets)
    ensures Word(b) < Range(|b|)
  {
    if b != [] {
      WordInRange(b[..|b| - 1]);
    }
  }

  lemma {:induction false} WordRoundTrip(b: Octets)
    ensures BigEndian(Word(b), |b|) == b
  {
    if b != [] {
      WordRoundTrip(b[..|b| - 1]);
      assert b == b[..|b| - 1] + [b[|b| - 1]];
    }
  }

  /** Any 8 bytes record exactly one 64-bit timestamp. */
  lemma BytesAreACursor(raw: Octets)
    requires |raw| == 8
    ensures Int64(CursorValue(raw)) && CursorBytes(CursorValue(raw)) == raw
    ensures forall t {:trigger CursorBytes(t)} :: Int64(t) && CursorBytes(t) == raw ==> t == CursorValue(raw)
  {
    EightByteRange();
    WordInRange(raw);
    WordRoundTrip(raw);
    assert CursorValue(raw) % 0x1_0000_0000_0000_0000 == Word(raw);
    hide BigEndian, Word;
    forall t {:trigger CursorBytes(t)} | Int64(t) && CursorBytes(t) == raw ensures t == CursorValue(raw) {
      CursorRoundTrip(t);
    }
  }

  lemma FollowsAreLastWords(own: Logs)
    ensures forall x :: x in ReplayedFollows(own) <==> exists k, i: nat ::
              && x == OfKey(k) && LastWord(Listing(LogOf(own, ProfileLog)), k, i)
              && Listing(LogOf(own, ProfileLog))[i].event.kind == KindFollow
  {
    hide FollowSetOf, Listing, LastWord;
    forall k {
      FollowSetIsLastWordWins(Listing(LogOf(own, ProfileLog)), k);
    }
  }

  lemma SigningOutcome(own: Logs, kp: Pubkey, log: LogName, ev: Event, now: int)
    ensures RepeatedLike(own, OfKey(kp), ev) <==>
      ev.kind == KindLike && ev.like.Some? && Liked(LogOf(own, PostLog), OfKey(kp), ev.like.value)
    ensures var signed := Sign(kp, Stamped(own, log, ev, now));
      AfterSigning(own, kp, log, ev, now)
      == if RepeatedLike(own, OfKey(kp), ev) || signed.None? then own else Appended(own, log, signed.value)
  {}

  lemma InsertMeans(b: Bucket, se: SignedEvent)
    ensures Covered(b, se) <==> se.Id() in b || (IsLike(se) && Liked(b, se.author, se.event.like.value))
    ensures Covered(b, se) <==>
      || se.Id() in b
      || (se.event.kind == KindLike && se.event.like.Some? && exists k ::
            && k in b && b[k].event.kind == KindLike && b[k].event.like == se.event.like && b[k].author == se.author)
    ensures Insert(b, se) == if Covered(b, se) then b else b[se.Id() := se]
  {
    hide CanonicalEncode;
  }

  lemma NobodyFollowed(crawl: Crawl)
    ensures FollowedPosts(crawl, {}) == multiset{}
  {}

  lemma NothingAppended(own: Logs)
    ensures AppendAll(own, []) == own
  {}

  lemma NextAppended(own: Logs, s: seq<SignedEvent>, i: nat)
    requires i < |s|
    ensures AppendAll(own, s[..i + 1]) == Appended(AppendAll(own, s[..i]), s[i].event.log, s[i])
  {
    assert s[..i + 1][..i] == s[..i];
  }

  class Store {
    var own: Logs
    var crawl: Crawl
    var follows: map<Identity, FollowState>
    var verified: set<Identity>
    var key: Option<Bytes>
    var cursors: map<(Identity, LogName), Octets>

    ghost function State(): Account
      reads this
    {
      Account(own, follows, verified, key)
    }

    constructor ()
      ensures State() == EMPTY && crawl == map[] && cursors == map[]
    {
      own, crawl, follows, verified, key, cursors := map[], map[], map[], {}, None, map[];
    }

    /** Scans a bucket for a Like of target by author. */
    static method ExistingLikeID(author: Identity, target: EventID, bucket: Bucket)
      returns (id: EventID, found: bool)
      ensures found <==> Liked(bucket, author, target)
      ensures found <==> exists k ::
        && k in bucket
        && bucket[k].event.kind == KindLike && bucket[k].event.like == Some(target) && bucket[k].author == author
      ensures found ==>
        && id in bucket
        && bucket[id].event.kind == KindLike && bucket[id].event.like == Some(target) && bucket[id].author == author
    {
      var keys := KeysInOrder(bucket.Keys);
      for i := 0 to |keys|
        invariant forall j :: 0 <= j < i ==> keys[j] in bucket && !LikeOf(bucket[keys[j]], author, target)
      {
        assert keys[i] in keys;
        if LikeOf(bucket[keys[i]], author, target) {
          return keys[i], true;
        }
      }
      forall k | k in bucket ensures !LikeOf(bucket[k], author, target) {
        assert k in keys;
      }
      id, found := ZERO_ID, false;
    }

    method AppendOwnEvent(log: LogName, se: SignedEvent)
      modifies this`own
      ensures own == Appended(old(own), log, se)
      ensures log in own && forall l :: l != log ==> (l in own <==> l in old(own)) && LogOf(own, l) == LogOf(old(own), l)
      ensures LogOf(own, log)
           == if || se.Id() in LogOf(old(own), log)
                 || (se.event.kind == KindLike && se.event.like.Some? && exists k ::
                       && k in LogOf(old(own), log) && LogOf(old(own), log)[k].event.kind == KindLike
                       && LogOf(old(own), log)[k].event.like == se.event.like && LogOf(old(own), log)[k].author == se.author)
              then LogOf(old(own), log) else LogOf(old(own), log)[se.Id() := se]
    {
      hide CanonicalEncode, Liked, LikeOf, Insert;
      var bucket := LogOf(own, log);
      InsertMeans(bucket, se);
      own := own[log := bucket];
      if se.Id() in bucket {
        return;
      }
      if IsLike(se) {
        var _, dup := ExistingLikeID(se.author, se.event.like.value, bucket);
        if dup {
          return;
        }
      }
      own := own[log := bucket[se.Id() := se]];
    }

    /** Merges a remote event into its author's bucket; reports whether the bucket grew. */
    method PutCrawledEvent(se: SignedEvent) returns (inserted: bool)
      modifies this`crawl
      ensures crawl == old(crawl)[se.author := Insert(CrawledOf(old(crawl), se.author), se)]
      ensures inserted <==>
        && se.Id() !in CrawledOf(old(crawl), se.author)
        && !(se.event.kind == KindLike && se.event.like.Some? && exists k ::
               && k in CrawledOf(old(crawl), se.author) && CrawledOf(old(crawl), se.author)[k].event.kind == KindLike
               && CrawledOf(old(crawl), se.author)[k].event.like == se.event.like
               && CrawledOf(old(crawl), se.author)[k].author == se.author)
      ensures CrawledOf(crawl, se.author)
           == if inserted then CrawledOf(old(crawl), se.author)[se.Id() := se] else CrawledOf(old(crawl), se.author)
      ensures forall a :: a != se.author ==> CrawledOf(crawl, a) == CrawledOf(old(crawl), a)
      ensures old(AuthorKeyed(crawl)) ==> AuthorKeyed(crawl)
    {
      hide CanonicalEncode, Liked, LikeOf, Insert, AuthorKeyed;
      InsertMeans(CrawledOf(crawl, se.author), se);
      if AuthorKeyed(crawl) { CachingKeepsAuthorKeyed(crawl, se, se.author); }
      var bucket := CrawledOf(crawl, se.author);
      crawl := crawl[se.author := bucket];
      if se.Id() in bucket {
        return false;
      }
      if IsLike(se) {
        var _, dup := ExistingLikeID(se.author, se.event.like.value, bucket);
        if dup {
          return false;
        }
      }
      inserted := true;
      crawl := crawl[se.author := bucket[se.Id() := se]];
    }

    /** Writes a crawled profile event under the crawled identity, over what is there. */
    method PutCrawledProfile(author: Identity, se: SignedEvent)
      modifies this`crawl
      ensures crawl == old(crawl)[author := CrawledOf(old(crawl), author)[se.Id() := se]]
      ensures Verified(se) && se.event.log == ProfileLog && old(WellFormed(CrawledOf(crawl, author))) ==>
        WellFormed(CrawledOf(crawl, author)) && Keeps(CrawledOf(crawl, author), CrawledOf(old(crawl), author))
      ensures Verified(se) && se.event.log == ProfileLog && old(AuthorKeyed(crawl)) ==> AuthorKeyed(crawl)
    {
      if Verified(se) && se.event.log == ProfileLog {
        if WellFormed(CrawledOf(crawl, author)) { OverwriteEffect(CrawledOf(crawl, author), se); }
        if AuthorKeyed(crawl) { CachingKeepsAuthorKeyed(crawl, se, author); }
      }
      var bucket := CrawledOf(crawl, author);
      crawl := crawl[author := bucket[se.Id() := se]];
    }

    method CrawledEvents(author: Identity) returns (out: seq<SignedEvent>)
      ensures out == Listing(CrawledOf(crawl, author))
    {
      out := Listing(CrawledOf(crawl, author));
    }

    /** The events of one log in a bucket, in key order. */
    static method FilterLog(bucket: Bucket, log: LogName) returns (out: seq<SignedEvent>)
      ensures out == Only(Listing(bucket), log)
    {
      hide Only, Listing;
      var events := Listing(bucket);
      out := [];
      OnlyOfNothing(log);
      assert events[..0] == [];
      for i := 0 to |events|
        invariant out == Only(events[..i], log)
      {
        OnlyOneMore(events, i, log);
        if events[i].event.log == log {
          out := out + [events[i]];
        }
      }
      assert events[..|events|] == events;
    }

    /** The ProfileLog events of the same bucket. */
    method CrawledProfiles(author: Identity) returns (out: seq<SignedEvent>)
      ensures out == Only(Listing(CrawledOf(crawl, author)), ProfileLog)
      ensures forall se :: se in out <==>
        exists id :: id in CrawledOf(crawl, author) && CrawledOf(crawl, author)[id] == se && se.event.log == ProfileLog
    {
      out := FilterLog(CrawledOf(crawl, author), ProfileLog);
    }

    method OwnEvents(log: LogName) returns (events: seq<SignedEvent>)
      ensures events == Listing(LogOf(own, log))
      ensures |events| == |LogOf(own, log)|
      ensures forall se :: se in events <==> exists id :: id in LogOf(own, log) && LogOf(own, log)[id] == se
      ensures Keyed(LogOf(own, log)) ==> forall i, j :: 0 <= i < j < |events| ==> Before(events[i].Id(), events[j].Id())
    {
      var bucket := LogOf(own, log);
      var keys := KeysInOrder(bucket.Keys);
      ghost var listed := Listing(bucket);
      ListingAlong(bucket, keys);
      events := [];
      for i := 0 to |keys|
        invariant |events| == i && forall j :: 0 <= j < i ==> events[j] == listed[j]
      {
        events := events + [bucket[keys[i]]];
      }
    }

    /** The single entry point for own events. On well-formed logs whatever is signed enters
        its log under a fresh identifier and a sequence number above all it holds. */
    method SignAndAppend(kp: Pubkey, log: LogName, ev: Event, now: int) returns (r: SignResult)
      modifies this`own
      ensures own == AfterSigning(old(own), kp, log, ev, now)
      ensures r.Existing? <==>
        && ev.kind == KindLike && ev.like.Some?
        && exists id :: id in LogOf(old(own), PostLog) && LikeOf(LogOf(old(own), PostLog)[id], OfKey(kp), ev.like.value)
      ensures r.Existing?
          ==> r.id in LogOf(own, PostLog) && LikeOf(LogOf(own, PostLog)[r.id], OfKey(kp), ev.like.value)
      ensures r.Refused? <==> !r.Existing? && (now == 0 || (log, ev.kind) !in {
        (ProfileLog, KindProfile), (ProfileLog, KindFollow), (ProfileLog, KindUnfollow), (ProfileLog, KindDelete),
        (DetailLog, KindDetail), (DetailLog, KindDelete),
        (PostLog, KindPost), (PostLog, KindLike), (PostLog, KindDelete)})
      ensures r.New? ==>
        && r.se.event == ev.(log := log, timestamp := now, sequence := |LogOf(old(own), log)| + 1)
        && Verified(r.se) && r.se.author == OfKey(kp) && r.newId == r.se.Id()
        && own == Appended(old(own), log, r.se)
      ensures !r.New? ==> own == old(own)
      ensures old(OwnLogs(own, OfKey(kp))) ==> OwnLogs(own, OfKey(kp))
      ensures old(OwnLogs(own, OfKey(kp))) && r.New? ==>
                && r.newId !in LogOf(old(own), log)
                && LogOf(own, log) == LogOf(old(own), log)[r.newId := r.se]
    {
      hide CanonicalEncode, OwnLogs, Appended, AfterSigning, RepeatedLike;
      SigningOutcome(own, kp, log, ev, now);
      if OwnLogs(own, OfKey(kp)) {
        SigningKeepsOwnLogs(own, kp, log, ev, now);
        if !RepeatedLike(own, OfKey(kp), ev) && ValidEvent(Stamped(own, log, ev, now)) {
          SigningAppends(own, kp, log, ev, now);
        }
      }
      if ev.kind == KindLike && ev.like.Some? {
        var existing, found := ExistingLikeID(OfKey(kp), ev.like.value, LogOf(own, PostLog));
        if found {
          return Existing(existing);
        }
      }
      var count := |LogOf(own, log)|;
      var stamped := ev.(log := log, timestamp := now, sequence := count + 1);
      var signed := Sign(kp, stamped);
      if signed.None? {
        return Refused;
      }
      AppendOwnEvent(log, signed.value);
      r := New(signed.value, signed.value.Id());
    }

    method FollowIdentity(kp: Pubkey, target: Pubkey, now: int) returns (ok: bool)
      modifies this`own, this`follows
      ensures State() == Follow(old(State()), kp, target, now)
      ensures ok <==> now != 0
      ensures follows == if ok then old(follows)[OfKey(target) := FollowState(true, false)] else old(follows)
    {
      var r := SignAndAppend(kp, ProfileLog, EdgeEvent(KindFollow, target), now);
      if r.Refused? {
        return false;
      }
      follows := follows[OfKey(target) := FollowState(true, false)];
      ok := true;
    }

    method UnfollowIdentity(kp: Pubkey, target: Pubkey, now: int) returns (ok: bool)
      modifies this`own, this`follows
      ensures State() == Unfollow(old(State()), kp, target, now)
      ensures ok <==> now != 0
      ensures follows == if ok then old(follows) - {OfKey(target)} else old(follows)
    {
      var r := SignAndAppend(kp, ProfileLog, EdgeEvent(KindUnfollow, target), now);
      if r.Refused? {
        return false;
      }
      follows := follows - {OfKey(target)};
      ok := true;
    }

    /** Pinning an identity that is not followed is rejected. */
    method PinIdentity(id: Identity) returns (ok: bool)
      modifies this`follows
      ensures State() == Pin(old(State()), id)
      ensures ok <==> id in old(follows) && old(follows)[id].followed
      ensures follows == if ok then old(follows)[id := FollowState(true, true)] else old(follows)
    {
      var st := FlagsOf(follows, id);
      if !st.followed {
        return false;
      }
      follows := follows[id := st.(pinned := true)];
      ok := true;
    }

    method UnpinIdentity(id: Identity)
      modifies this`follows
      ensures State() == Unpin(old(State()), id)
      ensures follows == if id in old(follows) && old(follows)[id].followed
                         then old(follows)[id := FollowState(true, false)] else old(follows) - {id}
    {
      var st := FlagsOf(follows, id).(pinned := false);
      if !st.followed && !st.pinned {
        follows := follows - {id};
      } else {
        follows := follows[id := st];
      }
    }

    method RebuildFollowState()
      modifies this`follows
      ensures follows == RebuiltFollows(own)
      ensures follows.Keys == ReplayedFollows(own) && forall id :: id in follows ==> follows[id] == FollowState(true, false)
    {
      hide FollowSetOf, Listing, Edges;
      var events := OwnEvents(ProfileLog);
      var fs := FollowSet(events);
      follows := map[];
      assert fs - fs == {};
      var rest := fs;
      while rest != {}
        invariant rest <= fs
        invariant follows == Edges(set k | k in fs - rest :: OfKey(k))
        decreases rest
      {
        var target :| target in rest;
        EdgesGrowBy(fs, rest, target);
        follows := follows[OfKey(target) := FollowState(true, false)];
        rest := rest - {target};
      }
      assert fs - rest == fs;
    }

    method PutPinnedIdentities(ids: set<Identity>)
      modifies this`follows
      ensures follows == WithPins(old(follows), ids)
      ensures follows.Keys == old(follows).Keys
      ensures forall id :: id in follows ==>
        follows[id] == if id in ids && old(follows)[id].followed then FollowState(true, true) else old(follows)[id]
    {
      NoPins(follows);
      var rest := ids;
      while rest != {}
        invariant rest <= ids
        invariant follows == WithPins(old(follows), ids - rest)
        decreases rest
      {
        var id :| id in rest;
        PinsGrow(old(follows), ids - rest, id);
        assert ids - (rest - {id}) == ids - rest + {id};
        var st := FlagsOf(follows, id);
        if st.followed {
          follows := follows[id := st.(pinned := true)];
        }
        rest := rest - {id};
      }
      assert ids - rest == ids;
    }

    method ExportBackup() returns (bd: Option<Backup>)
      ensures bd == Export(State())
      ensures bd.Some? <==> key.Some?
      ensures bd.Some? ==>
        && bd.value.key == key && bd.value.verified == verified
        && (forall id :: id in bd.value.pinned <==> id in follows && follows[id].pinned)
        && bd.value.ownLogs
           == Listing(LogOf(own, ProfileLog)) + Listing(LogOf(own, DetailLog)) + Listing(LogOf(own, PostLog))
    {
      if key.None? {
        return None;
      }
      var prof := OwnEvents(ProfileLog);
      var detail := OwnEvents(DetailLog);
      var posts := OwnEvents(PostLog);
      bd := Some(Backup(key, prof + detail + posts, verified, PinnedOf(follows)));
    }

    method ImportBackup(bd: Backup) returns (ok: bool)
      modifies this`own, this`follows, this`verified
      ensures State() == Import(old(State()), bd)
      ensures ok <==> bd.key.Some?
      ensures !ok ==> State() == old(State())
      ensures ok ==>
        && verified == (if bd.verified == {} then old(verified) else bd.verified)
        && follows.Keys == ReplayedFollows(own)
        && (forall id :: id in follows ==> follows[id] == FollowState(true, id in bd.pinned))
      ensures ok && (forall log :: WellFormed(LogOf(old(own), log))) ==>
        && (forall log :: Extends(LogOf(own, log), LogOf(old(own), log)))
        && (forall log, id :: id in LogOf(own, log) && id !in LogOf(old(own), log) ==>
              LogOf(own, log)[id] in bd.ownLogs && LogOf(own, log)[id].event.log == log)
        && (forall se :: se in bd.ownLogs ==> Covered(LogOf(own, se.event.log), se))
    {
      hide ReplayedFollows, WellFormed, Covered, LogOf, AppendAll, Appended;
      ghost var before := own;
      if bd.key.None? {
        return false;
      }
      NothingAppended(own);
      assert bd.ownLogs[..0] == [];
      for i := 0 to |bd.ownLogs|
        invariant own == AppendAll(old(own), bd.ownLogs[..i])
        invariant follows == old(follows) && verified == old(verified) && key == old(key)
      {
        NextAppended(before, bd.ownLogs, i);
        AppendOwnEvent(bd.ownLogs[i].event.log, bd.ownLogs[i]);
      }
      assert bd.ownLogs[..|bd.ownLogs|] == bd.ownLogs;
      if forall log :: WellFormed(LogOf(before, log)) {
        AppendAllMeans(before, bd.ownLogs);
      }
      if bd.verified != {} {
        verified := bd.verified;
      }
      RebuildFollowState();
      NoPins(follows);
      if bd.pinned != {} {
        PutPinnedIdentities(bd.pinned);
      }
      ok := true;
    }

    // ----- Cursors

    /** A recorded timestamp reads back as it was put; without a record the answer is zero. */
    method SyncCursor(author: Identity, log: LogName) returns (ts: int)
      ensures (author, log) !in cursors ==> ts == 0
      ensures forall t {:trigger CursorBytes(t)} ::
        Int64(t) && (author, log) in cursors && cursors[(author, log)] == CursorBytes(t) ==> ts == t
      ensures ts == StoredCursor(cursors, author, log)
    {
      if (author, log) !in cursors {
        return 0;
      }
      ts := CursorValue(cursors[(author, log)]);
      forall t | Int64(t) && cursors[(author, log)] == CursorBytes(t) ensures ts == t {
        CursorRoundTrip(t);
      }
    }

    method PutSyncCursor(author: Identity, log: LogName, ts: int)
      requires Int64(ts)
      modifies this`cursors
      ensures cursors == old(cursors)[(author, log) := CursorBytes(ts)]
      ensures CursorValue(cursors[(author, log)]) == ts
      ensures var raw := cursors[(author, log)];
        && |raw| == 8
        && 0x1_0000_0000 * (0x100_0000 * (raw[0] as int) + 0x1_0000 * (raw[1] as int) + 256 * (raw[2] as int) + raw[3] as int)
           + (0x100_0000 * (raw[4] as int) + 0x1_0000 * (raw[5] as int) + 256 * (raw[6] as int) + raw[7] as int)
           == if ts >= 0 then ts else ts + 0x1_0000_0000_0000_0000
      ensures old(WellStored(cursors)) ==> WellStored(cursors)
    {
      CursorRoundTrip(ts);
      EightByteRange();
      BigEndianRoundTrip(ts % 0x1_0000_0000_0000_0000, 8);
      WordOfEight(CursorBytes(ts));
      WordOfFour(CursorBytes(ts)[..4]);
      WordOfFour(CursorBytes(ts)[4..]);
      cursors := cursors[(author, log) := CursorBytes(ts)];
    }

    // ----- The timeline

    method FollowGraph() returns (ids: set<Identity>)
      ensures ids == ReplayedFollows(own)
      ensures forall x :: x in ids <==> exists k, i: nat ::
        && x == OfKey(k) && LastWord(Listing(LogOf(own, ProfileLog)), k, i)
        && Listing(LogOf(own, ProfileLog))[i].event.kind == KindFollow
    {
      FollowsAreLastWords(own);
      var events := OwnEvents(ProfileLog);
      var fs := FollowSet(events);
      ids := set k | k in fs :: OfKey(k);
    }

    static method FilterPostLog(bucket: Bucket) returns (out: seq<SignedEvent>)
      ensures out == PostLogEvents(bucket)
    {
      out := FilterLog(bucket, PostLog);
    }

    /** One read per followed identity, in whatever order the follow set yields them. */
    method AllPosts() returns (out: seq<SignedEvent>)
      ensures multiset(out) == TimelineOf(own, crawl)
    {
      out := OwnEvents(PostLog);
      var rest := FollowGraph();
      while rest != {}
        invariant multiset(out) + FollowedPosts(crawl, rest) == TimelineOf(own, crawl)
        decreases rest
      {
        var id :| id in rest;
        LoadOne(crawl, rest, id, out);
        var events := FilterPostLog(CrawledOf(crawl, id));
        out := out + events;
        rest := rest - {id};
      }
    }

    /** The single-transaction loader: it skips identities without a bucket. */
    method AllPostsOneTx() returns (out: seq<SignedEvent>)
      ensures multiset(out) == TimelineOf(own, crawl)
    {
      EmptyListing();
      hide Listing, FollowSetOf, FollowedPosts, PostLogEvents;
      out := [];
      if PostLog in own {
        out := Listing(own[PostLog]);
      }
      var follows := FollowSet(if ProfileLog in own then Listing(own[ProfileLog]) else []);
      var rest := set k | k in follows :: OfKey(k);
      assert rest == ReplayedFollows(own);
      while rest != {}
        invariant multiset(out) + FollowedPosts(crawl, rest) == TimelineOf(own, crawl)
        decreases rest
      {
        var id :| id in rest;
        LoadOne(crawl, rest, id, out);
        rest := rest - {id};
        if id !in crawl {
          continue;
        }
        var events := FilterPostLog(crawl[id]);
        out := out + events;
      }
      NobodyFollowed(crawl);
    }

    // ----- Interaction counts

    /** Records the author of every event of a bucket, or of its PostLog events only. */
    static method AddAuthors(index: Index, b: Bucket, postLogOnly: bool) returns (r: Index)
      ensures Written(index, b, if postLogOnly then PostIds(b) else b.Keys, r)
    {
      r := index;
      var rest := b.Keys;
      ghost var chosen := if postLogOnly then PostIds(b) else b.Keys;
      while rest != {}
        invariant rest <= b.Keys
        invariant Written(index, b, chosen - rest, r)
        decreases rest
      {
        var id :| id in rest;
        if !postLogOnly || b[id].event.log == PostLog {
          assert chosen - (rest - {id}) == chosen - rest + {id};
          r := r[id := b[id].author];
        } else {
          assert chosen - (rest - {id}) == chosen - rest;
        }
        rest := rest - {id};
      }
      assert chosen - rest == chosen;
    }

    /** Adds the cached PostLog of one followed identity to the index. */
    method AddFollowed(index: Index, a: Identity, ghost seen: set<Identity>) returns (r: Index)
      requires Indexes(index, own, crawl, seen)
      ensures Indexes(r, own, crawl, seen + {a})
    {
      r := AddAuthors(index, CrawledOf(crawl, a), true);
      IndexGrows(index, own, crawl, seen, a, r);
    }

    /** Maps every held PostLog event to its author. */
    method HeldIndex() returns (authors: Index)
      ensures Indexes(authors, own, crawl, ReplayedFollows(own))
      ensures forall id :: id in authors <==>
        || id in LogOf(own, PostLog)
        || exists a :: a in ReplayedFollows(own) && id in CrawledOf(crawl, a) && CrawledOf(crawl, a)[id].event.log == PostLog
      ensures forall id :: id in authors ==>
        || (id in LogOf(own, PostLog) && LogOf(own, PostLog)[id].author == authors[id])
        || exists a ::
             && a in ReplayedFollows(own) && id in CrawledOf(crawl, a) && CrawledOf(crawl, a)[id].event.log == PostLog
             && CrawledOf(crawl, a)[id].author == authors[id]
    {
      hide HeldBy, Indexes, Written, PostIds, LogOf, ReplayedFollows, CrawledOf, LastWord;
      authors := AddAuthors(map[], LogOf(own, PostLog), false);
      IndexStarts(own, crawl, authors);
      var rest := FollowGraph();
      ghost var follows, seen: set<Identity> := rest, {};
      while rest != {}
        invariant seen + rest == follows
        invariant Indexes(authors, own, crawl, seen)
        decreases rest
      {
        var a :| a in rest;
        authors := AddFollowed(authors, a, seen);
        seen, rest := seen + {a}, rest - {a};
      }
      assert seen == follows;
      IndexMeans(authors, own, crawl, seen);
    }

    /** The loop that both interaction counts run over the own PostLog. */
    method Count(m: Metric, index: Index) returns (out: map<Identity, nat>)
      ensures Tallies(out, m, LogOf(own, PostLog), LogOf(own, PostLog).Keys, index)
    {
      var b := LogOf(own, PostLog);
      var rest := b.Keys;
      out := map[];
      while rest != {}
        invariant rest <= b.Keys
        invariant Tallies(out, m, b, b.Keys - rest, index)
        decreases rest
      {
        var id :| id in rest;
        ghost var seen := b.Keys - rest;
        rest := rest - {id};
        assert b.Keys - rest == seen + {id};
        var ref := Reference(m, b[id]);
        if ref.Some? && ref.value in index {
          var a := index[ref.value];
          OneMoreHit(out, m, b, seen, index, id);
          out := out[a := (if a in out then out[a] else 0) + 1];
        } else {
          NoMoreHit(out, m, b, seen, index, id);
        }
      }
      assert b.Keys - rest == b.Keys;
    }

    method OutboundLikes() returns (out: map<Identity, nat>, index: Index)
      ensures Indexes(index, own, crawl, ReplayedFollows(own))
      ensures Tallies(out, Likes, LogOf(own, PostLog), LogOf(own, PostLog).Keys, index)
      ensures var b := LogOf(own, PostLog);
        && (forall a :: a in out ==>
              out[a] == |set id | id in b && b[id].event.kind == KindLike && b[id].event.like.Some?
                                  && b[id].event.like.value in index && index[b[id].event.like.value] == a|)
        && (forall a :: a in out <==> exists id :: id in b && b[id].event.kind == KindLike && b[id].event.like.Some?
                                        && b[id].event.like.value in index && index[b[id].event.like.value] == a)
    {
      index := HeldIndex();
      out := Count(Likes, index);
      LikesCounted(out, LogOf(own, PostLog), index);
    }

    method OutboundReplies() returns (out: map<Identity, nat>, index: Index)
      ensures Indexes(index, own, crawl, ReplayedFollows(own))
      ensures Tallies(out, Replies, LogOf(own, PostLog), LogOf(own, PostLog).Keys, index)
      ensures var b := LogOf(own, PostLog);
        && (forall a :: a in out ==>
              out[a] == |set id | id in b && b[id].event.post.Some? && b[id].event.post.value.parent != ZERO_ID
                                  && b[id].event.post.value.parent in index && index[b[id].event.post.value.parent] == a|)
        && (forall a :: a in out <==> exists id :: id in b && b[id].event.post.Some?
                                        && b[id].event.post.value.parent != ZERO_ID
                                        && b[id].event.post.value.parent in index && index[b[id].event.post.value.parent] == a)
    {
      index := HeldIndex();
      out := Count(Replies, index);
      RepliesCounted(out, LogOf(own, PostLog), index);
    }
  }

  lemma IndexMeans(index: Index, own: Logs, crawl: Crawl, ids: set<Identity>)
    requires Indexes(index, own, crawl, ids)
    ensures forall id :: id in index <==>
      || id in LogOf(own, PostLog)
      || exists a :: a in ids && id in CrawledOf(crawl, a) && CrawledOf(crawl, a)[id].event.log == PostLog
    ensures forall id :: id in index ==>
      || (id in LogOf(own, PostLog) && LogOf(own, PostLog)[id].author == index[id])
      || exists a ::
           && a in ids && id in CrawledOf(crawl, a) && CrawledOf(crawl, a)[id].event.log == PostLog
           && CrawledOf(crawl, a)[id].author == index[id]
  {
    hide LogOf, CrawledOf;
    forall id | id in LogOf(own, PostLog) ensures id in index {
      assert HeldBy(own, crawl, ids, id, LogOf(own, PostLog)[id].author);
    }
    forall id, a | a in ids && id in CrawledOf(crawl, a) && CrawledOf(crawl, a)[id].event.log == PostLog ensures id in index {
      assert HeldBy(own, crawl, ids, id, CrawledOf(crawl, a)[id].author);
    }
    forall id | id in index
      ensures || (id in LogOf(own, PostLog) && LogOf(own, PostLog)[id].author == index[id])
              || exists a ::
                   && a in ids && id in CrawledOf(crawl, a) && CrawledOf(crawl, a)[id].event.log == PostLog
                   && CrawledOf(crawl, a)[id].author == index[id]
    {
      assert HeldBy(own, crawl, ids, id, index[id]);
    }
  }

  lemma LikesCounted(out: map<Identity, nat>, b: Bucket, index: Index)
    requires Tallies(out, Likes, b, b.Keys, index)
    ensures forall a :: a in out ==>
      out[a] == |set id | id in b && b[id].event.kind == KindLike && b[id].event.like.Some?
                          && b[id].event.like.value in index && index[b[id].event.like.value] == a|
    ensures forall a :: a in out <==> exists id :: id in b && b[id].event.kind == KindLike && b[id].event.like.Some?
                                        && b[id].event.like.value in index && index[b[id].event.like.value] == a
  {
    forall a
      ensures a in out <==> exists id :: id in b && b[id].event.kind == KindLike && b[id].event.like.Some?
                              && b[id].event.like.value in index && index[b[id].event.like.value] == a
      ensures HitsFor(Likes, b, b.Keys, index, a)
           == set id | id in b && b[id].event.kind == KindLike && b[id].event.like.Some?
                       && b[id].event.like.value in index && index[b[id].event.like.value] == a
    {
      assert forall id :: id in HitsFor(Likes, b, b.Keys, index, a) <==>
        && id in b && b[id].event.kind == KindLike && b[id].event.like.Some?
        && b[id].event.like.value in index && index[b[id].event.like.value] == a;
    }
  }

  lemma RepliesCounted(out: map<Identity, nat>, b: Bucket, index: Index)
    requires Tallies(out, Replies, b, b.Keys, index)
    ensures forall a :: a in out ==>
      out[a] == |set id | id in b && b[id].event.post.Some? && b[id].event.post.value.parent != ZERO_ID
                          && b[id].event.post.value.parent in index && index[b[id].event.post.value.parent] == a|
    ensures forall a :: a in out <==> exists id :: id in b && b[id].event.post.Some?
                                        && b[id].event.post.value.parent != ZERO_ID
                                        && b[id].event.post.value.parent in index && index[b[id].event.post.value.parent] == a
  {
    forall a
      ensures a in out <==> exists id :: id in b && b[id].event.post.Some?
                              && b[id].event.post.value.parent != ZERO_ID
                              && b[id].event.post.value.parent in index && index[b[id].event.post.value.parent] == a
      ensures HitsFor(Replies, b, b.Keys, index, a)
           == set id | id in b && b[id].event.post.Some? && b[id].event.post.value.parent != ZERO_ID
                       && b[id].event.post.value.parent in index && index[b[id].event.post.value.parent] == a
    {
      assert forall id :: id in HitsFor(Replies, b, b.Keys, index, a) <==>
        && id in b && b[id].event.post.Some? && b[id].event.post.value.parent != ZERO_ID
        && b[id].event.post.value.parent in index && index[b[id].event.post.value.parent] == a;
    }
  }

  lemma OnlyOfNothing(log: LogName)
    ensures Only([], log) == []
  {}

  lemma OnlyOneMore(events: seq<SignedEvent>, i: nat, log: LogName)
    requires i < |events|
    ensures Only(events[..i + 1], log)
         == Only(events[..i], log) + if events[i].event.log == log then [events[i]] else []
  {
    assert events[..i + 1][..i] == events[..i];
  }

  lemma EmptyListing()
    ensures Listing(map[]) == []
  {}

  /** The hits of one author gain the event exactly if it refers to one of theirs. */
  lemma HitsCount(m: Metric, b: Bucket, seen: set<EventID>, index: Index, id: EventID, c: Identity)
    requires id !in seen && id in b
    requires Reference(m, b[id]).Some? && Reference(m, b[id]).value in index
    ensures var a := index[Reference(m, b[id]).value];
      && (c == a ==> |HitsFor(m, b, seen + {id}, index, c)| == |HitsFor(m, b, seen, index, c)| + 1)
      && (c != a ==> HitsFor(m, b, seen + {id}, index, c) == HitsFor(m, b, seen, index, c))
  {
    HitsGrow(m, b, seen, index, id, c);
  }

  lemma OneMoreHit(out: map<Identity, nat>, m: Metric, b: Bucket, seen: set<EventID>, index: Index, id: EventID)
    requires Tallies(out, m, b, seen, index) && id !in seen && id in b
    requires Reference(m, b[id]).Some? && Reference(m, b[id]).value in index
    ensures var a := index[Reference(m, b[id]).value];
      Tallies(out[a := (if a in out then out[a] else 0) + 1], m, b, seen + {id}, index)
  {
    hide HitsFor, Reference;
    var a := index[Reference(m, b[id]).value];
    assert a !in out ==> HitsFor(m, b, seen, index, a) == {};
    var out' := out[a := (if a in out then out[a] else 0) + 1];
    forall c
      ensures c in out' ==> out'[c] == |HitsFor(m, b, seen + {id}, index, c)|
      ensures HitsFor(m, b, seen + {id}, index, c) != {} ==> c in out'
    {
      HitsCount(m, b, seen, index, id, c);
    }
  }

  lemma NoMoreHit(out: map<Identity, nat>, m: Metric, b: Bucket, seen: set<EventID>, index: Index, id: EventID)
    requires Tallies(out, m, b, seen, index) && id !in seen && id in b
    requires !(Reference(m, b[id]).Some? && Reference(m, b[id]).value in index)
    ensures Tallies(out, m, b, seen + {id}, index)
  {
    forall c ensures HitsFor(m, b, seen + {id}, index, c) == HitsFor(m, b, seen, index, c) {
      HitsGrow(m, b, seen, index, id, c);
    }
  }
}
