/** A bucket of signed events, keyed by event identifier, and the merge that every write to
    the store goes through (internal/store/store.go, internal/store/events.go): a set union
    by identifier, except that a second Like of one target by one author is dropped. */
module Buckets {
  import opened Events

  type Bucket = map<EventID, SignedEvent>

  ghost predicate Keyed(b: Bucket) {
    forall id :: id in b ==> b[id].Id() == id
  }

  ghost predicate InBucket(b: Bucket, se: SignedEvent) {
    se.Id() in b && b[se.Id()] == se
  }

  predicate LikeOf(se: SignedEvent, author: Identity, target: EventID) {
    IsLike(se) && se.author == author && se.event.like.value == target
  }

  predicate Liked(b: Bucket, author: Identity, target: EventID) {
    exists id :: id in b && LikeOf(b[id], author, target)
  }

  /** The bucket already has the event, or has another Like for the same pair. */
  predicate Covered(b: Bucket, se: SignedEvent) {
    se.Id() in b || (IsLike(se) && Liked(b, se.author, se.event.like.value))
  }

  function Insert(b: Bucket, se: SignedEvent): Bucket {
    if Covered(b, se) then b else b[se.Id() := se]
  }

  function InsertAll(b: Bucket, s: seq<SignedEvent>): Bucket {
    if s == [] then b else Insert(InsertAll(b, s[..|s| - 1]), s[|s| - 1])
  }

  /** One Like per author and target. */
  ghost predicate OneLike(b: Bucket) {
    forall i, j ::
      && i in b && j in b && IsLike(b[i]) && IsLike(b[j])
      && b[i].author == b[j].author && b[i].event.like == b[j].event.like
      ==> i == j
  }

  ghost predicate WellFormed(b: Bucket) {
    Keyed(b) && OneLike(b)
  }

  ghost predicate AllBy(s: seq<SignedEvent>, author: Identity) {
    forall se :: se in s ==> se.author == author
  }

  ghost predicate BucketBy(b: Bucket, author: Identity) {
    forall id :: id in b ==> b[id].author == author
  }

  ghost predicate LikesBy(b: Bucket, author: Identity) {
    forall id :: id in b && IsLike(b[id]) ==> b[id].author == author
  }

  ghost predicate Extends(r: Bucket, b: Bucket) {
    forall id :: id in b ==> id in r && r[id] == b[id]
  }

  /** r has every key of b, and every Like of b as it was. */
  ghost predicate Keeps(r: Bucket, b: Bucket) {
    forall id :: id in b ==> id in r && (IsLike(b[id]) ==> r[id] == b[id])
  }

  lemma CoverageLasts(b: Bucket, r: Bucket, se: SignedEvent)
    requires Keeps(r, b) && Covered(b, se)
    ensures Covered(r, se)
  {
    if se.Id() !in b {
      var id :| id in b && LikeOf(b[id], se.author, se.event.like.value);
      assert r[id] == b[id];
    }
  }

  /** Writing a profile event over what is there replaces at most a copy of the same event. */
  lemma OverwriteEffect(b: Bucket, se: SignedEvent)
    requires WellFormed(b) && Verified(se) && se.event.log == ProfileLog
    ensures WellFormed(b[se.Id() := se]) && Keeps(b[se.Id() := se], b)
  {
    if se.Id() in b {
      IdIsInjective(b[se.Id()].event, se.event);
    }
  }

  lemma InsertEffect(b: Bucket, se: SignedEvent)
    requires WellFormed(b)
    ensures WellFormed(Insert(b, se)) && Extends(Insert(b, se), b) && Covered(Insert(b, se), se)
  {
    var r := Insert(b, se);
    if !Covered(b, se) && IsLike(se) {
      forall i | i in b && IsLike(b[i])
        ensures !(b[i].author == se.author && b[i].event.like == se.event.like)
      {
        assert !LikeOf(b[i], se.author, se.event.like.value);
      }
    }
  }

  /** A Like is displaced by another Like of the same author and target. */
  ghost predicate Displaced(held: Bucket, se: SignedEvent) {
    IsLike(se) && exists id :: id in held && id != se.Id() && LikeOf(held[id], se.author, se.event.like.value)
  }

  /** A covered event is held exactly when it is not a displaced Like. */
  lemma HeldUnlessDisplaced(held: Bucket, se: SignedEvent)
    requires WellFormed(held) && LikesBy(held, se.author) && Covered(held, se)
    ensures se.Id() in held <==> !Displaced(held, se)
  {
    if se.Id() in held {
      IdIsInjective(held[se.Id()].event, se.event);
    }
  }

  /** What a merge leaves behind, whatever the order of arrival: old entries stay, every new
      entry comes from the list, every listed event is covered, the bucket stays well formed. */
  lemma {:induction false} MergeEffect(b: Bucket, s: seq<SignedEvent>)
    requires WellFormed(b)
    ensures WellFormed(InsertAll(b, s)) && Extends(InsertAll(b, s), b)
    ensures forall id :: id in InsertAll(b, s) && id !in b ==> InsertAll(b, s)[id] in s
    ensures forall se :: se in s ==> Covered(InsertAll(b, s), se)
  {
    if s != [] {
      var front, last := s[..|s| - 1], s[|s| - 1];
      MergeEffect(b, front);
      var m, r := InsertAll(b, front), InsertAll(b, s);
      InsertEffect(m, last);
      forall se | se in s ensures Covered(r, se) {
        if se in front {
          CoverageLasts(m, r, se);
        }
      }
    }
  }

  /** Inserting what is covered changes nothing, now or later. */
  lemma {:induction false} ReinsertionIsIdle(b: Bucket, s: seq<SignedEvent>)
    requires forall se :: se in s ==> Covered(b, se)
    ensures InsertAll(b, s) == b
  {
    if s != [] {
      ReinsertionIsIdle(b, s[..|s| - 1]);
    }
  }

  lemma {:induction false} InsertAllConcat(b: Bucket, s: seq<SignedEvent>, t: seq<SignedEvent>)
    ensures InsertAll(b, s + t) == InsertAll(InsertAll(b, s), t)
  {
    if t == [] {
      assert s + t == s;
    } else {
      assert (s + t)[..|s + t| - 1] == s + t[..|t| - 1];
      InsertAllConcat(b, s, t[..|t| - 1]);
    }
  }

  /** Merging a list a second time, in any order and with anything from it repeated, leaves
      the bucket as it is. */
  lemma MergeIsIdempotent(b: Bucket, s: seq<SignedEvent>, again: seq<SignedEvent>)
    requires WellFormed(b)
    requires forall se :: se in again ==> se in s
    ensures InsertAll(InsertAll(b, s), again) == InsertAll(b, s)
  {
    MergeEffect(b, s);
    ReinsertionIsIdle(InsertAll(b, s), again);
  }

  // ----- Convergence

  /** The pairs of author and target a bucket records a Like for. */
  function Pairs(b: Bucket): set<(Identity, EventID)> {
    set id | id in b && IsLike(b[id]) :: (b[id].author, b[id].event.like.value)
  }

  function LikeIds(b: Bucket): set<EventID> {
    set id | id in b && IsLike(b[id])
  }

  function NonLikes(b: Bucket): Bucket {
    b - LikeIds(b)
  }

  lemma LikedIsPair(b: Bucket, author: Identity, target: EventID)
    ensures Liked(b, author, target) <==> (author, target) in Pairs(b)
  {
    if Liked(b, author, target) {
      var id :| id in b && LikeOf(b[id], author, target);
      assert (b[id].author, b[id].event.like.value) == (author, target);
    }
    if (author, target) in Pairs(b) {
      var id :| id in b && IsLike(b[id]) && (b[id].author, b[id].event.like.value) == (author, target);
      assert LikeOf(b[id], author, target);
    }
  }

  /** A bucket with Likes of one author that covers an event of theirs has its pair or, if it
      is no Like, itself. */
  lemma CoveredMeans(b: Bucket, se: SignedEvent)
    requires Keyed(b) && Covered(b, se) && (IsLike(se) ==> LikesBy(b, se.author))
    ensures IsLike(se) ==> (se.author, se.event.like.value) in Pairs(b)
    ensures !IsLike(se) ==> se.Id() in NonLikes(b)
  {
    if se.Id() in b {
      IdIsInjective(b[se.Id()].event, se.event);
    }
    if IsLike(se) {
      if se.Id() in b {
        assert LikeOf(b[se.Id()], se.author, se.event.like.value);
      }
      LikedIsPair(b, se.author, se.event.like.value);
    }
  }

  /** Every entry of one merge is accounted for in another merge of the same events. */
  lemma MergedInto(b: Bucket, s: seq<SignedEvent>, t: seq<SignedEvent>, author: Identity)
    requires WellFormed(b) && LikesBy(b, author) && AllBy(s, author) && AllBy(t, author)
    requires forall se :: se in s ==> se in t
    ensures NonLikes(InsertAll(b, s)).Keys <= NonLikes(InsertAll(b, t)).Keys
    ensures Pairs(InsertAll(b, s)) <= Pairs(InsertAll(b, t))
  {
    MergeEffect(b, s);
    MergeEffect(b, t);
    var r, q := InsertAll(b, s), InsertAll(b, t);
    forall id | id in r
      ensures Covered(q, r[id])
    {
      if id in b {
        CoverageLasts(b, q, b[id]);
      } else {
        assert r[id] in t;
      }
    }
    CoveredIsRecorded(r, q, author);
  }

  lemma CoveredIsRecorded(r: Bucket, q: Bucket, author: Identity)
    requires LikesBy(r, author) && LikesBy(q, author) && Keyed(q) && Keyed(r)
    requires forall id :: id in r ==> Covered(q, r[id])
    ensures NonLikes(r).Keys <= NonLikes(q).Keys
    ensures Pairs(r) <= Pairs(q)
  {
    forall id | id in NonLikes(r) ensures id in NonLikes(q) {
      CoveredMeans(q, r[id]);
    }
    forall p | p in Pairs(r) ensures p in Pairs(q) {
      var id :| id in r && IsLike(r[id]) && (r[id].author, r[id].event.like.value) == p;
      CoveredMeans(q, r[id]);
    }
  }

  /** Merge convergence: the same verified events of one author, in any order and with any
      repetition, give the same events other than Likes, the same liked pairs with one Like
      each, and buckets of the same size. The bucket may hold other authors' events that a
      crawl has put there; these are no Likes. */
  lemma MergeConverges(b: Bucket, s: seq<SignedEvent>, t: seq<SignedEvent>, author: Identity)
    requires WellFormed(b) && LikesBy(b, author) && AllBy(s, author)
    requires forall se :: se in s ==> Verified(se)
    requires forall se :: se in s <==> se in t
    ensures NonLikes(InsertAll(b, s)) == NonLikes(InsertAll(b, t))
    ensures Pairs(InsertAll(b, s)) == Pairs(InsertAll(b, t))
    ensures OneLike(InsertAll(b, s)) && OneLike(InsertAll(b, t))
    ensures |InsertAll(b, s)| == |InsertAll(b, t)|
  {
    MergedInto(b, s, t, author);
    MergedInto(b, t, s, author);
    assert WellFormed(InsertAll(b, s)) && WellFormed(InsertAll(b, t)) by {
      MergeEffect(b, s);
      MergeEffect(b, t);
    }
    forall id | id in InsertAll(b, s) && id in InsertAll(b, t)
      ensures InsertAll(b, s)[id] == InsertAll(b, t)[id]
    {
      MergesAgreeAt(b, s, t, author, id);
    }
    AgreeingBuckets(InsertAll(b, s), InsertAll(b, t));
  }

  lemma AgreeingBuckets(r: Bucket, q: Bucket)
    requires OneLike(r) && OneLike(q)
    requires forall id :: id in r && id in q ==> r[id] == q[id]
    requires NonLikes(r).Keys == NonLikes(q).Keys && Pairs(r) == Pairs(q)
    ensures NonLikes(r) == NonLikes(q) && |r| == |q|
  {
    forall id | id in NonLikes(r) ensures NonLikes(r)[id] == NonLikes(q)[id] {
      assert id in NonLikes(q);
    }
    BucketSize(r);
    BucketSize(q);
  }

  lemma MergesAgreeAt(b: Bucket, s: seq<SignedEvent>, t: seq<SignedEvent>, author: Identity, id: EventID)
    requires WellFormed(b) && AllBy(s, author)
    requires forall se :: se in s ==> Verified(se)
    requires forall se :: se in s <==> se in t
    requires id in InsertAll(b, s) && id in InsertAll(b, t)
    ensures InsertAll(b, s)[id] == InsertAll(b, t)[id]
  {
    MergeEffect(b, s);
    MergeEffect(b, t);
    if id !in b {
      VerifiedEventIsItsId(InsertAll(b, s)[id], InsertAll(b, t)[id]);
    }
  }

  // ----- Size and sequence numbers

  lemma {:induction false} LikesOnePerPair(b: Bucket, ids: set<EventID>)
    requires OneLike(b) && ids <= LikeIds(b)
    ensures |ids| == |set id | id in ids :: (b[id].author, b[id].event.like.value)|
  {
    if ids != {} {
      var x :| x in ids;
      LikesOnePerPair(b, ids - {x});
      var p := (b[x].author, b[x].event.like.value);
      var rest := set id | id in ids - {x} :: (b[id].author, b[id].event.like.value);
      var all := set id | id in ids :: (b[id].author, b[id].event.like.value);
      assert all == rest + {p};
      forall y | y in ids - {x} ensures (b[y].author, b[y].event.like.value) != p {
        assert y in LikeIds(b) && x in LikeIds(b);
      }
      assert p !in rest;
    }
  }

  /** A bucket is as large as its other events and its liked pairs together. */
  lemma BucketSize(b: Bucket)
    requires OneLike(b)
    ensures |b| == |NonLikes(b)| + |Pairs(b)|
  {
    hide CanonicalEncode;
    assert b.Keys == NonLikes(b).Keys + LikeIds(b);
    LikesOnePerPair(b, LikeIds(b));
    assert Pairs(b) == set id | id in LikeIds(b) :: (b[id].author, b[id].event.like.value);
  }

  lemma SubsetSize<T>(a: set<T>, b: set<T>)
    requires a <= b
    ensures |a| <= |b|
  {
    assert b == a + (b - a);
  }

  /** Every sequence number lies in 1..|b|, so |b| + 1 is above all of them. */
  ghost predicate Sequenced(b: Bucket) {
    forall id :: id in b ==> 1 <= b[id].event.sequence <= |b|
  }

  ghost predicate Holds(s: seq<SignedEvent>, c: Bucket) {
    && (forall id :: id in c ==> c[id] in s)
    && (forall se :: se in s ==> se.Id() in c && c[se.Id()] == se)
  }

  /** The merged log is at least as large as each part, although duplicate Likes are dropped. */
  lemma MergeIsNoSmaller(b: Bucket, c: Bucket, s: seq<SignedEvent>, author: Identity)
    requires WellFormed(b) && WellFormed(c) && Holds(s, c)
    requires BucketBy(b, author) && BucketBy(c, author)
    ensures |InsertAll(b, s)| >= |b|
    ensures |InsertAll(b, s)| >= |c|
  {
    MergeEffect(b, s);
    var r := InsertAll(b, s);
    SubsetSize(b.Keys, r.Keys);
    CoveredIsRecorded(c, r, author);
    SubsetSize(NonLikes(c).Keys, NonLikes(r).Keys);
    SubsetSize(Pairs(c), Pairs(r));
    BucketSize(c);
    BucketSize(r);
  }

  /** Sequence freshness survives the merge of a backup: the next sequence number of the
      merged log is above every one it holds. */
  lemma MergeKeepsSequences(b: Bucket, c: Bucket, s: seq<SignedEvent>, author: Identity)
    requires WellFormed(b) && WellFormed(c) && Holds(s, c)
    requires BucketBy(b, author) && BucketBy(c, author)
    requires Sequenced(b) && Sequenced(c)
    ensures Sequenced(InsertAll(b, s)) && OneLike(InsertAll(b, s))
  {
    MergeEffect(b, s);
    MergeIsNoSmaller(b, c, s, author);
    var r := InsertAll(b, s);
    forall id | id in r ensures 1 <= r[id].event.sequence <= |r| {
      if id in b {
        assert r[id] == b[id];
      } else {
        assert r[id] in s;
        assert id in c;
      }
    }
  }

  /** The next event cannot collide with one already held: it always enters the log. */
  lemma NextSequenceIsFresh(b: Bucket, e: Event)
    requires Keyed(b) && Sequenced(b) && e.sequence == |b| + 1
    ensures IdOf(e) !in b
  {
    if IdOf(e) in b {
      IdIsInjective(b[IdOf(e)].event, e);
    }
  }

  // ----- Key order

  ghost predicate Increasing(keys: seq<EventID>) {
    forall i, j :: 0 <= i < j < |keys| ==> Before(keys[i], keys[j])
  }

  predicate IsLeast(s: set<EventID>, k: EventID) {
    k in s && forall j :: j in s && j != k ==> Before(k, j)
  }

  lemma {:induction false} LeastExists(s: set<EventID>)
    requires s != {}
    ensures exists k :: IsLeast(s, k)
  {
    var x :| x in s;
    if s == {x} {
      assert IsLeast(s, x);
    } else {
      LeastExists(s - {x});
      var k :| IsLeast(s - {x}, k);
      BeforeIsTotal(x, k);
      if Before(x, k) {
        forall j | j in s && j != x ensures Before(x, j) {
          if j != k { BeforeIsTransitive(x, k, j); }
        }
        assert IsLeast(s, x);
      } else {
        assert IsLeast(s, k);
      }
    }
  }

  lemma LeastIsUnique(s: set<EventID>)
    ensures forall k, m :: IsLeast(s, k) && IsLeast(s, m) ==> k == m
  {
    forall k, m | IsLeast(s, k) && IsLeast(s, m) ensures k == m {
      BeforeIsStrict(k, m);
    }
  }

  /** The keys in the order a bucket iterates over them. */
  function KeysInOrder(s: set<EventID>): (keys: seq<EventID>)
    ensures |keys| == |s| && Increasing(keys)
    ensures forall k :: k in keys <==> k in s
  {
    if s == {} then []
    else
      LeastExists(s);
      LeastIsUnique(s);
      var k :| IsLeast(s, k);
      var rest := KeysInOrder(s - {k});
      assert forall i :: 0 <= i < |rest| ==> rest[i] in s - {k};
      [k] + rest
  }

  /** The events of a bucket in key order. */
  function Listing(b: Bucket): (s: seq<SignedEvent>)
    ensures |s| == |b| && forall se :: se in s <==> exists id :: id in b && b[id] == se
  {
    var keys := KeysInOrder(b.Keys);
    var s := seq(|keys|, i requires 0 <= i < |keys| => assert keys[i] in keys; b[keys[i]]);
    assert forall id :: id in b ==> id in keys;
    assert forall i :: 0 <= i < |keys| ==> s[i] == b[keys[i]] && keys[i] in b;
    s
  }

  lemma ListingHolds(b: Bucket)
    requires Keyed(b)
    ensures Holds(Listing(b), b)
  {}

  lemma HeadIsOnce(a: seq<EventID>, k: EventID)
    requires a != [] && Increasing(a)
    ensures k in a[1..] <==> k in a && k != a[0]
  {
    BeforeIsStrict(a[0], a[0]);
    if k in a {
      var i :| 0 <= i < |a| && a[i] == k;
      if i > 0 { assert a[1..][i - 1] == k; }
    }
  }

  lemma {:induction false} SameKeysSameOrder(a: seq<EventID>, b: seq<EventID>)
    requires Increasing(a) && Increasing(b) && forall k :: k in a <==> k in b
    ensures a == b
  {
    assert b == [] || b[0] in b;
    if a != [] {
      assert a[0] in b && b != [] && b[0] in a;
      if a[0] != b[0] {
        var i :| 0 <= i < |b| && b[i] == a[0];
        var j :| 0 <= j < |a| && a[j] == b[0];
        BeforeIsStrict(a[0], b[0]);
        assert false;
      }
      forall k ensures k in a[1..] <==> k in b[1..] {
        HeadIsOnce(a, k);
        HeadIsOnce(b, k);
      }
      SameKeysSameOrder(a[1..], b[1..]);
      assert a == [a[0]] + a[1..] && b == [b[0]] + b[1..];
    }
  }

  /** Where in the key order a new key falls. */
  lemma {:induction false} SlotFor(keys: seq<EventID>, id: EventID) returns (p: nat)
    requires Increasing(keys) && id !in keys
    ensures p <= |keys| && Increasing(keys[..p] + [id] + keys[p..])
  {
    p := 0;
    while p < |keys| && Before(keys[p], id)
      invariant p <= |keys|
      invariant forall i :: 0 <= i < p ==> Before(keys[i], id)
    {
      p := p + 1;
    }
    if p < |keys| {
      BeforeIsTotal(keys[p], id);
      forall i | p < i < |keys| ensures Before(id, keys[i]) {
        BeforeIsTransitive(id, keys[p], keys[i]);
      }
    }
  }

  /** A new event takes one place in the listing; the others keep their order. */
  lemma ListingOfExtended(b: Bucket, se: SignedEvent) returns (p: nat)
    requires se.Id() !in b
    ensures p <= |Listing(b)|
    ensures Listing(b[se.Id() := se]) == Listing(b)[..p] + [se] + Listing(b)[p..]
  {
    var id, keys := se.Id(), KeysInOrder(b.Keys);
    p := SlotFor(keys, id);
    var b', keys' := b[id := se], keys[..p] + [id] + keys[p..];
    KeysWith(keys, p, id);
    SameKeysSameOrder(keys', KeysInOrder(b'.Keys));
    ListingAlong(b, keys);
    ListingAlong(b', keys');
    OneMoreListed(b, se, keys, p, Listing(b), Listing(b'));
  }

  lemma KeysWith(keys: seq<EventID>, p: nat, id: EventID)
    requires p <= |keys|
    ensures forall k :: k in keys[..p] + [id] + keys[p..] <==> k in keys || k == id
  {
    assert keys == keys[..p] + keys[p..];
  }

  lemma OneMoreListed(b: Bucket, se: SignedEvent, keys: seq<EventID>, p: nat,
          listed: seq<SignedEvent>, longer: seq<SignedEvent>)
    requires se.Id() !in b && p <= |keys| == |listed| && |longer| == |keys| + 1
    requires forall i :: 0 <= i < |keys| ==> keys[i] in b && listed[i] == b[keys[i]]
    requires var keys' := keys[..p] + [se.Id()] + keys[p..];
      forall i :: 0 <= i < |keys'| ==> keys'[i] in b[se.Id() := se] && longer[i] == b[se.Id() := se][keys'[i]]
    ensures longer == listed[..p] + [se] + listed[p..]
  {
    var keys', m := keys[..p] + [se.Id()] + keys[p..], listed[..p] + [se] + listed[p..];
    forall i | 0 <= i < |m| ensures longer[i] == m[i] {
      if i != p {
        assert keys'[i] == keys[if i < p then i else i - 1];
      }
    }
  }

  lemma ListingAlong(b: Bucket, keys: seq<EventID>)
    requires keys == KeysInOrder(b.Keys)
    ensures |Listing(b)| == |keys|
    ensures forall i :: 0 <= i < |keys| ==> keys[i] in b && Listing(b)[i] == b[keys[i]]
  {
    assert forall i :: 0 <= i < |keys| ==> keys[i] in keys;
  }
}
