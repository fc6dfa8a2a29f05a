/** The merged timeline and the interaction counts (internal/store/store.go): which events
    the two loaders return, and how own Likes and replies are attributed to authors. */
module Timeline {
  import opened Events
  import opened Buckets
  import opened Accounts

  /** Cached remote events, one bucket per author. */
  type Crawl = map<Identity, Bucket>

  function CrawledOf(crawl: Crawl, id: Identity): Bucket {
    if id in crawl then crawl[id] else map[]
  }

  /** The PostLog events under an identity are its own; crawled profile events need not be. */
  ghost predicate AuthorKeyed(crawl: Crawl) {
    forall a :: a in crawl ==> Keyed(crawl[a]) && PostsBy(crawl[a], a)
  }

  ghost predicate PostsBy(b: Bucket, author: Identity) {
    forall id :: id in b && b[id].event.log == PostLog ==> b[id].author == author
  }

  /** Both ways of writing into the cache keep it so. */
  lemma CachingKeepsAuthorKeyed(crawl: Crawl, se: SignedEvent, crawled: Identity)
    requires AuthorKeyed(crawl)
    ensures AuthorKeyed(crawl[se.author := Insert(CrawledOf(crawl, se.author), se)])
    ensures se.event.log == ProfileLog && Verified(se) ==>
      AuthorKeyed(crawl[crawled := CrawledOf(crawl, crawled)[se.Id() := se]])
  {
    hide Covered, Verified, CanonicalEncode;
  }

  // ----- The loaders

  function PostLogEvents(b: Bucket): seq<SignedEvent> {
    Only(Listing(b), PostLog)
  }

  /** The PostLog events cached for a set of authors, each author once. */
  ghost function FollowedPosts(crawl: Crawl, ids: set<Identity>): multiset<SignedEvent> {
    if ids == {} then multiset{}
    else
      var a :| a in ids;
      PostsCachedFor(crawl, a) + FollowedPosts(crawl, ids - {a})
  }

  ghost function PostsCachedFor(crawl: Crawl, a: Identity): multiset<SignedEvent> {
    multiset(PostLogEvents(CrawledOf(crawl, a)))
  }

  lemma {:induction false} FollowedPostsOf(crawl: Crawl, ids: set<Identity>, a: Identity)
    requires a in ids
    ensures FollowedPosts(crawl, ids) == PostsCachedFor(crawl, a) + FollowedPosts(crawl, ids - {a})
  {
    var c :| c in ids && FollowedPosts(crawl, ids) == PostsCachedFor(crawl, c) + FollowedPosts(crawl, ids - {c});
    if c != a {
      FollowedPostsOf(crawl, ids - {c}, a);
      FollowedPostsOf(crawl, ids - {a}, c);
      assert ids - {c} - {a} == ids - {a} - {c};
      Exchange(PostsCachedFor(crawl, c), PostsCachedFor(crawl, a), FollowedPosts(crawl, ids - {a} - {c}));
    }
  }

  lemma Exchange(x: multiset<SignedEvent>, y: multiset<SignedEvent>, z: multiset<SignedEvent>)
    ensures x + (y + z) == y + (x + z)
  {}

  /** What both loaders return, as a multiset: the own PostLog and the PostLog events of
      exactly the replayed follow set. */
  ghost function TimelineOf(own: Logs, crawl: Crawl): multiset<SignedEvent> {
    multiset(Listing(LogOf(own, PostLog))) + FollowedPosts(crawl, ReplayedFollows(own))
  }

  /** A loader's step: what it appends for one author is what is no longer outstanding. */
  lemma LoadOne(crawl: Crawl, rest: set<Identity>, a: Identity, out: seq<SignedEvent>)
    requires a in rest
    ensures multiset(out + PostLogEvents(CrawledOf(crawl, a))) + FollowedPosts(crawl, rest - {a})
         == multiset(out) + FollowedPosts(crawl, rest)
    ensures a !in crawl ==> PostLogEvents(CrawledOf(crawl, a)) == []
  {
    FollowedPostsOf(crawl, rest, a);
  }

  lemma ListedOnce(b: Bucket, se: SignedEvent)
    requires Keyed(b)
    ensures multiset(Listing(b))[se] == if InBucket(b, se) then 1 else 0
  {
    var keys := KeysInOrder(b.Keys);
    ListingAlong(b, keys);
    var l := Listing(b);
    forall i, j | 0 <= i < j < |l| ensures l[i] != l[j] {
      BeforeIsStrict(keys[i], keys[j]);
    }
    DistinctCount(l, se);
    ListingHolds(b);
  }

  lemma {:induction false} DistinctCount(s: seq<SignedEvent>, x: SignedEvent)
    requires forall i, j :: 0 <= i < j < |s| ==> s[i] != s[j]
    ensures multiset(s)[x] == if x in s then 1 else 0
  {
    if s != [] {
      DistinctCount(s[1..], x);
      assert s == [s[0]] + s[1..];
    }
  }

  lemma {:induction false} OnlyCounts(s: seq<SignedEvent>, log: LogName, x: SignedEvent)
    ensures multiset(Only(s, log))[x] == if x.event.log == log then multiset(s)[x] else 0
  {
    if s != [] {
      OnlyCounts(s[..|s| - 1], log, x);
      assert s == s[..|s| - 1] + [s[|s| - 1]];
    }
  }

  lemma CachedForCount(crawl: Crawl, a: Identity, se: SignedEvent)
    requires AuthorKeyed(crawl)
    ensures PostsCachedFor(crawl, a)[se] == if CachedAs(crawl, se, a) then 1 else 0
  {
    OnlyCounts(Listing(CrawledOf(crawl, a)), PostLog, se);
    ListedOnce(CrawledOf(crawl, a), se);
  }

  /** The event is in the cached PostLog of its author a. */
  ghost predicate CachedAs(crawl: Crawl, se: SignedEvent, a: Identity) {
    se.author == a && se.event.log == PostLog && InBucket(CrawledOf(crawl, a), se)
  }

  lemma {:induction false} FollowedPostsCount(crawl: Crawl, ids: set<Identity>, se: SignedEvent)
    requires AuthorKeyed(crawl)
    ensures FollowedPosts(crawl, ids)[se] == if se.author in ids && CachedAs(crawl, se, se.author) then 1 else 0
  {
    if ids != {} {
      var a :| a in ids;
      FollowedPostsOf(crawl, ids, a);
      FollowedPostsCount(crawl, ids - {a}, se);
      CachedForCount(crawl, a, se);
    }
  }

  /** An event is in the timeline once for the own PostLog if that holds it, and once for its
      author if the replay follows the author and the author's cached PostLog holds it. */
  lemma TimelineMembers(own: Logs, crawl: Crawl, me: Identity, se: SignedEvent)
    requires OwnLogs(own, me) && AuthorKeyed(crawl)
    ensures TimelineOf(own, crawl)[se]
         == (if InBucket(LogOf(own, PostLog), se) then 1 else 0)
          + (if se.author in ReplayedFollows(own) && se.event.log == PostLog
                && InBucket(CrawledOf(crawl, se.author), se) then 1 else 0)
  {
    OwnLogOf(own, me, PostLog);
    ListedOnce(LogOf(own, PostLog), se);
    FollowedPostsCount(crawl, ReplayedFollows(own), se);
  }

  // ----- Interaction counts

  function PostIds(b: Bucket): set<EventID> {
    set id | id in b && b[id].event.log == PostLog
  }

  datatype Metric = Likes | Replies

  /** The event an own event refers to under a metric: a Like its target, a reply its parent. */
  function Reference(m: Metric, se: SignedEvent): Option<EventID> {
    match m
    case Likes => if IsLike(se) then se.event.like else None
    case Replies =>
      if se.event.post.Some? && se.event.post.value.parent != ZERO_ID
      then Some(se.event.post.value.parent) else None
  }

  type Index = map<EventID, Identity>

  /** The own PostLog, or the cached PostLog of one of ids, has the event under this author. */
  ghost predicate HeldBy(own: Logs, crawl: Crawl, ids: set<Identity>, id: EventID, author: Identity) {
    || (id in LogOf(own, PostLog) && LogOf(own, PostLog)[id].author == author)
    || exists a :: a in ids && id in PostIds(CrawledOf(crawl, a)) && CrawledOf(crawl, a)[id].author == author
  }

  /** The index has every PostLog event of the account and of ids, and nothing else, each
      under an author it is held under. */
  ghost predicate Indexes(index: Index, own: Logs, crawl: Crawl, ids: set<Identity>) {
    && (forall id, author :: HeldBy(own, crawl, ids, id, author) ==> id in index)
    && (forall id :: id in index ==> HeldBy(own, crawl, ids, id, index[id]))
  }

  /** r is index with the authors of the events ids of b written over it. */
  ghost predicate Written(index: Index, b: Bucket, ids: set<EventID>, r: Index)
    requires ids <= b.Keys
  {
    && r.Keys == index.Keys + ids
    && forall id :: id in r ==> r[id] == if id in ids then b[id].author else index[id]
  }

  lemma IndexStarts(own: Logs, crawl: Crawl, r: Index)
    requires Written(map[], LogOf(own, PostLog), LogOf(own, PostLog).Keys, r)
    ensures Indexes(r, own, crawl, {})
  {}

  lemma IndexGrows(index: Index, own: Logs, crawl: Crawl, ids: set<Identity>, a: Identity, r: Index)
    requires Indexes(index, own, crawl, ids)
    requires Written(index, CrawledOf(crawl, a), PostIds(CrawledOf(crawl, a)), r)
    ensures Indexes(r, own, crawl, ids + {a})
  {
    forall id | id in r ensures HeldBy(own, crawl, ids + {a}, id, r[id]) {
      if id in PostIds(CrawledOf(crawl, a)) {
        assert a in ids + {a};
      } else {
        assert HeldBy(own, crawl, ids, id, index[id]);
      }
    }
    forall id, author | HeldBy(own, crawl, ids + {a}, id, author) ensures id in r {
      if id !in PostIds(CrawledOf(crawl, a)) {
        assert HeldBy(own, crawl, ids, id, author);
      }
    }
  }

  /** The events among ids that refer to an indexed event. */
  ghost function Hits(m: Metric, b: Bucket, ids: set<EventID>, index: Index): set<EventID> {
    set id | id in ids && id in b && Reference(m, b[id]).Some? && Reference(m, b[id]).value in index
  }

  ghost function HitsFor(m: Metric, b: Bucket, ids: set<EventID>, index: Index, a: Identity): set<EventID> {
    set id | id in Hits(m, b, ids, index) && index[Reference(m, b[id]).value] == a
  }

  lemma HitsGrow(m: Metric, b: Bucket, seen: set<EventID>, index: Index, id: EventID, a: Identity)
    requires id !in seen && id in b
    ensures var ref := Reference(m, b[id]);
      HitsFor(m, b, seen + {id}, index, a)
      == HitsFor(m, b, seen, index, a)
       + if ref.Some? && ref.value in index && index[ref.value] == a then {id} else {}
    ensures id !in HitsFor(m, b, seen, index, a)
  {}

  /** The tally credits every author with the number of events that refer to theirs. */
  ghost predicate Tallies(out: map<Identity, nat>, m: Metric, b: Bucket, ids: set<EventID>, index: Index) {
    && (forall a :: a in out ==> out[a] == |HitsFor(m, b, ids, index, a)|)
    && (forall a :: a in out <==> HitsFor(m, b, ids, index, a) != {})
  }

  ghost function Total(out: map<Identity, nat>, authors: set<Identity>): nat
    requires authors <= out.Keys
  {
    if authors == {} then 0
    else
      var a :| a in authors;
      out[a] + Total(out, authors - {a})
  }

  ghost function HitsAmong(m: Metric, b: Bucket, index: Index, authors: set<Identity>): set<EventID> {
    set id | id in Hits(m, b, b.Keys, index) && index[Reference(m, b[id]).value] in authors
  }

  lemma {:induction false} TotalOfSome(out: map<Identity, nat>, m: Metric, b: Bucket, index: Index,
          authors: set<Identity>)
    requires authors <= out.Keys && Tallies(out, m, b, b.Keys, index)
    ensures Total(out, authors) == |HitsAmong(m, b, index, authors)|
  {
    if authors != {} {
      var a :| a in authors && Total(out, authors) == out[a] + Total(out, authors - {a});
      TotalOfSome(out, m, b, index, authors - {a});
      AmongSplits(m, b, index, authors, a);
    }
  }

  lemma AmongSplits(m: Metric, b: Bucket, index: Index, authors: set<Identity>, a: Identity)
    requires a in authors
    ensures |HitsAmong(m, b, index, authors)|
         == |HitsFor(m, b, b.Keys, index, a)| + |HitsAmong(m, b, index, authors - {a})|
  {
    var x, y := HitsFor(m, b, b.Keys, index, a), HitsAmong(m, b, index, authors - {a});
    assert HitsAmong(m, b, index, authors) == x + y && x !! y;
  }

  /** Conservation: the counts add up to the number of own events whose reference is held. */
  lemma CountsAddUp(out: map<Identity, nat>, m: Metric, b: Bucket, index: Index)
    requires Tallies(out, m, b, b.Keys, index)
    ensures Total(out, out.Keys) == |Hits(m, b, b.Keys, index)|
  {
    TotalOfSome(out, m, b, index, out.Keys);
    var hits := Hits(m, b, b.Keys, index);
    forall id | id in hits ensures index[Reference(m, b[id]).value] in out {
      assert id in HitsFor(m, b, b.Keys, index, index[Reference(m, b[id]).value]);
    }
    assert hits == HitsAmong(m, b, index, out.Keys);
  }

  lemma {:induction false} LikeTargetsDiffer(b: Bucket, me: Identity, ids: set<EventID>)
    requires OneLike(b) && BucketBy(b, me) && ids <= LikeIds(b)
    ensures |ids| == |set id | id in ids :: b[id].event.like.value|
  {
    if ids != {} {
      var x :| x in ids;
      LikeTargetsDiffer(b, me, ids - {x});
      var rest := set id | id in ids - {x} :: b[id].event.like.value;
      forall y | y in ids - {x} ensures b[y].event.like.value != b[x].event.like.value {
        assert y in LikeIds(b) && x in LikeIds(b);
      }
      assert (set id | id in ids :: b[id].event.like.value) == rest + {b[x].event.like.value};
      assert b[x].event.like.value !in rest;
    }
  }

  /** Liking is once per target, so no author is credited with more Likes than the author
      has indexed events. */
  lemma LikesAreBounded(out: map<Identity, nat>, b: Bucket, index: Index, me: Identity, a: Identity)
    requires OneLike(b) && BucketBy(b, me) && Tallies(out, Likes, b, b.Keys, index) && a in out
    ensures out[a] <= |set t | t in index && index[t] == a|
  {
    var ids := HitsFor(Likes, b, b.Keys, index, a);
    assert ids <= LikeIds(b);
    LikeTargetsDiffer(b, me, ids);
    SubsetSize(set id | id in ids :: b[id].event.like.value, set t | t in index && index[t] == a);
  }
}
