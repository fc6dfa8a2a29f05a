/** The daemon object (internal/daemon/daemon.go): the cached feed with its generation, the
    subscriber list, and the handler that stores a post, then invalidates, then broadcasts.
    Here each method runs without interference. State gives the object as a state of the machine
    in DaemonFeed, and what a method does to it is a run of that machine's steps. */
module FeedCaches {
  import opened Events
  import opened Projection
  import opened Buckets
  import opened Accounts
  import opened Timeline
  import opened Stores
  import opened Feeds
  import opened DaemonFeed
  import opened FeedSteps

  class Subscriber {
    var events: seq<Feed>
    var done: bool

    constructor ()
      ensures events == [] && !done
    {
      events, done := [], false;
    }

    /** The queue and the fate of the subscriber, as a client of DaemonFeed. */
    ghost function Record(): Client
      reads this
    {
      Client(true, true, done, Idle, events, [])
    }
  }

  class Daemon {
    const store: Store
    var feedCache: Feed
    var feedGen: nat
    var subs: seq<Subscriber>

    constructor (store: Store)
      ensures this.store == store && feedCache == [] && feedGen == 0 && subs == []
    {
      this.store, feedCache, feedGen, subs := store, [], 0, [];
    }

    ghost predicate Distinct()
      reads this
    {
      forall i, j :: 0 <= i < j < |subs| ==> subs[i] != subs[j]
    }

    ghost function Records(): (r: seq<Client>)
      reads this`subs, subs
      ensures |r| == |subs| && forall i :: 0 <= i < |r| ==> r[i] == subs[i].Record()
    {
      RecordsOf(subs)
    }

    /** The object as a state of the machine: its subscribers, further clients, and writers. */
    ghost function State(others: seq<Client>, writers: map<nat, Writer>): DaemonFeed.Daemon
      reads this, subs, store
    {
      DaemonFeed.Daemon(TimelineOf(store.own, store.crawl), feedCache, feedGen, None,
                        ClientsOf(Records() + others), writers)
    }

    /** A hit returns the cache; a miss rebuilds it as the feed of the store. As a step of the
        machine: a reader comes to view the result, and nothing else changes but the cache. */
    method CachedPosts() returns (posts: Feed)
      modifies this`feedCache
      ensures IsRun(old(State([READER], map[])), State([READER.(view := Viewed(posts))], map[]))
      ensures old(feedCache) != [] ==> posts == old(feedCache)
      ensures old(feedCache) == [] ==> IsFeed(posts, TimelineOf(store.own, store.crawl))
      ensures feedCache == posts
    {
      hide TimelineOf, PostsOf, IsRun, ClientsOf;
      var gen := feedGen;
      var cached := feedCache;
      if cached != [] {
        ReadIsARun(State([READER], map[]), Records(), cached);
        return cached;
      }
      if feedCache != [] && feedGen == gen {
        return feedCache;
      }
      var all := store.AllPostsOneTx();
      posts := Posts(all);
      ReadIsARun(State([READER], map[]), Records(), posts);
      feedCache := posts;
    }

    method InvalidateFeed()
      modifies this`feedGen, this`feedCache
      ensures feedCache == [] && feedGen == old(feedGen) + 1
    {
      feedGen := feedGen + 1;
      feedCache := [];
    }

    method AddSubscriber(s: Subscriber)
      requires Distinct() && s !in subs
      modifies this`subs
      ensures subs == old(subs) + [s] && Distinct()
    {
      subs := subs + [s];
    }

    method RemoveSubscriber(s: Subscriber)
      requires Distinct()
      modifies this`subs
      ensures Distinct()
      ensures forall x :: x in subs <==> x in old(subs) && x != s
      ensures s !in old(subs) ==> subs == old(subs)
    {
      for i := 0 to |subs|
        invariant subs == old(subs)
        invariant s !in subs[..i]
      {
        if subs[i] == s {
          ghost var before := subs;
          subs := subs[..i] + subs[i + 1..];
          assert before == before[..i] + [s] + before[i + 1..];
          return;
        }
      }
    }

    /** Every subscriber gets the event, except that one whose queue is full is dropped. */
    method Broadcast(ev: Feed)
      requires Distinct()
      modifies subs
      ensures forall s :: s in subs ==> s.Record() == Pushed(old(s.Record()), ev)
      ensures forall s :: s in subs && |old(s.events)| < 256 ==>
        s.events == old(s.events) + [ev] && s.done == old(s.done)
      ensures forall s :: s in subs && |old(s.events)| >= 256 ==>
        s.events == old(s.events) && s.done
    {
      var list := subs;
      for i := 0 to |list|
        invariant forall j :: 0 <= j < i ==> list[j].Record() == Pushed(old(list[j].Record()), ev)
        invariant forall j :: i <= j < |list| ==> list[j].Record() == old(list[j].Record())
      {
        var s := list[i];
        if |s.events| < SUBSCRIBE_QUEUE {
          s.events := s.events + [ev];
        } else {
          s.done := true;
        }
      }
    }

    twostate lemma PostWasARun(se: SignedEvent)
      requires se.event.kind == KindPost && se !in old(TimelineOf(store.own, store.crawl))
      requires TimelineOf(store.own, store.crawl) == old(TimelineOf(store.own, store.crawl)) + multiset{se}
      requires feedCache == [] && feedGen == old(feedGen) + 1 && subs == old(subs)
      requires forall s :: s in subs ==> s.Record() == Pushed(old(s.Record()), [se])
      ensures IsRun(old(State([], map[]).(writers := map[0 := Writer([se], [], Writing)])),
                    State([], map[0 := Writer([], [se], Done(ClientsOf(Records()).Keys))]))
    {
      hide TimelineOf, IsRun, ClientsOf, RecordsOf;
      var recs, recs' := old(Records()), Records();
      assert recs' + [] == recs' && recs + [] == recs;
      forall c | 0 <= c < |recs| ensures recs[c].registered && recs'[c] == Pushed(recs[c], [se]) {
        assert subs[c] in subs;
      }
      var d := old(State([], map[]));
      PostIsARun(d, recs, recs', se);
      assert d.(writers := map[0 := Writer([se], [], Writing)])
          == old(State([], map[]).(writers := map[0 := Writer([se], [], Writing)]));
      assert State([], map[0 := Writer([], [se], Done(ClientsOf(recs').Keys))]).clients == ClientsOf(recs');
      assert ClientsOf(recs').Keys == ClientsOf(recs).Keys;
    }

    /** Stores a post, invalidates the cache, and broadcasts the post: afterwards the next
        reader rebuilds the feed, and every subscriber with room has the post queued. */
    method HandlePost(kp: Pubkey, text: Bytes, parent: EventID, now: int) returns (r: SignResult)
      requires Distinct()
      modifies this`feedGen, this`feedCache, store`own, subs
      ensures if now == 0 then r.Refused? else r.New?
      ensures r.Refused? ==> feedCache == old(feedCache) && store.own == old(store.own)
      ensures r.New? ==>
        && feedCache == [] && feedGen == old(feedGen) + 1
        && store.own == Appended(old(store.own), PostLog, r.se)
        && r.se.event == Event(KindPost, PostLog, now, |LogOf(old(store.own), PostLog)| + 1,
                               None, None, Some(Post(text, parent)), None, None, None)
        && r.se.author == OfKey(kp) && Verified(r.se)
        && (forall s :: s in subs ==> s.Record() == Pushed(old(s.Record()), [r.se]))
        && (forall s :: s in subs && |old(s.events)| < 256 ==>
              s.events == old(s.events) + [[r.se]] && s.done == old(s.done))
        && (forall s :: s in subs && |old(s.events)| >= 256 ==> s.events == old(s.events) && s.done)
      ensures r.New? && old(OwnLogs(store.own, OfKey(kp))) ==>
        TimelineOf(store.own, store.crawl) == old(TimelineOf(store.own, store.crawl)) + multiset{r.se}
      ensures r.New? && old(OwnLogs(store.own, OfKey(kp))) && r.se !in old(TimelineOf(store.own, store.crawl)) ==>
        IsRun(old(State([], map[]).(writers := map[0 := Writer([r.se], [], Writing)])),
              State([], map[0 := Writer([], [r.se], Done(ClientsOf(Records()).Keys))]))
    {
      hide TimelineOf, OwnLogs, AfterSigning, Appended, ClientsOf, IsRun, State, Records;
      var ev := Event(KindPost, PostLog, 0, 0, None, None, Some(Post(text, parent)), None, None, None);
      r := store.SignAndAppend(kp, PostLog, ev, now);
      if r.Refused? {
        return;
      }
      if r.New? && r.newId !in LogOf(old(store.own), PostLog) {
        TimelineGrows(old(store.own), store.crawl, r.se);
      }
      InvalidateFeed();
      Broadcast([r.se]);
      if old(OwnLogs(store.own, OfKey(kp))) && r.se !in old(TimelineOf(store.own, store.crawl)) {
        PostWasARun(r.se);
      }
    }
  }

  ghost function RecordsOf(subs: seq<Subscriber>): (r: seq<Client>)
    reads subs
    ensures |r| == |subs| && forall i :: 0 <= i < |r| ==> r[i] == subs[i].Record()
  {
    if subs == [] then [] else RecordsOf(subs[..|subs| - 1]) + [subs[|subs| - 1].Record()]
  }

  lemma ListingGains(b: Bucket, se: SignedEvent)
    requires se.Id() !in b
    ensures multiset(Listing(b[se.Id() := se])) == multiset(Listing(b)) + multiset{se}
  {
    hide Listing;
    var p := ListingOfExtended(b, se);
    var l := Listing(b);
    assert l == l[..p] + l[p..];
  }

  /** A new own post joins the sources of the feed, and nothing else changes. */
  lemma TimelineGrows(own: Logs, crawl: Crawl, se: SignedEvent)
    requires se.event.log == PostLog && se.event.kind == KindPost && se.Id() !in LogOf(own, PostLog)
    ensures TimelineOf(Appended(own, PostLog, se), crawl) == TimelineOf(own, crawl) + multiset{se}
  {
    assert Insert(LogOf(own, PostLog), se) == LogOf(own, PostLog)[se.Id() := se];
    hide Listing, FollowedPosts, Appended, LogOf, Insert, FollowSetOf;
    AppendedByLog(own, se, PostLog);
    AppendedByLog(own, se, ProfileLog);
    ListingGains(LogOf(own, PostLog), se);
    JoinLast(multiset(Listing(LogOf(own, PostLog))), multiset{se}, FollowedPosts(crawl, ReplayedFollows(own)));
  }

  lemma JoinLast(x: multiset<SignedEvent>, y: multiset<SignedEvent>, z: multiset<SignedEvent>)
    ensures x + y + z == x + z + y
  {}

  // ----- Following and unfollowing change the sources without invalidating

  lemma JoinInside(x: multiset<SignedEvent>, y: multiset<SignedEvent>, z: multiset<SignedEvent>)
    ensures x + (y + z) == x + z + y
  {}

  lemma SourcesByFollows(own: Logs, own': Logs, crawl: Crawl, t: Identity)
    requires LogOf(own', PostLog) == LogOf(own, PostLog)
    requires t !in ReplayedFollows(own) && ReplayedFollows(own') == ReplayedFollows(own) + {t}
    ensures TimelineOf(own', crawl) == TimelineOf(own, crawl) + PostsCachedFor(crawl, t)
  {
    hide FollowedPosts, PostsCachedFor, ReplayedFollows;
    FollowedPostsOf(crawl, ReplayedFollows(own'), t);
    assert ReplayedFollows(own') - {t} == ReplayedFollows(own);
    var posts, more := multiset(Listing(LogOf(own, PostLog))), PostsCachedFor(crawl, t);
    JoinInside(posts, more, FollowedPosts(crawl, ReplayedFollows(own)));
  }

  lemma FollowOutcome(a: Account, key: Pubkey, target: Pubkey, now: int)
    requires OwnLogs(a.own, OfKey(key)) && ClockAhead(a, now) && now != 0
    ensures var own' := Follow(a, key, target, now).own;
      && LogOf(own', PostLog) == LogOf(a.own, PostLog)
      && ReplayedFollows(own') == ReplayedFollows(a.own) + {OfKey(target)}
  {
    hide ReplayedFollows, OwnLogs, ClockAhead;
    EdgeDecides(a, key, KindFollow, target, now);
  }

  lemma UnfollowOutcome(a: Account, key: Pubkey, target: Pubkey, now: int)
    requires OwnLogs(a.own, OfKey(key)) && ClockAhead(a, now) && now != 0
    ensures var own' := Unfollow(a, key, target, now).own;
      && LogOf(own', PostLog) == LogOf(a.own, PostLog)
      && ReplayedFollows(own') == ReplayedFollows(a.own) - {OfKey(target)}
  {
    hide ReplayedFollows, OwnLogs, ClockAhead;
    EdgeDecides(a, key, KindUnfollow, target, now);
  }

  /** A follow leaves a cached feed right if and only if the target is followed already or
      none of its cached posts and Deletes is seen in the feed. */
  lemma FollowStaleExactly(feed: Feed, a: Account, crawl: Crawl, key: Pubkey, target: Pubkey, now: int)
    requires OwnLogs(a.own, OfKey(key)) && ClockAhead(a, now) && now != 0
    requires IsFeed(feed, TimelineOf(a.own, crawl))
    ensures IsFeed(feed, TimelineOf(Follow(a, key, target, now).own, crawl))
       <==> || OfKey(target) in ReplayedFollows(a.own)
            || Unseen(TimelineOf(a.own, crawl), PostsCachedFor(crawl, OfKey(target)))
  {
    hide IsFeed, Unseen, PostsCachedFor, FollowedPosts, ReplayedFollows, OwnLogs, ClockAhead, Follow;
    var own' := Follow(a, key, target, now).own;
    FollowOutcome(a, key, target, now);
    if OfKey(target) in ReplayedFollows(a.own) {
      assert ReplayedFollows(own') == ReplayedFollows(a.own);
    } else {
      SourcesByFollows(a.own, own', crawl, OfKey(target));
      StaleExactlyOnArrival(feed, TimelineOf(a.own, crawl), PostsCachedFor(crawl, OfKey(target)));
    }
  }

  /** An unfollow leaves it right if and only if the target was not followed or nothing of it
      was seen in the feed. */
  lemma UnfollowStaleExactly(feed: Feed, a: Account, crawl: Crawl, key: Pubkey, target: Pubkey, now: int)
    requires OwnLogs(a.own, OfKey(key)) && ClockAhead(a, now) && now != 0
    requires IsFeed(feed, TimelineOf(a.own, crawl))
    ensures var left := TimelineOf(Unfollow(a, key, target, now).own, crawl);
      IsFeed(feed, left)
      <==> || OfKey(target) !in ReplayedFollows(a.own)
           || Unseen(left, PostsCachedFor(crawl, OfKey(target)))
  {
    hide IsFeed, Unseen, PostsCachedFor, FollowedPosts, ReplayedFollows, OwnLogs, ClockAhead, Unfollow;
    var own' := Unfollow(a, key, target, now).own;
    UnfollowOutcome(a, key, target, now);
    if OfKey(target) in ReplayedFollows(a.own) {
      assert ReplayedFollows(a.own) == ReplayedFollows(own') + {OfKey(target)};
      SourcesByFollows(own', a.own, crawl, OfKey(target));
      StaleExactlyOnLoss(feed, TimelineOf(own', crawl), PostsCachedFor(crawl, OfKey(target)));
    } else {
      assert ReplayedFollows(own') == ReplayedFollows(a.own);
    }
  }
}
