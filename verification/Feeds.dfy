/** The feed as a view of a set of stored events (internal/core/log.go, internal/daemon/daemon.go):
    which lists are a feed of a store, and when a feed that was built earlier is still right. */
module Feeds {
  import opened Events
  import opened Projection

  type Feed = seq<SignedEvent>

  /** The feed of a store: what the projection makes of its events in some loading order. */
  ghost predicate IsFeed(feed: Feed, store: multiset<SignedEvent>) {
    exists l: seq<SignedEvent> :: multiset(l) == store && feed == PostsOf(l)
  }

  /** A post that the feed of the store shows. */
  ghost predicate ShownIn(store: multiset<SignedEvent>, se: SignedEvent) {
    && se in store && se.event.kind == KindPost
    && forall d :: d in store && IsDelete(d) ==> d.event.delete.value != se.Id()
  }

  /** x is a Delete of a post that the feed of the store shows. */
  ghost predicate Hides(x: SignedEvent, store: multiset<SignedEvent>) {
    IsDelete(x) && exists se :: ShownIn(store, se) && se.Id() == x.event.delete.value
  }

  ghost function TimesShown(store: multiset<SignedEvent>, se: SignedEvent): nat {
    if ShownIn(store, se) then store[se] else 0
  }

  /** Newest first and, within one instant, by sequence. */
  ghost predicate InFeedOrder(feed: Feed) {
    forall i, j :: 0 <= i < j < |feed| ==>
      || feed[i].event.timestamp > feed[j].event.timestamp
      || (feed[i].event.timestamp == feed[j].event.timestamp && feed[i].event.sequence <= feed[j].event.sequence)
  }

  lemma FeedShows(feed: Feed, store: multiset<SignedEvent>, se: SignedEvent)
    requires IsFeed(feed, store)
    ensures se in feed <==> ShownIn(store, se)
  {
    var l: seq<SignedEvent> :| multiset(l) == store && feed == PostsOf(l);
    FeedMembers(l, se);
    assert forall x :: x in l <==> x in multiset(l);
  }

  /** The feed has each shown post exactly as often as the store does, and no other. */
  lemma FeedCounts(feed: Feed, store: multiset<SignedEvent>, se: SignedEvent)
    requires IsFeed(feed, store)
    ensures multiset(feed)[se] == TimesShown(store, se)
  {
    var l: seq<SignedEvent> :| multiset(l) == store && feed == PostsOf(l);
    FeedProjection(l);
    assert forall x :: x in l <==> x in multiset(l);
  }

  // ----- Sorting a list that is in feed order gives it back

  ghost predicate AheadOf(x: SignedEvent, s: seq<SignedEvent>) {
    forall y :: y in s ==> InFeedOrder([x, y])
  }

  lemma AheadOfSame(x: SignedEvent, s: seq<SignedEvent>, t: seq<SignedEvent>)
    requires AheadOf(x, s) && multiset(t) == multiset(s)
    ensures AheadOf(x, t)
  {
    SameElements(s, t);
  }

  lemma NewestGoesFirst(x: SignedEvent, s: seq<SignedEvent>)
    requires AheadOf(x, s)
    ensures SortIn(NewestFirst, x, StableSort(NewestFirst, s)) == [x] + StableSort(NewestFirst, s)
  {
    var t := StableSort(NewestFirst, s);
    StableSortSorts(NewestFirst, s);
    AheadOfSame(x, s, t);
    if t != [] {
      assert t[0] in t && InFeedOrder([x, t[0]]);
      assert [x, t[0]][0] == x && [x, t[0]][1] == t[0];
    }
  }

  /** Wherever the first sort puts the leader of a list, the second puts it in front. */
  lemma {:induction false} LeaderReturns(x: SignedEvent, s: seq<SignedEvent>)
    requires AheadOf(x, s)
    ensures StableSort(NewestFirst, SortIn(ByTime, x, s)) == [x] + StableSort(NewestFirst, s)
  {
    if s == [] || !Less(ByTime, s[0], x) {
      assert ([x] + s)[1..] == s;
      NewestGoesFirst(x, s);
    } else {
      assert InFeedOrder([x, s[0]]) && [x, s[0]][0] == x && [x, s[0]][1] == s[0];
      LeaderReturns(x, s[1..]);
      var u := SortIn(ByTime, x, s[1..]);
      assert ([s[0]] + u)[1..] == u;
      var t := StableSort(NewestFirst, s[1..]);
      assert ([x] + t)[1..] == t;
    }
  }

  lemma FirstIsAhead(feed: Feed)
    requires InFeedOrder(feed) && feed != []
    ensures AheadOf(feed[0], feed[1..]) && InFeedOrder(feed[1..])
  {
    forall y | y in feed[1..] ensures InFeedOrder([feed[0], y]) {
      var j :| 0 < j < |feed| && feed[j] == y;
    }
  }

  lemma {:induction false} SortingRestores(feed: Feed)
    requires InFeedOrder(feed)
    ensures StableSort(NewestFirst, SortedByTime(feed)) == feed
  {
    if feed != [] {
      var x, s := feed[0], feed[1..];
      FirstIsAhead(feed);
      SortingRestores(s);
      hide InFeedOrder, AheadOf, Sorted;
      StableSortSorts(ByTime, s);
      AheadOfSame(x, s, SortedByTime(s));
      LeaderReturns(x, SortedByTime(s));
    }
  }

  // ----- Events that are not shown make no difference

  lemma {:induction false} VisibleConcat(tomb: set<EventID>, s: seq<SignedEvent>, t: seq<SignedEvent>)
    ensures Visible(tomb, s + t) == Visible(tomb, s) + Visible(tomb, t)
  {
    if t == [] {
      assert s + t == s;
    } else {
      assert (s + t)[..|s + t| - 1] == s + t[..|t| - 1];
      VisibleConcat(tomb, s, t[..|t| - 1]);
    }
  }

  lemma {:induction false} VisibleIgnores(tomb: set<EventID>, x: SignedEvent, s: seq<SignedEvent>)
    requires !Shown(tomb, x)
    ensures Visible(tomb, SortIn(ByTime, x, s)) == Visible(tomb, s)
  {
    if s == [] || !Less(ByTime, s[0], x) {
      VisibleConcat(tomb, [x], s);
    } else {
      VisibleIgnores(tomb, x, s[1..]);
      VisibleConcat(tomb, [s[0]], SortIn(ByTime, x, s[1..]));
      VisibleConcat(tomb, [s[0]], s[1..]);
      assert [s[0]] + s[1..] == s;
    }
  }

  lemma {:induction false} RestIsIgnored(tomb: set<EventID>, rest: seq<SignedEvent>, s: seq<SignedEvent>)
    requires forall se :: se in rest ==> !Shown(tomb, se)
    ensures Visible(tomb, SortedByTime(rest + s)) == Visible(tomb, SortedByTime(s))
  {
    if rest == [] {
      assert rest + s == s;
    } else {
      assert (rest + s)[1..] == rest[1..] + s;
      RestIsIgnored(tomb, rest[1..], s);
      VisibleIgnores(tomb, rest[0], SortedByTime(rest[1..] + s));
    }
  }

  lemma {:induction false} AllVisible(tomb: set<EventID>, s: seq<SignedEvent>)
    requires forall se :: se in s ==> Shown(tomb, se)
    ensures Visible(tomb, s) == s
  {
    if s != [] {
      var front, last := s[..|s| - 1], s[|s| - 1];
      assert s == front + [last];
      AllVisible(tomb, front);
    }
  }

  // ----- What a feed is

  lemma TombstonesOf(l: seq<SignedEvent>, store: multiset<SignedEvent>, se: SignedEvent)
    requires multiset(l) == store && se in store
    ensures Shown(Tombstones(l), se) <==> ShownIn(store, se)
  {
    assert forall x :: x in l <==> x in multiset(l);
  }

  lemma ListOf(m: multiset<SignedEvent>) returns (l: seq<SignedEvent>)
    ensures multiset(l) == m
    decreases |m|
  {
    if m == multiset{} {
      l := [];
    } else {
      var x :| x in m;
      var s := ListOf(m - multiset{x});
      l := [x] + s;
    }
  }

  ghost predicate HasShown(feed: Feed, store: multiset<SignedEvent>) {
    forall se :: multiset(feed)[se] == TimesShown(store, se)
  }

  /** A loading order that makes this list the feed: what is not shown, and then the list. */
  lemma LoadedAfterRest(feed: Feed, rest: seq<SignedEvent>, store: multiset<SignedEvent>)
    requires HasShown(feed, store) && InFeedOrder(feed) && multiset(rest) + multiset(feed) == store
    ensures PostsOf(rest + feed) == feed
  {
    var tomb := Tombstones(rest + feed);
    assert multiset(rest + feed) == store;
    forall se | se in rest ensures !Shown(tomb, se) {
      assert se in multiset(rest) && multiset(feed)[se] == TimesShown(store, se);
      TombstonesOf(rest + feed, store, se);
    }
    forall se | se in SortedByTime(feed) ensures Shown(tomb, se) {
      StableSortSorts(ByTime, feed);
      SameElements(feed, SortedByTime(feed));
      assert se in multiset(feed) && multiset(feed)[se] == TimesShown(store, se);
      TombstonesOf(rest + feed, store, se);
    }
    RestIsIgnored(tomb, rest, feed);
    AllVisible(tomb, SortedByTime(feed));
    SortingRestores(feed);
  }

  lemma ShownInOrderIsFeed(feed: Feed, store: multiset<SignedEvent>)
    requires HasShown(feed, store) && InFeedOrder(feed)
    ensures IsFeed(feed, store)
  {
    assert multiset(feed) <= store by {
      forall se ensures multiset(feed)[se] <= store[se] {
        assert multiset(feed)[se] == TimesShown(store, se);
      }
    }
    var rest := ListOf(store - multiset(feed));
    LoadedAfterRest(feed, rest, store);
    assert multiset(rest + feed) == store;
  }

  lemma FeedIsInOrder(feed: Feed, store: multiset<SignedEvent>)
    requires IsFeed(feed, store)
    ensures InFeedOrder(feed)
  {
    var l: seq<SignedEvent> :| multiset(l) == store && feed == PostsOf(l);
    FeedProjection(l);
  }

  /** What a feed is, without the sorts that build it: each shown post as often as the store
      has it, nothing else, newest first and by sequence within one instant. */
  lemma FeedIsExactly(feed: Feed, store: multiset<SignedEvent>)
    ensures IsFeed(feed, store) <==> HasShown(feed, store) && InFeedOrder(feed)
  {
    hide IsFeed, InFeedOrder;
    if IsFeed(feed, store) {
      FeedIsInOrder(feed, store);
      forall se ensures multiset(feed)[se] == TimesShown(store, se) {
        FeedCounts(feed, store, se);
      }
    }
    if HasShown(feed, store) && InFeedOrder(feed) {
      ShownInOrderIsFeed(feed, store);
    }
  }

  // ----- When a feed built earlier is still right

  ghost predicate SameShown(store: multiset<SignedEvent>, store': multiset<SignedEvent>) {
    forall se :: TimesShown(store, se) == TimesShown(store', se)
  }

  lemma SameCounts(feed: Feed, store: multiset<SignedEvent>, store': multiset<SignedEvent>)
    requires HasShown(feed, store)
    ensures HasShown(feed, store') <==> SameShown(store, store')
  {
    hide TimesShown;
    assert forall se :: multiset(feed)[se] == TimesShown(store, se);
    if HasShown(feed, store') {
      assert forall se :: multiset(feed)[se] == TimesShown(store', se);
    }
  }

  /** Whatever has happened to the store, a feed of it is still a feed exactly when the shown
      posts are the same, each as often. */
  lemma StillTheFeed(feed: Feed, store: multiset<SignedEvent>, store': multiset<SignedEvent>)
    requires IsFeed(feed, store)
    ensures IsFeed(feed, store') <==> SameShown(store, store')
  {
    hide IsFeed, HasShown, SameShown, InFeedOrder;
    FeedIsExactly(feed, store);
    FeedIsExactly(feed, store');
    SameCounts(feed, store, store');
  }

  /** Of the events more, added to the store, none is shown and none hides a shown post. */
  ghost predicate Unseen(store: multiset<SignedEvent>, more: multiset<SignedEvent>) {
    && (forall se :: se in more ==> !ShownIn(store + more, se))
    && (forall x :: x in more ==> !Hides(x, store))
  }

  lemma UnseenExactly(store: multiset<SignedEvent>, more: multiset<SignedEvent>)
    ensures SameShown(store, store + more) <==> Unseen(store, more)
  {
    if SameShown(store, store + more) {
      forall se ensures se in more ==> !ShownIn(store + more, se)
                ensures ShownIn(store, se) ==> ShownIn(store + more, se)
      {
        assert TimesShown(store, se) == TimesShown(store + more, se);
      }
      assert forall x :: x in more ==> x in store + more;
    }
    if Unseen(store, more) {
      forall se ensures TimesShown(store, se) == TimesShown(store + more, se) {
        if ShownIn(store, se) {
          assert forall x :: x in more && IsDelete(x) ==> !Hides(x, store);
        }
      }
    }
  }

  /** A feed outlives the arrival of further events exactly when none of them is seen in it. */
  lemma StaleExactlyOnArrival(feed: Feed, store: multiset<SignedEvent>, more: multiset<SignedEvent>)
    requires IsFeed(feed, store)
    ensures IsFeed(feed, store + more) <==> Unseen(store, more)
  {
    StillTheFeed(feed, store, store + more);
    UnseenExactly(store, more);
  }

  /** A feed outlives the loss of events exactly when none of them was seen in it. */
  lemma StaleExactlyOnLoss(feed: Feed, store: multiset<SignedEvent>, less: multiset<SignedEvent>)
    requires IsFeed(feed, store + less)
    ensures IsFeed(feed, store) <==> Unseen(store, less)
  {
    StillTheFeed(feed, store + less, store);
    UnseenExactly(store, less);
    SameBothWays(store, store + less);
  }

  lemma SameBothWays(store: multiset<SignedEvent>, store': multiset<SignedEvent>)
    ensures SameShown(store, store') <==> SameShown(store', store)
  {
    hide TimesShown;
  }

  /** Storing a new event other than a post, without invalidating, leaves a cached feed right
      exactly when the event is not a Delete of a post the feed shows. */
  lemma StaleExactlyOnDelete(feed: Feed, store: multiset<SignedEvent>, x: SignedEvent)
    requires IsFeed(feed, store) && x.event.kind != KindPost
    ensures IsFeed(feed, store + multiset{x}) <==> !Hides(x, store)
  {
    StaleExactlyOnArrival(feed, store, multiset{x});
  }
}
