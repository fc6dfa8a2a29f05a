/** The operations of the daemon object as runs of the machine in DaemonFeed: an undisturbed
    read through the cache, and an undisturbed invalidation and broadcast. */
module FeedSteps {
  import opened Events
  import opened Projection
  import opened Feeds
  import opened DaemonFeed

  ghost predicate Enabled(d: Daemon, a: Act) {
    Possible(d, a) && Careful(d, a)
  }

  lemma OneActEarlier(d: Daemon, a: Act, rest: seq<Act>)
    requires Enabled(d, a) && Admissible(Next(d, a), rest)
    ensures Admissible(d, [a] + rest) && Run(d, [a] + rest) == Run(Next(d, a), rest)
  {
    assert ([a] + rest)[1..] == rest;
  }

  lemma NoAct(d: Daemon)
    ensures Admissible(d, []) && Run(d, []) == d
  {}

  ghost predicate MayRead(d: Daemon, c: nat) {
    && c in d.clients && d.lock.None? && d.clients[c].view.Idle?
    && (d.clients[c].subscriber ==> d.clients[c].registered)
  }

  /** What CachedPosts does is a read of DaemonFeed: a look, and on a miss a rebuild under the
      lock. */
  lemma CachedPostsIsARead(d: Daemon, c: nat, posts: Feed) returns (acts: seq<Act>)
    requires MayRead(d, c)
    requires if d.cache != [] then posts == d.cache else IsFeed(posts, d.store)
    ensures Admissible(d, acts)
    ensures Run(d, acts) == d.(cache := posts, clients := d.clients[c := d.clients[c].(view := Viewed(posts))])
  {
    if d.cache != [] {
      acts := [Look(c)];
      assert acts[1..] == [];
    } else {
      acts := RebuildIsARead(d, c, posts);
    }
  }

  ghost function Viewing(d: Daemon, c: nat, view: View): Daemon
    requires c in d.clients
  {
    d.(clients := d.clients[c := d.clients[c].(view := view)])
  }

  lemma LookMisses(d: Daemon, c: nat)
    requires MayRead(d, c) && d.cache == []
    ensures Enabled(d, Look(c)) && Next(d, Look(c)) == Viewing(d, c, Missed(d.gen))
    ensures Enabled(Viewing(d, c, Missed(d.gen)), Recheck(c))
    ensures Next(Viewing(d, c, Missed(d.gen)), Recheck(c)) == Viewing(d, c, Locked).(lock := Some(c))
  {}

  lemma LoadPublishes(d: Daemon, c: nat, posts: Feed)
    requires MayRead(d, c) && IsFeed(posts, d.store)
    ensures var d2, d3 := Viewing(d, c, Locked).(lock := Some(c)), Viewing(d, c, Loaded(posts)).(lock := Some(c));
      && Enabled(d2, Load(c, posts)) && Next(d2, Load(c, posts)) == d3
      && Enabled(d3, Publish(c)) && Next(d3, Publish(c)) == Viewing(d, c, Viewed(posts)).(cache := posts)
  {
    hide IsFeed;
  }

  lemma RebuildIsARead(d: Daemon, c: nat, posts: Feed) returns (acts: seq<Act>)
    requires MayRead(d, c) && d.cache == [] && IsFeed(posts, d.store)
    ensures Admissible(d, acts)
    ensures Run(d, acts) == d.(cache := posts, clients := d.clients[c := d.clients[c].(view := Viewed(posts))])
  {
    hide Run, Feasible, AllCareful, IsFeed, Next, Possible, Careful;
    LookMisses(d, c);
    LoadPublishes(d, c, posts);
    var d1, d2 := Viewing(d, c, Missed(d.gen)), Viewing(d, c, Locked).(lock := Some(c));
    var d3 := Viewing(d, c, Loaded(posts)).(lock := Some(c));
    NoAct(Next(d3, Publish(c)));
    OneActEarlier(d3, Publish(c), []);
    OneActEarlier(d2, Load(c, posts), [Publish(c)] + []);
    OneActEarlier(d1, Recheck(c), [Load(c, posts)] + ([Publish(c)] + []));
    OneActEarlier(d, Look(c), [Recheck(c)] + ([Load(c, posts)] + ([Publish(c)] + [])));
    acts := [Look(c)] + ([Recheck(c)] + ([Load(c, posts)] + ([Publish(c)] + [])));
  }

  /** The clients told have been pushed the posts, the others are as they were. */
  ghost predicate AllPushed(was: map<nat, Client>, now: map<nat, Client>, told: set<nat>, posts: Feed) {
    && now.Keys == was.Keys
    && forall c :: c in was ==> now[c] == if c in told then Pushed(was[c], posts) else was[c]
  }

  ghost predicate IsSending(d: Daemon, w: nat) {
    w in d.writers && d.writers[w].stage.Sending?
  }

  /** Only w's list of those still to be told and the clients on it have changed. */
  ghost predicate SentAll(d: Daemon, d': Daemon, w: nat)
    requires IsSending(d, w)
  {
    var x := d.writers[w];
    && d' == d.(clients := d'.clients, writers := d.writers[w := x.(stage := x.stage.(rest := {}))])
    && AllPushed(d.clients, d'.clients, x.stage.rest, x.posts)
  }

  lemma {:induction false} SendsReachAll(d: Daemon, w: nat) returns (acts: seq<Act>)
    requires IsSending(d, w)
    ensures Admissible(d, acts) && SentAll(d, Run(d, acts), w)
    decreases |d.writers[w].stage.rest|
  {
    var rest := d.writers[w].stage.rest;
    if rest == {} {
      acts := [];
      assert d.writers[w := d.writers[w].(stage := d.writers[w].stage.(rest := {}))] == d.writers;
    } else {
      var c :| c in rest;
      var d1 := Next(d, Send(w, c));
      var more := SendsReachAll(d1, w);
      OneActEarlier(d, Send(w, c), more);
      SentOneMore(d, c, w, Run(d1, more));
      acts := [Send(w, c)] + more;
    }
  }

  lemma SentOneMore(d: Daemon, c: nat, w: nat, d': Daemon)
    requires IsSending(d, w) && c in d.writers[w].stage.rest
    requires SentAll(Next(d, Send(w, c)), d', w)
    ensures SentAll(d, d', w)
  {
    var d1 := Next(d, Send(w, c));
    assert d1.clients.Keys == d.clients.Keys;
  }

  /** A writer that has stored one new post and nothing else. */
  ghost predicate HasStored(d: Daemon, w: nat, se: SignedEvent) {
    w in d.writers && d.writers[w] == Writer([], [se], Writing) && d.lock.None?
  }

  ghost function Subscribed(d: Daemon): set<nat> {
    set c | c in d.clients && d.clients[c].registered
  }

  /** An invalidation and a broadcast: the cache is gone under a new generation and every
      subscriber has been pushed the post. */
  lemma BroadcastIsARun(d: Daemon, w: nat, se: SignedEvent) returns (acts: seq<Act>)
    requires HasStored(d, w, se)
    ensures Admissible(d, acts) && Broadcasted(d, Run(d, acts), w, se)
  {
    hide Run, Feasible, AllCareful;
    var d1 := Next(d, Invalidate(w));
    var d2 := Next(d1, CopySubs(w));
    var sends := SendsReachAll(d2, w);
    EndsBroadcast(d2, sends, w);
    OneActEarlier(d1, CopySubs(w), sends + [EndSend(w)]);
    OneActEarlier(d, Invalidate(w), [CopySubs(w)] + (sends + [EndSend(w)]));
    acts := [Invalidate(w)] + ([CopySubs(w)] + (sends + [EndSend(w)]));
  }

  ghost predicate Broadcasted(d: Daemon, d': Daemon, w: nat, se: SignedEvent) {
    && d' == d.(cache := [], gen := d.gen + 1, clients := d'.clients,
                writers := d.writers[w := Writer([], [se], Done(Subscribed(d)))])
    && AllPushed(d.clients, d'.clients, Subscribed(d), [se])
  }

  lemma {:induction false} EndsBroadcast(d: Daemon, sends: seq<Act>, w: nat)
    requires Admissible(d, sends) && Enabled(Run(d, sends), EndSend(w))
    ensures Admissible(d, sends + [EndSend(w)]) && Run(d, sends + [EndSend(w)]) == Next(Run(d, sends), EndSend(w))
    decreases sends
  {
    if sends == [] {
      assert sends + [EndSend(w)] == [EndSend(w)] && [EndSend(w)][1..] == [];
    } else {
      assert (sends + [EndSend(w)])[1..] == sends[1..] + [EndSend(w)];
      EndsBroadcast(Next(d, sends[0]), sends[1..], w);
    }
  }

  /** An undisturbed post is a run of DaemonFeed: the store write, the invalidation, and a push
      to every subscriber, after which nothing else has changed. */
  lemma HandlePostIsARun(d: Daemon, w: nat, se: SignedEvent) returns (acts: seq<Act>)
    requires w in d.writers && d.writers[w] == Writer([se], [], Writing) && d.lock.None?
    requires se.event.kind == KindPost && se !in d.store
    ensures Admissible(d, acts)
    ensures Broadcasted(d.(store := d.store + multiset{se}), Run(d, acts), w, se)
  {
    hide Run, Feasible, AllCareful, AllPushed;
    var d1 := Next(d, Write(w));
    assert HasStored(d1, w, se) && Subscribed(d1) == Subscribed(d);
    var rest := BroadcastIsARun(d1, w, se);
    OneActEarlier(d, Write(w), rest);
    acts := [Write(w)] + rest;
    var done := Writer([], [se], Done(Subscribed(d)));
    assert d1.writers[w := done] == d.writers[w := done];
  }

  // ----- The same in terms of a list of clients

  /** Clients numbered in the order of a list. */
  function ClientsOf(recs: seq<Client>): (m: map<nat, Client>)
    ensures forall c: nat :: c in m <==> c < |recs|
    ensures forall c :: 0 <= c < |recs| ==> m[c] == recs[c]
  {
    if recs == [] then map[] else ClientsOf(recs[..|recs| - 1])[|recs| - 1 := recs[|recs| - 1]]
  }

  /** One who reads a page of the feed and then goes. */
  const READER := Client(false, false, false, Idle, [], [])

  ghost predicate IsRun(d: Daemon, d': Daemon) {
    exists acts :: Admissible(d, acts) && Run(d, acts) == d'
  }

  lemma {:induction false} ReadIsARun(d: Daemon, recs: seq<Client>, posts: Feed)
    requires d.clients == ClientsOf(recs + [READER]) && d.lock.None?
    requires if d.cache != [] then posts == d.cache else IsFeed(posts, d.store)
    ensures IsRun(d, d.(cache := posts, clients := ClientsOf(recs + [READER.(view := Viewed(posts))])))
  {
    hide IsFeed, Run, Feasible, AllCareful;
    var acts := CachedPostsIsARead(d, |recs|, posts);
    assert d.clients[|recs|] == READER;
    assert d.clients[|recs| := READER.(view := Viewed(posts))]
        == ClientsOf(recs + [READER.(view := Viewed(posts))]);
  }

  lemma {:induction false} PostIsARun(d: Daemon, recs: seq<Client>, recs': seq<Client>, se: SignedEvent)
    requires d.clients == ClientsOf(recs) && d.lock.None? && |recs'| == |recs|
    requires forall c :: 0 <= c < |recs| ==> recs[c].registered && recs'[c] == Pushed(recs[c], [se])
    requires se.event.kind == KindPost && se !in d.store
    ensures IsRun(d.(writers := map[0 := Writer([se], [], Writing)]),
                  Daemon(d.store + multiset{se}, [], d.gen + 1, None, ClientsOf(recs'),
                                    map[0 := Writer([], [se], Done(ClientsOf(recs).Keys))]))
  {
    hide Run, Feasible, AllCareful, Pushed, ClientsOf, Possible, Next;
    var d0 := d.(writers := map[0 := Writer([se], [], Writing)]);
    var acts := HandlePostIsARun(d0, 0, se);
    assert Subscribed(d0) == ClientsOf(recs).Keys;
    var r := Run(d0, acts);
    assert r.clients == ClientsOf(recs');
    assert r.writers == map[0 := Writer([], [se], Done(ClientsOf(recs).Keys))];
  }

  // ----- A Delete that arrives by sync

  const KEY: Pubkey := [1]

  function SignedBy1(e: Event): SignedEvent {
    SignedEvent(e, OfKey(KEY), Signed(KEY, CanonicalEncode(e)))
  }

  const POST: SignedEvent :=
    SignedBy1(Event(KindPost, PostLog, 1, 1, None, None, Some(Post([], ZERO_ID)), None, None, None))

  const REMOVAL: SignedEvent :=
    SignedBy1(Event(KindDelete, PostLog, 2, 2, None, None, None, None, Some(POST.Id()), None))

  lemma OnePostFeed(p: SignedEvent)
    requires p.event.kind == KindPost
    ensures IsFeed([p], multiset{p})
  {
    hide PostsOf;
    var l := [p];
    FeedProjection(l);
    assert multiset(PostsOf(l)) == multiset(l);
    SameElements(PostsOf(l), l);
    assert PostsOf(l)[0] in PostsOf(l);
    assert PostsOf(l) == l;
  }

  /** A post p is read into the cache, and then a session merges nothing but its Delete x. */
  lemma DeleteIsSynced(p: SignedEvent, x: SignedEvent) returns (d: Daemon, acts: seq<Act>)
    requires p.event.kind == KindPost && x.event.kind == KindDelete
    requires IsDelete(x) && x.event.delete.value == p.Id()
    ensures Initial(d) && Feasible(d, acts)
    ensures var r := Run(d, acts);
      && r.cache == [p] && x in r.store && !SomePending(r) && !IsFeed(r.cache, r.store)
      && forall w :: w in r.writers ==> r.writers[w].stage.Done?
  {
    hide Run, IsFeed, AllCareful, Feasible, ShownIn, Possible, Next;
    var reader := Client(false, false, false, Idle, [], []);
    d := Daemon(multiset{p}, [], 0, None, map[0 := reader], map[0 := Writer([x], [], Writing)]);
    OnePostFeed(p);
    var read := CachedPostsIsARead(d, 0, [p]);
    DeleteIsSkipped(Run(d, read), p, x);
    RunOn(d, read, Write(0));
    RunOn(d, read + [Write(0)], Skip(0));
    acts := read + [Write(0)] + [Skip(0)];
  }

  lemma DeleteIsSkipped(d: Daemon, p: SignedEvent, x: SignedEvent)
    requires IsDelete(x) && x.event.delete.value == p.Id() && x.event.kind == KindDelete
    requires d.writers == map[0 := Writer([x], [], Writing)] && d.cache == [p]
    ensures Possible(d, Write(0)) && Possible(Next(d, Write(0)), Skip(0))
    ensures var r := Next(Next(d, Write(0)), Skip(0));
      && r.cache == [p] && x in r.store && !SomePending(r) && !IsFeed(r.cache, r.store)
      && forall w :: w in r.writers ==> r.writers[w].stage.Done?
  {
    hide IsFeed;
    var r := Next(Next(d, Write(0)), Skip(0));
    assert x in r.store;
    NotShownIsStale(r, p);
  }

  /** A session that merges nothing but a Delete ends without invalidating: the cached feed
      goes on showing the deleted post, with no invalidation pending. */
  lemma SyncedDeleteLeavesAStaleFeed() returns (d: Daemon, acts: seq<Act>)
    ensures Initial(d) && Feasible(d, acts)
    ensures var r := Run(d, acts);
      && r.cache == [POST] && REMOVAL in r.store && !SomePending(r) && !IsFeed(r.cache, r.store)
      && forall w :: w in r.writers ==> r.writers[w].stage.Done?
  {
    hide Run, Feasible, IsFeed, SomePending, Initial;
    d, acts := DeleteIsSynced(POST, REMOVAL);
  }

  lemma NotShownIsStale(d: Daemon, p: SignedEvent)
    requires d.cache == [p] && !ShownIn(d.store, p)
    ensures !IsFeed(d.cache, d.store)
  {
    if IsFeed(d.cache, d.store) {
      FeedShows(d.cache, d.store, p);
    }
  }

  lemma {:induction false} RunOn(d: Daemon, acts: seq<Act>, a: Act)
    requires Feasible(d, acts) && Possible(Run(d, acts), a)
    ensures Feasible(d, acts + [a]) && Run(d, acts + [a]) == Next(Run(d, acts), a)
    decreases acts
  {
    if acts == [] {
      assert acts + [a] == [a] && [a][1..] == [];
    } else {
      assert (acts + [a])[1..] == acts[1..] + [a];
      RunOn(Next(d, acts[0]), acts[1..], a);
    }
  }
}
