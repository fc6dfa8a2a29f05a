/** The daemon's feed cache and subscribe stream (internal/daemon/daemon.go,
    internal/daemon/server_grpc.go) as interleaved processes: writers store events, then
    invalidate the cache, then broadcast; clients read the feed through the cache, and
    subscribers register first, take a snapshot, and then drain their queue. */
module DaemonFeed {
  import opened Events
  import opened Feeds

  /** How many pushes a subscriber may have queued before it is dropped. */
  const SUBSCRIBE_QUEUE := 256

  /** The progress of one read through the cache. */
  datatype View =
    | Idle
    | Missed(gen: nat)     // saw no cache, under the generation it read along
    | Locked               // holds the lock, about to read the store
    | Loaded(feed: Feed)   // holds the lock and the feed it will publish
    | Viewed(feed: Feed)   // has its result

  datatype Client = Client(
    subscriber: bool,      // or a reader of a single page
    registered: bool,
    dropped: bool,
    view: View,
    queue: seq<Feed>,
    delivered: seq<Feed>)

  datatype Stage =
    | Writing
    | Invalidated
    | Sending(copied: set<nat>, rest: set<nat>)
    | Done(informed: set<nat>)

  /** A handler or session: the events it is to store, and the posts it has newly stored. */
  datatype Writer = Writer(todo: seq<SignedEvent>, posts: Feed, stage: Stage)

  /** An empty cache is no cache: a feed without posts is rebuilt every time. */
  datatype Daemon = Daemon(
    store: multiset<SignedEvent>,
    cache: Feed,
    gen: nat,
    lock: Option<nat>,
    clients: map<nat, Client>,
    writers: map<nat, Writer>)

  datatype Act =
    | Write(w: nat)
    | Cut(w: nat)
    | Invalidate(w: nat)
    | Skip(w: nat)
    | CopySubs(w: nat)
    | Send(w: nat, c: nat)
    | EndSend(w: nat)
    | Register(c: nat)
    | Look(c: nat)
    | Recheck(c: nat)
    | Load(c: nat, feed: Feed)
    | Publish(c: nat)
    | Deliver(c: nat)
    | Leave(c: nat)

  predicate IsWriting(d: Daemon, w: nat) { w in d.writers && d.writers[w].stage.Writing? }

  /** What can happen. A full subscriber is dropped, a session may be cut. */
  ghost predicate Possible(d: Daemon, a: Act) {
    match a
    case Write(w) => IsWriting(d, w) && d.writers[w].todo != []
    case Cut(w) => IsWriting(d, w)
    case Invalidate(w) => IsWriting(d, w) && d.writers[w].todo == [] && d.lock.None?
    case Skip(w) =>
      && w in d.writers && d.writers[w].todo == [] && d.writers[w].posts == []
      && (d.writers[w].stage.Writing? || d.writers[w].stage.Invalidated?)
    case CopySubs(w) => w in d.writers && d.writers[w].stage.Invalidated? && d.writers[w].posts != []
    case Send(w, c) => w in d.writers && d.writers[w].stage.Sending? && c in d.writers[w].stage.rest
    case EndSend(w) => w in d.writers && d.writers[w].stage.Sending? && d.writers[w].stage.rest == {}
    case Register(c) =>
      c in d.clients && d.clients[c].subscriber && !d.clients[c].registered && !d.clients[c].dropped
    case Look(c) =>
      && c in d.clients && d.lock.None? && d.clients[c].view.Idle?
      && (d.clients[c].subscriber ==> d.clients[c].registered)
    case Recheck(c) => c in d.clients && d.lock.None? && d.clients[c].view.Missed?
    case Load(c, feed) => c in d.clients && d.clients[c].view.Locked? && IsFeed(feed, d.store)
    case Publish(c) => c in d.clients && d.clients[c].view.Loaded?
    case Deliver(c) => c in d.clients && d.clients[c].view.Viewed? && d.clients[c].queue != []
    case Leave(c) => c in d.clients && !d.clients[c].view.Locked? && !d.clients[c].view.Loaded?
  }

  /** A Delete that hides a shown post is stored only by a writer that has stored a post as
      well: such a writer is bound to invalidate. */
  ghost predicate Careful(d: Daemon, a: Act) {
    (a.Write? && IsWriting(d, a.w) && d.writers[a.w].todo != [] && Hides(d.writers[a.w].todo[0], d.store))
    ==> d.writers[a.w].posts != []
  }

  function WithWriter(d: Daemon, w: nat, x: Writer): Daemon { d.(writers := d.writers[w := x]) }
  function WithClient(d: Daemon, c: nat, x: Client): Daemon { d.(clients := d.clients[c := x]) }

  /** A push onto a subscriber's queue, or its removal when the queue is full. */
  function Pushed(x: Client, posts: Feed): Client {
    if |x.queue| < SUBSCRIBE_QUEUE then x.(queue := x.queue + [posts]) else x.(dropped := true)
  }

  function Stored(x: Writer, store: multiset<SignedEvent>): Writer
    requires x.todo != []
  {
    var se := x.todo[0];
    x.(todo := x.todo[1..],
       posts := if se !in store && se.event.kind == KindPost then x.posts + [se] else x.posts)
  }

  /** Storing an event that is already there changes nothing. */
  function With(store: multiset<SignedEvent>, se: SignedEvent): multiset<SignedEvent> {
    if se in store then store else store + multiset{se}
  }

  ghost function Next(d: Daemon, a: Act): Daemon
    requires Possible(d, a)
  {
    match a
    case Write(w) =>
      WithWriter(d, w, Stored(d.writers[w], d.store)).(store := With(d.store, d.writers[w].todo[0]))
    case Cut(w) => WithWriter(d, w, d.writers[w].(todo := []))
    case Invalidate(w) =>
      WithWriter(d, w, d.writers[w].(stage := Invalidated)).(cache := [], gen := d.gen + 1)
    case Skip(w) => WithWriter(d, w, d.writers[w].(stage := Done({})))
    case CopySubs(w) =>
      var subs := set c | c in d.clients && d.clients[c].registered;
      WithWriter(d, w, d.writers[w].(stage := Sending(subs, subs)))
    case Send(w, c) =>
      var x := d.writers[w];
      var d' := WithWriter(d, w, x.(stage := x.stage.(rest := x.stage.rest - {c})));
      if c in d.clients then WithClient(d', c, Pushed(d.clients[c], x.posts)) else d'
    case EndSend(w) => WithWriter(d, w, d.writers[w].(stage := Done(d.writers[w].stage.copied)))
    case Register(c) => WithClient(d, c, d.clients[c].(registered := true))
    case Look(c) =>
      WithClient(d, c, d.clients[c].(view := if d.cache != [] then Viewed(d.cache) else Missed(d.gen)))
    case Recheck(c) =>
      if d.cache != [] && d.gen == d.clients[c].view.gen
      then WithClient(d, c, d.clients[c].(view := Viewed(d.cache)))
      else WithClient(d, c, d.clients[c].(view := Locked)).(lock := Some(c))
    case Load(c, feed) => WithClient(d, c, d.clients[c].(view := Loaded(feed)))
    case Publish(c) =>
      var feed := d.clients[c].view.feed;
      WithClient(d, c, d.clients[c].(view := Viewed(feed))).(cache := feed, lock := None)
    case Deliver(c) =>
      var x := d.clients[c];
      WithClient(d, c, x.(queue := x.queue[1..], delivered := x.delivered + [x.queue[0]]))
    case Leave(c) => WithClient(d, c, d.clients[c].(registered := false, dropped := true))
  }

  // ----- Invariants

  /** Some writer has stored a post and not yet invalidated the cache. */
  ghost predicate SomePending(d: Daemon) {
    exists w :: IsWriting(d, w) && d.writers[w].posts != []
  }

  ghost predicate Pending(d: Daemon, se: SignedEvent) {
    exists w :: IsWriting(d, w) && se in d.writers[w].posts
  }

  /** The feed of the store as it was once: since then it has only gained new events. */
  ghost predicate WasFeed(feed: Feed, store: multiset<SignedEvent>) {
    exists was: multiset<SignedEvent> :: IsFeed(feed, was) && OnlyGained(was, store)
  }

  ghost predicate OnlyGained(was: multiset<SignedEvent>, store: multiset<SignedEvent>) {
    forall se :: se in was ==> was[se] == store[se]
  }

  /** A feed is good if it once was the store's feed, and if it lacks no shown post but those
      whose invalidation is pending. */
  ghost predicate Good(d: Daemon, feed: Feed) {
    && WasFeed(feed, d.store)
    && forall se :: ShownIn(d.store, se) && se !in feed ==> Pending(d, se)
  }

  ghost predicate CacheInv(d: Daemon) {
    && (d.cache != [] ==> Good(d, d.cache))
    && (forall c :: c in d.clients && d.clients[c].view.Loaded? ==> Good(d, d.clients[c].view.feed))
  }

  ghost predicate LockInv(d: Daemon) {
    forall c :: c in d.clients && (d.clients[c].view.Locked? || d.clients[c].view.Loaded?) ==> d.lock == Some(c)
  }

  /** Each stored post has one writer. */
  ghost predicate WriterInv(d: Daemon) {
    && (forall w, se :: w in d.writers && se in d.writers[w].posts ==> se in d.store && se.event.kind == KindPost)
    && (forall v, w, se :: v in d.writers && w in d.writers && se in d.writers[v].posts && se in d.writers[w].posts
          ==> v == w)
  }

  /** The client's read began late enough to contain the post, or has not got a result yet. */
  ghost predicate ViewHas(x: Client, se: SignedEvent) {
    (x.view.Loaded? || x.view.Viewed?) ==> se in x.view.feed
  }

  /** A push with the post is queued or has been delivered. */
  ghost predicate Got(x: Client, se: SignedEvent) {
    (exists b :: b in x.queue && se in b) || (exists b :: b in x.delivered && se in b)
  }

  /** What a writer past the copying of the subscriber list guarantees an active subscriber. */
  ghost predicate Informed(x: Client, c: nat, writer: Writer, se: SignedEvent) {
    match writer.stage
    case Writing => true
    case Invalidated => true
    case Sending(copied, rest) => if c in copied then c in rest || Got(x, se) else ViewHas(x, se)
    case Done(informed) => if c in informed then Got(x, se) else ViewHas(x, se)
  }

  /** The subscribers a writer's broadcast is or was meant for. */
  function Told(x: Writer): set<nat> {
    match x.stage
    case Sending(copied, _) => copied
    case Done(informed) => informed
    case _ => {}
  }

  ghost predicate Active(x: Client) {
    x.subscriber && x.registered && !x.dropped
  }

  ghost predicate SubscribeInv(d: Daemon) {
    && (forall c :: c in d.clients && d.clients[c].subscriber && !d.clients[c].registered && !d.clients[c].dropped
          ==> d.clients[c].view.Idle?)
    && (forall c, w :: w in d.writers && c in d.clients && c in Told(d.writers[w])
          ==> d.clients[c].registered || d.clients[c].dropped)
    && (forall c :: c in d.clients && Active(d.clients[c]) ==> AllInformed(d, c, d.clients[c]))
  }

  ghost predicate Inv(d: Daemon) {
    CacheInv(d) && LockInv(d) && WriterInv(d) && SubscribeInv(d)
  }

  // ----- Client steps

  /** A post whose writer is past invalidation is in every good feed. */
  lemma GoodFeedHas(d: Daemon, feed: Feed, w: nat, se: SignedEvent)
    requires WriterInv(d) && Good(d, feed)
    requires w in d.writers && !d.writers[w].stage.Writing? && se in d.writers[w].posts && ShownIn(d.store, se)
    ensures se in feed
  {
    assert forall v :: IsWriting(d, v) && se in d.writers[v].posts ==> v == w;
  }

  ghost predicate ClientOk(d: Daemon, c: nat, x: Client) {
    && (x.view.Loaded? ==> Good(d, x.view.feed))
    && (x.subscriber && !x.registered && !x.dropped ==> x.view.Idle?)
    && (x.registered || x.dropped || forall w :: w in d.writers ==> c !in Told(d.writers[w]))
    && (Active(x) ==> AllInformed(d, c, x))
  }

  ghost predicate AllInformed(d: Daemon, c: nat, x: Client) {
    forall w, se :: w in d.writers && se in d.writers[w].posts && ShownIn(d.store, se)
      ==> Informed(x, c, d.writers[w], se)
  }

  ghost predicate LockOk(clients: map<nat, Client>, lock: Option<nat>) {
    forall c :: c in clients && (clients[c].view.Locked? || clients[c].view.Loaded?) ==> lock == Some(c)
  }

  lemma ClientStep(d: Daemon, d': Daemon, c: nat, x: Client)
    requires Inv(d) && c in d.clients && ClientOk(d, c, x)
    requires d'.store == d.store && d'.writers == d.writers && d'.clients == d.clients[c := x]
    requires d'.cache != [] ==> Good(d, d'.cache)
    requires LockOk(d'.clients, d'.lock)
    ensures Inv(d')
  {
    hide Good, Informed, ShownIn;
    SubscribersStay(d, d', c, x);
    forall feed | Good(d, feed) ensures Good(d', feed) {
      SameGood(d, d', feed);
    }
  }

  lemma SameGood(d: Daemon, d': Daemon, feed: Feed)
    requires Good(d, feed) && d'.store == d.store && d'.writers == d.writers
    ensures Good(d', feed)
  {
    if w :| IsWriting(d, w) && d.writers[w].posts != [] {
      assert IsWriting(d', w);
    }
    forall se | Pending(d, se) ensures Pending(d', se) {
      var w :| IsWriting(d, w) && se in d.writers[w].posts;
      assert IsWriting(d', w);
    }
  }

  lemma SubscribersStay(d: Daemon, d': Daemon, c: nat, x: Client)
    requires SubscribeInv(d) && c in d.clients && ClientOk(d, c, x)
    requires d'.store == d.store && d'.writers == d.writers && d'.clients == d.clients[c := x]
    ensures SubscribeInv(d')
  {
    forall k | k in d'.clients && Active(d'.clients[k]) ensures AllInformed(d', k, d'.clients[k]) {
      assert AllInformed(d, k, d'.clients[k]);
    }
  }

  lemma WasOk(d: Daemon, c: nat)
    requires Inv(d) && c in d.clients
    ensures ClientOk(d, c, d.clients[c])
  {}

  /** A read that now has a good feed serves every writer past invalidation. */
  lemma ReadIsOk(d: Daemon, c: nat, feed: Feed, view: View)
    requires Inv(d) && c in d.clients && Good(d, feed) && (view == Loaded(feed) || view == Viewed(feed))
    requires d.clients[c].subscriber ==> d.clients[c].registered || d.clients[c].dropped
    ensures ClientOk(d, c, d.clients[c].(view := view))
  {
    WasOk(d, c);
    var x, x' := d.clients[c], d.clients[c].(view := view);
    forall w, se | Active(x') && w in d.writers && se in d.writers[w].posts && ShownIn(d.store, se)
      ensures Informed(x', c, d.writers[w], se)
    {
      assert Informed(x, c, d.writers[w], se);
      if !d.writers[w].stage.Writing? {
        GoodFeedHas(d, feed, w, se);
      }
    }
  }

  lemma LookKeepsInv(d: Daemon, c: nat)
    requires Inv(d) && Possible(d, Look(c))
    ensures Inv(Next(d, Look(c)))
  {
    hide Good, ShownIn, WriterInv;
    WasOk(d, c);
    if d.cache != [] {
      ReadIsOk(d, c, d.cache, Viewed(d.cache));
    }
    ClientStep(d, Next(d, Look(c)), c, Next(d, Look(c)).clients[c]);
  }

  lemma RecheckHits(d: Daemon, c: nat)
    requires Inv(d) && Possible(d, Recheck(c)) && d.cache != [] && d.gen == d.clients[c].view.gen
    ensures Inv(Next(d, Recheck(c)))
  {
    hide Good, Informed, ShownIn, WriterInv;
    WasOk(d, c);
    ReadIsOk(d, c, d.cache, Viewed(d.cache));
    ClientStep(d, Next(d, Recheck(c)), c, d.clients[c].(view := Viewed(d.cache)));
  }

  lemma RecheckLocks(d: Daemon, c: nat)
    requires Inv(d) && Possible(d, Recheck(c)) && !(d.cache != [] && d.gen == d.clients[c].view.gen)
    ensures Inv(Next(d, Recheck(c)))
  {
    WasOk(d, c);
    ClientStep(d, Next(d, Recheck(c)), c, d.clients[c].(view := Locked));
  }

  lemma RecheckKeepsInv(d: Daemon, c: nat)
    requires Inv(d) && Possible(d, Recheck(c))
    ensures Inv(Next(d, Recheck(c)))
  {
    if d.cache != [] && d.gen == d.clients[c].view.gen {
      RecheckHits(d, c);
    } else {
      RecheckLocks(d, c);
    }
  }

  lemma LoadKeepsInv(d: Daemon, c: nat, feed: Feed)
    requires Inv(d) && Possible(d, Load(c, feed))
    ensures Inv(Next(d, Load(c, feed)))
  {
    WasOk(d, c);
    forall se ensures ShownIn(d.store, se) ==> se in feed {
      FeedShows(feed, d.store, se);
    }
    assert OnlyGained(d.store, d.store);
    ReadIsOk(d, c, feed, Loaded(feed));
    ClientStep(d, Next(d, Load(c, feed)), c, d.clients[c].(view := Loaded(feed)));
  }

  lemma PublishKeepsInv(d: Daemon, c: nat)
    requires Inv(d) && Possible(d, Publish(c))
    ensures Inv(Next(d, Publish(c)))
  {
    hide Good, Informed, ShownIn, WriterInv;
    WasOk(d, c);
    var feed := d.clients[c].view.feed;
    ReadIsOk(d, c, feed, Viewed(feed));
    ClientStep(d, Next(d, Publish(c)), c, d.clients[c].(view := Viewed(feed)));
  }

  lemma DeliverKeepsInv(d: Daemon, c: nat)
    requires Inv(d) && Possible(d, Deliver(c))
    ensures Inv(Next(d, Deliver(c)))
  {
    WasOk(d, c);
    var x := d.clients[c];
    var x' := x.(queue := x.queue[1..], delivered := x.delivered + [x.queue[0]]);
    forall se | Got(x, se) ensures Got(x', se) {
      DeliveryKeeps(x, se);
    }
    ClientStep(d, Next(d, Deliver(c)), c, x');
  }

  lemma DeliveryKeeps(x: Client, se: SignedEvent)
    requires x.queue != [] && Got(x, se)
    ensures Got(x.(queue := x.queue[1..], delivered := x.delivered + [x.queue[0]]), se)
  {
    var delivered := x.delivered + [x.queue[0]];
    if b :| b in x.queue && se in b {
      if b == x.queue[0] {
        assert b in delivered;
      } else {
        assert b in x.queue[1..];
      }
    } else {
      var b :| b in x.delivered && se in b;
      assert b in delivered;
    }
  }

  lemma MembershipKeepsInv(d: Daemon, c: nat)
    requires Inv(d)
    ensures Possible(d, Register(c)) ==> Inv(Next(d, Register(c)))
    ensures Possible(d, Leave(c)) ==> Inv(Next(d, Leave(c)))
  {
    hide Good, ShownIn, WriterInv;
    if c in d.clients {
      WasOk(d, c);
      if Possible(d, Register(c)) {
        ClientStep(d, Next(d, Register(c)), c, d.clients[c].(registered := true));
      }
      if Possible(d, Leave(c)) {
        ClientStep(d, Next(d, Leave(c)), c, d.clients[c].(registered := false, dropped := true));
      }
    }
  }

  // ----- Writer steps

  lemma StoringGains(was: multiset<SignedEvent>, store: multiset<SignedEvent>, e: SignedEvent)
    requires OnlyGained(was, store)
    ensures OnlyGained(was, With(store, e))
  {
    forall se | se in was ensures was[se] == With(store, e)[se] {
      assert was[se] == store[se];
    }
  }

  /** Storing one event keeps a good feed good: a new post is pending. */
  lemma StoringKeepsGood(d: Daemon, w: nat, feed: Feed)
    requires WriterInv(d) && Possible(d, Write(w)) && Good(d, feed)
    ensures Good(Next(d, Write(w)), feed)
  {
    hide IsFeed;
    var d', e := Next(d, Write(w)), d.writers[w].todo[0];
    assert IsWriting(d', w);
    var was :| IsFeed(feed, was) && OnlyGained(was, d.store);
    StoringGains(was, d.store, e);
    PendingLasts(d, w);
    forall se | ShownIn(d'.store, se) && se !in feed ensures Pending(d', se) {
      if se == e && e !in d.store {
        assert e in d'.writers[w].posts;
      } else {
        assert ShownIn(d.store, se);
        assert Pending(d, se);
      }
    }
  }

  lemma PendingLasts(d: Daemon, w: nat)
    requires Possible(d, Write(w))
    ensures SomePending(d) ==> SomePending(Next(d, Write(w)))
    ensures forall se :: Pending(d, se) ==> Pending(Next(d, Write(w)), se)
  {
    var d' := Next(d, Write(w));
    assert forall se :: se in d.writers[w].posts ==> se in d'.writers[w].posts;
    if SomePending(d) {
      var v :| IsWriting(d, v) && d.writers[v].posts != [];
      assert IsWriting(d', v) && d'.writers[v].posts != [];
    }
    forall se | Pending(d, se) ensures Pending(d', se) {
      var v :| IsWriting(d, v) && se in d.writers[v].posts;
      assert IsWriting(d', v) && se in d'.writers[v].posts;
    }
  }

  lemma StoringKeepsWriters(d: Daemon, w: nat)
    requires WriterInv(d) && Possible(d, Write(w))
    ensures WriterInv(Next(d, Write(w)))
  {}

  lemma StoringKeepsInformed(d: Daemon, w: nat, c: nat, x: Client)
    requires WriterInv(d) && Possible(d, Write(w)) && AllInformed(d, c, x)
    ensures AllInformed(Next(d, Write(w)), c, x)
  {
    var d' := Next(d, Write(w));
    forall v, se | v in d'.writers && se in d'.writers[v].posts && ShownIn(d'.store, se)
      ensures Informed(x, c, d'.writers[v], se)
    {
      if v != w {
        assert se in d.store && ShownIn(d.store, se);
        assert Informed(x, c, d.writers[v], se);
      }
    }
  }

  lemma WriteKeepsInv(d: Daemon, w: nat)
    requires Inv(d) && Possible(d, Write(w))
    ensures Inv(Next(d, Write(w)))
  {
    var d' := Next(d, Write(w));
    StoringKeepsWriters(d, w);
    if d.cache != [] {
      StoringKeepsGood(d, w, d.cache);
    }
    forall c | c in d.clients && d.clients[c].view.Loaded? ensures Good(d', d.clients[c].view.feed) {
      StoringKeepsGood(d, w, d.clients[c].view.feed);
    }
    forall c | c in d.clients && Active(d.clients[c]) ensures AllInformed(d', c, d.clients[c]) {
      StoringKeepsInformed(d, w, c, d.clients[c]);
    }
  }

  /** A step that moves one writer to a stage in which whatever it owes has been done. */
  lemma StageStep(d: Daemon, w: nat, x: Writer)
    requires Inv(d) && w in d.writers && x.posts == d.writers[w].posts
    requires x.posts == [] || (x.stage.Writing? <==> d.writers[w].stage.Writing?)
    requires forall c :: c in Told(x) && c in d.clients ==> d.clients[c].registered || d.clients[c].dropped
    requires forall c, se :: c in d.clients && Active(d.clients[c]) && se in x.posts && ShownIn(d.store, se)
               ==> Informed(d.clients[c], c, x, se)
    ensures Inv(WithWriter(d, w, x))
  {
    hide Good, ShownIn;
    var d' := WithWriter(d, w, x);
    forall feed | Good(d, feed) ensures Good(d', feed) {
      StageKeepsGood(d, w, x, feed);
    }
    forall c | c in d.clients && Active(d.clients[c]) ensures AllInformed(d', c, d.clients[c]) {
      assert AllInformed(d, c, d.clients[c]);
    }
  }

  lemma StageKeepsGood(d: Daemon, w: nat, x: Writer, feed: Feed)
    requires Good(d, feed) && w in d.writers && x.posts == d.writers[w].posts
    requires x.posts == [] || (x.stage.Writing? <==> d.writers[w].stage.Writing?)
    ensures Good(WithWriter(d, w, x), feed)
  {
    var d' := WithWriter(d, w, x);
    if SomePending(d) {
      var v :| IsWriting(d, v) && d.writers[v].posts != [];
      assert IsWriting(d', v) && d'.writers[v].posts != [];
    }
    forall se | Pending(d, se) ensures Pending(d', se) {
      var v :| IsWriting(d, v) && se in d.writers[v].posts;
      assert IsWriting(d', v) && se in d'.writers[v].posts;
    }
  }

  lemma InvalidateKeepsInv(d: Daemon, w: nat)
    requires Inv(d) && Possible(d, Invalidate(w))
    ensures Inv(Next(d, Invalidate(w)))
  {
    hide Good, ShownIn;
    var d' := Next(d, Invalidate(w));
    forall c | c in d.clients && Active(d.clients[c]) ensures AllInformed(d', c, d.clients[c]) {
      assert AllInformed(d, c, d.clients[c]);
    }
  }

  lemma PushIsOk(d: Daemon, c: nat, posts: Feed)
    requires Inv(d) && c in d.clients
    ensures ClientOk(d, c, Pushed(d.clients[c], posts))
  {
    WasOk(d, c);
    var x, x' := d.clients[c], Pushed(d.clients[c], posts);
    forall se | Got(x, se) && Active(x') ensures Got(x', se) {
      if b :| b in x.queue && se in b {
        assert b in x'.queue;
      }
    }
  }

  lemma SendKeepsInv(d: Daemon, w: nat, c: nat)
    requires Inv(d) && Possible(d, Send(w, c))
    ensures Inv(Next(d, Send(w, c)))
  {
    hide Good, ShownIn;
    var x := d.writers[w];
    var x' := x.(stage := x.stage.(rest := x.stage.rest - {c}));
    var d1 := if c in d.clients then WithClient(d, c, Pushed(d.clients[c], x.posts)) else d;
    if c in d.clients {
      PushIsOk(d, c, x.posts);
      ClientStep(d, d1, c, Pushed(d.clients[c], x.posts));
    }
    forall k, se | k in d1.clients && Active(d1.clients[k]) && se in x.posts && ShownIn(d1.store, se)
      ensures Informed(d1.clients[k], k, x', se)
    {
      assert AllInformed(d1, k, d1.clients[k]);
      assert Informed(d1.clients[k], k, x, se);
      if k == c {
        assert x.posts in d1.clients[k].queue;
      }
    }
    StageStep(d1, w, x');
    assert Next(d, Send(w, c)) == WithWriter(d1, w, x');
  }

  lemma BroadcastKeepsInv(d: Daemon, w: nat)
    requires Inv(d)
    ensures Possible(d, CopySubs(w)) ==> Inv(Next(d, CopySubs(w)))
    ensures Possible(d, EndSend(w)) ==> Inv(Next(d, EndSend(w)))
  {
    hide Good, ShownIn, Got;
    if Possible(d, CopySubs(w)) {
      StageStep(d, w, Next(d, CopySubs(w)).writers[w]);
    }
    if Possible(d, EndSend(w)) {
      forall c, se | c in d.clients && Active(d.clients[c]) && se in d.writers[w].posts && ShownIn(d.store, se)
        ensures Informed(d.clients[c], c, Next(d, EndSend(w)).writers[w], se)
      {
        assert AllInformed(d, c, d.clients[c]);
        assert Informed(d.clients[c], c, d.writers[w], se);
      }
      StageStep(d, w, Next(d, EndSend(w)).writers[w]);
    }
  }

  lemma StopKeepsInv(d: Daemon, w: nat)
    requires Inv(d)
    ensures Possible(d, Cut(w)) ==> Inv(Next(d, Cut(w)))
    ensures Possible(d, Skip(w)) ==> Inv(Next(d, Skip(w)))
  {
    hide Good, LockInv, WriterInv, ShownIn;
    if Possible(d, Cut(w)) {
      assert forall c :: c in d.clients && Active(d.clients[c]) ==> AllInformed(d, c, d.clients[c]);
      StageStep(d, w, d.writers[w].(todo := []));
    }
    if Possible(d, Skip(w)) {
      StageStep(d, w, d.writers[w].(stage := Done({})));
    }
  }

  lemma ActKeepsInv(d: Daemon, a: Act)
    requires Inv(d) && Possible(d, a)
    ensures Inv(Next(d, a))
  {
    hide CacheInv, LockInv, WriterInv, SubscribeInv, Possible, Next;
    match a
    case Write(w) => WriteKeepsInv(d, w);
    case Cut(w) => StopKeepsInv(d, w);
    case Invalidate(w) => InvalidateKeepsInv(d, w);
    case Skip(w) => StopKeepsInv(d, w);
    case CopySubs(w) => BroadcastKeepsInv(d, w);
    case Send(w, c) => SendKeepsInv(d, w, c);
    case EndSend(w) => BroadcastKeepsInv(d, w);
    case Register(c) => MembershipKeepsInv(d, c);
    case Look(c) => LookKeepsInv(d, c);
    case Recheck(c) => RecheckKeepsInv(d, c);
    case Load(c, feed) => LoadKeepsInv(d, c, feed);
    case Publish(c) => PublishKeepsInv(d, c);
    case Deliver(c) => DeliverKeepsInv(d, c);
    case Leave(c) => MembershipKeepsInv(d, c);
  }

  // ----- Whole runs

  ghost predicate Feasible(d: Daemon, acts: seq<Act>)
    decreases acts
  {
    acts != [] ==> Possible(d, acts[0]) && Feasible(Next(d, acts[0]), acts[1..])
  }

  ghost predicate AllCareful(d: Daemon, acts: seq<Act>)
    requires Feasible(d, acts)
    decreases acts
  {
    acts != [] ==> Careful(d, acts[0]) && AllCareful(Next(d, acts[0]), acts[1..])
  }

  ghost predicate Admissible(d: Daemon, acts: seq<Act>) {
    Feasible(d, acts) && AllCareful(d, acts)
  }

  ghost function Run(d: Daemon, acts: seq<Act>): Daemon
    requires Feasible(d, acts)
    decreases acts
  {
    if acts == [] then d else Run(Next(d, acts[0]), acts[1..])
  }

  lemma {:induction false} RunKeepsInv(d: Daemon, acts: seq<Act>)
    requires Inv(d) && Feasible(d, acts)
    ensures Inv(Run(d, acts))
    decreases acts
  {
    if acts != [] {
      ActKeepsInv(d, acts[0]);
      RunKeepsInv(Next(d, acts[0]), acts[1..]);
    }
  }

  /** A daemon at start: any store, no cache, and any number of writers and clients that have
      not begun. */
  ghost predicate Initial(d: Daemon) {
    && d.cache == [] && d.lock.None?
    && (forall c :: c in d.clients ==> d.clients[c].view.Idle? && !d.clients[c].registered)
    && (forall w :: w in d.writers ==> d.writers[w].posts == [] && d.writers[w].stage.Writing?)
  }

  lemma StartsOk(d: Daemon)
    requires Initial(d)
    ensures Inv(d)
  {}

  /** A feed that once was right is so now exactly when it shows what the store shows. */
  lemma OnceRight(feed: Feed, store: multiset<SignedEvent>)
    requires WasFeed(feed, store)
    ensures IsFeed(feed, store) <==> forall se :: se in feed <==> ShownIn(store, se)
  {
    hide IsFeed;
    var was :| IsFeed(feed, was) && OnlyGained(was, store);
    StillTheFeed(feed, was, store);
    forall se ensures se in feed <==> ShownIn(was, se) {
      FeedShows(feed, was, se);
    }
    if forall se :: se in feed <==> ShownIn(store, se) {
      assert SameShown(was, store);
    }
    if IsFeed(feed, store) {
      forall se ensures se in feed <==> ShownIn(store, se) {
        FeedShows(feed, store, se);
      }
    }
  }

  /** How a cached feed can be wrong, in every interleaving: it lacks only posts whose writer
      is still to invalidate, and apart from these it is the feed of the store as it is now
      exactly when it shows no post that the store has since seen deleted. */
  lemma CacheIsStaleExactly(d: Daemon, acts: seq<Act>)
    requires Initial(d) && Feasible(d, acts) && Run(d, acts).cache != []
    ensures var r := Run(d, acts);
      && (forall se :: ShownIn(r.store, se) && se !in r.cache ==> Pending(r, se))
      && (IsFeed(r.cache, r.store) <==> forall se :: se in r.cache <==> ShownIn(r.store, se))
      && (!SomePending(r) ==> (IsFeed(r.cache, r.store) <==> NoneDeleted(r.store, r.cache)))
  {
    hide Run, Feasible, IsFeed, WasFeed, WriterInv, LockInv, SubscribeInv, ShownIn, Initial;
    StartsOk(d);
    RunKeepsInv(d, acts);
    var r := Run(d, acts);
    OnceRight(r.cache, r.store);
    assert forall se :: Pending(r, se) ==> SomePending(r);
  }

  // ----- Runs that delete with care

  /** Every post the feed shows is still shown by the store. */
  ghost predicate NoneDeleted(store: multiset<SignedEvent>, feed: Feed) {
    forall se :: se in feed ==> ShownIn(store, se)
  }

  ghost predicate Undeleted(d: Daemon, feed: Feed) {
    SomePending(d) || NoneDeleted(d.store, feed)
  }

  ghost predicate UndeletedInv(d: Daemon) {
    && (d.cache != [] ==> Undeleted(d, d.cache))
    && (forall c :: c in d.clients && d.clients[c].view.Loaded? ==> Undeleted(d, d.clients[c].view.feed))
  }

  lemma CarefulWrite(d: Daemon, w: nat, feed: Feed)
    requires Possible(d, Write(w)) && Careful(d, Write(w)) && Undeleted(d, feed)
    ensures Undeleted(Next(d, Write(w)), feed)
  {
    var d', e := Next(d, Write(w)), d.writers[w].todo[0];
    PendingLasts(d, w);
    assert IsWriting(d', w);
    if !SomePending(d) && e !in d.store && d'.writers[w].posts == [] {
      assert !Hides(e, d.store);
      forall se | se in feed ensures ShownIn(d'.store, se) {
        assert ShownIn(d.store, se);
      }
    }
  }

  /** Any other step neither stores anything nor takes away what is pending, but for an
      invalidation, which leaves no feed behind. */
  lemma PendingStays(d: Daemon, a: Act)
    requires Possible(d, a) && !a.Write? && !a.Invalidate? && SomePending(d)
    ensures SomePending(Next(d, a))
  {
    var v :| IsWriting(d, v) && d.writers[v].posts != [];
    assert IsWriting(Next(d, a), v) && Next(d, a).writers[v].posts == d.writers[v].posts;
  }

  lemma FeedsComeFromBefore(d: Daemon, a: Act)
    requires Possible(d, a) && !a.Write? && !a.Invalidate?
    ensures Next(d, a).store == d.store
    ensures Next(d, a).cache == d.cache || (a.Publish? && Next(d, a).cache == d.clients[a.c].view.feed)
    ensures forall c :: c in Next(d, a).clients && Next(d, a).clients[c].view.Loaded? ==>
      || (c in d.clients && d.clients[c].view == Next(d, a).clients[c].view)
      || (a.Load? && Next(d, a).clients[c].view.feed == a.feed)
  {}

  lemma ActKeepsUndeleted(d: Daemon, a: Act)
    requires LockInv(d) && UndeletedInv(d) && Possible(d, a) && Careful(d, a)
    ensures UndeletedInv(Next(d, a))
  {
    var d' := Next(d, a);
    if a.Write? {
      if d.cache != [] {
        CarefulWrite(d, a.w, d.cache);
      }
      forall c | c in d.clients && d.clients[c].view.Loaded? ensures Undeleted(d', d.clients[c].view.feed) {
        CarefulWrite(d, a.w, d.clients[c].view.feed);
      }
    } else if !a.Invalidate? {
      OtherStepKeepsUndeleted(d, a);
    }
  }

  lemma OtherStepKeepsUndeleted(d: Daemon, a: Act)
    requires UndeletedInv(d) && Possible(d, a) && !a.Write? && !a.Invalidate?
    ensures UndeletedInv(Next(d, a))
  {
    FeedsComeFromBefore(d, a);
    if SomePending(d) {
      PendingStays(d, a);
    } else if a.Load? {
      forall se | se in a.feed ensures ShownIn(d.store, se) {
        FeedShows(a.feed, d.store, se);
      }
    }
  }

  lemma {:induction false} RunKeepsUndeleted(d: Daemon, acts: seq<Act>)
    requires Inv(d) && UndeletedInv(d) && Admissible(d, acts)
    ensures UndeletedInv(Run(d, acts))
    decreases acts
  {
    if acts != [] {
      ActKeepsInv(d, acts[0]);
      ActKeepsUndeleted(d, acts[0]);
      RunKeepsUndeleted(Next(d, acts[0]), acts[1..]);
    }
  }

  /** Cache coherence: over every run in which a Delete that hides a shown post comes from a
      writer bound to invalidate, a cache that is not empty is the feed of the store as it is
      now, unless some writer has stored a post and not yet invalidated. */
  lemma CacheIsCoherent(d: Daemon, acts: seq<Act>)
    requires Initial(d) && Admissible(d, acts)
    ensures Run(d, acts).cache != [] && !SomePending(Run(d, acts)) ==> IsFeed(Run(d, acts).cache, Run(d, acts).store)
  {
    RunKeepsUndeleted(d, acts);
    if Run(d, acts).cache != [] {
      CacheIsStaleExactly(d, acts);
    }
  }

  /** No post is lost on subscribe: in every interleaving, once a writer's broadcast is over,
      a registered subscriber that has its snapshot and has not been dropped has each post of
      the writer that the feed shows in the feed its snapshot was cut from, or queued, or
      delivered. */
  lemma NoPostIsLost(d: Daemon, acts: seq<Act>, w: nat, c: nat, se: SignedEvent)
    requires Initial(d) && Feasible(d, acts)
    requires var r := Run(d, acts);
      && w in r.writers && r.writers[w].stage.Done? && se in r.writers[w].posts && ShownIn(r.store, se)
      && c in r.clients && Active(r.clients[c]) && r.clients[c].view.Viewed?
    ensures var x := Run(d, acts).clients[c];
      || se in x.view.feed
      || (exists b :: b in x.queue && se in b)
      || (exists b :: b in x.delivered && se in b)
  {
    hide Run, Feasible, CacheInv, LockInv, WriterInv, Initial, ShownIn;
    StartsOk(d);
    RunKeepsInv(d, acts);
    var r := Run(d, acts);
    assert AllInformed(r, c, r.clients[c]);
    assert Informed(r.clients[c], c, r.writers[w], se);
  }

  // ----- Who is dropped, and what a queue holds

  ghost predicate IsPush(d: Daemon, a: Act, c: nat) {
    a.Send? && a.c == c && Possible(d, a)
  }

  /** Some step of the run pushes to c while 256 pushes wait there. */
  ghost predicate SomeOverflow(d: Daemon, acts: seq<Act>, c: nat)
    requires Feasible(d, acts)
    decreases acts
  {
    acts != [] &&
    ((IsPush(d, acts[0], c) && c in d.clients && |d.clients[c].queue| >= 256)
     || SomeOverflow(Next(d, acts[0]), acts[1..], c))
  }

  ghost function Accepts(d: Daemon, a: Act, c: nat): seq<Feed> {
    if IsPush(d, a, c) && c in d.clients && |d.clients[c].queue| < 256 then [d.writers[a.w].posts] else []
  }

  /** The pushes to c in a run that find fewer than 256 waiting, in order. */
  ghost function Accepted(d: Daemon, acts: seq<Act>, c: nat): seq<Feed>
    requires Feasible(d, acts)
    decreases acts
  {
    if acts == [] then [] else Accepts(d, acts[0], c) + Accepted(Next(d, acts[0]), acts[1..], c)
  }

  lemma ActOnClient(d: Daemon, a: Act, c: nat)
    requires Possible(d, a) && c in d.clients
    ensures c in Next(d, a).clients
    ensures var x, x' := d.clients[c], Next(d, a).clients[c];
      && (x'.dropped <==> x.dropped || a == Leave(c) || (IsPush(d, a, c) && |x.queue| >= 256))
      && x'.delivered + x'.queue == x.delivered + x.queue + Accepts(d, a, c)
  {
    if a.Send? {
      PushOnClient(d, a.w, a.c, c);
    } else {
      OtherOnClient(d, a, c);
    }
  }

  lemma PushOnClient(d: Daemon, w: nat, to: nat, c: nat)
    requires Possible(d, Send(w, to)) && c in d.clients
    ensures c in Next(d, Send(w, to)).clients
    ensures var x, x' := d.clients[c], Next(d, Send(w, to)).clients[c];
      if c != to then x' == x
      else if |x.queue| < 256 then x' == x.(queue := x.queue + [d.writers[w].posts])
      else x' == x.(dropped := true)
  {}

  lemma OtherOnClient(d: Daemon, a: Act, c: nat)
    requires Possible(d, a) && c in d.clients && !a.Send?
    ensures c in Next(d, a).clients
    ensures var x, x' := d.clients[c], Next(d, a).clients[c];
      (x'.dropped <==> x.dropped || a == Leave(c)) && x'.delivered + x'.queue == x.delivered + x.queue
  {
    hide IsFeed, Stored, With;
    if a == Deliver(c) {
      assert d.clients[c].queue == [d.clients[c].queue[0]] + d.clients[c].queue[1..];
    }
  }

  /** Over every run, a client is dropped if and only if it leaves or some push to it meets 256
      that are still to be delivered. */
  lemma {:induction false} DroppedExactly(d: Daemon, acts: seq<Act>, c: nat)
    requires Feasible(d, acts) && c in d.clients && !d.clients[c].dropped
    ensures c in Run(d, acts).clients
    ensures Run(d, acts).clients[c].dropped <==> Leave(c) in acts || SomeOverflow(d, acts, c)
    decreases acts
  {
    if acts != [] {
      var d1 := Next(d, acts[0]);
      ActOnClient(d, acts[0], c);
      assert acts == [acts[0]] + acts[1..];
      if d1.clients[c].dropped {
        DroppedStays(d1, acts[1..], c);
      } else {
        DroppedExactly(d1, acts[1..], c);
      }
    }
  }

  lemma {:induction false} DroppedStays(d: Daemon, acts: seq<Act>, c: nat)
    requires Feasible(d, acts) && c in d.clients && d.clients[c].dropped
    ensures c in Run(d, acts).clients && Run(d, acts).clients[c].dropped
    decreases acts
  {
    if acts != [] {
      ActOnClient(d, acts[0], c);
      DroppedStays(Next(d, acts[0]), acts[1..], c);
    }
  }

  /** Nothing accepted is lost, repeated or reordered: what a client has been delivered,
      followed by what waits for it, is what it had and then every accepted push in order. */
  lemma {:induction false} QueueConserves(d: Daemon, acts: seq<Act>, c: nat)
    requires Feasible(d, acts) && c in d.clients
    ensures c in Run(d, acts).clients
    ensures var x, x' := d.clients[c], Run(d, acts).clients[c];
      x'.delivered + x'.queue == x.delivered + x.queue + Accepted(d, acts, c)
    decreases acts
  {
    if acts != [] {
      ActOnClient(d, acts[0], c);
      QueueConserves(Next(d, acts[0]), acts[1..], c);
      var x, now, later := d.clients[c], Accepts(d, acts[0], c), Accepted(Next(d, acts[0]), acts[1..], c);
      assert (x.delivered + x.queue + now) + later == x.delivered + x.queue + (now + later);
    }
  }
}
