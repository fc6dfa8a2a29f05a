/** Serving and pulling a log (internal/sync/session.go): the request handler with its
    batches, and the pull loop that merges what arrives and then advances the cursor. Both
    are tied to the state machine of Cursor.dfy. */
module Sessions {
  import opened Events
  import opened Projection
  import opened Buckets
  import opened Accounts
  import opened Timeline
  import opened Wire
  import opened Stores
  import opened Cursors

  datatype ZenRef = ZenRef(token: Bytes, identity: Identity, name: Bytes)

  datatype Message =
    | Request(log: LogName, after: int, author: Identity)
    | Events(items: seq<SignedEvent>)
    | NoEvents                                             // an Events message without payload
    | Done
    | Reverse
    | Zens(tokens: seq<Bytes>, refs: seq<ZenRef>)
    | Hello(identity: Identity, nonce: Bytes)
    | Auth(signature: Signature)
    | Other

  // ----- Zen references

  function Tokens(refs: seq<ZenRef>): seq<Bytes> {
    seq(|refs|, i requires 0 <= i < |refs| => refs[i].token)
  }

  function NewZens(refs: seq<ZenRef>): Message {
    Zens(Tokens(refs), refs)
  }

  /** The richer items if there are any, bare tokens otherwise. */
  function ZensFromMsg(m: Message): seq<ZenRef>
    requires m.Zens?
  {
    if m.refs != [] then m.refs
    else seq(|m.tokens|, i requires 0 <= i < |m.tokens| => ZenRef(m.tokens[i], Anonymous, []))
  }

  lemma ZensRoundTrip(refs: seq<ZenRef>)
    ensures ZensFromMsg(NewZens(refs)) == refs
    ensures var r := ZensFromMsg(Zens(Tokens(refs), []));
      |r| == |refs| && forall i :: 0 <= i < |r| ==> r[i] == ZenRef(refs[i].token, Anonymous, [])
  {}

  // ----- Serving

  const BATCH_SIZE := 64

  function Reply(events: seq<SignedEvent>): seq<Message>
    decreases |events|
  {
    if events == [] then [Done]
    else
      var n := Least(BATCH_SIZE, |events|);
      [Events(events[..n])] + Reply(events[n..])
  }

  /** Full batches of 64 in order, the rest, and Done. */
  lemma {:induction false} ReplyAt(events: seq<SignedEvent>)
    ensures var out := Reply(events);
      && |out| == (|events| + 63) / 64 + 1 && out[|out| - 1] == Done
      && (forall i :: 0 <= i < |out| - 2 ==> out[i] == Events(events[64 * i..64 * i + 64]))
      && (|out| > 1 ==> out[|out| - 2] == Events(events[64 * (|out| - 2)..]))
    decreases |events|
  {
    if |events| > 64 {
      var rest := events[64..];
      var out, more := Reply(events), Reply(rest);
      ReplyAt(rest);
      forall i | 0 <= i < |out| - 2 ensures out[i] == Events(events[64 * i..64 * i + 64]) {
        if i > 0 {
          assert out[i] == more[i - 1];
          assert rest[64 * (i - 1)..64 * (i - 1) + 64] == events[64 * i..64 * i + 64];
        }
      }
      assert out[|out| - 2] == more[|more| - 2];
      assert rest[64 * (|more| - 2)..] == events[64 * (|out| - 2)..];
    } else if events != [] {
      assert events[..|events|] == events && events[|events|..] == [];
      assert Reply(events) == [Events(events), Done];
      assert events[0..] == events;
    }
  }

  function Least(a: nat, b: nat): nat {
    if a < b then a else b
  }

  /** The events a request is about: the own log, or the cached events of another author,
      where the log name is not looked at. */
  function Source(own: Logs, crawl: Crawl, me: Identity, req: Message): Bucket
    requires req.Request?
  {
    if req.author == Anonymous || req.author == me then LogOf(own, req.log)
    else CrawledOf(crawl, req.author)
  }

  class Server {
    const store: Store
    const me: Identity

    constructor (store: Store, me: Identity)
      ensures this.store == store && this.me == me
    {
      this.store, this.me := store, me;
    }

    /** An author of whom nothing is cached is looked up once more among the crawled profiles;
        these are in the same bucket, so that finds nothing either. */
    method FetchEvents(req: Message) returns (out: seq<SignedEvent>)
      requires req.Request?
      ensures out == Requested(Listing(Source(store.own, store.crawl, me, req)), req.after)
      ensures req.author == Anonymous || req.author == me ==>
        forall se :: se in out <==>
          se.event.timestamp > req.after && exists id :: id in LogOf(store.own, req.log) && LogOf(store.own, req.log)[id] == se
      ensures req.author != Anonymous && req.author != me ==>
        forall se :: se in out <==>
          && se.event.timestamp > req.after
          && exists id :: id in CrawledOf(store.crawl, req.author) && CrawledOf(store.crawl, req.author)[id] == se
      ensures forall i, j :: 0 <= i < j < |out| ==> out[i].event.timestamp <= out[j].event.timestamp
    {
      hide Listing, Requested, Only, LogOf, CrawledOf;
      RequestedEvents(Listing(Source(store.own, store.crawl, me, req)), req.after);
      if req.author == Anonymous || req.author == me {
        var all := store.OwnEvents(req.log);
        out := FilterAfterTime(all, req.after);
        return;
      }
      var cached := store.CrawledEvents(req.author);
      if |cached| == 0 {
        OnlyOfNothing(ProfileLog);
        cached := store.CrawledProfiles(req.author);
      }
      out := FilterAfterTime(cached, req.after);
    }

    static method FilterAfterTime(events: seq<SignedEvent>, after: int) returns (out: seq<SignedEvent>)
      ensures out == Requested(events, after)
    {
      var sorted := SortedByTime(events);
      out := [];
      for i := 0 to |sorted|
        invariant out == Later(sorted[..i], after)
      {
        assert sorted[..i + 1][..i] == sorted[..i];
        if sorted[i].event.timestamp > after {
          out := out + [sorted[i]];
        }
      }
      assert sorted[..|sorted|] == sorted;
    }

    /** Answers in batches, oldest event first, and ends with Done. */
    method HandleRequest(req: Message) returns (out: seq<Message>)
      requires req.Request?
      ensures out == Reply(Requested(Listing(Source(store.own, store.crawl, me, req)), req.after))
      ensures var events := Requested(Listing(Source(store.own, store.crawl, me, req)), req.after);
        && |out| == (|events| + 63) / 64 + 1 && out[|out| - 1] == Done
        && (forall i :: 0 <= i < |out| - 2 ==> out[i] == Events(events[64 * i..64 * i + 64]))
        && (|out| > 1 ==> out[|out| - 2] == Events(events[64 * (|out| - 2)..]))
    {
      ReplyAt(Requested(Listing(Source(store.own, store.crawl, me, req)), req.after));
      var events := FetchEvents(req);
      out := InBatches(events);
      out := out + [Done];
    }

    static method InBatches(events: seq<SignedEvent>) returns (out: seq<Message>)
      ensures out + [Done] == Reply(events)
    {
      out := [];
      var i := 0;
      assert events[0..] == events;
      while i < |events|
        invariant 0 <= i
        invariant out + Reply(events[Least(i, |events|)..]) == Reply(events)
        decreases |events| - i
      {
        var end := i + BATCH_SIZE;
        if end > |events| {
          end := |events|;
        }
        ReplyStep(events, i, end);
        Regroup(out, [Events(events[i..end])], Reply(events[end..]));
        out := out + [Events(events[i..end])];
        i := i + BATCH_SIZE;
      }
    }
  }

  lemma ReplyStep(events: seq<SignedEvent>, i: nat, end: nat)
    requires i < |events| && end == Least(i + BATCH_SIZE, |events|)
    ensures Reply(events[i..]) == [Events(events[i..end])] + Reply(events[end..])
  {
    assert events[i..][..end - i] == events[i..end] && events[i..][end - i..] == events[end..];
  }

  // ----- Pulling

  function VerifiedOnly(items: seq<SignedEvent>): seq<SignedEvent> {
    if items == [] then []
    else
      var v := VerifiedOnly(items[..|items| - 1]);
      if Verified(items[|items| - 1]) then v + [items[|items| - 1]] else v
  }

  /** The verified events of a stream of messages up to the first Done. */
  function Items(inbox: seq<Message>): seq<SignedEvent> {
    if inbox == [] || inbox[0].Done? then []
    else Contribution(inbox[0]) + Items(inbox[1..])
  }

  /** Some Events message before the first Done has the event. */
  ghost predicate Brings(inbox: seq<Message>, se: SignedEvent) {
    exists i :: 0 <= i < |inbox| && (forall j :: 0 <= j <= i ==> !inbox[j].Done?) && inbox[i].Events? && se in inbox[i].items
  }

  lemma {:induction false} ItemsAreBrought(inbox: seq<Message>)
    ensures forall se :: se in Items(inbox) <==> Verified(se) && Brings(inbox, se)
  {
    hide Verified;
    if inbox != [] && !inbox[0].Done? {
      var rest := inbox[1..];
      ItemsAreBrought(rest);
      if inbox[0].Events? {
        VerifiedOnlySelects(inbox[0].items);
      }
      forall se ensures Brings(inbox, se) <==> (inbox[0].Events? && se in inbox[0].items) || Brings(rest, se) {
        BringsNext(inbox, se);
      }
    }
  }

  lemma BringsNext(inbox: seq<Message>, se: SignedEvent)
    requires inbox != [] && !inbox[0].Done?
    ensures Brings(inbox, se) <==> (inbox[0].Events? && se in inbox[0].items) || Brings(inbox[1..], se)
  {
    var rest := inbox[1..];
    if i :| 0 <= i < |inbox| && (forall j :: 0 <= j <= i ==> !inbox[j].Done?) && inbox[i].Events? && se in inbox[i].items {
      if i > 0 {
        assert rest[i - 1] == inbox[i] && forall j :: 0 <= j <= i - 1 ==> rest[j] == inbox[j + 1];
      }
    }
    if i :| 0 <= i < |rest| && (forall j :: 0 <= j <= i ==> !rest[j].Done?) && rest[i].Events? && se in rest[i].items {
      assert inbox[i + 1] == rest[i];
      forall j | 0 <= j <= i + 1 ensures !inbox[j].Done? {
        if j > 0 {
          assert inbox[j] == rest[j - 1];
        }
      }
    }
  }

  /** What merging a list does: nothing held is lost or replaced; whatever is added was in the
      list, own events in their own log and others under their author; all of it is covered. */
  lemma {:induction false} MergeAllMeans(st: (Logs, Crawl), me: Identity, s: seq<SignedEvent>)
    ensures var r := MergeAll(st, me, s);
      && (forall l :: Extends(LogOf(r.0, l), LogOf(st.0, l)))
      && (forall a :: Extends(CrawledOf(r.1, a), CrawledOf(st.1, a)))
      && (forall l, id :: id in LogOf(r.0, l) && id !in LogOf(st.0, l) ==>
            LogOf(r.0, l)[id] in s && LogOf(r.0, l)[id].author == me && LogOf(r.0, l)[id].event.log == l)
      && (forall a, id :: id in CrawledOf(r.1, a) && id !in CrawledOf(st.1, a) ==>
            CrawledOf(r.1, a)[id] in s && CrawledOf(r.1, a)[id].author == a && a != me)
      && (forall se :: se in s ==>
            Covered(if se.author == me then LogOf(r.0, se.event.log) else CrawledOf(r.1, se.author), se))
  {
    if s != [] {
      var front, last := s[..|s| - 1], s[|s| - 1];
      assert s == front + [last];
      MergeAllMeans(st, me, front);
      MergeOneMeans(MergeAll(st, me, front), me, last);
    }
  }

  lemma MergeOneMeans(st: (Logs, Crawl), me: Identity, se: SignedEvent)
    ensures var r := MergeOne(st, me, se);
      && (forall l :: Extends(LogOf(r.0, l), LogOf(st.0, l)))
      && (forall a :: Extends(CrawledOf(r.1, a), CrawledOf(st.1, a)))
      && (forall l, id :: id in LogOf(r.0, l) && id !in LogOf(st.0, l) ==>
            LogOf(r.0, l)[id] == se && se.author == me && se.event.log == l)
      && (forall a, id :: id in CrawledOf(r.1, a) && id !in CrawledOf(st.1, a) ==>
            CrawledOf(r.1, a)[id] == se && se.author == a && a != me)
      && Covered(if se.author == me then LogOf(r.0, se.event.log) else CrawledOf(r.1, se.author), se)
  {
    hide CanonicalEncode;
  }

  /** What merging an inbox does, from its messages. */
  lemma MergedInbox(st: (Logs, Crawl), me: Identity, inbox: seq<Message>)
    ensures var r := MergeAll(st, me, Items(inbox));
      && (forall l :: Extends(LogOf(r.0, l), LogOf(st.0, l)))
      && (forall a :: Extends(CrawledOf(r.1, a), CrawledOf(st.1, a)))
      && (forall l, id :: id in LogOf(r.0, l) && id !in LogOf(st.0, l) ==>
            var se := LogOf(r.0, l)[id]; Verified(se) && se.author == me && se.event.log == l && Brings(inbox, se))
      && (forall a, id :: id in CrawledOf(r.1, a) && id !in CrawledOf(st.1, a) ==>
            var se := CrawledOf(r.1, a)[id]; Verified(se) && se.author == a && a != me && Brings(inbox, se))
      && (forall i, se ::
            && 0 <= i < |inbox| && (forall j :: 0 <= j <= i ==> !inbox[j].Done?)
            && inbox[i].Events? && se in inbox[i].items && Verified(se)
            ==> Covered(if se.author == me then LogOf(r.0, se.event.log) else CrawledOf(r.1, se.author), se))
  {
    hide Verified, Items, MergeAll, Covered, Extends, LogOf, CrawledOf;
    ItemsAreBrought(inbox);
    MergeAllMeans(st, me, Items(inbox));
    var r := MergeAll(st, me, Items(inbox));
    forall i, se |
      && 0 <= i < |inbox| && (forall j :: 0 <= j <= i ==> !inbox[j].Done?)
      && inbox[i].Events? && se in inbox[i].items && Verified(se)
      ensures Covered(if se.author == me then LogOf(r.0, se.event.log) else CrawledOf(r.1, se.author), se)
    {
      assert Brings(inbox, se);
    }
  }

  function MaxTime(start: int, s: seq<SignedEvent>): int {
    if s == [] then start
    else
      var t := MaxTime(start, s[..|s| - 1]);
      if s[|s| - 1].event.timestamp > t then s[|s| - 1].event.timestamp else t
  }

  function MergeOne(st: (Logs, Crawl), me: Identity, se: SignedEvent): (Logs, Crawl) {
    if se.author == me then (Appended(st.0, se.event.log, se), st.1)
    else (st.0, st.1[se.author := Insert(CrawledOf(st.1, se.author), se)])
  }

  function MergeAll(st: (Logs, Crawl), me: Identity, s: seq<SignedEvent>): (Logs, Crawl) {
    if s == [] then st else MergeOne(MergeAll(st, me, s[..|s| - 1]), me, s[|s| - 1])
  }

  /** How many merges report an insertion; for own events every one does. */
  function Inserted(st: (Logs, Crawl), me: Identity, s: seq<SignedEvent>): nat {
    if s == [] then 0
    else
      var before, se := MergeAll(st, me, s[..|s| - 1]), s[|s| - 1];
      Inserted(st, me, s[..|s| - 1])
      + if se.author == me || !Covered(CrawledOf(before.1, se.author), se) then 1 else 0
  }

  /** Timestamps are 64-bit on the wire. */
  ghost predicate WireTimes(inbox: seq<Message>) {
    forall m, se :: m in inbox && m.Events? && se in m.items ==> Int64(se.event.timestamp)
  }

  type SyncCursors = map<(Identity, LogName), Octets>

  /** The stored cursors after a pull that asked for what is later than after and got these
      events. */
  function CursorsAfter(cursors: SyncCursors, zen: Identity, log: LogName, after: int,
          got: seq<SignedEvent>): SyncCursors {
    if MaxTime(0, got) == 0 then cursors
    else cursors[(zen, log) := CursorBytes(Advanced(0, after, MaxTime(0, got)))]
  }

  /** The time a pull of a peer's log asks for, when it uses the stored cursors. */
  function PullStart(cursors: SyncCursors, zen: Identity, log: LogName, from: int): int {
    var c := StoredCursor(cursors, zen, log);
    if c > from then c else from
  }

  /** It is the later of the given time and the recorded one, whatever is recorded for other
      peers and other logs. */
  lemma StartIsTheLater(cursors: SyncCursors, zen: Identity, log: LogName, from: int, t: int)
    requires Int64(t) && (zen, log) in cursors && cursors[(zen, log)] == CursorBytes(t)
    ensures PullStart(cursors, zen, log, from) == if from < t then t else from
  {
    CursorRoundTrip(t);
  }

  /** A pull leaves nothing out from the start: if the puller has covered the log up to the
      given time and up to what is recorded, or zero, then it asks for all it has not covered. */
  lemma StartIsSafe(cursors: SyncCursors, zen: Identity, log: LogName, from: int, t: int, b: Bucket, held: Bucket)
    requires if (zen, log) in cursors then Int64(t) && cursors[(zen, log)] == CursorBytes(t) else t == 0
    requires CursorSafe(b, held, from) && CursorSafe(b, held, t)
    ensures forall id :: id in b && !Covered(held, b[id]) ==> b[id].event.timestamp > PullStart(cursors, zen, log, from)
  {
    if (zen, log) in cursors {
      StartIsTheLater(cursors, zen, log, from, t);
    }
  }

  class Session {
    const store: Store
    const me: Identity         // the store's own identity
    const useCursors: bool     // a cursor source and sink are set
    var cursorZen: Identity    // the authenticated peer, Anonymous before the handshake

    constructor (store: Store, me: Identity, useCursors: bool)
      ensures this.store == store && this.me == me && this.useCursors == useCursors
      ensures cursorZen == Anonymous
    {
      this.store, this.me, this.useCursors, cursorZen := store, me, useCursors, Anonymous;
    }

    method MergeEvent(se: SignedEvent) returns (inserted: bool)
      modifies store`own, store`crawl
      ensures (store.own, store.crawl) == MergeOne(old((store.own, store.crawl)), me, se)
      ensures se.author == me ==>
        && store.crawl == old(store.crawl)
        && forall log :: LogOf(store.own, log)
             == if log == se.event.log then Insert(LogOf(old(store.own), log), se) else LogOf(old(store.own), log)
      ensures se.author != me ==>
        && store.own == old(store.own)
        && forall a :: CrawledOf(store.crawl, a)
             == if a == se.author then Insert(CrawledOf(old(store.crawl), a), se) else CrawledOf(old(store.crawl), a)
      ensures inserted <==> se.author == me || !Covered(CrawledOf(old(store.crawl), se.author), se)
    {
      if se.author == me {
        store.AppendOwnEvent(se.event.log, se);
        inserted := true;
      } else {
        inserted := store.PutCrawledEvent(se);
      }
    }

    method AdvanceCursor(log: LogName, prevAfter: int, maxTS: int)
      requires Int64(prevAfter) && 0 <= maxTS <= MAX_INT64
      modifies store`cursors
      ensures store.cursors
           == if cursorZen == Anonymous || !useCursors || maxTS == 0 then old(store.cursors)
              else old(store.cursors)[(cursorZen, log) := CursorBytes(Advanced(0, prevAfter, maxTS))]
      ensures cursorZen != Anonymous && useCursors && maxTS != 0 ==>
        && (cursorZen, log) in store.cursors
        && CursorValue(store.cursors[(cursorZen, log)])
           == if maxTS - 300_000_000_000 < prevAfter then prevAfter else maxTS - 300_000_000_000
      ensures old(WellStored(store.cursors)) ==> WellStored(store.cursors)
    {
      if cursorZen == Anonymous || !useCursors {
        return;
      }
      if maxTS == 0 {
        return;
      }
      var c := maxTS - SKEW_WINDOW;
      if c < prevAfter {
        c := prevAfter;
      }
      store.PutSyncCursor(cursorZen, log, c);
    }

    /** Merges one batch, skipping what does not verify. */
    method MergeBatch(items: seq<SignedEvent>, newest: int) returns (merged: nat, maxTS: int)
      modifies store`own, store`crawl
      ensures (store.own, store.crawl) == MergeAll(old((store.own, store.crawl)), me, VerifiedOnly(items))
      ensures merged == Inserted(old((store.own, store.crawl)), me, VerifiedOnly(items))
      ensures maxTS == MaxTime(newest, VerifiedOnly(items))
    {
      hide MergeAll, Inserted, MaxTime, VerifiedOnly;
      merged, maxTS := 0, newest;
      ghost var st, v: seq<SignedEvent> := (store.own, store.crawl), [];
      NothingMerged(st, me, newest);
      assert items[..0] == [];
      for i := 0 to |items|
        invariant v == VerifiedOnly(items[..i])
        invariant (store.own, store.crawl) == MergeAll(st, me, v)
        invariant merged == Inserted(st, me, v) && maxTS == MaxTime(newest, v)
      {
        var se := items[i];
        VerifiedOneMore(items, i);
        if !Verified(se) {
          continue;
        }
        MergedOneMore(st, me, newest, v, se);
        var inserted := MergeEvent(se);
        if inserted {
          merged := merged + 1;
        }
        if se.event.timestamp > maxTS {
          maxTS := se.event.timestamp;
        }
        v := v + [se];
      }
      assert items[..|items|] == items;
    }

    /** The read loop of a pull: merges every batch up to Done or the end of the stream. */
    method Drain(inbox: seq<Message>) returns (merged: nat, maxTS: int, done: bool)
      modifies store`own, store`crawl
      ensures done <==> exists m :: m in inbox && m.Done?
      ensures (store.own, store.crawl) == MergeAll(old((store.own, store.crawl)), me, Items(inbox))
      ensures merged == Inserted(old((store.own, store.crawl)), me, Items(inbox))
      ensures maxTS == MaxTime(0, Items(inbox))
    {
      merged, maxTS := 0, 0;
      var i := 0;
      ghost var st, got: seq<SignedEvent> := (store.own, store.crawl), [];
      while i < |inbox| && !inbox[i].Done?
        invariant 0 <= i <= |inbox|
        invariant forall j :: 0 <= j < i ==> !inbox[j].Done?
        invariant got + Items(inbox[i..]) == Items(inbox)
        invariant (store.own, store.crawl) == MergeAll(st, me, got)
        invariant merged == Inserted(st, me, got) && maxTS == MaxTime(0, got)
      {
        DrainStep(st, me, got, inbox, i);
        ghost var v := Contribution(inbox[i]);
        if inbox[i].Events? {
          var n, newest := MergeBatch(inbox[i].items, maxTS);
          merged, maxTS := merged + n, newest;
        }
        got := got + v;
        i := i + 1;
      }
      assert Items(inbox[i..]) == [] && got == Items(inbox);
      done := i < |inbox|;
    }

    /** Requests one log and merges the answer. It asks for what is later than the given time
        and the timestamp recorded for this peer and this log, whichever is later. Whatever
        arrived before the end of the stream is kept, and the cursor advances over it, unless
        reading failed otherwise. */
    method PullLog(log: LogName, from: int, author: Identity, inbox: seq<Message>, end: ReadError)
      returns (request: Message, merged: nat, ok: bool)
      requires Int64(from) && WellStored(store.cursors) && WireTimes(inbox)
      modifies store`own, store`crawl, store`cursors
      ensures request.Request? && request.log == log && request.author == author
      ensures author != Anonymous || cursorZen == Anonymous || !useCursors ==> request.after == from
      ensures author == Anonymous && cursorZen != Anonymous && useCursors ==>
        && request.after == PullStart(old(store.cursors), cursorZen, log, from)
        && ((cursorZen, log) !in old(store.cursors) ==> request.after == if from < 0 then 0 else from)
        && ((cursorZen, log) in old(store.cursors) ==>
              forall t {:trigger CursorBytes(t)} :: Int64(t) && old(store.cursors)[(cursorZen, log)] == CursorBytes(t) ==>
                request.after == if from < t then t else from)
      ensures WellStored(store.cursors)
      ensures ok <==> end == Eof || end == UnexpectedEof || exists m :: m in inbox && m.Done?
      ensures forall a, id :: id in CrawledOf(store.crawl, a) && id !in CrawledOf(old(store.crawl), a) ==>
        var se := CrawledOf(store.crawl, a)[id]; Verified(se) && se.author == a && a != me && Brings(inbox, se)
      ensures forall l, id :: id in LogOf(store.own, l) && id !in LogOf(old(store.own), l) ==>
        var se := LogOf(store.own, l)[id]; Verified(se) && se.author == me && se.event.log == l && Brings(inbox, se)
      ensures (forall a :: Extends(CrawledOf(store.crawl, a), CrawledOf(old(store.crawl), a)))
           && (forall l :: Extends(LogOf(store.own, l), LogOf(old(store.own), l)))
      ensures forall i, se ::
        && 0 <= i < |inbox| && (forall j :: 0 <= j <= i ==> !inbox[j].Done?)
        && inbox[i].Events? && se in inbox[i].items && Verified(se)
        ==> Covered(if se.author == me then LogOf(store.own, se.event.log) else CrawledOf(store.crawl, se.author), se)
      ensures (store.own, store.crawl) == MergeAll(old((store.own, store.crawl)), me, Items(inbox))
      ensures merged == Inserted(old((store.own, store.crawl)), me, Items(inbox))
      ensures store.cursors
           == if !ok || cursorZen == Anonymous || !useCursors then old(store.cursors)
              else CursorsAfter(old(store.cursors), cursorZen, log, request.after, Items(inbox))
    {
      hide CursorBytes, CursorValue, MergeAll, Inserted, Items, MaxTime, Covered, Verified;
      hide Brings, Extends, LogOf, CrawledOf, Advanced;
      var after := from;
      if author == Anonymous && cursorZen != Anonymous && useCursors {
        var c := store.SyncCursor(cursorZen, log);
        if (cursorZen, log) in store.cursors {
          BytesAreACursor(store.cursors[(cursorZen, log)]);
        }
        if c > after {
          after := c;
        }
      }
      request := Request(log, after, author);
      var maxTS, done;
      merged, maxTS, done := Drain(inbox);
      TimesWithin(inbox);
      MergedInbox(old((store.own, store.crawl)), me, inbox);
      if !done && end != Eof && end != UnexpectedEof {
        return request, merged, false;
      }
      AdvanceCursor(log, after, maxTS);
      ok := true;
    }
  }

  lemma NothingMerged(st: (Logs, Crawl), me: Identity, newest: int)
    ensures VerifiedOnly([]) == [] && MergeAll(st, me, []) == st && Inserted(st, me, []) == 0 && MaxTime(newest, []) == newest
  {}

  lemma VerifiedOneMore(items: seq<SignedEvent>, i: nat)
    requires i < |items|
    ensures VerifiedOnly(items[..i + 1]) == VerifiedOnly(items[..i]) + if Verified(items[i]) then [items[i]] else []
  {
    assert items[..i + 1][..i] == items[..i];
  }

  lemma MergedOneMore(st: (Logs, Crawl), me: Identity, newest: int, v: seq<SignedEvent>, se: SignedEvent)
    ensures MergeAll(st, me, v + [se]) == MergeOne(MergeAll(st, me, v), me, se)
    ensures Inserted(st, me, v + [se]) == Inserted(st, me, v)
              + if se.author == me || !Covered(CrawledOf(MergeAll(st, me, v).1, se.author), se) then 1 else 0
    ensures MaxTime(newest, v + [se])
         == if se.event.timestamp > MaxTime(newest, v) then se.event.timestamp else MaxTime(newest, v)
  {
    assert (v + [se])[..|v|] == v;
  }

  lemma {:induction false} MergeAllConcat(st: (Logs, Crawl), me: Identity, s: seq<SignedEvent>, t: seq<SignedEvent>)
    ensures MergeAll(st, me, s + t) == MergeAll(MergeAll(st, me, s), me, t)
    ensures Inserted(st, me, s + t) == Inserted(st, me, s) + Inserted(MergeAll(st, me, s), me, t)
  {
    if t == [] {
      assert s + t == s;
    } else {
      assert (s + t)[..|s + t| - 1] == s + t[..|t| - 1];
      MergeAllConcat(st, me, s, t[..|t| - 1]);
    }
  }

  lemma {:induction false} MaxTimeConcat(start: int, s: seq<SignedEvent>, t: seq<SignedEvent>)
    ensures MaxTime(start, s + t) == MaxTime(MaxTime(start, s), t)
  {
    if t == [] {
      assert s + t == s;
    } else {
      assert (s + t)[..|s + t| - 1] == s + t[..|t| - 1];
      MaxTimeConcat(start, s, t[..|t| - 1]);
    }
  }

  /** What one message contributes. */
  function Contribution(m: Message): seq<SignedEvent> {
    if m.Events? then VerifiedOnly(m.items) else []
  }

  lemma ItemsStep(got: seq<SignedEvent>, rest: seq<Message>)
    requires rest != [] && !rest[0].Done?
    ensures got + Contribution(rest[0]) + Items(rest[1..]) == got + Items(rest)
  {
    Regroup(got, Contribution(rest[0]), Items(rest[1..]));
  }

  /** What reading one more message does to each quantity the read loop keeps. */
  lemma DrainStep(st: (Logs, Crawl), me: Identity, got: seq<SignedEvent>, inbox: seq<Message>, i: nat)
    requires i < |inbox| && !inbox[i].Done?
    ensures var v := Contribution(inbox[i]);
      && got + v + Items(inbox[i + 1..]) == got + Items(inbox[i..])
      && MergeAll(st, me, got + v) == MergeAll(MergeAll(st, me, got), me, v)
      && Inserted(st, me, got + v) == Inserted(st, me, got) + Inserted(MergeAll(st, me, got), me, v)
      && MaxTime(0, got + v) == MaxTime(MaxTime(0, got), v)
  {
    ItemsStep(got, inbox[i..]);
    assert inbox[i..][1..] == inbox[i + 1..];
    MergeAllConcat(st, me, got, Contribution(inbox[i]));
    MaxTimeConcat(0, got, Contribution(inbox[i]));
  }

  lemma Regroup<T>(a: seq<T>, b: seq<T>, c: seq<T>)
    ensures a + b + c == a + (b + c)
  {}

  lemma {:induction false} NewestOf(start: int, s: seq<SignedEvent>)
    ensures MaxTime(start, s) == start || exists se :: se in s && MaxTime(start, s) == se.event.timestamp
    ensures MaxTime(start, s) >= start
  {
    if s != [] {
      NewestOf(start, s[..|s| - 1]);
    }
  }

  lemma {:induction false} VerifiedOnlySelects(s: seq<SignedEvent>)
    ensures forall se :: se in VerifiedOnly(s) <==> se in s && Verified(se)
  {
    if s != [] {
      assert s == s[..|s| - 1] + [s[|s| - 1]];
      VerifiedOnlySelects(s[..|s| - 1]);
    }
  }

  /** Backing off from a received timestamp stays within 64 bits. */
  lemma TimesWithin(inbox: seq<Message>)
    requires WireTimes(inbox)
    ensures 0 <= MaxTime(0, Items(inbox)) <= MAX_INT64
  {
    NewestOf(0, Items(inbox));
    ItemsAreBrought(inbox);
  }

  // ----- What a pull means

  lemma InsertCounts(b: Bucket, se: SignedEvent)
    ensures |Insert(b, se)| == |b| + if Covered(b, se) then 0 else 1
  {
    if !Covered(b, se) {
      assert b[se.Id() := se].Keys == b.Keys + {se.Id()};
    }
  }

  /** Events of one peer land in that peer's bucket, the own logs stay, and the count is the
      number of events the bucket gained. */
  lemma {:induction false} PullFromPeer(st: (Logs, Crawl), me: Identity, zen: Identity, s: seq<SignedEvent>)
    requires AllBy(s, zen) && zen != me
    ensures MergeAll(st, me, s).0 == st.0
    ensures CrawledOf(MergeAll(st, me, s).1, zen) == InsertAll(CrawledOf(st.1, zen), s)
    ensures forall other :: other != zen ==> CrawledOf(MergeAll(st, me, s).1, other) == CrawledOf(st.1, other)
    ensures Inserted(st, me, s) == |CrawledOf(MergeAll(st, me, s).1, zen)| - |CrawledOf(st.1, zen)|
  {
    if s != [] {
      var front, se := s[..|s| - 1], s[|s| - 1];
      PullFromPeer(st, me, zen, front);
      var mid := MergeAll(st, me, front);
      MergeFromPeer(mid, me, se);
      InsertCounts(CrawledOf(mid.1, zen), se);
    }
  }

  /** Events of another device of the same identity land in the own logs, and nowhere else. */
  lemma {:induction false} PullFromTwin(st: (Logs, Crawl), me: Identity, s: seq<SignedEvent>)
    requires AllBy(s, me)
    ensures MergeAll(st, me, s) == (AppendAll(st.0, s), st.1) && Inserted(st, me, s) == |s|
  {
    if s != [] {
      PullFromTwin(st, me, s[..|s| - 1]);
    }
  }

  lemma MergeFromPeer(st: (Logs, Crawl), me: Identity, se: SignedEvent)
    requires se.author != me
    ensures MergeOne(st, me, se).0 == st.0
    ensures CrawledOf(MergeOne(st, me, se).1, se.author) == Insert(CrawledOf(st.1, se.author), se)
    ensures forall other :: other != se.author ==> CrawledOf(MergeOne(st, me, se).1, other) == CrawledOf(st.1, other)
  {}

  lemma {:induction false} VerifiedOnlyKeepsAll(s: seq<SignedEvent>)
    requires forall se :: se in s ==> Verified(se)
    ensures VerifiedOnly(s) == s
  {
    if s != [] {
      assert s == s[..|s| - 1] + [s[|s| - 1]];
      VerifiedOnlyKeepsAll(s[..|s| - 1]);
    }
  }

  lemma PrefixJoins(s: seq<SignedEvent>, n: nat, j: nat)
    requires n + j <= |s|
    ensures s[..n] + s[n..][..j] == s[..n + j]
  {}

  lemma ItemsOfBatch(head: seq<SignedEvent>, rest: seq<Message>, k: nat)
    requires 0 < k <= |rest| + 1 && forall se :: se in head ==> Verified(se)
    ensures Items(([Events(head)] + rest)[..k]) == head + Items(rest[..k - 1])
  {
    hide Verified, VerifiedOnly;
    VerifiedOnlyKeepsAll(head);
    var ms := ([Events(head)] + rest)[..k];
    assert ms[0] == Events(head) && ms[1..] == rest[..k - 1];
  }

  lemma NoItems(ms: seq<Message>)
    requires ms != []
    ensures Items(ms[..0]) == [] && (ms[0].Done? ==> forall k :: 0 <= k <= |ms| ==> Items(ms[..k]) == [])
  {}

  /** A reply cut after k messages delivers the oldest events and nothing else; the whole
      reply delivers them all. */
  lemma {:induction false} CutReplyIsPrefix(events: seq<SignedEvent>, k: nat)
    requires k <= |Reply(events)| && forall se :: se in events ==> Verified(se)
    ensures Items(Reply(events)[..k]) == events[..Least(BATCH_SIZE * k, |events|)]
    decreases |events|
  {
    hide Verified, Items;
    NoItems(Reply(events));
    if k > 0 && events != [] {
      var n := Least(BATCH_SIZE, |events|);
      var head, rest := events[..n], events[n..];
      ItemsOfBatch(head, Reply(rest), k);
      CutReplyIsPrefix(rest, k - 1);
      var j := Least(BATCH_SIZE * (k - 1), |rest|);
      assert n + j == Least(BATCH_SIZE * k, |events|);
      PrefixJoins(events, n, j);
    }
  }

  // ----- Refinement of the cursor machine

  function Receives(id: nat, n: nat): seq<Move> {
    if n == 0 then [] else Receives(id, n - 1) + [Receive(id)]
  }

  /** The machine after one pull has received n of its events. */
  ghost function AfterReceives(s: System, id: nat, n: nat): System
    requires id in s.pulls && n <= |s.pulls[id].pending|
  {
    var p := s.pulls[id];
    s.(held := InsertAll(s.held, p.pending[..n]),
       pulls := s.pulls[id := p.(pending := p.pending[n..], maxTS := MaxTime(p.maxTS, p.pending[..n]))])
  }

  lemma ReceiveOneMore(s: System, id: nat, n: nat)
    requires id in s.pulls && n < |s.pulls[id].pending|
    ensures Next(AfterReceives(s, id, n), Receive(id)) == AfterReceives(s, id, n + 1)
  {
    var q := s.pulls[id].pending;
    assert q[..n + 1][..n] == q[..n] && q[n..][1..] == q[n + 1..];
  }

  lemma ReceiveNone(s: System, id: nat)
    requires id in s.pulls
    ensures AfterReceives(s, id, 0) == s
  {
    var p := s.pulls[id];
    assert p.pending[0..] == p.pending && p.pending[..0] == [];
    assert s.pulls[id := p] == s.pulls;
  }

  lemma ReceiveThenOne(s: System, id: nat, n: nat, moves: seq<Move>)
    requires id in s.pulls && n < |s.pulls[id].pending|
    requires Cursors.Run(s, moves) == AfterReceives(s, id, n)
    ensures Cursors.Run(s, moves + [Receive(id)]) == AfterReceives(s, id, n + 1)
  {
    RunThenOne(s, moves, Receive(id));
    ReceiveOneMore(s, id, n);
  }

  lemma {:induction false} ReceiveMany(s: System, id: nat, n: nat) returns (moves: seq<Move>)
    requires id in s.pulls && n <= |s.pulls[id].pending|
    ensures moves == Receives(id, n)
    ensures Cursors.Run(s, moves) == AfterReceives(s, id, n)
  {
    hide CanonicalEncode;
    moves := [];
    if n == 0 {
      ReceiveNone(s, id);
    } else {
      var front := ReceiveMany(s, id, n - 1);
      ReceiveThenOne(s, id, n - 1, front);
      moves := front + [Receive(id)];
    }
  }

  /** Merging the events of one message does what that many receipts do, whatever other pulls
      and appends have done to the machine before. */
  lemma BatchRefinesReceives(st: (Logs, Crawl), me: Identity, zen: Identity, s: System, id: nat, n: nat)
    requires zen != me && s.held == CrawledOf(st.1, zen)
    requires id in s.pulls && n <= |s.pulls[id].pending| && AllBy(s.pulls[id].pending[..n], zen)
    ensures var t := Cursors.Run(s, Receives(id, n));
      && t == AfterReceives(s, id, n)
      && t.held == CrawledOf(MergeAll(st, me, s.pulls[id].pending[..n]).1, zen)
  {
    var moves := ReceiveMany(s, id, n);
    PullFromPeer(st, me, zen, s.pulls[id].pending[..n]);
  }

  /** PullLog refines the machine: pulling a reply cut after k messages leaves the peer's
      bucket and the cursor as the machine does when it receives the events of those messages
      one by one and then finishes. */
  lemma PullRefinesMachine(st: (Logs, Crawl), me: Identity, zen: Identity, s: System, id: nat, k: nat)
    requires zen != me && s.held == CrawledOf(st.1, zen)
    requires id in s.pulls && s.pulls[id].served && s.pulls[id].maxTS == 0
    requires AllBy(s.pulls[id].pending, zen) && forall se :: se in s.pulls[id].pending ==> Verified(se)
    requires k <= |Reply(s.pulls[id].pending)|
    ensures var p, got := s.pulls[id], Items(Reply(s.pulls[id].pending)[..k]);
      && |got| <= |p.pending| && got == p.pending[..|got|]
      && Cursors.Run(s, Receives(id, |got|) + [Finish(id)])
         == System(s.log, CrawledOf(MergeAll(st, me, got).1, zen),
                   Advanced(s.cursor, p.after, MaxTime(0, got)), s.pulls - {id})
  {
    var p := s.pulls[id];
    CutReplyIsPrefix(p.pending, k);
    var got := Items(Reply(p.pending)[..k]);
    assert p.pending[..|got|] == got;
    PullFromPeer(st, me, zen, got);
    ReceiveThenFinish(s, id, |got|);
  }

  lemma ReceiveThenFinish(s: System, id: nat, n: nat)
    requires id in s.pulls && n <= |s.pulls[id].pending| && s.pulls[id].maxTS == 0
    ensures var p := s.pulls[id];
      Cursors.Run(s, Receives(id, n) + [Finish(id)])
      == System(s.log, InsertAll(s.held, p.pending[..n]),
                Advanced(s.cursor, p.after, MaxTime(0, p.pending[..n])), s.pulls - {id})
  {
    var moves := ReceiveMany(s, id, n);
    RunThenOne(s, moves, Finish(id));
    assert AfterReceives(s, id, n).pulls - {id} == s.pulls - {id};
  }

  /** What a pull stores, in terms of what arrived: five minutes before the newest verified
      event, wherever in the inbox it was, but not before the requested time; and nothing if
      no event with a positive timestamp arrived. */
  lemma NewestSetsCursor(cursors: SyncCursors, zen: Identity, log: LogName, after: int,
          inbox: seq<Message>, newest: int)
    requires Int64(after) && 0 <= newest <= MAX_INT64
    requires forall se :: Verified(se) && Brings(inbox, se) ==> se.event.timestamp <= newest
    requires newest == 0 || exists se :: Verified(se) && Brings(inbox, se) && se.event.timestamp == newest
    ensures var now := CursorsAfter(cursors, zen, log, after, Items(inbox));
      && (forall k :: k != (zen, log) ==> (k in now <==> k in cursors) && (k in cursors ==> now[k] == cursors[k]))
      && (newest == 0 ==> now == cursors)
      && (newest > 0 ==> StoredCursor(now, zen, log)
                         == if newest - 300_000_000_000 < after then after else newest - 300_000_000_000)
  {
    hide Verified, Brings, Items, CursorBytes, CursorValue;
    ItemsAreBrought(inbox);
    NewestIsMaxTime(Items(inbox), newest);
    if newest > 0 {
      CursorRoundTrip(if newest - 300_000_000_000 < after then after else newest - 300_000_000_000);
    }
  }

  lemma {:induction false} NewestIsMaxTime(s: seq<SignedEvent>, newest: int)
    requires newest >= 0 && forall se :: se in s ==> se.event.timestamp <= newest
    requires newest == 0 || exists se :: se in s && se.event.timestamp == newest
    ensures MaxTime(0, s) == newest
  {
    NewestOf(0, s);
    if newest > 0 {
      var se :| se in s && se.event.timestamp == newest;
      NoneIsNewer(s, se);
    }
  }

  lemma {:induction false} NoneIsNewer(s: seq<SignedEvent>, se: SignedEvent)
    requires se in s
    ensures se.event.timestamp <= MaxTime(0, s)
  {
    if se != s[|s| - 1] {
      assert s == s[..|s| - 1] + [s[|s| - 1]];
      NoneIsNewer(s[..|s| - 1], se);
    }
  }

  /** The stored bytes follow the machine's cursor. */
  lemma StoredIsAdvanced(cursors: SyncCursors, zen: Identity, log: LogName, after: int, got: seq<SignedEvent>)
    requires Int64(after) && 0 <= MaxTime(0, got) <= MAX_INT64
    ensures StoredCursor(CursorsAfter(cursors, zen, log, after, got), zen, log)
         == Advanced(StoredCursor(cursors, zen, log), after, MaxTime(0, got))
  {
    if MaxTime(0, got) != 0 {
      CursorRoundTrip(Advanced(0, after, MaxTime(0, got)));
    }
  }

  /** A pull whose connection is cut at any byte refines the machine: the messages that can
      still be read make up a prefix of what the pull had under way, and the merged bucket and
      the stored cursor are those of the machine after receiving that prefix and finishing. */
  lemma CutPullRefinesMachine(c: Codec<Message>, st: (Logs, Crawl), cursors: SyncCursors, me: Identity, zen: Identity,
                              log: LogName, s: System, id: nat, k: nat) returns (inbox: seq<Message>, err: ReadError)
    requires Lawful(c) && zen != me
    requires s.held == CrawledOf(st.1, zen) && s.cursor == StoredCursor(cursors, zen, log)
    requires id in s.pulls && s.pulls[id].served && s.pulls[id].maxTS == 0 && Int64(s.pulls[id].after)
    requires AllBy(s.pulls[id].pending, zen)
    requires forall se :: se in s.pulls[id].pending ==> Verified(se) && Int64(se.event.timestamp)
    requires Sendable(c, Reply(s.pulls[id].pending)) && k <= |Frames(c, Reply(s.pulls[id].pending))|
    ensures (inbox, err) == ReadAll(c, Frames(c, Reply(s.pulls[id].pending))[..k])
    ensures err == Eof || err == UnexpectedEof
    ensures var p, got := s.pulls[id], Items(inbox);
      && |got| <= |p.pending| && got == p.pending[..|got|]
      && Cursors.Run(s, Receives(id, |got|) + [Finish(id)])
         == System(s.log, CrawledOf(MergeAll(st, me, got).1, zen),
                   StoredCursor(CursorsAfter(cursors, zen, log, p.after, got), zen, log), s.pulls - {id})
  {
    hide Lawful, Sendable, ReadAll, Frames, Items, Cursors.Run, MergeAll, CursorsAfter, StoredCursor, Advanced;
    var p := s.pulls[id];
    var n := TruncatedStream(c, Reply(p.pending), k);
    inbox, err := Reply(p.pending)[..n], CutError(k - |Frames(c, Reply(p.pending)[..n])|);
    PullRefinesMachine(st, me, zen, s, id, n);
    TimesOf(Items(inbox), p.pending, |Items(inbox)|);
    StoredIsAdvanced(cursors, zen, log, p.after, Items(inbox));
  }

  lemma TimesOf(got: seq<SignedEvent>, pending: seq<SignedEvent>, n: nat)
    requires n <= |pending| && got == pending[..n]
    requires forall se :: se in pending ==> Int64(se.event.timestamp)
    ensures 0 <= MaxTime(0, got) <= MAX_INT64
  {
    NewestOf(0, got);
    assert forall se :: se in got ==> se in pending;
  }

  /** The start of a session's pull is the Start of the machine. */
  lemma StartRefinesMachine(cursors: SyncCursors, zen: Identity, log: LogName, s: System, id: nat)
    requires s.cursor == StoredCursor(cursors, zen, log)
    ensures Cursors.Next(s, Start(id))
         == s.(pulls := s.pulls[id := Pull(PullStart(cursors, zen, log, 0), false, {}, [], 0)])
  {}

  /** A whole pull refines the machine, from the reading of the cursor on: the owner answers the
      request with the events later than its start, the connection is cut at any byte of the
      answer, and bucket and stored cursor are those of the machine after a start, an answer,
      the receipt of a prefix, and a finish. */
  lemma WholePullRefinesMachine(c: Codec<Message>, st: (Logs, Crawl), cursors: SyncCursors, me: Identity, zen: Identity,
                                log: LogName, s: System, id: nat, k: nat) returns (inbox: seq<Message>, err: ReadError)
    requires Lawful(c) && zen != me && WellStored(cursors)
    requires s.held == CrawledOf(st.1, zen) && s.cursor == StoredCursor(cursors, zen, log) && id !in s.pulls
    requires Keyed(s.log)
    requires forall e :: e in s.log ==> s.log[e].author == zen && Verified(s.log[e]) && Int64(s.log[e].event.timestamp)
    requires Sendable(c, AnswerTo(s.log, PullStart(cursors, zen, log, 0)))
    requires k <= |Frames(c, AnswerTo(s.log, PullStart(cursors, zen, log, 0)))|
    ensures var start := PullStart(cursors, zen, log, 0);
      && (inbox, err) == ReadAll(c, Frames(c, AnswerTo(s.log, start))[..k])
      && (err == Eof || err == UnexpectedEof)
      && Cursors.Run(s, [Start(id)] + ([Serve(id)] + (Receives(id, |Items(inbox)|) + [Finish(id)])))
         == System(s.log, CrawledOf(MergeAll(st, me, Items(inbox)).1, zen),
                   StoredCursor(CursorsAfter(cursors, zen, log, start, Items(inbox)), zen, log), s.pulls)
  {
    hide Lawful, Sendable, ReadAll, Frames, Items, Cursors.Run, Cursors.Next, MergeAll, CursorsAfter, StoredCursor, PullStart;
    hide Requested, Listing, Verified;
    var start := PullStart(cursors, zen, log, 0);
    var s1 := Cursors.Next(s, Start(id));
    var s2 := Cursors.Next(s1, Serve(id));
    StartRefinesMachine(cursors, zen, log, s, id);
    StartFits(cursors, zen, log);
    ServeAnswers(s, s1, id, start);
    ListingHolds(s.log);
    RequestedEvents(Listing(s.log), start);
    inbox, err := CutPullRefinesMachine(c, st, cursors, me, zen, log, s2, id, k);
    var moves := Receives(id, |Items(inbox)|) + [Finish(id)];
    OneMoveEarlier(s1, Serve(id), moves);
    OneMoveEarlier(s, Start(id), [Serve(id)] + moves);
  }

  lemma ServeAnswers(s: System, s1: System, id: nat, start: int)
    requires id !in s.pulls && s1 == s.(pulls := s.pulls[id := Pull(start, false, {}, [], 0)])
    ensures var s2 := Cursors.Next(s1, Serve(id));
      && s2.log == s.log && s2.held == s.held && s2.cursor == s.cursor && s2.pulls - {id} == s.pulls
      && id in s2.pulls && s2.pulls[id] == Pull(start, true, s.log.Keys, Requested(Listing(s.log), start), 0)
  {
    hide Requested, Listing;
  }

  function AnswerTo(log: Bucket, after: int): seq<Message> {
    Reply(Requested(Listing(log), after))
  }

  lemma StartFits(cursors: SyncCursors, zen: Identity, log: LogName)
    requires WellStored(cursors)
    ensures Int64(PullStart(cursors, zen, log, 0))
  {
    if (zen, log) in cursors {
      BytesAreACursor(cursors[(zen, log)]);
    }
  }

  lemma OneMoveEarlier(s: System, m: Move, rest: seq<Move>)
    ensures Cursors.Run(s, [m] + rest) == Cursors.Run(Cursors.Next(s, m), rest)
  {
    assert ([m] + rest)[1..] == rest;
  }
}
