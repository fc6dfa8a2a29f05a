/** A whole session between two peers (internal/sync/session.go): handshake, pull, exchange
    of zen references, role reversal, pull back, end of stream. The connection is an
    unbuffered rendezvous: a message passes when one side is writing and the other reading.
    Each peer is modelled as the program it runs; the theorem covers every interleaving. */
module Protocol {
  import opened Events
  import opened Buckets
  import opened Accounts
  import opened Timeline
  import opened Stores
  import opened Cursors
  import opened Sessions

  datatype Role = Initiator | Listener

  /** Where a peer is in its program. During the handshake it writes and reads at once. */
  datatype Control =
    | Greeting(sent: bool, heard: Option<Message>)
    | Proving(zen: Identity, nonce: Bytes, sent: bool, proved: bool)
    | Asking(log: LogName)
    | Pulling(log: LogName, after: int, maxTS: int)
    | OfferingZens
    | AwaitingZens
    | Reversing
    | Serving(out: seq<Message>)
    | Closed
    | Failed

  datatype Peer = Peer(
    role: Role,
    key: Pubkey,
    nonce: Bytes,
    refs: seq<ZenRef>,
    control: Control,
    cursorZen: Identity,
    own: Logs,
    crawl: Crawl,
    cursors: map<LogName, int>,
    learned: seq<ZenRef>,
    sentZens: bool) {

    function Me(): Identity { OfKey(key) }

    function At(c: Control): Peer { this.(control := c) }

    function Cursor(log: LogName): int {
      if log in cursors then cursors[log] else 0
    }

    /** The message the peer is blocked on writing, if any. */
    function Outgoing(): Option<Message> {
      match control
      case Greeting(sent, _) => if sent then None else Some(Hello(Me(), nonce))
      case Proving(_, n, sent, _) => if sent then None else Some(Auth(Signed(key, n)))
      case Asking(log) => Some(Request(log, StartOfPull(log), Anonymous))
      case OfferingZens => Some(NewZens(refs))
      case Reversing => Some(Reverse)
      case Serving(out) => if out != [] then Some(out[0]) else None
      case _ => None
    }

    /** Whether the peer is blocked on reading. */
    predicate Reading() {
      match control
      case Greeting(_, heard) => heard.None?
      case Proving(_, _, _, proved) => !proved
      case Pulling(_, _, _) => true
      case AwaitingZens => true
      case Serving(out) => out == []
      case _ => false
    }

    function StartOfPull(log: LogName): int {
      if Cursor(log) > 0 then Cursor(log) else 0
    }

    /** Both halves of a handshake round must be over before the next begins. */
    function Settled(): Peer {
      match control
      case Greeting(true, Some(Hello(id, n))) =>
        if id.OfKey? then At(Proving(id, n, false, false)) else At(Failed)
      case Greeting(true, Some(_)) => At(Failed)
      case Proving(zen, _, true, true) =>
        this.(cursorZen := zen, control := if role == Initiator then Asking(PostLog) else Serving([]))
      case _ => this
    }

    function Sent(): Peer {
      match control
      case Greeting(_, heard) => At(Greeting(true, heard)).Settled()
      case Proving(zen, n, _, proved) => At(Proving(zen, n, true, proved)).Settled()
      case Asking(log) => At(Pulling(log, StartOfPull(log), 0))
      case OfferingZens => At(AwaitingZens)
      case Reversing => At(Serving([]))
      case Serving(out) => if out != [] then At(Serving(out[1..])) else this
      case _ => this
    }

    /** After a pull: the ProfileLog follows the PostLog, then the roles go separate ways. */
    function AfterPull(log: LogName): Control {
      if log == PostLog then Asking(ProfileLog)
      else if role == Initiator then OfferingZens
      else Closed
    }

    function EndPull(log: LogName, after: int, maxTS: int): Peer {
      this.(cursors := if maxTS == 0 then cursors else cursors[log := Advanced(Cursor(log), after, maxTS)],
            control := AfterPull(log))
    }

    function Merged(s: seq<SignedEvent>): Peer {
      var st := MergeAll((own, crawl), Me(), s);
      this.(own := st.0, crawl := st.1)
    }

    function OnMessage(m: Message): Peer {
      match control
      case Greeting(sent, _) => At(Greeting(sent, Some(m))).Settled()
      case Proving(zen, n, sent, _) =>
        if m.Auth? && zen.OfKey? && m.signature == Signed(zen.key, nonce)
        then At(Proving(zen, n, sent, true)).Settled() else At(Failed)
      case Pulling(log, after, maxTS) =>
        if m.Done? then EndPull(log, after, maxTS)
        else Merged(Contribution(m)).At(Pulling(log, after, MaxTime(maxTS, Contribution(m))))
      case AwaitingZens =>
        if m.Zens? then this.(learned := learned + ZensFromMsg(m), control := Reversing) else this
      case Serving(_) =>
        if m.Request? then At(Serving(Reply(Requested(Listing(Source(own, crawl, Me(), m)), m.after))))
        else if m.Zens? && role == Listener then
          this.(learned := learned + ZensFromMsg(m),
                sentZens := true,
                control := Serving(if sentZens then [] else [NewZens(refs)]))
        else if m.Reverse? || m.Done? then At(AfterServing())
        else this
      case _ => this
    }

    function AfterServing(): Control {
      if role == Initiator then Closed else Asking(PostLog)
    }

    /** The other side has closed the connection while this one is reading. */
    function OnClose(): Peer {
      match control
      case Pulling(log, after, maxTS) => EndPull(log, after, maxTS)
      case Serving(_) => At(AfterServing())
      case _ => At(Failed)
    }
  }

  datatype Pair = Pair(a: Peer, b: Peer)

  datatype Step = AToB | BToA | AHungUp | BHungUp | AWriteFails | BWriteFails

  predicate Enabled(s: Pair, st: Step) {
    match st
    case AToB => s.a.Outgoing().Some? && s.b.Reading()
    case BToA => s.b.Outgoing().Some? && s.a.Reading()
    case AHungUp => s.a.control.Closed? && s.b.Reading()
    case BHungUp => s.b.control.Closed? && s.a.Reading()
    case AWriteFails => s.a.Outgoing().Some? && s.b.control.Closed?
    case BWriteFails => s.b.Outgoing().Some? && s.a.control.Closed?
  }

  function Next(s: Pair, st: Step): Pair
    requires Enabled(s, st)
  {
    match st
    case AToB => Pair(s.a.Sent(), s.b.OnMessage(s.a.Outgoing().value))
    case BToA => Pair(s.a.OnMessage(s.b.Outgoing().value), s.b.Sent())
    case AHungUp => s.(b := s.b.OnClose())
    case BHungUp => s.(a := s.a.OnClose())
    case AWriteFails => s.(a := s.a.At(Failed))
    case BWriteFails => s.(b := s.b.At(Failed))
  }

  // ----- One pull between two peers

  /** What the server will send the puller. */
  function Wanted(p: Peer, q: Peer, log: LogName): seq<SignedEvent> {
    Requested(Listing(LogOf(q.own, log)), p.StartOfPull(log))
  }

  /** The puller after i messages of an answer. */
  function MidPull(p: Peer, log: LogName, answer: seq<Message>, i: nat): Peer
    requires i <= |answer|
  {
    p.Merged(Items(answer[..i])).At(Pulling(log, p.StartOfPull(log), MaxTime(0, Items(answer[..i]))))
  }

  /** The puller after a complete answer with the given events. */
  function PullDone(p: Peer, log: LogName, events: seq<SignedEvent>): Peer {
    p.Merged(events).EndPull(log, p.StartOfPull(log), MaxTime(0, events))
  }

  function Pulled(p: Peer, q: Peer, log: LogName): Peer {
    PullDone(p, log, Wanted(p, q, log))
  }

  ghost predicate HonestLog(b: Bucket, me: Identity, log: LogName) {
    && WellFormed(b)
    && forall id :: id in b ==> b[id].author == me && b[id].event.log == log && Verified(b[id])
  }

  /** An honest peer serves logs of its own verified events. It may be one of several devices
      of its identity, so nothing is said about sequence numbers. */
  ghost predicate Honest(p: Peer) {
    forall log :: HonestLog(LogOf(p.own, log), p.Me(), log)
  }

  lemma OwnLogsAreHonest(p: Peer)
    requires OwnLogs(p.own, p.Me())
    requires forall log, id :: log in p.own && id in p.own[log] ==> Verified(p.own[log][id])
    ensures Honest(p)
  {
    hide Sequenced, Verified, OneLike;
    forall log ensures HonestLog(LogOf(p.own, log), p.Me(), log) {
      OwnLogOf(p.own, p.Me(), log);
    }
  }

  lemma WantedIsVerified(p: Peer, q: Peer, log: LogName)
    requires Honest(q)
    ensures forall se :: se in Wanted(p, q, log) ==> Verified(se) && InBucket(LogOf(q.own, log), se)
    ensures forall se :: InBucket(LogOf(q.own, log), se) && se.event.timestamp > p.StartOfPull(log)
              ==> se in Wanted(p, q, log)
  {
    RequestedEvents(Listing(LogOf(q.own, log)), p.StartOfPull(log));
    assert HonestLog(LogOf(q.own, log), q.Me(), log);
    ListingHolds(LogOf(q.own, log));
  }

  lemma {:induction false} ReplyShape(events: seq<SignedEvent>)
    ensures |Reply(events)| > 0 && Reply(events)[|Reply(events)| - 1] == Done
    ensures forall i :: 0 <= i < |Reply(events)| - 1 ==> Reply(events)[i].Events?
    decreases |events|
  {
    if events != [] {
      ReplyShape(events[Least(BATCH_SIZE, |events|)..]);
    }
  }

  lemma {:induction false} ItemsOfPrefix(ms: seq<Message>, i: nat)
    requires i < |ms| && forall j :: 0 <= j <= i ==> !ms[j].Done?
    ensures Items(ms[..i + 1]) == Items(ms[..i]) + Contribution(ms[i])
  {
    if i == 0 {
      assert ms[..1] == [ms[0]] && ms[..1][1..] == [];
    } else {
      ItemsOfPrefix(ms[1..], i - 1);
      assert ms[..i + 1][1..] == ms[1..][..i] && ms[..i][1..] == ms[1..][..i - 1];
      Regroup(Contribution(ms[0]), Items(ms[1..][..i - 1]), Contribution(ms[i]));
    }
  }

  lemma MergedTwice(p: Peer, x: seq<SignedEvent>, y: seq<SignedEvent>)
    ensures p.Merged(x).Merged(y) == p.Merged(x + y)
  {
    MergeAllConcat((p.own, p.crawl), p.Me(), x, y);
  }

  lemma PullContinues(p: Peer, log: LogName, events: seq<SignedEvent>, i: nat)
    requires i + 1 < |Reply(events)|
    ensures MidPull(p, log, Reply(events), i).OnMessage(Reply(events)[i]) == MidPull(p, log, Reply(events), i + 1)
  {
    var ms := Reply(events);
    ReplyShape(events);
    ItemsOfPrefix(ms, i);
    BatchMerges(p, log, Items(ms[..i]), ms[i]);
  }

  lemma BatchMerges(p: Peer, log: LogName, got: seq<SignedEvent>, m: Message)
    requires m.Events?
    ensures p.Merged(got).At(Pulling(log, p.StartOfPull(log), MaxTime(0, got))).OnMessage(m)
         == p.Merged(got + Contribution(m)).At(Pulling(log, p.StartOfPull(log), MaxTime(0, got + Contribution(m))))
  {
    var more := Contribution(m);
    MergedTwice(p, got, more);
    MaxTimeConcat(0, got, more);
    assert p.Merged(got).At(Closed).Merged(more) == p.Merged(got).Merged(more).At(Closed);
  }

  lemma PullEnds(p: Peer, log: LogName, events: seq<SignedEvent>)
    requires forall se :: se in events ==> Verified(se)
    ensures |Reply(events)| > 0
    ensures MidPull(p, log, Reply(events), |Reply(events)| - 1).OnMessage(Reply(events)[|Reply(events)| - 1])
         == PullDone(p, log, events)
  {
    hide Reply, Items, MergeAll, MaxTime;
    ReplyShape(events);
    AllButDone(events);
    DoneEndsPull(p.Merged(events), log, p.StartOfPull(log), MaxTime(0, events));
  }

  lemma DoneEndsPull(p: Peer, log: LogName, after: int, maxTS: int)
    ensures p.At(Pulling(log, after, maxTS)).OnMessage(Done) == p.EndPull(log, after, maxTS)
  {}

  lemma AllButDone(events: seq<SignedEvent>)
    requires forall se :: se in events ==> Verified(se)
    ensures Items(Reply(events)[..|Reply(events)| - 1]) == events
  {
    hide Reply, Items, Verified;
    EventMessages(events);
    CutReplyIsPrefix(events, |Reply(events)| - 1);
  }

  lemma {:induction false} EventMessages(events: seq<SignedEvent>)
    ensures |Reply(events)| > 0 && BATCH_SIZE * (|Reply(events)| - 1) >= |events|
    decreases |events|
  {
    if events != [] {
      EventMessages(events[Least(BATCH_SIZE, |events|)..]);
    }
  }

  // ----- What a peer must have heard before it serves or pulls

  datatype Input = Wrote | Heard(message: Message) | Closing

  function Fed(p: Peer, i: Input): Peer {
    match i
    case Wrote => p.Sent()
    case Heard(m) => p.OnMessage(m)
    case Closing => p.OnClose()
  }

  function FedAll(p: Peer, inputs: seq<Input>): Peer
    decreases inputs
  {
    if inputs == [] then p else FedAll(Fed(p, inputs[0]), inputs[1..])
  }

  /** The inputs so far carry the signature of zen's key over the nonce. */
  ghost predicate Proves(nonce: Bytes, zen: Identity, seen: seq<Input>) {
    zen.OfKey? && Heard(Auth(Signed(zen.key, nonce))) in seen
  }

  ghost predicate HandshakeInv(p: Peer, seen: seq<Input>) {
    match p.control
    case Greeting(_, _) => true
    case Proving(zen, _, _, proved) => proved ==> Proves(p.nonce, zen, seen)
    case Failed => true
    case _ => Proves(p.nonce, p.cursorZen, seen)
  }

  lemma FedKeepsHandshake(p: Peer, i: Input, seen: seq<Input>)
    requires HandshakeInv(p, seen)
    ensures HandshakeInv(Fed(p, i), seen + [i]) && Fed(p, i).nonce == p.nonce
  {
    match i
    case Wrote => WroteKeepsHandshake(p, seen);
    case Heard(m) => HeardKeepsHandshake(p, m, seen);
    case Closing => ClosingKeepsHandshake(p, seen);
  }

  lemma WroteKeepsHandshake(p: Peer, seen: seq<Input>)
    requires HandshakeInv(p, seen)
    ensures HandshakeInv(p.Sent(), seen + [Wrote]) && p.Sent().nonce == p.nonce
  {
    MoreProves(p.nonce, seen, Wrote);
    hide Proves;
  }

  lemma MoreProves(nonce: Bytes, seen: seq<Input>, i: Input)
    ensures forall zen :: Proves(nonce, zen, seen) ==> Proves(nonce, zen, seen + [i])
  {}

  lemma HeardKeepsHandshake(p: Peer, m: Message, seen: seq<Input>)
    requires HandshakeInv(p, seen)
    ensures HandshakeInv(p.OnMessage(m), seen + [Heard(m)]) && p.OnMessage(m).nonce == p.nonce
  {
    assert Heard(m) in seen + [Heard(m)];
    if !p.control.Greeting? && !p.control.Proving? {
      HeardLater(p, m);
    } else {
      HeardInHandshake(p, m, seen);
    }
  }

  lemma HeardLater(p: Peer, m: Message)
    requires !p.control.Greeting? && !p.control.Proving?
    ensures PastHandshake(p, p.OnMessage(m))
  {
    match p.control
    case Pulling(_, _, _) => HeardPulling(p, m);
    case Serving(_) => HeardServing(p, m);
    case _ =>
  }

  ghost predicate PastHandshake(p: Peer, r: Peer) {
    && r.cursorZen == p.cursorZen && r.nonce == p.nonce && !r.control.Greeting? && !r.control.Proving?
    && (p.control.Failed? ==> r.control.Failed?)
  }

  lemma HeardPulling(p: Peer, m: Message)
    requires p.control.Pulling?
    ensures PastHandshake(p, p.OnMessage(m))
  {
    hide MergeAll, MaxTime, Advanced, Contribution;
  }

  lemma HeardServing(p: Peer, m: Message)
    requires p.control.Serving?
    ensures PastHandshake(p, p.OnMessage(m))
  {
    hide Reply, Requested, Listing, Source, ZensFromMsg;
  }

  lemma HeardInHandshake(p: Peer, m: Message, seen: seq<Input>)
    requires (p.control.Greeting? || p.control.Proving?) && HandshakeInv(p, seen)
    ensures HandshakeInv(p.OnMessage(m), seen + [Heard(m)]) && p.OnMessage(m).nonce == p.nonce
  {
    if p.control.Greeting? {
      HeardGreeting(p, m, seen + [Heard(m)]);
    } else {
      HeardProof(p, m, seen);
    }
  }

  lemma HeardGreeting(p: Peer, m: Message, seen: seq<Input>)
    requires p.control.Greeting?
    ensures HandshakeInv(p.OnMessage(m), seen) && p.OnMessage(m).nonce == p.nonce
  {
    hide Proves;
  }

  lemma HeardProof(p: Peer, m: Message, seen: seq<Input>)
    requires p.control.Proving? && HandshakeInv(p, seen)
    ensures HandshakeInv(p.OnMessage(m), seen + [Heard(m)]) && p.OnMessage(m).nonce == p.nonce
  {
    assert Heard(m) in seen + [Heard(m)];
  }

  lemma ClosingKeepsHandshake(p: Peer, seen: seq<Input>)
    requires HandshakeInv(p, seen)
    ensures HandshakeInv(p.OnClose(), seen + [Closing]) && p.OnClose().nonce == p.nonce
  {}

  lemma {:induction false} HandshakeHolds(p: Peer, inputs: seq<Input>, seen: seq<Input>)
    requires HandshakeInv(p, seen)
    ensures HandshakeInv(FedAll(p, inputs), seen + inputs) && FedAll(p, inputs).nonce == p.nonce
    decreases inputs
  {
    if inputs == [] {
      assert seen + inputs == seen;
    } else {
      FedKeepsHandshake(p, inputs[0], seen);
      HandshakeHolds(Fed(p, inputs[0]), inputs[1..], seen + [inputs[0]]);
      assert seen + [inputs[0]] + inputs[1..] == seen + inputs;
    }
  }

  /** Whatever it is sent, in whatever order, a peer pulls, serves or exchanges references only
      after it has heard the signature of the key of the identity it then deals with over the
      nonce it sent itself. */
  lemma NoSessionWithoutProof(p: Peer, inputs: seq<Input>)
    requires p.control == Greeting(false, None)
    ensures var r := FedAll(p, inputs);
      || r.control.Greeting? || r.control.Proving? || r.control.Failed?
      || (r.cursorZen.OfKey? && Heard(Auth(Signed(r.cursorZen.key, p.nonce))) in inputs)
  {
    HandshakeHolds(p, inputs, []);
    assert [] + inputs == inputs;
  }

  // ----- A peer's pulls are those of its session object

  /** The stored cursors for the peer zen are these. */
  ghost predicate Records(cursors: SyncCursors, zen: Identity, m: map<LogName, int>) {
    forall log ::
      && ((zen, log) in cursors <==> log in m)
      && (log in m ==> Int64(m[log]) && cursors[(zen, log)] == CursorBytes(m[log]))
  }

  /** A peer asks for what PullLog asks for: the cursor it keeps of that log, or zero. */
  lemma AskIsTheRequest(p: Peer, cursors: SyncCursors, log: LogName)
    requires Records(cursors, p.cursorZen, p.cursors)
    ensures p.At(Asking(log)).Outgoing() == Some(Request(log, PullStart(cursors, p.cursorZen, log, 0), Anonymous))
    ensures p.StartOfPull(log) == PullStart(cursors, p.cursorZen, log, 0)
  {
    hide CursorBytes, CursorValue;
    if log in p.cursors {
      CursorRoundTrip(p.cursors[log]);
    }
  }

  /** And it ends a pull with the cursors that PullLog stores. */
  lemma EndIsTheRecord(p: Peer, cursors: SyncCursors, log: LogName, after: int, got: seq<SignedEvent>)
    requires Records(cursors, p.cursorZen, p.cursors) && Int64(after) && 0 <= MaxTime(0, got) <= MAX_INT64
    ensures Records(CursorsAfter(cursors, p.cursorZen, log, after, got), p.cursorZen,
                    p.EndPull(log, after, MaxTime(0, got)).cursors)
    ensures forall k :: k != (p.cursorZen, log) ==>
      && (k in CursorsAfter(cursors, p.cursorZen, log, after, got) <==> k in cursors)
      && (k in cursors ==> CursorsAfter(cursors, p.cursorZen, log, after, got)[k] == cursors[k])
  {
    hide CursorBytes, MaxTime;
  }

  // ----- Where a merge lands

  /** Where p keeps the events of q: those of another device of its own identity in its own
      logs, those of anyone else in the bucket of that author. */
  function HeldOf(p: Peer, q: Peer, log: LogName): Bucket {
    if p.Me() == q.Me() then LogOf(p.own, log) else CrawledOf(p.crawl, q.Me())
  }

  /** The events all come from this log of q. */
  ghost predicate From(s: seq<SignedEvent>, q: Peer, log: LogName) {
    forall se :: se in s ==> InBucket(LogOf(q.own, log), se)
  }

  lemma FromHonest(s: seq<SignedEvent>, q: Peer, log: LogName)
    requires Honest(q) && From(s, q, log)
    ensures forall se :: se in s ==> Verified(se) && se.author == q.Me() && se.event.log == log
  {
    assert HonestLog(LogOf(q.own, log), q.Me(), log);
  }

  lemma {:induction false} OnlyOfOne(s: seq<SignedEvent>, log: LogName, other: LogName)
    requires forall se :: se in s ==> se.event.log == log
    ensures Only(s, other) == if other == log then s else []
  {
    if s != [] {
      assert s == s[..|s| - 1] + [s[|s| - 1]];
      OnlyOfOne(s[..|s| - 1], log, other);
    }
  }

  lemma NothingInserted(b: Bucket)
    ensures InsertAll(b, []) == b
  {}

  /** What p's own logs are after merging events of that log of q. */
  lemma OwnAfterMerge(p: Peer, q: Peer, log: LogName, s: seq<SignedEvent>, l: LogName)
    requires Honest(q) && From(s, q, log)
    ensures LogOf(p.Merged(s).own, l)
         == if p.Me() == q.Me() && l == log then InsertAll(LogOf(p.own, l), s) else LogOf(p.own, l)
  {
    hide Honest, From, MergeAll, AppendAll, InsertAll, Only, LogOf, Verified;
    FromHonest(s, q, log);
    if p.Me() == q.Me() {
      PullFromTwin((p.own, p.crawl), p.Me(), s);
      AppendAllByLog(p.own, s, l);
      OnlyOfOne(s, log, l);
      NothingInserted(LogOf(p.own, l));
    } else {
      PullFromPeer((p.own, p.crawl), p.Me(), q.Me(), s);
    }
  }

  lemma MergeLands(p: Peer, q: Peer, log: LogName, s: seq<SignedEvent>)
    requires Honest(q) && From(s, q, log)
    ensures HeldOf(p.Merged(s), q, log) == InsertAll(HeldOf(p, q, log), s)
    ensures forall l ::
      HeldOf(p.Merged(s), q, l) == HeldOf(p, q, l) || HeldOf(p.Merged(s), q, l) == InsertAll(HeldOf(p, q, l), s)
  {
    hide Honest, From, MergeAll;
    FromHonest(s, q, log);
    if p.Me() == q.Me() {
      forall l ensures LogOf(p.Merged(s).own, l)
         == if l == log then InsertAll(LogOf(p.own, l), s) else LogOf(p.own, l)
      {
        OwnAfterMerge(p, q, log, s, l);
      }
    } else {
      PullFromPeer((p.own, p.crawl), p.Me(), q.Me(), s);
    }
  }

  /** The log of q, if q is another device of p's identity. */
  function TwinLog(p: Peer, q: Peer, log: LogName): Bucket {
    if p.Me() == q.Me() then LogOf(q.own, log) else map[]
  }

  /** p's own logs may have grown, by events of another device of the same identity. */
  ghost predicate OwnGrew(p: Peer, p': Peer, q: Peer) {
    forall log :: GrewFrom(LogOf(p.own, log), LogOf(p'.own, log), TwinLog(p, q, log))
  }

  ghost predicate GrewFrom(b: Bucket, b': Bucket, source: Bucket) {
    && Extends(b', b)
    && forall id :: id in b' && id !in b ==> InBucket(source, b'[id])
  }

  lemma HonestLogGrows(b: Bucket, s: seq<SignedEvent>, source: Bucket, me: Identity, log: LogName)
    requires HonestLog(b, me, log) && HonestLog(source, me, log) && forall se :: se in s ==> InBucket(source, se)
    ensures HonestLog(InsertAll(b, s), me, log) && GrewFrom(b, InsertAll(b, s), source)
  {
    hide InsertAll, Verified, OneLike;
    MergeEffect(b, s);
  }

  lemma MergeKeepsHonest(p: Peer, q: Peer, log: LogName, s: seq<SignedEvent>)
    requires Honest(p) && Honest(q) && From(s, q, log)
    ensures Honest(p.Merged(s)) && OwnGrew(p, p.Merged(s), q)
  {
    var p' := p.Merged(s);
    forall l ensures HonestLog(LogOf(p'.own, l), p.Me(), l)
             ensures GrewFrom(LogOf(p.own, l), LogOf(p'.own, l), TwinLog(p, q, l))
    {
      OwnAfterMerge(p, q, log, s, l);
      assert HonestLog(LogOf(p.own, l), p.Me(), l) && HonestLog(LogOf(q.own, log), q.Me(), log);
      hide Honest, HonestLog, MergeAll, InsertAll, LogOf;
      if p.Me() == q.Me() && l == log {
        HonestLogGrows(LogOf(p.own, l), s, LogOf(q.own, l), p.Me(), l);
      }
    }
  }

  // ----- The course of a session

  /** The joint states of a session, in order. Greet and Prove carry which of the two
      messages of the round have passed; second tells the ProfileLog pull from the PostLog
      pull; i counts the messages of an answer that have passed. */
  datatype Point =
    | Greet(ab: bool, ba: bool)
    | Prove(ab: bool, ba: bool)
    | AAsk(second: bool)
    | APull(second: bool, i: nat)
    | AOffer
    | AAwait
    | AReverse
    | BAsk(second: bool)
    | BPull(second: bool, i: nat)
    | HangUp
    | End

  function LogAt(second: bool): LogName {
    if second then ProfileLog else PostLog
  }

  /** What the peers know at the stages of a session: a0..a3 and b0, b3..b5 are their data
      before and after each pull and the exchange of references; wanted are the events each
      pull transfers. */
  datatype Course = Course(
    start: Pair,
    a0: Peer, a1: Peer, a2: Peer, a3: Peer,
    b0: Peer, b3: Peer, b4: Peer, b5: Peer,
    wantedA0: seq<SignedEvent>, wantedA1: seq<SignedEvent>,
    wantedB0: seq<SignedEvent>, wantedB1: seq<SignedEvent>) {

    function A(second: bool): Peer { if second then a1 else a0 }
    function B(second: bool): Peer { if second then b4 else b3 }
    function WantedA(second: bool): seq<SignedEvent> { if second then wantedA1 else wantedA0 }
    function WantedB(second: bool): seq<SignedEvent> { if second then wantedB1 else wantedB0 }
    function AnswerA(second: bool): seq<Message> { Reply(WantedA(second)) }
    function AnswerB(second: bool): seq<Message> { Reply(WantedB(second)) }
  }

  function CourseOf(s: Pair): Course {
    var a0, b0 := s.a.(cursorZen := s.b.Me()), s.b.(cursorZen := s.a.Me());
    var a1 := Pulled(a0, b0, PostLog);
    var a2 := Pulled(a1, b0, ProfileLog);
    var a3 := a2.(learned := a2.learned + s.b.refs);
    var b3 := b0.(learned := b0.learned + s.a.refs, sentZens := true);
    var b4 := Pulled(b3, a3, PostLog);
    var b5 := Pulled(b4, a3, ProfileLog);
    Course(s, a0, a1, a2, a3, b0, b3, b4, b5,
           Wanted(a0, b0, PostLog), Wanted(a1, b0, ProfileLog),
           Wanted(b3, a3, PostLog), Wanted(b4, a3, ProfileLog))
  }

  predicate Fits(c: Course, pt: Point) {
    match pt
    case Greet(ab, ba) => !(ab && ba)
    case Prove(ab, ba) => !(ab && ba)
    case APull(second, i) => i < |c.AnswerA(second)|
    case BPull(second, i) => i < |c.AnswerB(second)|
    case _ => true
  }

  function StateAt(c: Course, pt: Point): Pair
    requires Fits(c, pt)
  {
    var s := c.start;
    match pt
    case Greet(ab, ba) =>
      Pair(s.a.At(Greeting(ab, if ba then Some(Hello(s.b.Me(), s.b.nonce)) else None)),
           s.b.At(Greeting(ba, if ab then Some(Hello(s.a.Me(), s.a.nonce)) else None)))
    case Prove(ab, ba) =>
      Pair(s.a.At(Proving(s.b.Me(), s.b.nonce, ab, ba)), s.b.At(Proving(s.a.Me(), s.a.nonce, ba, ab)))
    case AAsk(second) => Pair(c.A(second).At(Asking(LogAt(second))), c.b0.At(Serving([])))
    case APull(second, i) =>
      Pair(MidPull(c.A(second), LogAt(second), c.AnswerA(second), i), c.b0.At(Serving(c.AnswerA(second)[i..])))
    case AOffer => Pair(c.a2.At(OfferingZens), c.b0.At(Serving([])))
    case AAwait => Pair(c.a2.At(AwaitingZens), c.b3.At(Serving([NewZens(s.b.refs)])))
    case AReverse => Pair(c.a3.At(Reversing), c.b3.At(Serving([])))
    case BAsk(second) => Pair(c.a3.At(Serving([])), c.B(second).At(Asking(LogAt(second))))
    case BPull(second, i) =>
      Pair(c.a3.At(Serving(c.AnswerB(second)[i..])), MidPull(c.B(second), LogAt(second), c.AnswerB(second), i))
    case HangUp => Pair(c.a3.At(Serving([])), c.b5.At(Closed))
    case End => Pair(c.a3.At(Closed), c.b5.At(Closed))
  }

  /** The steps left after each pull, and from its request on. */
  function BTail(c: Course, second: bool): nat {
    if second then 1 else |c.AnswerB(true)| + 2
  }

  function FromBAsk(c: Course, second: bool): nat {
    1 + |c.AnswerB(second)| + BTail(c, second)
  }

  function ATail(c: Course, second: bool): nat {
    3 + FromBAsk(c, false) + if second then 0 else |c.AnswerA(true)| + 1
  }

  function FromAAsk(c: Course, second: bool): nat {
    1 + |c.AnswerA(second)| + ATail(c, second)
  }

  /** How many steps are left at a point: the variant that every step lowers by one. */
  function Left(c: Course, pt: Point): nat
    requires Fits(c, pt)
  {
    match pt
    case Greet(ab, ba) => FromAAsk(c, false) + if ab || ba then 3 else 4
    case Prove(ab, ba) => FromAAsk(c, false) + if ab || ba then 1 else 2
    case AAsk(second) => FromAAsk(c, second)
    case APull(second, i) => |c.AnswerA(second)| - i + ATail(c, second)
    case AOffer => 3 + FromBAsk(c, false)
    case AAwait => 2 + FromBAsk(c, false)
    case AReverse => 1 + FromBAsk(c, false)
    case BAsk(second) => FromBAsk(c, second)
    case BPull(second, i) => |c.AnswerB(second)| - i + BTail(c, second)
    case HangUp => 1
    case End => 0
  }

  function After(c: Course, pt: Point, st: Step): Point {
    match pt
    case Greet(ab, ba) => if ab || ba then Prove(false, false) else Greet(st == AToB, st == BToA)
    case Prove(ab, ba) => if ab || ba then AAsk(false) else Prove(st == AToB, st == BToA)
    case AAsk(second) => APull(second, 0)
    case APull(second, i) =>
      if i + 1 < |c.AnswerA(second)| then APull(second, i + 1) else if second then AOffer else AAsk(true)
    case AOffer => AAwait
    case AAwait => AReverse
    case AReverse => BAsk(false)
    case BAsk(second) => BPull(second, 0)
    case BPull(second, i) =>
      if i + 1 < |c.AnswerB(second)| then BPull(second, i + 1) else if second then HangUp else BAsk(true)
    case HangUp => End
    case End => End
  }

  // ----- Every step follows the course

  /** Where only b writes and only a reads, one step is possible. */
  lemma OnlyBToA(a: Peer, b: Peer)
    requires b.Outgoing().Some? && a.Reading() && a.Outgoing().None? && !b.Reading()
    requires !a.control.Closed? && !b.control.Closed?
    ensures Enabled(Pair(a, b), BToA)
    ensures forall st :: Enabled(Pair(a, b), st) ==> st == BToA
    ensures Next(Pair(a, b), BToA) == Pair(a.OnMessage(b.Outgoing().value), b.Sent())
  {}

  lemma OnlyAToB(a: Peer, b: Peer)
    requires a.Outgoing().Some? && b.Reading() && b.Outgoing().None? && !a.Reading()
    requires !a.control.Closed? && !b.control.Closed?
    ensures Enabled(Pair(a, b), AToB)
    ensures forall st :: Enabled(Pair(a, b), st) ==> st == AToB
    ensures Next(Pair(a, b), AToB) == Pair(a.Sent(), b.OnMessage(a.Outgoing().value))
  {}

  /** At every point but the last a step is possible, and every possible step leads to the
      next point. */
  ghost predicate Moves(c: Course, pt: Point)
    requires Fits(c, pt)
  {
    && (pt != End ==> exists st :: Enabled(StateAt(c, pt), st))
    && forall st :: Enabled(StateAt(c, pt), st) ==>
         && pt != End
         && Fits(c, After(c, pt, st))
         && Next(StateAt(c, pt), st) == StateAt(c, After(c, pt, st))
         && Left(c, After(c, pt, st)) == Left(c, pt) - 1
  }

  lemma MovesBy(c: Course, pt: Point, only: Step, next: Point)
    requires Fits(c, pt) && Fits(c, next) && pt != End && After(c, pt, only) == next
    requires Enabled(StateAt(c, pt), only)
    requires forall st :: Enabled(StateAt(c, pt), st) ==> st == only
    requires Next(StateAt(c, pt), only) == StateAt(c, next)
    requires Left(c, next) == Left(c, pt) - 1
    ensures Moves(c, pt)
  {}

  /** Two honest keyed peers at the start of a session with each other. They may be two
      devices of one identity. */
  ghost predicate Ready(s: Pair) {
    && s.a.role == Initiator && s.b.role == Listener
    && s.a.control == Greeting(false, None) && s.b.control == Greeting(false, None)
    && !s.b.sentZens
    && Honest(s.a) && Honest(s.b)
  }

  lemma ServerWrites(q: Peer, ms: seq<Message>, i: nat)
    requires i < |ms|
    ensures q.At(Serving(ms[i..])).Outgoing() == Some(ms[i]) && !q.At(Serving(ms[i..])).Reading()
    ensures q.At(Serving(ms[i..])).Sent() == q.At(Serving(ms[i + 1..]))
  {
    assert ms[i..][1..] == ms[i + 1..];
  }

  lemma PullExchange(p: Peer, q: Peer, log: LogName, events: seq<SignedEvent>, i: nat)
    requires i < |Reply(events)| && forall se :: se in events ==> Verified(se)
    ensures i + 1 < |Reply(events)|
        ==> MidPull(p, log, Reply(events), i).OnMessage(Reply(events)[i]) == MidPull(p, log, Reply(events), i + 1)
    ensures i + 1 == |Reply(events)|
        ==> MidPull(p, log, Reply(events), i).OnMessage(Reply(events)[i]) == PullDone(p, log, events)
  {
    if i + 1 < |Reply(events)| {
      PullContinues(p, log, events, i);
    } else {
      PullEnds(p, log, events);
    }
  }

  lemma AskExchange(p: Peer, q: Peer, log: LogName)
    ensures p.At(Asking(log)).Outgoing() == Some(Request(log, p.StartOfPull(log), Anonymous))
    ensures p.At(Asking(log)).Sent() == MidPull(p, log, Reply(Wanted(p, q, log)), 0)
    ensures q.At(Serving([])).OnMessage(Request(log, p.StartOfPull(log), Anonymous))
         == q.At(Serving(Reply(Wanted(p, q, log))[0..]))
    ensures |Reply(Wanted(p, q, log))| > 0
  {
    AskStarts(p, log, Reply(Wanted(p, q, log)));
    AskIsAnswered(q, log, p.StartOfPull(log));
  }

  lemma AskStarts(p: Peer, log: LogName, answer: seq<Message>)
    ensures p.At(Asking(log)).Sent() == MidPull(p, log, answer, 0)
  {
    assert answer[..0] == [];
    assert p.Merged([]) == p;
  }

  lemma AskIsAnswered(q: Peer, log: LogName, after: int)
    ensures var ms := Reply(Requested(Listing(LogOf(q.own, log)), after));
      q.At(Serving([])).OnMessage(Request(log, after, Anonymous)) == q.At(Serving(ms[0..]))
  {
    hide Reply, Requested, Listing;
    var ms := Reply(Requested(Listing(LogOf(q.own, log)), after));
    assert ms[0..] == ms;
  }

  ghost predicate AllVerified(s: seq<SignedEvent>) {
    forall se :: se in s ==> Verified(se)
  }

  lemma GreetMoves(c: Course, ab: bool, ba: bool)
    requires !(ab && ba)
    ensures Moves(c, Greet(ab, ba))
  {
    hide FromAAsk, Reply, Wanted;
    assert !ab ==> Enabled(StateAt(c, Greet(ab, ba)), AToB);
    assert !ba ==> Enabled(StateAt(c, Greet(ab, ba)), BToA);
  }

  /** The signature of a reaches b, whether or not that of b has reached a. */
  lemma AProves(c: Course, ba: bool)
    requires c.start.a.role == Initiator && c.start.b.role == Listener
    requires c.a0 == c.start.a.(cursorZen := c.start.b.Me()) && c.b0 == c.start.b.(cursorZen := c.start.a.Me())
    ensures var s := StateAt(c, Prove(false, ba));
      Enabled(s, AToB) && Next(s, AToB) == StateAt(c, After(c, Prove(false, ba), AToB))
  {
    if ba {
      assert c.start.a.At(Proving(c.start.b.Me(), c.start.b.nonce, false, true)).Sent() == c.a0.At(Asking(PostLog));
    }
  }

  lemma BProves(c: Course, ab: bool)
    requires c.start.a.role == Initiator && c.start.b.role == Listener
    requires c.a0 == c.start.a.(cursorZen := c.start.b.Me()) && c.b0 == c.start.b.(cursorZen := c.start.a.Me())
    ensures var s := StateAt(c, Prove(ab, false));
      Enabled(s, BToA) && Next(s, BToA) == StateAt(c, After(c, Prove(ab, false), BToA))
  {
    if ab {
      assert c.start.b.At(Proving(c.start.a.Me(), c.start.a.nonce, false, true)).Sent() == c.b0.At(Serving([]));
    }
  }

  lemma OnlyUnsentProofs(c: Course, ab: bool, ba: bool, st: Step)
    requires !(ab && ba) && Enabled(StateAt(c, Prove(ab, ba)), st)
    ensures (st == AToB && !ab) || (st == BToA && !ba)
  {}

  lemma ProveStep(c: Course, ab: bool, ba: bool, st: Step)
    requires !(ab && ba) && Enabled(StateAt(c, Prove(ab, ba)), st)
    requires c.start.a.role == Initiator && c.start.b.role == Listener
    requires c.a0 == c.start.a.(cursorZen := c.start.b.Me()) && c.b0 == c.start.b.(cursorZen := c.start.a.Me())
    ensures Fits(c, After(c, Prove(ab, ba), st))
    ensures Next(StateAt(c, Prove(ab, ba)), st) == StateAt(c, After(c, Prove(ab, ba), st))
    ensures Left(c, After(c, Prove(ab, ba), st)) == Left(c, Prove(ab, ba)) - 1
  {
    OnlyUnsentProofs(c, ab, ba, st);
    if st == AToB { AProves(c, ba); } else { BProves(c, ab); }
  }

  lemma ProveMoves(c: Course, ab: bool, ba: bool)
    requires !(ab && ba)
    requires c.start.a.role == Initiator && c.start.b.role == Listener
    requires c.a0 == c.start.a.(cursorZen := c.start.b.Me()) && c.b0 == c.start.b.(cursorZen := c.start.a.Me())
    ensures Moves(c, Prove(ab, ba))
  {
    var pt := Prove(ab, ba);
    if ab { BProves(c, ab); } else { AProves(c, ba); }
    forall st | Enabled(StateAt(c, pt), st)
      ensures Fits(c, After(c, pt, st))
      ensures Next(StateAt(c, pt), st) == StateAt(c, After(c, pt, st))
      ensures Left(c, After(c, pt, st)) == Left(c, pt) - 1
    {
      ProveStep(c, ab, ba, st);
    }
  }

  lemma AAskMoves(c: Course, second: bool)
    requires c.WantedA(second) == Wanted(c.A(second), c.b0, LogAt(second))
    ensures Moves(c, AAsk(second))
  {
    hide Reply, Wanted, MidPull, ATail;
    AskExchange(c.A(second), c.b0, LogAt(second));
    OnlyAToB(c.A(second).At(Asking(LogAt(second))), c.b0.At(Serving([])));
    MovesBy(c, AAsk(second), AToB, APull(second, 0));
  }

  lemma BAskMoves(c: Course, second: bool)
    requires c.WantedB(second) == Wanted(c.B(second), c.a3, LogAt(second))
    ensures Moves(c, BAsk(second))
  {
    hide Reply, Wanted, MidPull, BTail;
    AskExchange(c.B(second), c.a3, LogAt(second));
    OnlyBToA(c.a3.At(Serving([])), c.B(second).At(Asking(LogAt(second))));
    MovesBy(c, BAsk(second), BToA, BPull(second, 0));
  }

  lemma APullMoves(c: Course, second: bool, i: nat)
    requires Fits(c, APull(second, i)) && AllVerified(c.WantedA(second))
    requires c.A(second).role == Initiator
    requires (if second then c.a2 else c.a1) == PullDone(c.A(second), LogAt(second), c.WantedA(second))
    ensures Moves(c, APull(second, i))
  {
    PullExchange(c.A(second), c.b0, LogAt(second), c.WantedA(second), i);
    ServerWrites(c.b0, c.AnswerA(second), i);
    OnlyBToA(MidPull(c.A(second), LogAt(second), c.AnswerA(second), i), c.b0.At(Serving(c.AnswerA(second)[i..])));
    if i + 1 < |c.AnswerA(second)| {
      MovesBy(c, APull(second, i), BToA, APull(second, i + 1));
    } else {
      assert c.AnswerA(second)[|c.AnswerA(second)|..] == [];
      MovesBy(c, APull(second, i), BToA, After(c, APull(second, i), BToA));
    }
  }

  lemma BPullMoves(c: Course, second: bool, i: nat)
    requires Fits(c, BPull(second, i)) && AllVerified(c.WantedB(second))
    requires c.B(second).role == Listener
    requires (if second then c.b5 else c.b4) == PullDone(c.B(second), LogAt(second), c.WantedB(second))
    ensures Moves(c, BPull(second, i))
  {
    PullExchange(c.B(second), c.a3, LogAt(second), c.WantedB(second), i);
    ServerWrites(c.a3, c.AnswerB(second), i);
    OnlyAToB(c.a3.At(Serving(c.AnswerB(second)[i..])), MidPull(c.B(second), LogAt(second), c.AnswerB(second), i));
    if i + 1 < |c.AnswerB(second)| {
      MovesBy(c, BPull(second, i), AToB, BPull(second, i + 1));
    } else {
      assert c.AnswerB(second)[|c.AnswerB(second)|..] == [];
      MovesBy(c, BPull(second, i), AToB, After(c, BPull(second, i), AToB));
    }
  }

  lemma OfferMoves(c: Course)
    requires c.b3 == c.b0.(learned := c.b0.learned + c.start.a.refs, sentZens := true)
    requires c.a2.refs == c.start.a.refs && c.b0.refs == c.start.b.refs
    requires c.b0.role == Listener && !c.b0.sentZens
    ensures Moves(c, AOffer)
  {
    hide FromBAsk, Reply, MergeAll;
    ZensRoundTrip(c.start.a.refs);
    OnlyAToB(c.a2.At(OfferingZens), c.b0.At(Serving([])));
    MovesBy(c, AOffer, AToB, AAwait);
  }

  lemma AwaitMoves(c: Course)
    requires c.a3 == c.a2.(learned := c.a2.learned + c.start.b.refs)
    ensures Moves(c, AAwait)
  {
    hide FromBAsk, Reply, MergeAll;
    ZensRoundTrip(c.start.b.refs);
    OnlyBToA(c.a2.At(AwaitingZens), c.b3.At(Serving([NewZens(c.start.b.refs)])));
    assert [NewZens(c.start.b.refs)][1..] == [];
    MovesBy(c, AAwait, BToA, AReverse);
  }

  lemma ReverseMoves(c: Course)
    requires c.b3.role == Listener
    ensures Moves(c, AReverse)
  {
    hide FromBAsk, Reply, MergeAll;
    OnlyAToB(c.a3.At(Reversing), c.b3.At(Serving([])));
    MovesBy(c, AReverse, AToB, BAsk(false));
  }

  lemma EndMoves(c: Course, pt: Point)
    requires (pt.HangUp? || pt.End?) && c.a3.role == Initiator
    ensures Moves(c, pt)
  {
    hide Reply, FromAAsk, FromBAsk;
    if pt.HangUp? {
      assert Enabled(StateAt(c, pt), BHungUp);
    }
  }

  lemma CourseFacts(s: Pair)
    requires Ready(s)
    ensures var c := CourseOf(s);
      && AllVerified(c.wantedA0) && AllVerified(c.wantedA1) && AllVerified(c.wantedB0) && AllVerified(c.wantedB1)
      && c.a0.role == c.a1.role == c.a2.role == c.a3.role == Initiator
      && c.b0.role == c.b3.role == c.b4.role == Listener
      && c.a2.refs == s.a.refs
  {
    var c := CourseOf(s);
    PulledStaysHonest(c.a0, c.b0, PostLog);
    PulledStaysHonest(c.a1, c.b0, ProfileLog);
    PulledStaysHonest(c.b3, c.a3, PostLog);
    PulledStaysHonest(c.b4, c.a3, ProfileLog);
  }

  lemma KeepsHonestByData(p: Peer, q: Peer, m: Peer, r: Peer)
    requires Honest(m) && OwnGrew(p, m, q) && r.own == m.own && r.key == m.key
    ensures Honest(r) && OwnGrew(p, r, q)
  {
    hide HonestLog, GrewFrom;
    assert forall l :: HonestLog(LogOf(m.own, l), m.Me(), l);
    assert forall l :: GrewFrom(LogOf(p.own, l), LogOf(m.own, l), TwinLog(p, q, l));
  }

  lemma PulledStaysHonest(p: Peer, q: Peer, log: LogName)
    requires Honest(p) && Honest(q)
    ensures AllVerified(Wanted(p, q, log)) && From(Wanted(p, q, log), q, log)
    ensures Honest(Pulled(p, q, log)) && OwnGrew(p, Pulled(p, q, log), q)
  {
    hide Wanted, Honest, MergeAll, OwnGrew;
    WantedIsVerified(p, q, log);
    var w := Wanted(p, q, log);
    MergeKeepsHonest(p, q, log, w);
    KeepsHonestByData(p, q, p.Merged(w), Pulled(p, q, log));
  }

  lemma CourseMoves(s: Pair, pt: Point)
    requires Ready(s) && Fits(CourseOf(s), pt)
    ensures Moves(CourseOf(s), pt)
  {
    CourseFacts(s);
    var c := CourseOf(s);
    match pt
    case Greet(ab, ba) => GreetMoves(c, ab, ba);
    case Prove(ab, ba) => ProveMoves(c, ab, ba);
    case AAsk(second) => AAskMoves(c, second);
    case APull(second, i) => APullMoves(c, second, i);
    case AOffer => OfferMoves(c);
    case AAwait => AwaitMoves(c);
    case AReverse => ReverseMoves(c);
    case BAsk(second) => BAskMoves(c, second);
    case BPull(second, i) => BPullMoves(c, second, i);
    case HangUp => EndMoves(c, pt);
    case End => EndMoves(c, pt);
  }

  // ----- Whole runs

  ghost predicate Admissible(s: Pair, steps: seq<Step>)
    decreases steps
  {
    steps != [] ==> Enabled(s, steps[0]) && Admissible(Next(s, steps[0]), steps[1..])
  }

  ghost function Run(s: Pair, steps: seq<Step>): Pair
    requires Admissible(s, steps)
    decreases steps
  {
    if steps == [] then s else Run(Next(s, steps[0]), steps[1..])
  }

  lemma {:induction false} RunFrom(s: Pair, pt: Point, steps: seq<Step>) returns (last: Point)
    requires Ready(s) && Fits(CourseOf(s), pt) && Admissible(StateAt(CourseOf(s), pt), steps)
    ensures Fits(CourseOf(s), last) && Run(StateAt(CourseOf(s), pt), steps) == StateAt(CourseOf(s), last)
    ensures Left(CourseOf(s), last) == Left(CourseOf(s), pt) - |steps|
    decreases steps
  {
    last := pt;
    if steps != [] {
      CourseMoves(s, pt);
      last := RunFrom(s, After(CourseOf(s), pt, steps[0]), steps[1..]);
    }
  }

  /** The number of messages and closings in a session of two peers. */
  function Length(s: Pair): nat {
    Left(CourseOf(s), Greet(false, false))
  }

  /** Progress: no run is longer than Length, every shorter one can go on, and neither side
      ever fails; a run of full length has both sides closed. */
  lemma SessionProgress(s: Pair, steps: seq<Step>)
    requires Ready(s) && Admissible(s, steps)
    ensures |steps| <= Length(s)
    ensures |steps| < Length(s) ==> exists st :: Enabled(Run(s, steps), st)
    ensures !Run(s, steps).a.control.Failed? && !Run(s, steps).b.control.Failed?
    ensures |steps| == Length(s) ==> Run(s, steps).a.control.Closed? && Run(s, steps).b.control.Closed?
  {
    var last := RunFrom(s, Greet(false, false), steps);
    CourseMoves(s, last);
    NeverFailed(CourseOf(s), last);
  }

  lemma NeverFailed(c: Course, pt: Point)
    requires Fits(c, pt)
    ensures !StateAt(c, pt).a.control.Failed? && !StateAt(c, pt).b.control.Failed?
    ensures Left(c, pt) == 0 ==> pt == End
    ensures StateAt(c, End).a.control.Closed? && StateAt(c, End).b.control.Closed?
  {}

  // ----- What a session achieves

  /** Cursor safety, as the runs of Cursor.dfy establish it. */
  ghost predicate CaughtUp(held: Bucket, log: Bucket, cursor: int) {
    forall id :: id in log && 0 < log[id].event.timestamp <= cursor ==> Covered(held, log[id])
  }

  /** Every event of the log that has a positive timestamp is covered. */
  ghost predicate HasAll(held: Bucket, log: Bucket) {
    forall id :: id in log && log[id].event.timestamp > 0 ==> Covered(held, log[id])
  }

  lemma CoverageStays(held: Bucket, more: Bucket, log: Bucket, cursor: int)
    requires Keeps(more, held)
    ensures HasAll(held, log) ==> HasAll(more, log)
    ensures CaughtUp(held, log, cursor) ==> CaughtUp(more, log, cursor)
  {
    forall id | id in log && Covered(held, log[id]) ensures Covered(more, log[id]) {
      CoverageLasts(held, more, log[id]);
    }
  }

  /** Events of a log that come from what is held are covered. */
  lemma GrowthIsCovered(held: Bucket, log: Bucket, log': Bucket, cursor: int)
    requires GrewFrom(log, log', held)
    ensures HasAll(held, log) ==> HasAll(held, log')
    ensures CaughtUp(held, log, cursor) ==> CaughtUp(held, log', cursor)
  {}

  /** Merging the events of an owner leaves each of them covered. */
  lemma MergedAreCovered(held: Bucket, s: seq<SignedEvent>, owner: Identity)
    requires HeldOk(held, owner) && AllBy(s, owner)
    ensures HeldOk(InsertAll(held, s), owner) && Keeps(InsertAll(held, s), held)
    ensures forall se :: se in s ==> Covered(InsertAll(held, s), se)
  {
    MergeEffect(held, s);
    var r := InsertAll(held, s);
    forall id | id in r && IsLike(r[id]) ensures r[id].author == owner {
      if id !in held {
        assert r[id] in s;
      }
    }
  }

  predicate IsPulled(log: LogName) {
    log == PostLog || log == ProfileLog
  }

  /** p's side of the premise: what it holds of q is well formed and its cursors are safe. */
  ghost predicate InStep(p: Peer, q: Peer) {
    forall log :: IsPulled(log) ==> StepAt(HeldOf(p, q, log), q.Me(), LogOf(q.own, log), p.Cursor(log))
  }

  ghost predicate StepAt(held: Bucket, owner: Identity, log: Bucket, cursor: int) {
    HeldOk(held, owner) && CaughtUp(held, log, cursor)
  }

  ghost predicate Complete(p: Peer, q: Peer) {
    forall log :: IsPulled(log) ==> HeldOk(HeldOf(p, q, log), q.Me()) && HasAll(HeldOf(p, q, log), LogOf(q.own, log))
  }

  /** What p holds of q only grows, and stays well formed. */
  ghost predicate HeldGrew(p: Peer, p': Peer, q: Peer) {
    forall log :: IsPulled(log) ==> HeldOk(HeldOf(p', q, log), q.Me()) && Keeps(HeldOf(p', q, log), HeldOf(p, q, log))
  }

  lemma MergeGrows(p: Peer, q: Peer, log: LogName, s: seq<SignedEvent>)
    requires Honest(q) && From(s, q, log) && IsPulled(log)
    requires forall l :: IsPulled(l) ==> HeldOk(HeldOf(p, q, l), q.Me())
    ensures HeldGrew(p, p.Merged(s), q)
    ensures forall se :: se in s ==> Covered(HeldOf(p.Merged(s), q, log), se)
  {
    FromHonest(s, q, log);
    MergeLands(p, q, log, s);
    hide Honest, From, HeldOf, MergeAll, HeldOk, Keeps, Covered;
    forall l | IsPulled(l)
      ensures HeldOk(HeldOf(p.Merged(s), q, l), q.Me()) && Keeps(HeldOf(p.Merged(s), q, l), HeldOf(p, q, l))
    {
      MergedAreCovered(HeldOf(p, q, l), s, q.Me());
      KeepsItself(HeldOf(p, q, l));
    }
    MergedAreCovered(HeldOf(p, q, log), s, q.Me());
  }

  lemma KeepsItself(b: Bucket)
    ensures Keeps(b, b)
  {}

  lemma GrowthKeepsStep(p: Peer, p': Peer, q: Peer)
    requires InStep(p, q) && HeldGrew(p, p', q) && p'.cursors == p.cursors
    ensures InStep(p', q)
  {
    hide HeldOf, Keeps, CaughtUp, HeldOk;
    forall log | IsPulled(log) ensures StepAt(HeldOf(p', q, log), q.Me(), LogOf(q.own, log), p'.Cursor(log)) {
      assert StepAt(HeldOf(p, q, log), q.Me(), LogOf(q.own, log), p.Cursor(log));
      CoverageStays(HeldOf(p, q, log), HeldOf(p', q, log), LogOf(q.own, log), p.Cursor(log));
    }
  }

  /** q has merged events of p: p holds them already. */
  lemma OtherGrowthKeepsStep(p: Peer, q: Peer, q': Peer)
    requires OwnGrew(q, q', p) && q'.Me() == q.Me()
    ensures InStep(p, q) ==> InStep(p, q')
    ensures Complete(p, q) ==> Complete(p, q')
  {
    hide GrewFrom, CaughtUp, HasAll, HeldOk;
    forall log | IsPulled(log)
      ensures CaughtUp(HeldOf(p, q, log), LogOf(q.own, log), p.Cursor(log))
          ==> CaughtUp(HeldOf(p, q', log), LogOf(q'.own, log), p.Cursor(log))
      ensures HasAll(HeldOf(p, q, log), LogOf(q.own, log)) ==> HasAll(HeldOf(p, q', log), LogOf(q'.own, log))
    {
      var source := TwinLog(q, p, log);
      assert GrewFrom(LogOf(q.own, log), LogOf(q'.own, log), source);
      GrewFromMore(LogOf(q.own, log), LogOf(q'.own, log), source, HeldOf(p, q, log));
      GrowthIsCovered(HeldOf(p, q, log), LogOf(q.own, log), LogOf(q'.own, log), p.Cursor(log));
    }
  }

  lemma GrewFromMore(b: Bucket, b': Bucket, source: Bucket, more: Bucket)
    requires GrewFrom(b, b', source) && (source == more || source == map[])
    ensures GrewFrom(b, b', more)
  {}

  // ----- A pull, whole or cut

  /** Both hold honest logs and both have safe cursors for each other. */
  ghost predicate InSync(p: Peer, q: Peer) {
    Honest(p) && Honest(q) && InStep(p, q) && InStep(q, p)
  }

  predicate SameData(p: Peer, p': Peer) {
    p'.key == p.key && p'.own == p.own && p'.crawl == p.crawl && p'.cursors == p.cursors
  }

  lemma SyncIsOfData(p: Peer, q: Peer, p': Peer, q': Peer)
    requires InSync(p, q) && SameData(p, p') && SameData(q, q')
    ensures InSync(p', q') && InSync(q', p')
  {
    hide HonestLog, StepAt;
    forall log | IsPulled(log)
      ensures StepAt(HeldOf(p', q', log), q'.Me(), LogOf(q'.own, log), p'.Cursor(log))
      ensures StepAt(HeldOf(q', p', log), p'.Me(), LogOf(p'.own, log), q'.Cursor(log))
    {
      assert StepAt(HeldOf(p, q, log), q.Me(), LogOf(q.own, log), p.Cursor(log));
      assert StepAt(HeldOf(q, p, log), p.Me(), LogOf(p.own, log), q.Cursor(log));
    }
    forall log ensures HonestLog(LogOf(p'.own, log), p'.Me(), log) && HonestLog(LogOf(q'.own, log), q'.Me(), log) {
      assert HonestLog(LogOf(p.own, log), p.Me(), log) && HonestLog(LogOf(q.own, log), q.Me(), log);
    }
  }

  /** The puller after the first k events of what it wants. */
  function UpTo(p: Peer, q: Peer, log: LogName, k: nat): Peer
    requires k <= |Wanted(p, q, log)|
  {
    p.Merged(Wanted(p, q, log)[..k])
  }

  /** The same when the pull ends there, at a Done or because the connection closes. */
  function CutAt(p: Peer, q: Peer, log: LogName, k: nat): Peer
    requires k <= |Wanted(p, q, log)|
  {
    UpTo(p, q, log, k).EndPull(log, p.StartOfPull(log), MaxTime(0, Wanted(p, q, log)[..k]))
  }

  lemma PrefixIsFrom(p: Peer, q: Peer, log: LogName, k: nat)
    requires Honest(q) && k <= |Wanted(p, q, log)|
    ensures From(Wanted(p, q, log)[..k], q, log)
  {
    WantedIsVerified(p, q, log);
    assert forall se :: se in Wanted(p, q, log)[..k] ==> se in Wanted(p, q, log);
  }

  lemma UpToStaysInSync(p: Peer, q: Peer, log: LogName, k: nat)
    requires InSync(p, q) && IsPulled(log) && k <= |Wanted(p, q, log)|
    ensures InSync(UpTo(p, q, log, k), q)
    ensures HeldGrew(p, UpTo(p, q, log, k), q) && OwnGrew(p, UpTo(p, q, log, k), q)
  {
    var w := Wanted(p, q, log)[..k];
    PrefixIsFrom(p, q, log, k);
    StepsAreWellFormed(p, q);
    hide Honest, InStep, MergeAll, From, HeldGrew, OwnGrew, HeldOf, HeldOk;
    MergeKeepsHonest(p, q, log, w);
    MergeGrows(p, q, log, w);
    GrowthKeepsStep(p, p.Merged(w), q);
    OtherGrowthKeepsStep(q, p, p.Merged(w));
  }

  lemma StepsAreWellFormed(p: Peer, q: Peer)
    requires InStep(p, q)
    ensures forall log :: IsPulled(log) ==> HeldOk(HeldOf(p, q, log), q.Me())
  {
    hide HeldOf, HeldOk, CaughtUp;
    forall log | IsPulled(log) ensures HeldOk(HeldOf(p, q, log), q.Me()) {
      assert StepAt(HeldOf(p, q, log), q.Me(), LogOf(q.own, log), p.Cursor(log));
    }
  }

  lemma {:induction false} MaxTimeIsReached(s: seq<SignedEvent>)
    ensures MaxTime(0, s) == 0 || exists i :: 0 <= i < |s| && s[i].event.timestamp == MaxTime(0, s)
    ensures MaxTime(0, s) >= 0
  {
    if s != [] {
      MaxTimeIsReached(s[..|s| - 1]);
    }
  }

  lemma LaterIsNoOlder(s: seq<SignedEvent>, i: nat, j: nat)
    requires Ascending(s) && i < |s| && j < |s|
    ensures i <= j ==> s[i].event.timestamp <= s[j].event.timestamp
  {}

  /** Of events in ascending order, those older than the newest of a prefix are in it. */
  lemma OlderAreInPrefix(s: seq<SignedEvent>, k: nat, se: SignedEvent)
    requires Ascending(s) && k <= |s| && se in s && 0 < se.event.timestamp < MaxTime(0, s[..k])
    ensures se in s[..k]
  {
    MaxTimeIsReached(s[..k]);
    var i :| 0 <= i < k && s[..k][i].event.timestamp == MaxTime(0, s[..k]);
    var j :| 0 <= j < |s| && s[j] == se;
    LaterIsNoOlder(s, i, j);
    assert s[..k][j] == se;
  }

  /** Held up to the cursor and asked for beyond it: nothing is left out. */
  lemma WantedCompletes(p: Peer, q: Peer, log: LogName)
    requires Honest(q)
    ensures forall id :: id in LogOf(q.own, log) && LogOf(q.own, log)[id].event.timestamp > p.StartOfPull(log)
              ==> LogOf(q.own, log)[id] in Wanted(p, q, log)
  {
    WantedIsVerified(p, q, log);
    var b := LogOf(q.own, log);
    assert HonestLog(b, q.Me(), log);
    forall id | id in b && b[id].event.timestamp > p.StartOfPull(log) ensures b[id] in Wanted(p, q, log) {
      assert InBucket(b, b[id]);
    }
  }

  lemma PrefixCatchesUp(held: Bucket, b: Bucket, w: seq<SignedEvent>, k: nat, cursor: int, start: int)
    requires start == (if cursor > 0 then cursor else 0) && CaughtUp(held, b, cursor)
    requires Ascending(w) && k <= |w| && forall se :: se in w[..k] ==> Covered(held, se)
    requires forall id :: id in b && b[id].event.timestamp > start ==> b[id] in w
    ensures CaughtUp(held, b, Advanced(cursor, start, MaxTime(0, w[..k])))
  {
    hide MaxTime, Covered, Ascending;
    var maxTS := MaxTime(0, w[..k]);
    forall id | id in b && 0 < b[id].event.timestamp <= Advanced(cursor, start, maxTS) ensures Covered(held, b[id]) {
      if b[id].event.timestamp > start {
        OlderAreInPrefix(w, k, b[id]);
      }
    }
  }

  /** The cursor that a pull records, wherever it is cut, is safe. */
  lemma CutCursorIsSafe(p: Peer, q: Peer, log: LogName, k: nat, held: Bucket)
    requires Honest(q) && k <= |Wanted(p, q, log)|
    requires CaughtUp(held, LogOf(q.own, log), p.Cursor(log))
    requires forall se :: se in Wanted(p, q, log)[..k] ==> Covered(held, se)
    ensures CaughtUp(held, LogOf(q.own, log), CutAt(p, q, log, k).Cursor(log))
  {
    var w, b, start := Wanted(p, q, log), LogOf(q.own, log), p.StartOfPull(log);
    RequestedEvents(Listing(b), start);
    hide MaxTime, Covered, Honest, MergeAll, CaughtUp, Ascending, Requested, Listing, Advanced;
    WantedCompletes(p, q, log);
    PrefixCatchesUp(held, b, w, k, p.Cursor(log), start);
    assert CutAt(p, q, log, k).Cursor(log) == Advanced(p.Cursor(log), start, MaxTime(0, w[..k])) by {
      assert MaxTime(0, w[..k]) == 0 ==> Advanced(p.Cursor(log), start, MaxTime(0, w[..k])) == p.Cursor(log) by {
        AdvancedByNone(p.Cursor(log), start);
      }
    }
  }

  lemma AdvancedByNone(cursor: int, start: int)
    ensures Advanced(cursor, start, 0) == cursor
  {}

  lemma CutMovesCursor(p: Peer, q: Peer, log: LogName, k: nat)
    requires k <= |Wanted(p, q, log)|
    ensures var m, r := UpTo(p, q, log, k), CutAt(p, q, log, k);
      && r.key == m.key && r.own == m.own && r.crawl == m.crawl
      && m.cursors == p.cursors
      && forall l :: l != log ==> r.Cursor(l) == m.Cursor(l)
  {
    hide MergeAll, MaxTime, Wanted, Advanced;
  }

  lemma CutIsCaughtUp(p: Peer, q: Peer, log: LogName, k: nat)
    requires Honest(q) && InStep(p, q) && IsPulled(log) && k <= |Wanted(p, q, log)|
    requires InStep(UpTo(p, q, log, k), q) && UpTo(p, q, log, k).cursors == p.cursors
    ensures CaughtUp(HeldOf(UpTo(p, q, log, k), q, log), LogOf(q.own, log), CutAt(p, q, log, k).Cursor(log))
  {
    hide Honest, From, HeldOf, MergeAll, HeldGrew, Covered, CaughtUp, HeldOk, Wanted, CutAt;
    var m := UpTo(p, q, log, k);
    PrefixIsFrom(p, q, log, k);
    StepsAreWellFormed(p, q);
    MergeGrows(p, q, log, Wanted(p, q, log)[..k]);
    assert StepAt(HeldOf(m, q, log), q.Me(), LogOf(q.own, log), m.Cursor(log));
    CutCursorIsSafe(p, q, log, k, HeldOf(m, q, log));
  }

  lemma CutStaysInSync(p: Peer, q: Peer, log: LogName, k: nat)
    requires InSync(p, q) && IsPulled(log) && k <= |Wanted(p, q, log)|
    ensures InSync(CutAt(p, q, log, k), q)
    ensures HeldGrew(p, CutAt(p, q, log, k), q) && OwnGrew(p, CutAt(p, q, log, k), q)
  {
    hide Honest, InStep, HeldGrew, OwnGrew, CaughtUp, UpTo, CutAt, HeldOf, Wanted;
    UpToStaysInSync(p, q, log, k);
    CutMovesCursor(p, q, log, k);
    CutIsCaughtUp(p, q, log, k);
    CursorMoves(UpTo(p, q, log, k), CutAt(p, q, log, k), q, log);
  }

  /** Only the cursor of one log has changed, to a safe value. */
  lemma CursorMoves(m: Peer, r: Peer, q: Peer, log: LogName)
    requires InSync(m, q) && r.key == m.key && r.own == m.own && r.crawl == m.crawl
    requires forall l :: l != log ==> r.Cursor(l) == m.Cursor(l)
    requires CaughtUp(HeldOf(m, q, log), LogOf(q.own, log), r.Cursor(log))
    ensures InSync(r, q)
    ensures forall p :: HeldGrew(p, m, q) ==> HeldGrew(p, r, q)
    ensures forall p :: OwnGrew(p, m, q) ==> OwnGrew(p, r, q)
  {
  }

  lemma PulledIsCut(p: Peer, q: Peer, log: LogName)
    ensures CutAt(p, q, log, |Wanted(p, q, log)|) == Pulled(p, q, log)
  {
    var w := Wanted(p, q, log);
    assert w[..|w|] == w;
  }

  lemma PulledStaysInSync(p: Peer, q: Peer, log: LogName)
    requires InSync(p, q) && IsPulled(log)
    ensures InSync(Pulled(p, q, log), q)
    ensures HeldGrew(p, Pulled(p, q, log), q) && OwnGrew(p, Pulled(p, q, log), q)
  {
    hide InSync, Pulled, Wanted, CutAt, HeldGrew, OwnGrew;
    PulledIsCut(p, q, log);
    CutStaysInSync(p, q, log, |Wanted(p, q, log)|);
  }

  /** What is left of a peer when the connection breaks: one that was reading may see it close
      and end its pull, otherwise it goes no further. */
  function Torn(p: Peer, closed: bool): Peer {
    if closed then p.OnClose() else p
  }

  lemma TornKeepsData(p: Peer, closed: bool)
    requires !p.control.Pulling?
    ensures SameData(p, Torn(p, closed))
  {}

  lemma MidPullIsCut(p: Peer, q: Peer, log: LogName, i: nat, closed: bool) returns (k: nat)
    requires Honest(q) && i <= |Reply(Wanted(p, q, log))|
    ensures k <= |Wanted(p, q, log)|
    ensures SameData(if closed then CutAt(p, q, log, k) else UpTo(p, q, log, k),
                     Torn(MidPull(p, log, Reply(Wanted(p, q, log)), i), closed))
  {
    hide MaxTime, Reply, Items, Honest;
    var w := Wanted(p, q, log);
    WantedIsVerified(p, q, log);
    CutReplyIsPrefix(w, i);
    k := Least(BATCH_SIZE * i, |w|);
    hide Wanted;
    TornPull(p, log, w[..k], closed);
  }

  lemma TornPull(p: Peer, log: LogName, got: seq<SignedEvent>, closed: bool)
    ensures var start, maxTS := p.StartOfPull(log), MaxTime(0, got);
      SameData(if closed then p.Merged(got).EndPull(log, start, maxTS) else p.Merged(got),
               Torn(p.Merged(got).At(Pulling(log, start, maxTS)), closed))
  {
    hide MergeAll, MaxTime;
  }

  lemma MidPullInSync(p: Peer, q: Peer, log: LogName, i: nat, closed: bool)
    requires InSync(p, q) && IsPulled(log) && i <= |Reply(Wanted(p, q, log))|
    ensures InSync(Torn(MidPull(p, log, Reply(Wanted(p, q, log)), i), closed), q)
  {
    hide Honest, InStep, Wanted, Reply, MidPull, Torn, UpTo, CutAt;
    var k := MidPullIsCut(p, q, log, i, closed);
    UpToStaysInSync(p, q, log, k);
    CutStaysInSync(p, q, log, k);
    SyncIsOfData(if closed then CutAt(p, q, log, k) else UpTo(p, q, log, k), q,
                 Torn(MidPull(p, log, Reply(Wanted(p, q, log)), i), closed), q);
  }

  // ----- Every point of a session

  /** How the stages of a course arise from one another. */
  ghost predicate Staged(c: Course) {
    && SameData(c.start.a, c.a0) && SameData(c.start.b, c.b0) && SameData(c.a2, c.a3) && SameData(c.b0, c.b3)
    && c.a1 == Pulled(c.a0, c.b0, PostLog) && c.a2 == Pulled(c.a1, c.b0, ProfileLog)
    && c.b4 == Pulled(c.b3, c.a3, PostLog) && c.b5 == Pulled(c.b4, c.a3, ProfileLog)
    && (forall second :: c.WantedA(second) == Wanted(c.A(second), c.b0, LogAt(second)))
    && (forall second :: c.WantedB(second) == Wanted(c.B(second), c.a3, LogAt(second)))
  }

  lemma CourseIsStaged(s: Pair)
    ensures Staged(CourseOf(s)) && CourseOf(s).start == s
  {
    hide Pulled, Wanted;
  }

  lemma StagesInSync(c: Course)
    requires Staged(c) && InSync(c.start.a, c.start.b)
    ensures InSync(c.a0, c.b0) && InSync(c.a1, c.b0) && InSync(c.a2, c.b0)
    ensures InSync(c.b3, c.a3) && InSync(c.b4, c.a3) && InSync(c.b5, c.a3)
  {
    hide InSync, Pulled, Wanted;
    SyncIsOfData(c.start.a, c.start.b, c.a0, c.b0);
    PulledStaysInSync(c.a0, c.b0, PostLog);
    PulledStaysInSync(c.a1, c.b0, ProfileLog);
    SyncIsOfData(c.a2, c.b0, c.a3, c.b3);
    PulledStaysInSync(c.b3, c.a3, PostLog);
    PulledStaysInSync(c.b4, c.a3, ProfileLog);
  }

  lemma TornInSync(p: Peer, q: Peer, p': Peer, q': Peer, cp: bool, cq: bool)
    requires InSync(p, q) && SameData(p, p') && SameData(q, q')
    requires !p'.control.Pulling? && !q'.control.Pulling?
    ensures InSync(Torn(p', cp), Torn(q', cq)) && InSync(Torn(q', cq), Torn(p', cp))
  {
    hide InSync, Torn;
    TornKeepsData(p', cp);
    TornKeepsData(q', cq);
    SyncIsOfData(p, q, Torn(p', cp), Torn(q', cq));
  }

  lemma PullPointInSync(p: Peer, q: Peer, q': Peer, log: LogName, i: nat, cp: bool, cq: bool)
    requires InSync(p, q) && SameData(q, q') && !q'.control.Pulling?
    requires IsPulled(log) && i <= |Reply(Wanted(p, q, log))|
    ensures var m := MidPull(p, log, Reply(Wanted(p, q, log)), i);
      InSync(Torn(m, cp), Torn(q', cq)) && InSync(Torn(q', cq), Torn(m, cp))
  {
    hide InSync, MidPull, Torn, Wanted, Reply;
    TornKeepsData(q', cq);
    MidPullInSync(p, q, log, i, cp);
    var m := MidPull(p, log, Reply(Wanted(p, q, log)), i);
    SyncIsOfData(Torn(m, cp), q, Torn(m, cp), Torn(q', cq));
  }

  lemma HandshakeInSync(c: Course, pt: Point, ca: bool, cb: bool)
    requires Fits(c, pt) && (pt.Greet? || pt.Prove?) && InSync(c.start.a, c.start.b)
    ensures InSync(Torn(StateAt(c, pt).a, ca), Torn(StateAt(c, pt).b, cb))
  {
    hide InSync, Torn;
    TornInSync(c.start.a, c.start.b, StateAt(c, pt).a, StateAt(c, pt).b, ca, cb);
  }

  lemma APullInSync(c: Course, pt: Point, ca: bool, cb: bool)
    requires Fits(c, pt) && (pt.AAsk? || pt.APull?) && InSync(c.A(pt.second), c.b0)
    requires c.WantedA(pt.second) == Wanted(c.A(pt.second), c.b0, LogAt(pt.second))
    ensures InSync(Torn(StateAt(c, pt).a, ca), Torn(StateAt(c, pt).b, cb))
  {
    hide InSync, Torn, Wanted, MidPull, Reply;
    var x := StateAt(c, pt);
    if pt.AAsk? {
      TornInSync(c.A(pt.second), c.b0, x.a, x.b, ca, cb);
    } else {
      PullPointInSync(c.A(pt.second), c.b0, x.b, LogAt(pt.second), pt.i, ca, cb);
    }
  }

  lemma BPullInSync(c: Course, pt: Point, ca: bool, cb: bool)
    requires Fits(c, pt) && (pt.BAsk? || pt.BPull?) && InSync(c.B(pt.second), c.a3)
    requires c.WantedB(pt.second) == Wanted(c.B(pt.second), c.a3, LogAt(pt.second))
    ensures InSync(Torn(StateAt(c, pt).a, ca), Torn(StateAt(c, pt).b, cb))
  {
    hide InSync, Torn, Wanted, MidPull, Reply;
    var x := StateAt(c, pt);
    if pt.BAsk? {
      TornInSync(c.B(pt.second), c.a3, x.b, x.a, cb, ca);
    } else {
      PullPointInSync(c.B(pt.second), c.a3, x.a, LogAt(pt.second), pt.i, cb, ca);
    }
  }

  lemma ZenInSync(c: Course, pt: Point, ca: bool, cb: bool)
    requires pt.AOffer? || pt.AAwait? || pt.AReverse?
    requires InSync(c.a2, c.b0) && SameData(c.a2, c.a3) && SameData(c.b0, c.b3)
    ensures InSync(Torn(StateAt(c, pt).a, ca), Torn(StateAt(c, pt).b, cb))
  {
    hide InSync, Torn;
    TornInSync(c.a2, c.b0, StateAt(c, pt).a, StateAt(c, pt).b, ca, cb);
  }

  lemma EndInSync(c: Course, pt: Point, ca: bool, cb: bool)
    requires (pt.HangUp? || pt.End?) && InSync(c.b5, c.a3)
    ensures InSync(Torn(StateAt(c, pt).a, ca), Torn(StateAt(c, pt).b, cb))
  {
    hide InSync, Torn;
    TornInSync(c.b5, c.a3, StateAt(c, pt).b, StateAt(c, pt).a, cb, ca);
  }

  /** At every point of a session, and however it breaks off there, both stay in sync. */
  lemma PointInSync(c: Course, pt: Point, ca: bool, cb: bool)
    requires Staged(c) && InSync(c.start.a, c.start.b) && Fits(c, pt)
    ensures InSync(Torn(StateAt(c, pt).a, ca), Torn(StateAt(c, pt).b, cb))
  {
    StagesInSync(c);
    hide InSync, Torn, Pulled, Wanted, StateAt, Fits;
    match pt
    case Greet(_, _) => HandshakeInSync(c, pt, ca, cb);
    case Prove(_, _) => HandshakeInSync(c, pt, ca, cb);
    case AAsk(_) => APullInSync(c, pt, ca, cb);
    case APull(_, _) => APullInSync(c, pt, ca, cb);
    case AOffer => ZenInSync(c, pt, ca, cb);
    case AAwait => ZenInSync(c, pt, ca, cb);
    case AReverse => ZenInSync(c, pt, ca, cb);
    case BAsk(_) => BPullInSync(c, pt, ca, cb);
    case BPull(_, _) => BPullInSync(c, pt, ca, cb);
    case HangUp => EndInSync(c, pt, ca, cb);
    case End => EndInSync(c, pt, ca, cb);
  }

  /** Cutting a session does no harm: after any number of steps, and whichever sides then see
      the connection close, the premise about cursors holds for both. */
  lemma CutSessionStaysInSync(s: Pair, steps: seq<Step>, ca: bool, cb: bool)
    requires Ready(s) && InSync(s.a, s.b) && Admissible(s, steps)
    ensures InSync(Torn(Run(s, steps).a, ca), Torn(Run(s, steps).b, cb))
  {
    hide Ready, InSync, Torn, Staged;
    StartsAtGreet(s);
    var last := RunFrom(s, Greet(false, false), steps);
    CourseIsStaged(s);
    PointInSync(CourseOf(s), last, ca, cb);
  }

  lemma StartsAtGreet(s: Pair)
    requires Ready(s)
    ensures StateAt(CourseOf(s), Greet(false, false)) == s
  {}

  // ----- A whole session

  lemma PullDelivers(p: Peer, q: Peer, log: LogName)
    requires Honest(q) && HeldOk(HeldOf(p, q, log), q.Me())
    ensures var held, held' := HeldOf(p, q, log), HeldOf(Pulled(p, q, log), q, log);
      && HeldOk(held', q.Me()) && Keeps(held', held)
      && (CaughtUp(held, LogOf(q.own, log), p.Cursor(log)) ==> HasAll(held', LogOf(q.own, log)))
  {
    hide Wanted, Honest, MergeAll, Keeps, CaughtUp, HasAll, MaxTime, InsertAll, Covered, Advanced;
    var w, held := Wanted(p, q, log), HeldOf(p, q, log);
    WantedIsVerified(p, q, log);
    FromHonest(w, q, log);
    MergeLands(p, q, log, w);
    WantedCompletes(p, q, log);
    assert HeldOf(Pulled(p, q, log), q, log) == InsertAll(held, w);
    MergedAreCovered(held, w, q.Me());
    CoverageStays(held, InsertAll(held, w), LogOf(q.own, log), p.Cursor(log));
    NothingLeftOut(held, w, InsertAll(held, w), LogOf(q.own, log), p.Cursor(log), p.StartOfPull(log));
  }

  lemma NothingLeftOut(held: Bucket, w: seq<SignedEvent>, r: Bucket, b: Bucket, cursor: int, start: int)
    requires start == (if cursor > 0 then cursor else 0)
    requires CaughtUp(held, b, cursor) ==> CaughtUp(r, b, cursor)
    requires forall se :: se in w ==> Covered(r, se)
    requires forall id :: id in b && b[id].event.timestamp > start ==> b[id] in w
    ensures CaughtUp(held, b, cursor) ==> HasAll(r, b)
  {}

  /** Complete in terms of what is held: every event but the Likes that another Like of the
      same target has displaced. */
  lemma CompleteMeansHeld(p: Peer, q: Peer, log: LogName)
    requires Complete(p, q) && Honest(q) && IsPulled(log)
    ensures var held, b := HeldOf(p, q, log), LogOf(q.own, log);
      && (forall id :: id in b && b[id].event.timestamp > 0 ==> (id in held <==> !Displaced(held, b[id])))
      && (forall id :: id in b && b[id].event.timestamp > 0 && !IsLike(b[id]) ==> id in held)
  {
    var held, b := HeldOf(p, q, log), LogOf(q.own, log);
    assert HonestLog(b, q.Me(), log);
    forall id | id in b && b[id].event.timestamp > 0 ensures id in held <==> !Displaced(held, b[id]) {
      HeldUnlessDisplaced(held, b[id]);
    }
  }

  lemma PulledHasAll(p: Peer, q: Peer, log: LogName)
    requires InSync(p, q) && IsPulled(log)
    ensures HasAll(HeldOf(Pulled(p, q, log), q, log), LogOf(q.own, log))
  {
    hide Pulled, HeldOf, HasAll, CaughtUp, Keeps;
    assert StepAt(HeldOf(p, q, log), q.Me(), LogOf(q.own, log), p.Cursor(log));
    PullDelivers(p, q, log);
  }

  /** Two pulls in a row, the PostLog and then the ProfileLog, deliver both logs. */
  lemma PullsDeliver(p: Peer, q: Peer)
    requires InSync(p, q)
    ensures Complete(Pulled(Pulled(p, q, PostLog), q, ProfileLog), q)
    ensures OwnGrew(p, Pulled(Pulled(p, q, PostLog), q, ProfileLog), q)
  {
    var m := Pulled(p, q, PostLog);
    var r := Pulled(m, q, ProfileLog);
    hide Pulled, InSync, HasAll, Keeps, HeldOk, HeldOf, OwnGrew;
    PulledStaysInSync(p, q, PostLog);
    PulledHasAll(p, q, PostLog);
    PulledStaysInSync(m, q, ProfileLog);
    PulledHasAll(m, q, ProfileLog);
    CoverageStays(HeldOf(m, q, PostLog), HeldOf(r, q, PostLog), LogOf(q.own, PostLog), 0);
    PulledKeepsKey(p, q, PostLog);
    GrewTwice(p, m, r, q);
  }

  lemma PulledKeepsKey(p: Peer, q: Peer, log: LogName)
    ensures Pulled(p, q, log).Me() == p.Me() && Pulled(p, q, log).key == p.key
  {}

  lemma GrewTwice(p: Peer, m: Peer, r: Peer, q: Peer)
    requires OwnGrew(p, m, q) && OwnGrew(m, r, q) && m.Me() == p.Me()
    ensures OwnGrew(p, r, q)
  {
    forall log ensures GrewFrom(LogOf(p.own, log), LogOf(r.own, log), TwinLog(p, q, log)) {
      assert GrewFrom(LogOf(p.own, log), LogOf(m.own, log), TwinLog(p, q, log));
      assert GrewFrom(LogOf(m.own, log), LogOf(r.own, log), TwinLog(p, q, log));
    }
  }

  /** q has grown by p's events first; what p then takes from it was q's at the start. */
  lemma GrewFromStart(p: Peer, p': Peer, q: Peer, q': Peer)
    requires OwnGrew(q, q', p) && OwnGrew(p, p', q') && q'.Me() == q.Me() && Honest(p')
    ensures OwnGrew(p, p', q)
  {
    forall log ensures GrewFrom(LogOf(p.own, log), LogOf(p'.own, log), TwinLog(p, q, log)) {
      assert GrewFrom(LogOf(q.own, log), LogOf(q'.own, log), TwinLog(q, p, log));
      assert GrewFrom(LogOf(p.own, log), LogOf(p'.own, log), TwinLog(p, q', log));
      assert HonestLog(LogOf(p'.own, log), p'.Me(), log);
    }
  }

  lemma GrewByData(p: Peer, p': Peer, q: Peer, t: Peer, t': Peer, u: Peer)
    requires OwnGrew(p, p', q) && SameData(p, t) && SameData(p', t') && SameData(q, u)
    ensures OwnGrew(t, t', u)
  {
    hide GrewFrom;
    forall log ensures GrewFrom(LogOf(t.own, log), LogOf(t'.own, log), TwinLog(t, u, log)) {
      assert GrewFrom(LogOf(p.own, log), LogOf(p'.own, log), TwinLog(p, q, log));
    }
  }

  lemma CompleteByData(p: Peer, q: Peer, p': Peer, q': Peer)
    requires Complete(p, q) && SameData(p, p') && SameData(q, q')
    ensures Complete(p', q')
  {
    hide HeldOk, HasAll;
    forall log | IsPulled(log)
      ensures HeldOk(HeldOf(p', q', log), q'.Me()) && HasAll(HeldOf(p', q', log), LogOf(q'.own, log))
    {
      assert HeldOf(p', q', log) == HeldOf(p, q, log);
    }
  }

  /** First a pulls both logs of b, then b those of a. */
  lemma BothPullsDeliver(a: Peer, b: Peer, a': Peer, b': Peer)
    requires InSync(a, b) && Honest(a') && Honest(b') && a'.Me() == a.Me() && b'.Me() == b.Me()
    requires Complete(a', b) && OwnGrew(a, a', b)
    requires Complete(b', a') && OwnGrew(b, b', a')
    ensures Complete(a', b') && OwnGrew(b, b', a)
  {
    hide Complete, OwnGrew, Honest, InStep;
    OtherGrowthKeepsStep(a', b, b');
    GrewFromStart(b, b', a, a');
  }

  lemma CourseDelivers(c: Course)
    requires Staged(c) && InSync(c.start.a, c.start.b)
    ensures Complete(c.a3, c.b5) && Complete(c.b5, c.a3) && InSync(c.a3, c.b5)
    ensures OwnGrew(c.start.a, c.a3, c.start.b) && OwnGrew(c.start.b, c.b5, c.start.a)
    ensures c.a3.Me() == c.start.a.Me() && c.b5.Me() == c.start.b.Me()
  {
    StagesInSync(c);
    StagesKeepKeys(c);
    hide Pulled, Complete, OwnGrew, Wanted, Honest, InStep;
    var a, b := c.start.a, c.start.b;
    PullsDeliver(c.a0, c.b0);
    CompleteByData(c.a2, c.b0, c.a3, b);
    GrewByData(c.a0, c.a2, c.b0, a, c.a3, b);
    PullsDeliver(c.b3, c.a3);
    GrewByData(c.b3, c.b5, c.a3, b, c.b5, c.a3);
    SyncIsOfData(c.b5, c.a3, c.b5, c.a3);
    BothPullsDeliver(a, b, c.a3, c.b5);
  }

  lemma StagesKeepKeys(c: Course)
    requires Staged(c)
    ensures c.a3.Me() == c.start.a.Me() && c.b5.Me() == c.start.b.Me()
  {
    hide Pulled, Wanted;
    PulledKeepsKey(c.a0, c.b0, PostLog);
    PulledKeepsKey(c.a1, c.b0, ProfileLog);
    PulledKeepsKey(c.b3, c.a3, PostLog);
    PulledKeepsKey(c.b4, c.a3, ProfileLog);
  }

  /** The result of a session: when both sides have closed, each has every event with a
      positive timestamp of the other's PostLog and ProfileLog covered, and the references of
      each have reached the other. Own logs have grown at most by what the other device of the
      same identity had; between two identities they are unchanged. The premise holds again. */
  lemma SessionResult(s: Pair, steps: seq<Step>)
    requires Ready(s) && InSync(s.a, s.b)
    requires Admissible(s, steps) && |steps| == Length(s)
    ensures var r := Run(s, steps);
      && Complete(r.a, r.b) && Complete(r.b, r.a) && InSync(r.a, r.b)
      && r.a.learned == s.a.learned + s.b.refs && r.b.learned == s.b.learned + s.a.refs
      && OwnGrew(s.a, r.a, s.b) && OwnGrew(s.b, r.b, s.a) && r.a.Me() == s.a.Me() && r.b.Me() == s.b.Me()
  {
    hide Ready, InSync, Complete, OwnGrew, Staged, CourseOf;
    StartsAtGreet(s);
    var c := CourseOf(s);
    var last := RunFrom(s, Greet(false, false), steps);
    NeverFailed(c, last);
    CourseIsStaged(s);
    CourseDelivers(c);
    LearnedInCourse(s);
    var a, b := c.a3.At(Closed), c.b5.At(Closed);
    SyncIsOfData(c.a3, c.b5, a, b);
    CompleteByData(c.a3, c.b5, a, b);
    CompleteByData(c.b5, c.a3, b, a);
    GrewByData(s.a, c.a3, s.b, s.a, a, s.b);
    GrewByData(s.b, c.b5, s.a, s.b, b, s.a);
  }

  /** Between two identities nothing is added to anyone's own logs. */
  lemma OwnStaysApart(p: Peer, p': Peer, q: Peer, log: LogName)
    requires OwnGrew(p, p', q) && p.Me() != q.Me()
    ensures LogOf(p'.own, log) == LogOf(p.own, log)
  {
    assert GrewFrom(LogOf(p.own, log), LogOf(p'.own, log), map[]);
  }

  lemma LearnedInCourse(s: Pair)
    ensures CourseOf(s).a3.learned == s.a.learned + s.b.refs
    ensures CourseOf(s).b5.learned == s.b.learned + s.a.refs
  {}

  // ----- Any number of sessions

  /** Between two sessions a peer keeps its cursors and what it holds of the other, and may
      merge or crawl more of it. */
  ghost predicate KeepsData(p: Peer, p': Peer, q: Peer) {
    p'.key == p.key && p'.cursors == p.cursors && HeldGrew(p, p', q)
  }

  /** Meanwhile q signs nothing at or before p's cursors. */
  ghost predicate GrowsAhead(q: Peer, q': Peer, p: Peer) {
    forall log, id :: IsPulled(log) && id in LogOf(q'.own, log) ==>
      || (id in LogOf(q.own, log) && LogOf(q.own, log)[id] == LogOf(q'.own, log)[id])
      || LogOf(q'.own, log)[id].event.timestamp > p.Cursor(log)
  }

  ghost predicate Follows(r: Pair, t: Pair) {
    && KeepsData(r.a, t.a, r.b) && KeepsData(r.b, t.b, r.a)
    && GrowsAhead(r.a, t.a, r.b) && GrowsAhead(r.b, t.b, r.a)
  }

  /** A session broken off: each side may or may not have seen the connection close. */
  function BrokenOff(r: Pair, ca: bool, cb: bool): Pair {
    Pair(Torn(r.a, ca), Torn(r.b, cb))
  }

  /** The next session between the same peers, which either of them may open. */
  ghost predicate Resumes(r: Pair, t: Pair) {
    exists ca, cb :: Follows(BrokenOff(r, ca, cb), t) || Follows(BrokenOff(r, ca, cb), Pair(t.b, t.a))
  }

  lemma StaysInStep(p: Peer, q: Peer, p': Peer, q': Peer)
    requires InStep(p, q) && KeepsData(p, p', q) && GrowsAhead(q, q', p) && q'.key == q.key
    ensures InStep(p', q')
  {
    GrowthKeepsStep(p, p', q);
    hide HeldGrew, HeldOk, Covered;
    forall log | IsPulled(log) ensures StepAt(HeldOf(p', q', log), q'.Me(), LogOf(q'.own, log), p'.Cursor(log)) {
      assert StepAt(HeldOf(p', q, log), q.Me(), LogOf(q.own, log), p'.Cursor(log));
      assert HeldOf(p', q', log) == HeldOf(p', q, log);
    }
  }

  lemma ResumedInStep(r: Pair, t: Pair)
    requires InSync(r.a, r.b) && Follows(r, t)
    ensures InStep(t.a, t.b) && InStep(t.b, t.a)
  {
    hide InStep, Honest, GrowsAhead, HeldGrew;
    StaysInStep(r.a, r.b, t.a, t.b);
    StaysInStep(r.b, r.a, t.b, t.a);
  }

  /** A session, whole or cut, and a start that resumes from where it ended. */
  lemma SessionThenStart(s: Pair, steps: seq<Step>, t: Pair)
    requires Ready(s) && InSync(s.a, s.b) && Ready(t)
    requires Admissible(s, steps) && Resumes(Run(s, steps), t)
    ensures InSync(t.a, t.b)
  {
    var r := Run(s, steps);
    hide Run, Admissible, InStep, HonestLog, Follows, Torn;
    var ca, cb :| Follows(BrokenOff(r, ca, cb), t) || Follows(BrokenOff(r, ca, cb), Pair(t.b, t.a));
    CutSessionStaysInSync(s, steps, ca, cb);
    if Follows(BrokenOff(r, ca, cb), t) {
      ResumedInStep(BrokenOff(r, ca, cb), t);
    } else {
      ResumedInStep(BrokenOff(r, ca, cb), Pair(t.b, t.a));
    }
  }

  /** A series of sessions: any of them may be cut after any number of steps, and each but the
      first resumes where the last one ended. */
  ghost predicate Series(starts: seq<Pair>, runs: seq<seq<Step>>) {
    && |starts| == |runs|
    && (forall i :: 0 <= i < |starts| ==> Ready(starts[i]) && Admissible(starts[i], runs[i]))
    && (forall i, j :: 0 <= i && j == i + 1 < |starts| ==> Resumes(Run(starts[i], runs[i]), starts[j]))
  }

  /** The premise about cursors, once it holds, holds at the start of every session of a
      series, whatever was cut and whatever was signed in between; and every session that is
      not cut delivers in full. */
  lemma {:induction false} EverySessionDelivers(starts: seq<Pair>, runs: seq<seq<Step>>, n: nat)
    requires Series(starts, runs) && n < |starts| && InSync(starts[0].a, starts[0].b)
    ensures InSync(starts[n].a, starts[n].b)
    ensures |runs[n]| == Length(starts[n]) ==>
      var r := Run(starts[n], runs[n]); Complete(r.a, r.b) && Complete(r.b, r.a)
  {
    hide Run, Admissible, Ready, InSync, Complete, Resumes, Length;
    if n > 0 {
      EverySessionDelivers(starts, runs, n - 1);
      SessionThenStart(starts[n - 1], runs[n - 1], starts[n]);
    }
    if |runs[n]| == Length(starts[n]) {
      SessionResult(starts[n], runs[n]);
    }
  }
}
