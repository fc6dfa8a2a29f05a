/** The event model of internal/core/event.go: kinds, logs, payloads, signing, and the
    identifier of an event.

    Two idealisations stand in for foreign code. The digest that identifies an event is
    taken to be its canonical bytes, so that it is collision free, and a signature is the
    pair of the signing key and the signed bytes. */
module Events {

  datatype Option<+T> = None | Some(value: T)

  type Bytes = seq<int>

  /** Bytewise order, the order in which a bucket lists its keys. */
  predicate Before(a: Bytes, b: Bytes) {
    if b == [] then false
    else if a == [] then true
    else if a[0] != b[0] then a[0] < b[0]
    else Before(a[1..], b[1..])
  }

  /** The order is lexicographic: at the first difference the smaller byte comes first, and a
      proper prefix comes before its extensions. */
  lemma {:induction false} BeforeIsLexicographic(a: Bytes, b: Bytes)
    ensures Before(a, b) <==> exists n :: 0 <= n <= |a| && n < |b| && a[..n] == b[..n] && (n == |a| || a[n] < b[n])
  {
    if a == [] {
      assert b != [] ==> a[..0] == b[..0];
    } else if b != [] {
      if a[0] != b[0] {
        assert a[..0] == b[..0];
        assert forall n :: 0 < n <= |a| && n < |b| ==> a[..n][0] == a[0] && b[..n][0] == b[0];
      } else {
        BeforeIsLexicographic(a[1..], b[1..]);
        LexicographicTail(a, b);
      }
    }
  }

  lemma LexicographicTail(a: Bytes, b: Bytes)
    requires a != [] && b != [] && a[0] == b[0]
    ensures (exists n :: 0 <= n <= |a| && n < |b| && a[..n] == b[..n] && (n == |a| || a[n] < b[n]))
       <==> (exists n :: 0 <= n <= |a[1..]| && n < |b[1..]| && a[1..][..n] == b[1..][..n] && (n == |a[1..]| || a[1..][n] < b[1..][n]))
  {
    if n :| 0 <= n <= |a| && n < |b| && a[..n] == b[..n] && (n == |a| || a[n] < b[n]) {
      assert n > 0;
      assert a[1..][..n - 1] == a[..n][1..] == b[..n][1..] == b[1..][..n - 1];
    }
    if n :| 0 <= n <= |a[1..]| && n < |b[1..]| && a[1..][..n] == b[1..][..n] && (n == |a[1..]| || a[1..][n] < b[1..][n]) {
      assert a[..n + 1] == [a[0]] + a[1..][..n] && b[..n + 1] == [b[0]] + b[1..][..n];
    }
  }

  lemma {:induction false} BeforeIsStrict(a: Bytes, b: Bytes)
    ensures !(Before(a, b) && Before(b, a))
    ensures a == b ==> !Before(a, b)
  {
    if a != [] && b != [] {
      BeforeIsStrict(a[1..], b[1..]);
    }
  }

  lemma {:induction false} BeforeIsTotal(a: Bytes, b: Bytes)
    ensures Before(a, b) || Before(b, a) || a == b
  {
    if a != [] && b != [] && a[0] == b[0] {
      BeforeIsTotal(a[1..], b[1..]);
      assert a == [a[0]] + a[1..] && b == [b[0]] + b[1..];
    }
  }

  lemma {:induction false} BeforeIsTransitive(a: Bytes, b: Bytes, c: Bytes)
    requires Before(a, b) && Before(b, c)
    ensures Before(a, c)
  {
    if a != [] && a[0] == b[0] == c[0] {
      BeforeIsTransitive(a[1..], b[1..], c[1..]);
    }
  }

  type EventID = Bytes
  type Pubkey = Bytes

  /** The parent of a top-level post. No event has it as its identifier. */
  const ZERO_ID: EventID := []

  /** An identity string: empty, the address of a public key, or text that is no address. */
  datatype Identity = Anonymous | OfKey(key: Pubkey) | Malformed(text: Bytes)

  datatype LogName = ProfileLog | DetailLog | PostLog | OtherLog(code: nat)

  datatype Kind =
    | KindUnset
    | KindProfile
    | KindFollow
    | KindUnfollow
    | KindPost
    | KindLike
    | KindDelete
    | KindDetail
    | KindOther(code: nat)

  datatype Post = Post(text: Bytes, parent: EventID)

  /** As in the original, the kind does not force which payload is present. */
  datatype Event = Event(
    kind: Kind,
    log: LogName,
    timestamp: int,
    sequence: nat,
    profile: Option<Bytes>,
    follow: Option<Pubkey>,
    post: Option<Post>,
    like: Option<EventID>,
    delete: Option<EventID>,
    detail: Option<Bytes>)

  function KindCode(k: Kind): nat {
    match k
    case KindUnset => 0
    case KindProfile => 1
    case KindFollow => 2
    case KindUnfollow => 3
    case KindPost => 4
    case KindLike => 5
    case KindDelete => 6
    case KindDetail => 7
    case KindOther(c) => 8 + c
  }

  function LogCode(l: LogName): nat {
    match l
    case ProfileLog => 0
    case DetailLog => 1
    case PostLog => 2
    case OtherLog(c) => 3 + c
  }

  /** An optional field, prefixed with its length. */
  function Field(f: Option<Bytes>): Bytes {
    if f.None? then [-1] else [|f.value|] + f.value
  }

  function Fields(fs: seq<Option<Bytes>>): Bytes {
    if fs == [] then [] else Field(fs[0]) + Fields(fs[1..])
  }

  function Payloads(e: Event): seq<Option<Bytes>> {
    [ e.profile, e.follow,
      if e.post.Some? then Some(e.post.value.text) else None,
      if e.post.Some? then Some(e.post.value.parent) else None,
      e.like, e.delete, e.detail ]
  }

  function CanonicalEncode(e: Event): Bytes {
    [KindCode(e.kind), LogCode(e.log), e.timestamp, e.sequence] + Fields(Payloads(e))
  }

  lemma {:induction false} FieldsAreInjective(a: seq<Option<Bytes>>, b: seq<Option<Bytes>>)
    requires |a| == |b| && Fields(a) == Fields(b)
    ensures a == b
  {
    if a != [] {
      var x, y := Field(a[0]), Field(b[0]);
      assert x[0] == Fields(a)[0] == Fields(b)[0] == y[0];
      assert |x| == |y|;
      assert x == Fields(a)[..|x|] == Fields(b)[..|y|] == y;
      assert a[0] == b[0] by {
        if a[0].Some? { assert a[0].value == x[1..] == y[1..] == b[0].value; }
      }
      assert Fields(a[1..]) == Fields(a)[|x|..] == Fields(b)[|y|..] == Fields(b[1..]);
      FieldsAreInjective(a[1..], b[1..]);
      assert a == [a[0]] + a[1..] && b == [b[0]] + b[1..];
    }
  }

  /** The identifier of an event. The author and the signature are not part of it. */
  function IdOf(e: Event): EventID {
    CanonicalEncode(e)
  }

  lemma IdIsInjective(a: Event, b: Event)
    requires IdOf(a) == IdOf(b)
    ensures a == b
  {
    var x, y := IdOf(a), IdOf(b);
    assert x[0] == y[0] && x[1] == y[1] && x[2] == y[2] && x[3] == y[3];
    assert Fields(Payloads(a)) == x[4..] == y[4..] == Fields(Payloads(b));
    FieldsAreInjective(Payloads(a), Payloads(b));
    assert forall i :: 0 <= i < 7 ==> Payloads(a)[i] == Payloads(b)[i];
    assert a.profile == Payloads(a)[0] && a.follow == Payloads(a)[1];
    assert a.like == Payloads(a)[4] && a.delete == Payloads(a)[5] && a.detail == Payloads(a)[6];
    assert Payloads(a)[2] == Payloads(b)[2] && Payloads(a)[3] == Payloads(b)[3];
  }

  datatype Signature = Signed(signer: Pubkey, over: Bytes) | Garbage(bytes: Bytes)

  datatype SignedEvent = SignedEvent(event: Event, author: Identity, signature: Signature) {
    function Id(): EventID { IdOf(event) }
  }

  /** The kinds each log admits. A Like, in particular, is valid in the PostLog only. */
  predicate ValidEvent(e: Event) {
    && e.kind != KindUnset
    && e.timestamp != 0
    && match e.log
       case ProfileLog => e.kind in {KindProfile, KindFollow, KindUnfollow, KindDelete}
       case DetailLog => e.kind in {KindDetail, KindDelete}
       case PostLog => e.kind in {KindPost, KindLike, KindDelete}
       case OtherLog(_) => false
  }

  predicate Verified(se: SignedEvent) {
    && se.author.OfKey?
    && se.signature == Signed(se.author.key, CanonicalEncode(se.event))
    && ValidEvent(se.event)
  }

  /** Signing succeeds for a timestamped event of one of the nine pairs of log and kind, and
      for no other. */
  function Sign(key: Pubkey, e: Event): (r: Option<SignedEvent>)
    ensures r.Some? <==> ValidEvent(e)
    ensures r.Some? <==> e.timestamp != 0 && (e.log, e.kind) in {
      (ProfileLog, KindProfile), (ProfileLog, KindFollow), (ProfileLog, KindUnfollow), (ProfileLog, KindDelete),
      (DetailLog, KindDetail), (DetailLog, KindDelete),
      (PostLog, KindPost), (PostLog, KindLike), (PostLog, KindDelete)}
    ensures r.Some? ==> Verified(r.value) && r.value.event == e && r.value.author == OfKey(key)
  {
    if ValidEvent(e) then Some(SignedEvent(e, OfKey(key), Signed(key, CanonicalEncode(e)))) else None
  }

  /** What a peer accepts: an author with a key, its signature over the canonical bytes, and
      one of the nine pairs with a timestamp. Signing yields just these. */
  lemma VerifiedExactlyWhenSigned(se: SignedEvent)
    ensures Verified(se) <==> se.author.OfKey? && Sign(se.author.key, se.event) == Some(se)
  {}

  /** Verified events of one author are told apart by their identifiers. */
  lemma VerifiedEventIsItsId(a: SignedEvent, b: SignedEvent)
    requires Verified(a) && Verified(b) && a.author == b.author && a.Id() == b.Id()
    ensures a == b
  {
    IdIsInjective(a.event, b.event);
  }

  predicate IsLike(se: SignedEvent) {
    se.event.kind == KindLike && se.event.like.Some?
  }

  predicate IsDelete(se: SignedEvent) {
    se.event.kind == KindDelete && se.event.delete.Some?
  }

  /** A Follow or an Unfollow of target. */
  predicate Concerns(se: SignedEvent, target: Pubkey) {
    (se.event.kind == KindFollow || se.event.kind == KindUnfollow) && se.event.follow == Some(target)
  }
}
