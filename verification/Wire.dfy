/** Framing (internal/sync/sync.go): a message travels as a 4-byte big-endian length and its
    encoding. The encoding itself is a parameter with decode(encode(m)) = m. */
module Wire {
  import opened Events

  type Octet = b: int | 0 <= b < 256
  type Octets = seq<Octet>

  const MAX_FRAME_SIZE := 16 * 1024 * 1024

  // ----- Big-endian words

  function BigEndian(v: nat, width: nat): Octets {
    if width == 0 then [] else BigEndian(v / 256, width - 1) + [v % 256]
  }

  function Word(b: Octets): nat {
    if b == [] then 0 else Word(b[..|b| - 1]) * 256 + b[|b| - 1]
  }

  function Range(width: nat): nat {
    if width == 0 then 1 else 256 * Range(width - 1)
  }

  lemma {:induction false} BigEndianRoundTrip(v: nat, width: nat)
    requires v < Range(width)
    ensures |BigEndian(v, width)| == width && Word(BigEndian(v, width)) == v
  {
    if width > 0 {
      BigEndianRoundTrip(v / 256, width - 1);
      var b := BigEndian(v, width);
      assert b[..width - 1] == BigEndian(v / 256, width - 1);
    }
  }

  lemma FourByteRange()
    ensures Range(4) == 0x1_0000_0000
  {
    assert Range(1) == 256 && Range(2) == 0x1_0000 && Range(3) == 0x100_0000;
  }

  /** A four-byte word is written and read most significant byte first. */
  lemma FourBytes(n: nat)
    requires n < 0x1_0000_0000
    ensures BigEndian(n, 4) == [n / 0x100_0000, n / 0x1_0000 % 256, n / 256 % 256, n % 256]
  {
    assert BigEndian(n, 1) == BigEndian(n / 256, 0) + [n % 256];
    assert BigEndian(n / 0x100_0000, 1) == [n / 0x100_0000 % 256];
    assert BigEndian(n / 0x1_0000, 2) == BigEndian(n / 0x1_0000 / 256, 1) + [n / 0x1_0000 % 256];
    assert BigEndian(n / 256, 3) == BigEndian(n / 256 / 256, 2) + [n / 256 % 256];
  }

  lemma WordOfFour(b: Octets)
    requires |b| == 4
    ensures Word(b) == 0x100_0000 * (b[0] as int) + 0x1_0000 * (b[1] as int) + 256 * (b[2] as int) + b[3] as int
  {
    assert b[..1][..0] == [] && Word(b[..1]) == b[0] as int;
    assert b[..2][..1] == b[..1] && Word(b[..2]) == Word(b[..1]) * 256 + b[1] as int;
    assert b[..3][..2] == b[..2] && Word(b[..3]) == Word(b[..2]) * 256 + b[2] as int;
  }

  lemma WordOfEight(b: Octets)
    requires |b| == 8
    ensures Word(b) == 0x1_0000_0000 * Word(b[..4]) + Word(b[4..])
  {
    var low := b[4..];
    WordOfFour(low);
    assert b[..5][..4] == b[..4] && Word(b[..5]) == Word(b[..4]) * 256 + low[0] as int;
    assert b[..6][..5] == b[..5] && Word(b[..6]) == Word(b[..5]) * 256 + low[1] as int;
    assert b[..7][..6] == b[..6] && Word(b[..7]) == Word(b[..6]) * 256 + low[2] as int;
    assert Word(b) == Word(b[..7]) * 256 + low[3] as int;
  }

  // ----- Frames

  datatype Codec<!M> = Codec(encode: M -> Octets, decode: Octets -> Option<M>)

  ghost predicate Lawful<M(!new)>(c: Codec<M>) {
    forall m :: c.decode(c.encode(m)) == Some(m)
  }

  datatype ReadError = Eof | UnexpectedEof | EmptyMessage | TooLarge | Undecodable

  datatype Read<+M> = Msg(msg: M) | Failed(error: ReadError)

  function Frame(data: Octets): Octets {
    BigEndian(|data|, 4) + data
  }

  /** What reading exactly n > 0 bytes reports when the stream is too short: an end of stream
      only if not a single byte was there. */
  function ShortRead(available: nat): ReadError {
    if available == 0 then Eof else UnexpectedEof
  }

  /** One read: the outcome and the unread rest of the stream. */
  function Parse<M>(c: Codec<M>, s: Octets): (Read<M>, Octets) {
    if |s| < 4 then (Failed(ShortRead(|s|)), [])
    else
      var n, body := Word(s[..4]), s[4..];
      if n == 0 then (Failed(EmptyMessage), body)
      else if n > MAX_FRAME_SIZE then (Failed(TooLarge), body)
      else if |body| < n then (Failed(ShortRead(|body|)), [])
      else if c.decode(body[..n]).None? then (Failed(Undecodable), body[n..])
      else (Msg(c.decode(body[..n]).value), body[n..])
  }

  /** A byte stream: what has been written and not yet read. */
  class Stream {
    var pending: Octets

    constructor ()
      ensures pending == []
    {
      pending := [];
    }

    method Write(b: Octets)
      modifies this
      ensures pending == old(pending) + b
    {
      pending := pending + b;
    }

    /** Reads n bytes, or all there is and an error. */
    method ReadFull(n: nat) returns (buf: Octets, err: Option<ReadError>)
      requires n > 0
      modifies this
      ensures |old(pending)| >= n
          ==> err == None && buf == old(pending)[..n] && pending == old(pending)[n..]
      ensures |old(pending)| < n ==> err == Some(ShortRead(|old(pending)|)) && pending == []
    {
      if |pending| < n {
        buf, err := pending, Some(ShortRead(|pending|));
        pending := [];
      } else {
        buf, err := pending[..n], None;
        pending := pending[n..];
      }
    }

    method WriteMsg<M>(c: Codec<M>, m: M) returns (ok: bool)
      modifies this
      ensures ok <==> |c.encode(m)| <= 16 * 1024 * 1024
      ensures pending == old(pending) + if ok then Frame(c.encode(m)) else []
      ensures ok ==>
        var data := c.encode(m);
        var n := |data|;
        pending == old(pending) + [n / 0x100_0000, n / 0x1_0000 % 256, n / 256 % 256, n % 256] + data
    {
      var data := c.encode(m);
      if |data| > MAX_FRAME_SIZE {
        return false;
      }
      FourBytes(|data|);
      Write(BigEndian(|data|, 4));
      Write(data);
      ok := true;
    }

    method ReadMsg<M>(c: Codec<M>) returns (r: Read<M>)
      modifies this
      ensures (r, pending) == Parse(c, old(pending))
      ensures |old(pending)| == 0 ==> r == Failed(Eof) && pending == []
      ensures 0 < |old(pending)| < 4 ==> r == Failed(UnexpectedEof) && pending == []
      ensures |old(pending)| >= 4 ==>
        var s, body := old(pending), old(pending)[4..];
        var n := 0x100_0000 * (s[0] as int) + 0x1_0000 * (s[1] as int) + 256 * (s[2] as int) + s[3] as int;
        if n == 0 then r == Failed(EmptyMessage) && pending == body
        else if n > 16 * 1024 * 1024 then r == Failed(TooLarge) && pending == body
        else if |body| < n then r == Failed(if body == [] then Eof else UnexpectedEof) && pending == []
        else pending == body[n..] && match c.decode(body[..n])
             case None => r == Failed(Undecodable)
             case Some(m) => r == Msg(m)
    {
      hide Word;
      var hdr, err := ReadFull(4);
      if err.Some? {
        return Failed(err.value);
      }
      WordOfFour(hdr);
      var n := Word(hdr);
      if n == 0 {
        return Failed(EmptyMessage);
      }
      if n > MAX_FRAME_SIZE {
        return Failed(TooLarge);
      }
      var buf, bodyErr := ReadFull(n);
      if bodyErr.Some? {
        return Failed(bodyErr.value);
      }
      var msg := c.decode(buf);
      if msg.None? {
        return Failed(Undecodable);
      }
      r := Msg(msg.value);
    }
  }

  // ----- Whole streams

  function Frames<M>(c: Codec<M>, ms: seq<M>): Octets {
    if ms == [] then [] else Frame(c.encode(ms[0])) + Frames(c, ms[1..])
  }

  /** Every message a reader gets out of a stream, and the error that ends it. */
  function ReadAll<M>(c: Codec<M>, s: Octets): (seq<M>, ReadError)
    decreases |s|
  {
    var (r, rest) := Parse(c, s);
    match r
    case Failed(e) => ([], e)
    case Msg(m) => var (ms, e) := ReadAll(c, rest); ([m] + ms, e)
  }

  ghost predicate Sendable<M>(c: Codec<M>, ms: seq<M>) {
    forall i :: 0 <= i < |ms| ==> 1 <= |c.encode(ms[i])| <= MAX_FRAME_SIZE
  }

  /** How a stream ends that breaks off k bytes into a frame. */
  function CutError(k: int): ReadError {
    if k == 0 || k == 4 then Eof else UnexpectedEof
  }

  lemma ParseOfFrame<M(!new)>(c: Codec<M>, m: M, rest: Octets)
    requires Lawful(c) && 1 <= |c.encode(m)| <= MAX_FRAME_SIZE
    ensures Parse(c, Frame(c.encode(m)) + rest) == (Msg(m), rest)
    ensures |Frame(c.encode(m))| == 4 + |c.encode(m)|
  {
    var data := c.encode(m);
    FourByteRange();
    BigEndianRoundTrip(|data|, 4);
    var s := Frame(data) + rest;
    assert s[..4] == BigEndian(|data|, 4);
    assert s[4..][..|data|] == data && s[4..][|data|..] == rest;
  }

  lemma ReadAllOfFrame<M(!new)>(c: Codec<M>, m: M, rest: Octets)
    requires Lawful(c) && 1 <= |c.encode(m)| <= MAX_FRAME_SIZE
    ensures ReadAll(c, Frame(c.encode(m)) + rest) == ([m] + ReadAll(c, rest).0, ReadAll(c, rest).1)
  {
    ParseOfFrame(c, m, rest);
  }

  /** A frame cut short yields no message. */
  lemma ParseOfCutFrame<M(!new)>(c: Codec<M>, m: M, k: nat)
    requires Lawful(c) && 1 <= |c.encode(m)| <= MAX_FRAME_SIZE
    requires k < |Frame(c.encode(m))|
    ensures Parse(c, Frame(c.encode(m))[..k]).0
         == Failed(CutError(k))
  {
    var data := c.encode(m);
    FourByteRange();
    BigEndianRoundTrip(|data|, 4);
    var s := Frame(data)[..k];
    if k >= 4 {
      assert s[..4] == BigEndian(|data|, 4);
    }
  }

  lemma {:induction false} FramesConcat<M>(c: Codec<M>, a: seq<M>, b: seq<M>)
    ensures Frames(c, a + b) == Frames(c, a) + Frames(c, b)
    decreases a
  {
    if a == [] {
      assert a + b == b;
    } else {
      assert (a + b)[1..] == a[1..] + b;
      FramesConcat(c, a[1..], b);
    }
  }

  /** Complete frames come back as their messages; what follows them decides the end. */
  lemma {:induction false} ReadAllOfFrames<M(!new)>(c: Codec<M>, ms: seq<M>, rest: Octets)
    requires Lawful(c) && Sendable(c, ms) && Parse(c, rest).0.Failed?
    ensures ReadAll(c, Frames(c, ms) + rest) == (ms, Parse(c, rest).0.error)
    decreases ms
  {
    if ms == [] {
      assert Frames(c, ms) + rest == rest;
    } else {
      ReadAllOfFrames(c, ms[1..], rest);
      ReadAllOfFrame(c, ms[0], Frames(c, ms[1..]) + rest);
      assert Frames(c, ms) + rest == Frame(c.encode(ms[0])) + (Frames(c, ms[1..]) + rest);
      assert ms == [ms[0]] + ms[1..];
    }
  }

  /** The frame of ms[n] stands behind the frames of ms[..n]. */
  lemma FrameAt<M>(c: Codec<M>, ms: seq<M>, n: nat)
    requires n < |ms|
    ensures Frames(c, ms[..n + 1]) == Frames(c, ms[..n]) + Frame(c.encode(ms[n]))
    ensures Frames(c, ms) == Frames(c, ms[..n + 1]) + Frames(c, ms[n + 1..])
  {
    assert ms[..n + 1] == ms[..n] + [ms[n]] && ms == ms[..n + 1] + ms[n + 1..];
    FramesConcat(c, ms[..n], [ms[n]]);
    assert Frames(c, [ms[n]]) == Frame(c.encode(ms[n]));
    FramesConcat(c, ms[..n + 1], ms[n + 1..]);
  }

  /** Reading any byte-level truncation of a written stream returns exactly the messages whose
      frames are complete, and then a plain end of stream if the cut falls between frames or
      right behind a length prefix, and an unexpected end otherwise. */
  lemma {:induction false} TruncatedStream<M(!new)>(c: Codec<M>, ms: seq<M>, k: nat) returns (n: nat)
    requires Lawful(c) && Sendable(c, ms) && k <= |Frames(c, ms)|
    ensures n <= |ms| && |Frames(c, ms[..n])| <= k
    ensures n < |ms| ==> k < |Frames(c, ms[..n + 1])|
    ensures ReadAll(c, Frames(c, ms)[..k]) == (ms[..n], CutError(k - |Frames(c, ms[..n])|))
  {
    n := CompleteFrames(c, ms, k);
    var done, s := Frames(c, ms[..n]), Frames(c, ms);
    if n == |ms| {
      assert ms[..n] == ms && s[..k] == done + [];
      ReadAllOfFrames(c, ms[..n], []);
    } else {
      FrameAt(c, ms, n);
      var f := Frame(c.encode(ms[n]));
      assert s[..k] == done + f[..k - |done|];
      ParseOfCutFrame(c, ms[n], k - |done|);
      ReadAllOfFrames(c, ms[..n], f[..k - |done|]);
    }
  }

  /** The largest number of leading frames that fit into k bytes. */
  lemma CompleteFrames<M>(c: Codec<M>, ms: seq<M>, k: nat) returns (n: nat)
    requires k <= |Frames(c, ms)|
    ensures n <= |ms| && |Frames(c, ms[..n])| <= k
    ensures n < |ms| ==> k < |Frames(c, ms[..n + 1])|
  {
    n := 0;
    while n < |ms| && |Frames(c, ms[..n + 1])| <= k
      invariant n <= |ms| && |Frames(c, ms[..n])| <= k
    {
      n := n + 1;
    }
  }

  /** Round trip: the written messages come back in order, then the end of the stream. */
  lemma StreamRoundTrip<M(!new)>(c: Codec<M>, ms: seq<M>)
    requires Lawful(c) && Sendable(c, ms)
    ensures ReadAll(c, Frames(c, ms)) == (ms, Eof)
  {
    var s := Frames(c, ms);
    var n := TruncatedStream(c, ms, |s|);
    assert s[..|s|] == s && ms[..|ms|] == ms;
    if n < |ms| {
      FrameAt(c, ms, n);
    }
  }
}
