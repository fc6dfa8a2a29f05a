/** The client's feed list in internal/tui/feed.go, the receiving half of the subscribe
    stream: it is filled from a snapshot and then kept up to date by upserts and removals. */
module FeedPanels {
  import opened Events

  datatype FeedPost = FeedPost(id: EventID, ts: int, author: Bytes, name: Bytes, text: Bytes, age: Bytes)

  /** a belongs above b: it is newer, or as new with the larger identifier. */
  predicate PostLess(a: FeedPost, b: FeedPost) {
    if a.ts != b.ts then a.ts > b.ts else Before(b.id, a.id)
  }

  lemma PostLessIsStrictOrder(a: FeedPost, b: FeedPost, c: FeedPost)
    ensures !PostLess(a, a) && !(PostLess(a, b) && PostLess(b, a))
    ensures PostLess(a, b) <==> a.ts > b.ts || (a.ts == b.ts && Before(b.id, a.id))
    ensures a.id != b.id ==> PostLess(a, b) || PostLess(b, a)
    ensures PostLess(a, b) && PostLess(b, c) ==> PostLess(a, c)
  {
    BeforeIsStrict(a.id, a.id);
    BeforeIsStrict(a.id, b.id);
    BeforeIsTotal(a.id, b.id);
    if Before(c.id, b.id) && Before(b.id, a.id) {
      BeforeIsTransitive(c.id, b.id, a.id);
    }
  }

  // ----- What an upsert and a removal do to the list

  predicate Has(posts: seq<FeedPost>, id: EventID) {
    exists q :: q in posts && q.id == id
  }

  /** The list with p placed above the first post that it should precede. */
  function Placed(posts: seq<FeedPost>, p: FeedPost): seq<FeedPost> {
    if posts == [] || PostLess(p, posts[0]) then [p] + posts else [posts[0]] + Placed(posts[1..], p)
  }

  /** The list with the first post of p's identifier replaced by p. */
  function Replaced(posts: seq<FeedPost>, p: FeedPost): (r: seq<FeedPost>)
    ensures |r| == |posts|
  {
    if posts == [] then []
    else if posts[0].id == p.id then [p] + posts[1..]
    else [posts[0]] + Replaced(posts[1..], p)
  }

  function Upserted(posts: seq<FeedPost>, p: FeedPost): seq<FeedPost> {
    if p.id == [] then posts
    else if Has(posts, p.id) then Replaced(posts, p)
    else Placed(posts, p)
  }

  function UpsertAll(posts: seq<FeedPost>, ps: seq<FeedPost>): seq<FeedPost>
    decreases ps
  {
    if ps == [] then posts else UpsertAll(Upserted(posts, ps[0]), ps[1..])
  }

  /** Posts of one identifier are equal, as the posts of one daemon are. */
  ghost predicate Agree(s: seq<FeedPost>) {
    forall p, q :: p in s && q in s && p.id == q.id ==> p == q
  }

  lemma {:induction false} PlacedMembers(posts: seq<FeedPost>, p: FeedPost)
    ensures multiset(Placed(posts, p)) == multiset(posts) + multiset{p}
    ensures forall q :: q in Placed(posts, p) <==> q == p || q in posts
  {
    if posts != [] && !PostLess(p, posts[0]) {
      PlacedMembers(posts[1..], p);
      assert posts == [posts[0]] + posts[1..];
    }
  }

  lemma {:induction false} ReplacedBySame(posts: seq<FeedPost>, p: FeedPost)
    requires forall q :: q in posts && q.id == p.id ==> q == p
    ensures Replaced(posts, p) == posts
  {
    if posts != [] && posts[0].id != p.id {
      ReplacedBySame(posts[1..], p);
    }
  }

  /** An upsert of a post whose identifier is new adds it; any other changes nothing. */
  lemma UpsertMembers(posts: seq<FeedPost>, p: FeedPost)
    requires Agree(posts + [p])
    ensures forall q :: q in Upserted(posts, p) <==> q in posts || (q == p && p.id != [])
    ensures p.id == [] || p in posts ==> Upserted(posts, p) == posts
  {
    assert p in posts + [p];
    if Has(posts, p.id) {
      forall q | q in posts && q.id == p.id ensures q == p {
        assert q in posts + [p];
      }
      ReplacedBySame(posts, p);
    } else {
      PlacedMembers(posts, p);
    }
  }

  // ----- Any order of upserts gives the same list

  lemma {:induction false} PlacedCommutes(posts: seq<FeedPost>, p: FeedPost, q: FeedPost)
    requires p.id != q.id
    ensures Placed(Placed(posts, p), q) == Placed(Placed(posts, q), p)
  {
    PostLessIsStrictOrder(p, q, p);
    if posts == [] {
    } else {
      PostLessIsStrictOrder(p, q, posts[0]);
      PostLessIsStrictOrder(q, p, posts[0]);
      if !PostLess(p, posts[0]) && !PostLess(q, posts[0]) {
        PlacedCommutes(posts[1..], p, q);
      }
    }
  }

  lemma HasMore(posts: seq<FeedPost>, p: FeedPost, id: EventID)
    requires Agree(posts + [p])
    ensures Has(Upserted(posts, p), id) <==> Has(posts, id) || (p.id == id && id != [])
  {
    UpsertMembers(posts, p);
  }

  lemma UpsertsCommute(posts: seq<FeedPost>, p: FeedPost, q: FeedPost)
    requires Agree(posts + [p, q])
    ensures Upserted(Upserted(posts, p), q) == Upserted(Upserted(posts, q), p)
  {
    hide Placed, Replaced, PostLess, Has;
    assert p in posts + [p, q] && q in posts + [p, q];
    assert Agree(posts + [p]) && Agree(posts + [q]);
    UpsertMembers(posts, p);
    UpsertMembers(posts, q);
    assert Agree(Upserted(posts, p) + [q]) && Agree(Upserted(posts, q) + [p]);
    UpsertMembers(Upserted(posts, p), q);
    UpsertMembers(Upserted(posts, q), p);
    HasMore(posts, p, q.id);
    HasMore(posts, q, p.id);
    if Has(posts, p.id) { PresentIsIdle(posts, p); }
    if Has(posts, q.id) { PresentIsIdle(posts, q); }
    if p != q && !Has(posts, p.id) && !Has(posts, q.id) && p.id != [] && q.id != [] {
      PlacedCommutes(posts, p, q);
    }
  }

  /** A post whose identifier is in an agreeing list is that very post. */
  lemma PresentIsIdle(posts: seq<FeedPost>, p: FeedPost)
    requires Agree(posts + [p]) && Has(posts, p.id)
    ensures p in posts
  {
    assert p in posts + [p];
    var q :| q in posts && q.id == p.id;
    assert q in posts + [p];
  }

  lemma {:induction false} UpsertAllMembers(posts: seq<FeedPost>, ps: seq<FeedPost>)
    requires Agree(posts + ps)
    ensures forall q :: q in UpsertAll(posts, ps) <==> q in posts || (q in ps && q.id != [])
    decreases ps
  {
    if ps != [] {
      var next := Upserted(posts, ps[0]);
      assert forall q :: q in posts + [ps[0]] ==> q in posts + ps;
      UpsertMembers(posts, ps[0]);
      assert forall q :: q in next + ps[1..] ==> q in posts + ps;
      UpsertAllMembers(next, ps[1..]);
    }
  }

  /** An upsert may as well be made first. */
  lemma {:induction false} UpsertFirst(posts: seq<FeedPost>, ps: seq<FeedPost>, p: FeedPost)
    requires p in ps && Agree(posts + ps)
    ensures UpsertAll(posts, ps) == UpsertAll(Upserted(posts, p), ps)
    decreases ps
  {
    var x := ps[0];
    assert forall q :: q in posts + [p, x] ==> q in posts + ps;
    assert Agree(posts + [p]) && Agree(posts + [x]);
    UpsertMembers(posts, x);
    UpsertMembers(posts, p);
    if p == x {
      assert Agree(Upserted(posts, p) + [p]);
      UpsertMembers(Upserted(posts, p), p);
    } else {
      UpsertsCommute(posts, p, x);
      assert forall q :: q in Upserted(posts, x) + ps[1..] ==> q in posts + ps;
      UpsertFirst(Upserted(posts, x), ps[1..], p);
    }
  }

  lemma {:induction false} UpsertAllFirst(posts: seq<FeedPost>, ps: seq<FeedPost>, some: seq<FeedPost>)
    requires (forall p :: p in some ==> p in ps) && Agree(posts + ps)
    ensures UpsertAll(posts, ps) == UpsertAll(UpsertAll(posts, some), ps)
    decreases some
  {
    if some != [] {
      var next := Upserted(posts, some[0]);
      UpsertFirst(posts, ps, some[0]);
      assert forall q :: q in posts + [some[0]] ==> q in posts + ps;
      UpsertMembers(posts, some[0]);
      assert forall q :: q in next + ps ==> q in posts + ps;
      UpsertAllFirst(next, ps, some[1..]);
    }
  }

  lemma {:induction false} UpsertAllAgain(posts: seq<FeedPost>, ps: seq<FeedPost>)
    requires Agree(posts) && forall p :: p in ps ==> p in posts || p.id == []
    ensures UpsertAll(posts, ps) == posts
    decreases ps
  {
    if ps != [] {
      if ps[0].id != [] {
        assert Agree(posts + [ps[0]]);
        UpsertMembers(posts, ps[0]);
      }
      UpsertAllAgain(posts, ps[1..]);
    }
  }

  /** Two deliveries of the same posts, in any orders and with any repetitions, leave the same
      list, whatever list they start from. */
  lemma UpsertOrderIsIrrelevant(posts: seq<FeedPost>, a: seq<FeedPost>, b: seq<FeedPost>)
    requires Agree(posts + a) && forall p :: p in a <==> p in b
    ensures UpsertAll(posts, a) == UpsertAll(posts, b)
  {
    UpsertAllFirst(posts, a, b);
    assert forall q :: q in posts + b ==> q in posts + a;
    UpsertAllMembers(posts, b);
    UpsertAllAgain(UpsertAll(posts, b), a);
  }

  // ----- The order of the list

  ghost predicate DistinctIds(posts: seq<FeedPost>) {
    forall i, j :: 0 <= i < j < |posts| ==> posts[i].id != posts[j].id
  }

  ghost predicate Ordered(posts: seq<FeedPost>) {
    forall i, j :: 0 <= i < j < |posts| ==> PostLess(posts[i], posts[j])
  }

  /** The order that a snapshot of the daemon guarantees. */
  ghost predicate NewestFirst(posts: seq<FeedPost>) {
    forall i, j :: 0 <= i < j < |posts| ==> posts[i].ts >= posts[j].ts
  }

  lemma TopIsLeast(top: FeedPost, rest: seq<FeedPost>)
    requires Ordered(rest) && forall q :: q in rest ==> PostLess(top, q)
    ensures Ordered([top] + rest)
  {}

  lemma TopIsNewest(top: FeedPost, rest: seq<FeedPost>)
    requires NewestFirst(rest) && forall q :: q in rest ==> top.ts >= q.ts
    ensures NewestFirst([top] + rest)
  {}

  lemma {:induction false} PlacedIsOrdered(posts: seq<FeedPost>, p: FeedPost)
    requires Ordered(posts) && !Has(posts, p.id)
    ensures Ordered(Placed(posts, p))
  {
    if posts != [] {
      assert posts[0] in posts;
      PostLessIsStrictOrder(p, posts[0], p);
      if PostLess(p, posts[0]) {
        forall q | q in posts ensures PostLess(p, q) {
          PostLessIsStrictOrder(p, posts[0], q);
        }
      } else {
        assert !Has(posts[1..], p.id);
        PlacedIsOrdered(posts[1..], p);
        PlacedMembers(posts[1..], p);
        TopIsLeast(posts[0], Placed(posts[1..], p));
      }
    }
  }

  lemma {:induction false} PlacedIsNewestFirst(posts: seq<FeedPost>, p: FeedPost)
    requires NewestFirst(posts)
    ensures NewestFirst(Placed(posts, p))
  {
    if posts != [] && !PostLess(p, posts[0]) {
      PlacedIsNewestFirst(posts[1..], p);
      PlacedMembers(posts[1..], p);
      TopIsNewest(posts[0], Placed(posts[1..], p));
    }
  }

  lemma {:induction false} PlacedIsDistinct(posts: seq<FeedPost>, p: FeedPost)
    requires DistinctIds(posts) && !Has(posts, p.id)
    ensures DistinctIds(Placed(posts, p))
  {
    if posts != [] && !PostLess(p, posts[0]) {
      assert posts[0] in posts && !Has(posts[1..], p.id);
      PlacedIsDistinct(posts[1..], p);
      PlacedMembers(posts[1..], p);
      forall q | q in Placed(posts[1..], p) ensures posts[0].id != q.id {}
    }
  }

  lemma {:induction false} ReplacedKeepsKeys(posts: seq<FeedPost>, p: FeedPost)
    requires forall q :: q in posts && q.id == p.id ==> q.ts == p.ts
    ensures forall i :: 0 <= i < |posts| ==> Replaced(posts, p)[i].id == posts[i].id
    ensures forall i :: 0 <= i < |posts| ==> Replaced(posts, p)[i].ts == posts[i].ts
  {
    if posts != [] && posts[0].id != p.id {
      ReplacedKeepsKeys(posts[1..], p);
    }
  }

  /** An upsert keeps each order of the list, provided that a post it replaces has the same
      timestamp. */
  lemma UpsertKeepsOrder(posts: seq<FeedPost>, p: FeedPost)
    requires forall q :: q in posts && q.id == p.id ==> q.ts == p.ts
    ensures Ordered(posts) ==> Ordered(Upserted(posts, p))
    ensures NewestFirst(posts) ==> NewestFirst(Upserted(posts, p))
    ensures DistinctIds(posts) ==> DistinctIds(Upserted(posts, p))
  {
    if Has(posts, p.id) {
      ReplacedKeepsKeys(posts, p);
    } else {
      if Ordered(posts) { PlacedIsOrdered(posts, p); }
      if NewestFirst(posts) { PlacedIsNewestFirst(posts, p); }
      if DistinctIds(posts) { PlacedIsDistinct(posts, p); }
    }
  }

  /** After a post moved to another timestamp is pushed again, the list is out of order: the
      replacement stays in the row of the post it replaces. */
  lemma ReplacementIsNotMoved(posts: seq<FeedPost>, p: FeedPost, i: nat)
    requires DistinctIds(posts) && p.id != [] && i < |posts| && posts[i].id == p.id
    ensures Upserted(posts, p) == posts[i := p]
    ensures NewestFirst(posts) ==>
      (NewestFirst(Upserted(posts, p)) <==>
        (i > 0 ==> posts[i - 1].ts >= p.ts) && (i + 1 < |posts| ==> p.ts >= posts[i + 1].ts))
  {
    assert posts[i] in posts;
    ReplacedAt(posts, p, i);
    var r := posts[i := p];
    if NewestFirst(r) {
      assert i > 0 ==> r[i - 1].ts >= r[i].ts;
      assert i + 1 < |r| ==> r[i].ts >= r[i + 1].ts;
    }
    if NewestFirst(posts) && (i > 0 ==> posts[i - 1].ts >= p.ts) && (i + 1 < |posts| ==> p.ts >= posts[i + 1].ts) {
      forall j, k | 0 <= j < k < |r| ensures r[j].ts >= r[k].ts {
        assert j < i - 1 ==> posts[j].ts >= posts[i - 1].ts;
        assert i + 1 < k ==> posts[i + 1].ts >= posts[k].ts;
      }
    }
  }

  lemma {:induction false} ReplacedAt(posts: seq<FeedPost>, p: FeedPost, i: nat)
    requires i < |posts| && posts[i].id == p.id
    requires forall j :: 0 <= j < i ==> posts[j].id != p.id
    ensures Replaced(posts, p) == posts[i := p]
  {
    if i > 0 {
      ReplacedAt(posts[1..], p, i - 1);
      assert posts[i := p] == [posts[0]] + posts[1..][i - 1 := p];
    }
  }

  lemma {:induction false} PlacedAt(posts: seq<FeedPost>, p: FeedPost, pos: nat)
    requires pos <= |posts|
    requires forall j :: 0 <= j < pos ==> !PostLess(p, posts[j])
    requires pos < |posts| ==> PostLess(p, posts[pos])
    ensures Placed(posts, p) == posts[..pos] + [p] + posts[pos..]
  {
    if pos > 0 {
      PlacedAt(posts[1..], p, pos - 1);
      assert posts[..pos] == [posts[0]] + posts[1..][..pos - 1];
    }
  }

  function Removed(posts: seq<FeedPost>, id: EventID): seq<FeedPost> {
    if posts == [] then []
    else if posts[0].id == id then posts[1..]
    else [posts[0]] + Removed(posts[1..], id)
  }

  lemma {:induction false} RemovedAt(posts: seq<FeedPost>, id: EventID, i: nat)
    requires i < |posts| && posts[i].id == id
    requires forall j :: 0 <= j < i ==> posts[j].id != id
    ensures Removed(posts, id) == posts[..i] + posts[i + 1..]
  {
    if i > 0 {
      RemovedAt(posts[1..], id, i - 1);
      assert posts[..i] == [posts[0]] + posts[1..][..i - 1];
    }
  }

  lemma {:induction false} NothingRemoved(posts: seq<FeedPost>, id: EventID)
    requires !Has(posts, id)
    ensures Removed(posts, id) == posts
  {
    if posts != [] {
      assert posts[0] in posts && !Has(posts[1..], id);
      NothingRemoved(posts[1..], id);
    }
  }

  lemma {:induction false} RemovedIsPart(posts: seq<FeedPost>, id: EventID)
    ensures forall q :: q in Removed(posts, id) ==> q in posts
    ensures forall q :: q in posts && q.id != id ==> q in Removed(posts, id)
    ensures DistinctIds(posts) ==> !Has(Removed(posts, id), id)
  {
    if posts != [] && posts[0].id != id {
      RemovedIsPart(posts[1..], id);
    }
  }

  lemma {:induction false} RemovedIsDistinct(posts: seq<FeedPost>, id: EventID)
    requires DistinctIds(posts)
    ensures DistinctIds(Removed(posts, id))
  {
    if posts != [] && posts[0].id != id {
      RemovedIsPart(posts[1..], id);
      RemovedIsDistinct(posts[1..], id);
      forall q | q in Removed(posts[1..], id) ensures posts[0].id != q.id {}
    }
  }

  lemma {:induction false} RemovedIsOrdered(posts: seq<FeedPost>, id: EventID)
    requires Ordered(posts)
    ensures Ordered(Removed(posts, id))
  {
    if posts != [] && posts[0].id != id {
      RemovedIsPart(posts[1..], id);
      RemovedIsOrdered(posts[1..], id);
      TopIsLeast(posts[0], Removed(posts[1..], id));
    }
  }

  lemma {:induction false} RemovedIsNewestFirst(posts: seq<FeedPost>, id: EventID)
    requires NewestFirst(posts)
    ensures NewestFirst(Removed(posts, id))
  {
    if posts != [] && posts[0].id != id {
      RemovedIsPart(posts[1..], id);
      RemovedIsNewestFirst(posts[1..], id);
      TopIsNewest(posts[0], Removed(posts[1..], id));
    }
  }

  /** A removal takes out the post of that identifier and keeps the rest in order. */
  lemma RemoveKeepsOrder(posts: seq<FeedPost>, id: EventID)
    requires DistinctIds(posts)
    ensures DistinctIds(Removed(posts, id))
    ensures forall q :: q in Removed(posts, id) <==> q in posts && q.id != id
    ensures Ordered(posts) ==> Ordered(Removed(posts, id))
    ensures NewestFirst(posts) ==> NewestFirst(Removed(posts, id))
  {
    RemovedIsPart(posts, id);
    RemovedIsDistinct(posts, id);
    if Ordered(posts) { RemovedIsOrdered(posts, id); }
    if NewestFirst(posts) { RemovedIsNewestFirst(posts, id); }
    forall q | q in Removed(posts, id) ensures q.id != id {}
  }

  /** Removing a post that has just been added undoes the upsert. */
  lemma {:induction false} RemoveUndoesUpsert(posts: seq<FeedPost>, p: FeedPost)
    requires p.id != [] && !Has(posts, p.id)
    ensures Removed(Upserted(posts, p), p.id) == posts
  {
    if posts != [] {
      assert posts[0] in posts && !Has(posts[1..], p.id);
      RemoveUndoesUpsert(posts[1..], p);
    }
  }

  /** What an upsert does, row by row. */
  lemma UpsertedMeans(posts: seq<FeedPost>, p: FeedPost)
    ensures p.id == [] ==> Upserted(posts, p) == posts
    ensures forall i ::
      && p.id != [] && 0 <= i < |posts| && posts[i].id == p.id && (forall j :: 0 <= j < i ==> posts[j].id != p.id)
      ==> Upserted(posts, p) == posts[i := p]
    ensures p.id != [] && (forall q :: q in posts ==> q.id != p.id) ==> exists pos ::
      && 0 <= pos <= |posts| && Upserted(posts, p) == posts[..pos] + [p] + posts[pos..]
      && (forall j :: 0 <= j < pos ==> !(p.ts > posts[j].ts || (p.ts == posts[j].ts && Before(posts[j].id, p.id))))
      && (pos < |posts| ==> p.ts > posts[pos].ts || (p.ts == posts[pos].ts && Before(posts[pos].id, p.id)))
  {
    forall i |
      && p.id != [] && 0 <= i < |posts| && posts[i].id == p.id && (forall j :: 0 <= j < i ==> posts[j].id != p.id)
      ensures Upserted(posts, p) == posts[i := p]
    {
      ReplacedAt(posts, p, i);
      assert posts[i] in posts;
    }
    var pos := 0;
    while pos < |posts| && !PostLess(p, posts[pos])
      invariant 0 <= pos <= |posts|
      invariant forall j :: 0 <= j < pos ==> !PostLess(p, posts[j])
    {
      pos := pos + 1;
    }
    PlacedAt(posts, p, pos);
  }

  /** A removal takes out the first post with the identifier. */
  lemma RemovedMeans(posts: seq<FeedPost>, id: EventID)
    ensures forall i :: 0 <= i < |posts| && posts[i].id == id && (forall j :: 0 <= j < i ==> posts[j].id != id)
              ==> Removed(posts, id) == posts[..i] + posts[i + 1..]
    ensures (forall q :: q in posts ==> q.id != id) ==> Removed(posts, id) == posts
  {
    forall i | 0 <= i < |posts| && posts[i].id == id && (forall j :: 0 <= j < i ==> posts[j].id != id)
      ensures Removed(posts, id) == posts[..i] + posts[i + 1..]
    {
      RemovedAt(posts, id, i);
    }
    if forall q :: q in posts ==> q.id != id {
      NothingRemoved(posts, id);
    }
  }

  lemma RowsAfterCut(posts: seq<FeedPost>, i: nat, k: nat)
    requires i < |posts| && k < |posts|
    ensures var r := posts[..i] + posts[i + 1..];
      |r| == |posts| - 1 && (k < i ==> r[k] == posts[k]) && (k > i ==> r[k - 1] == posts[k])
    ensures DistinctIds(posts) && posts[k].id == posts[i].id ==> k == i
  {}

  lemma NoneHas(posts: seq<FeedPost>, id: EventID)
    requires forall j :: 0 <= j < |posts| ==> posts[j].id != id
    ensures !Has(posts, id)
  {}

  // ----- The panel

  class FeedPanel {
    var width: int
    var height: int
    var yOffset: int
    var posts: seq<FeedPost>
    var selected: int

    function MaxYOffset(): (m: int)
      reads this
    {
      if |posts| <= height then 0 else |posts| - height
    }

    /** The selection is a row of the list, and the scroll position is in range. */
    ghost predicate Valid()
      reads this
    {
      && (if posts == [] then selected == 0 else 0 <= selected < |posts|)
      && 0 <= yOffset && (yOffset == 0 || yOffset + height <= |posts|)
    }

    constructor (w: int, h: int)
      ensures Valid() && posts == [] && width == w && height == h
    {
      width, height, yOffset, posts, selected := w, h, 0, [], 0;
    }

    method ClampYOffset()
      modifies `yOffset
      ensures 0 <= yOffset <= MaxYOffset()
      ensures 0 <= old(yOffset) <= MaxYOffset() ==> yOffset == old(yOffset)
      ensures old(yOffset) < 0 ==> yOffset == 0
      ensures old(yOffset) > MaxYOffset() ==> yOffset == MaxYOffset()
    {
      var max := MaxYOffset();
      if yOffset < 0 {
        yOffset := 0;
      }
      if yOffset > max {
        yOffset := max;
      }
    }

    method ClampSelection()
      modifies `selected
      ensures if posts == [] then selected == 0 else 0 <= selected < |posts|
      ensures 0 <= old(selected) < |posts| ==> selected == old(selected)
      ensures old(selected) >= |posts| > 0 ==> selected == |posts| - 1
      ensures old(selected) < 0 ==> selected == 0
    {
      if |posts| == 0 {
        selected := 0;
        return;
      }
      if selected < 0 {
        selected := 0;
      }
      if selected >= |posts| {
        selected := |posts| - 1;
      }
    }

    /** A snapshot is kept as it comes; the selection stays on its row. */
    method SetPosts(snapshot: seq<FeedPost>)
      requires Valid()
      modifies `posts, `selected, `yOffset
      ensures Valid() && posts == snapshot
      ensures old(selected) < |snapshot| ==> selected == old(selected)
      ensures 0 < |snapshot| <= old(selected) ==> selected == |snapshot| - 1
      ensures old(yOffset) + height <= |snapshot| ==> yOffset == old(yOffset)
      ensures old(yOffset) + height > |snapshot| ==> yOffset == if |snapshot| <= height then 0 else |snapshot| - height
    {
      posts := snapshot;
      ClampSelection();
      ClampYOffset();
    }

    method Upsert(p: FeedPost)
      requires Valid()
      modifies `posts, `selected, `yOffset
      ensures Valid() && posts == Upserted(old(posts), p)
      ensures old(posts) != [] ==> posts != [] && posts[selected].id == old(posts[selected]).id
      ensures yOffset == old(yOffset)
    {
      hide PostLess;
      if p.id == [] {
        return;
      }
      var i := 0;
      while i < |posts|
        invariant 0 <= i <= |posts| && posts == old(posts)
        invariant forall j :: 0 <= j < i ==> posts[j].id != p.id
      {
        if posts[i].id == p.id {
          ReplacedAt(posts, p, i);
          posts := posts[i := p];
          return;
        }
        i := i + 1;
      }
      var pos := 0;
      while pos < |posts| && !PostLess(p, posts[pos])
        invariant 0 <= pos <= |posts|
        invariant forall j :: 0 <= j < pos ==> !PostLess(p, posts[j])
      {
        pos := pos + 1;
      }
      PlacedAt(posts, p, pos);
      posts := posts[..pos] + [p] + posts[pos..];
      if pos <= selected {
        selected := selected + 1;
      }
      ClampSelection();
      ClampYOffset();
    }

    /** The selected post stays selected unless it is the one removed; then the next row, or
        the last one, is. */
    method Remove(id: EventID)
      requires Valid()
      modifies `posts, `selected, `yOffset
      ensures Valid() && posts == Removed(old(posts), id)
      ensures old(posts) != [] && old(posts[selected]).id != id ==>
        posts != [] && posts[selected] == old(posts[selected])
      ensures DistinctIds(old(posts)) && posts != [] && old(posts[selected]).id == id ==>
        selected == if old(selected) < |posts| then old(selected) else |posts| - 1
    {
      hide Removed, Has, DistinctIds;
      var i := 0;
      while i < |posts|
        invariant 0 <= i <= |posts| && posts == old(posts)
        invariant forall j :: 0 <= j < i ==> posts[j].id != id
      {
        if posts[i].id == id {
          RemovedAt(posts, id, i);
          RowsAfterCut(posts, i, selected);
          posts := posts[..i] + posts[i + 1..];
          if i < selected {
            selected := selected - 1;
          }
          ClampSelection();
          ClampYOffset();
          return;
        }
        i := i + 1;
      }
      NoneHas(posts, id);
      NothingRemoved(posts, id);
    }

    /** Moves the selection within the list and scrolls it into view. */
    method Move(delta: int)
      requires Valid()
      modifies `selected, `yOffset
      ensures Valid()
      ensures posts != [] && 0 <= old(selected) + delta < |posts| ==> selected == old(selected) + delta
      ensures posts != [] && old(selected) + delta < 0 ==> selected == 0
      ensures posts != [] && old(selected) + delta >= |posts| ==> selected == |posts| - 1
      ensures posts != [] && height > 0 ==> yOffset <= selected < yOffset + height
    {
      if |posts| == 0 {
        return;
      }
      selected := selected + delta;
      if selected < 0 {
        selected := 0;
      }
      if selected >= |posts| {
        selected := |posts| - 1;
      }
      EnsureVisible();
    }

    /** Scrolls just far enough that the selected row is inside the window. */
    method EnsureVisible()
      requires posts != [] ==> 0 <= selected < |posts|
      requires 0 <= yOffset <= MaxYOffset()
      modifies `yOffset
      ensures 0 <= yOffset <= MaxYOffset()
      ensures posts != [] && height > 0 ==> yOffset <= selected < yOffset + height
      ensures posts != [] && height > 0 && old(yOffset) <= selected < old(yOffset) + height ==> yOffset == old(yOffset)
      ensures posts != [] && height > 0 && selected < old(yOffset) ==> yOffset == selected
      ensures posts != [] && height > 0 && selected >= old(yOffset) + height ==> yOffset == selected + 1 - height
    {
      if |posts| == 0 || height == 0 {
        return;
      }
      var bottom := selected + 1;
      if bottom > yOffset + height {
        yOffset := bottom - height;
      } else if selected < yOffset {
        yOffset := selected;
      }
      ClampYOffset();
    }
  }
}
