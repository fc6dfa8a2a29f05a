/** The projections of a log in internal/core/log.go: the replayed follow set and the
    newest-first feed. Sorting is the stable library sort, specified here as a function. */
module Projection {
  import opened Events

  datatype Order = ByTime | NewestFirst

  /** The two comparators the original passes to the stable sort. */
  predicate Less(o: Order, a: SignedEvent, b: SignedEvent) {
    match o
    case ByTime =>
      if a.event.timestamp != b.event.timestamp
      then a.event.timestamp < b.event.timestamp
      else a.event.sequence < b.event.sequence
    case NewestFirst => a.event.timestamp > b.event.timestamp
  }

  // ----- The stable sort

  function SortIn(o: Order, x: SignedEvent, s: seq<SignedEvent>): seq<SignedEvent> {
    if s == [] || !Less(o, s[0], x) then [x] + s else [s[0]] + SortIn(o, x, s[1..])
  }

  function StableSort(o: Order, s: seq<SignedEvent>): seq<SignedEvent> {
    if s == [] then [] else SortIn(o, s[0], StableSort(o, s[1..]))
  }

  ghost predicate Sorted(o: Order, s: seq<SignedEvent>) {
    forall i, j :: 0 <= i < j < |s| ==> !Less(o, s[j], s[i])
  }

  lemma {:induction false} InsertContents(o: Order, x: SignedEvent, s: seq<SignedEvent>)
    ensures multiset(SortIn(o, x, s)) == multiset{x} + multiset(s)
  {
    if s != [] && Less(o, s[0], x) {
      InsertContents(o, x, s[1..]);
      assert s == [s[0]] + s[1..];
    }
  }

  lemma {:induction false} InsertKeepsSorted(o: Order, x: SignedEvent, s: seq<SignedEvent>)
    requires Sorted(o, s)
    ensures Sorted(o, SortIn(o, x, s))
  {
    if s != [] && Less(o, s[0], x) {
      InsertKeepsSorted(o, x, s[1..]);
      InsertContents(o, x, s[1..]);
      var t := SortIn(o, x, s[1..]);
      forall y | y in t ensures !Less(o, y, s[0]) {
        assert y in multiset(t);
        assert y == x || y in s[1..];
      }
    }
  }

  lemma {:induction false} StableSortSorts(o: Order, s: seq<SignedEvent>)
    ensures Sorted(o, StableSort(o, s))
    ensures multiset(StableSort(o, s)) == multiset(s)
  {
    if s != [] {
      StableSortSorts(o, s[1..]);
      InsertKeepsSorted(o, s[0], StableSort(o, s[1..]));
      InsertContents(o, s[0], StableSort(o, s[1..]));
      assert s == [s[0]] + s[1..];
    }
  }

  lemma SameElements(a: seq<SignedEvent>, b: seq<SignedEvent>)
    requires multiset(a) == multiset(b)
    ensures |a| == |b|
    ensures forall x :: x in a <==> x in b
  {
    assert |multiset(a)| == |a| && |multiset(b)| == |b|;
    forall x ensures x in a <==> x in b {
      assert x in a <==> x in multiset(a);
      assert x in b <==> x in multiset(b);
    }
  }

  /** The order of the events of one timestamp is by sequence. */
  ghost predicate SequencedWithinInstant(s: seq<SignedEvent>) {
    forall i, j :: 0 <= i < j < |s| && s[i].event.timestamp == s[j].event.timestamp
      ==> s[i].event.sequence <= s[j].event.sequence
  }

  /** x may go ahead of every event of s of its own instant. */
  ghost predicate Leads(x: SignedEvent, s: seq<SignedEvent>) {
    forall y :: y in s && y.event.timestamp == x.event.timestamp ==> x.event.sequence <= y.event.sequence
  }

  lemma {:induction false} InsertIsStable(x: SignedEvent, s: seq<SignedEvent>)
    requires SequencedWithinInstant(s) && Leads(x, s)
    ensures SequencedWithinInstant(SortIn(NewestFirst, x, s))
  {
    if s != [] && Less(NewestFirst, s[0], x) {
      InsertIsStable(x, s[1..]);
      InsertContents(NewestFirst, x, s[1..]);
      var t := SortIn(NewestFirst, x, s[1..]);
      assert Leads(s[0], t) by {
        forall y | y in t && y.event.timestamp == s[0].event.timestamp
          ensures s[0].event.sequence <= y.event.sequence
        {
          assert y in multiset(t);
          assert y in s[1..];
        }
      }
    }
  }

  /** The second sort, on the timestamp alone, keeps what the first put in order. */
  lemma {:induction false} SecondSortIsStable(s: seq<SignedEvent>)
    requires SequencedWithinInstant(s)
    ensures SequencedWithinInstant(StableSort(NewestFirst, s))
  {
    if s != [] {
      var t := StableSort(NewestFirst, s[1..]);
      SecondSortIsStable(s[1..]);
      StableSortSorts(NewestFirst, s[1..]);
      SameElements(s[1..], t);
      assert Leads(s[0], t);
      InsertIsStable(s[0], t);
    }
  }

  function SortedByTime(events: seq<SignedEvent>): seq<SignedEvent> {
    StableSort(ByTime, events)
  }

  // ----- The follow set

  function Apply(fs: set<Pubkey>, se: SignedEvent): set<Pubkey> {
    if se.event.follow.None? then fs
    else if se.event.kind == KindFollow then fs + {se.event.follow.value}
    else if se.event.kind == KindUnfollow then fs - {se.event.follow.value}
    else fs
  }

  function Replay(events: seq<SignedEvent>): set<Pubkey> {
    if events == [] then {} else Apply(Replay(events[..|events| - 1]), events[|events| - 1])
  }

  function FollowSetOf(events: seq<SignedEvent>): set<Pubkey> {
    Replay(SortedByTime(events))
  }

  /** Replays the log in time order, one event after the other. */
  method FollowSet(events: seq<SignedEvent>) returns (fs: set<Pubkey>)
    ensures fs == FollowSetOf(events)
    ensures forall k :: k in fs <==> exists i: nat ::
      && i < |events| && events[i].event.kind == KindFollow && events[i].event.follow == Some(k)
      && forall j ::
           && 0 <= j < |events| && j != i
           && (events[j].event.kind == KindFollow || events[j].event.kind == KindUnfollow)
           && events[j].event.follow == Some(k)
           ==> || events[j].event.timestamp < events[i].event.timestamp
               || (events[j].event.timestamp == events[i].event.timestamp
                   && (events[j].event.sequence < events[i].event.sequence
                       || (events[j].event.sequence == events[i].event.sequence && j < i)))
  {
    var sorted := SortedByTime(events);
    fs := {};
    for i := 0 to |sorted|
      invariant fs == Replay(sorted[..i])
    {
      assert sorted[..i + 1][..i] == sorted[..i];
      fs := Apply(fs, sorted[i]);
    }
    assert sorted[..|sorted|] == sorted;
    forall k
      ensures k in fs <==> exists i: nat :: LastWord(events, k, i) && events[i].event.kind == KindFollow
    {
      FollowSetIsLastWordWins(events, k);
    }
  }

  /** events[i] is the last word on target, in the order of timestamp, then sequence, then
      position in the input. */
  ghost predicate LastWord(events: seq<SignedEvent>, target: Pubkey, i: nat) {
    && i < |events|
    && Concerns(events[i], target)
    && forall j :: 0 <= j < |events| && j != i && Concerns(events[j], target)
         ==> Less(ByTime, events[j], events[i]) || (j < i && !Less(ByTime, events[i], events[j]))
  }

  function Final(s: seq<SignedEvent>, target: Pubkey): Option<SignedEvent> {
    if s == [] then None
    else if Concerns(s[|s| - 1], target) then Some(s[|s| - 1])
    else Final(s[..|s| - 1], target)
  }

  lemma {:induction false} ReplayKeepsTheFinalWord(s: seq<SignedEvent>, target: Pubkey)
    ensures target in Replay(s)
       <==> Final(s, target).Some? && Final(s, target).value.event.kind == KindFollow
  {
    if s != [] {
      ReplayKeepsTheFinalWord(s[..|s| - 1], target);
    }
  }

  lemma {:induction false} FinalOfPrepended(x: SignedEvent, s: seq<SignedEvent>, target: Pubkey)
    ensures Final([x] + s, target)
         == if Final(s, target).Some? then Final(s, target)
            else if Concerns(x, target) then Some(x) else None
  {
    if s == [] {
      assert ([x] + s)[..0] == [];
    } else {
      FinalOfPrepended(x, s[..|s| - 1], target);
      assert ([x] + s)[..|s|] == [x] + s[..|s| - 1];
    }
  }

  /** Inserting x into a sorted list changes the final word only if x is strictly later. */
  lemma {:induction false} FinalOfInserted(x: SignedEvent, s: seq<SignedEvent>, target: Pubkey)
    requires Sorted(ByTime, s)
    ensures Final(SortIn(ByTime, x, s), target)
         == if !Concerns(x, target) then Final(s, target)
            else if Final(s, target).None? || Less(ByTime, Final(s, target).value, x) then Some(x)
            else Final(s, target)
  {
    if s == [] || !Less(ByTime, s[0], x) {
      FinalOfPrepended(x, s, target);
      FinalIsElement(s, target);
    } else {
      assert s == [s[0]] + s[1..];
      FinalOfInserted(x, s[1..], target);
      FinalOfPrepended(s[0], s[1..], target);
      FinalOfPrepended(s[0], SortIn(ByTime, x, s[1..]), target);
    }
  }

  lemma {:induction false} FinalIsElement(s: seq<SignedEvent>, target: Pubkey)
    ensures Final(s, target).Some? ==> Final(s, target).value in s
  {
    if s != [] {
      FinalIsElement(s[..|s| - 1], target);
    }
  }

  /** The final word of the sorted log is the last word of the unsorted one. */
  lemma {:induction false} FinalIsLastWord(events: seq<SignedEvent>, target: Pubkey)
    returns (w: Option<nat>)
    ensures w.None? ==> Final(SortedByTime(events), target).None?
    ensures w.None? ==> forall j :: 0 <= j < |events| ==> !Concerns(events[j], target)
    ensures w.Some? ==> LastWord(events, target, w.value)
    ensures w.Some? ==> Final(SortedByTime(events), target) == Some(events[w.value])
  {
    if events == [] {
      w := None;
    } else {
      var rest := events[1..];
      var r := FinalIsLastWord(rest, target);
      StableSortSorts(ByTime, rest);
      FinalOfInserted(events[0], SortedByTime(rest), target);
      assert forall j :: 0 < j < |events| ==> events[j] == rest[j - 1];
      if Concerns(events[0], target) && (r.None? || Less(ByTime, rest[r.value], events[0])) {
        w := Some(0);
      } else if r.Some? {
        w := Some(r.value + 1);
      } else {
        w := None;
      }
    }
  }

  /** Replay refines last-event-wins: a key is in the follow set exactly when the last word
      on it is a Follow. */
  lemma FollowSetIsLastWordWins(events: seq<SignedEvent>, target: Pubkey)
    ensures target in FollowSetOf(events)
       <==> exists i: nat :: LastWord(events, target, i) && events[i].event.kind == KindFollow
  {
    var w := FinalIsLastWord(events, target);
    ReplayKeepsTheFinalWord(SortedByTime(events), target);
    forall i: nat | LastWord(events, target, i) ensures w == Some(i) {
      assert Concerns(events[i], target);
    }
  }

  /** No Follow and Unfollow of one key share both timestamp and sequence. */
  ghost predicate NoTies(events: seq<SignedEvent>) {
    forall a, b, target ::
      && a in events && b in events && Concerns(a, target) && Concerns(b, target)
      && a.event.timestamp == b.event.timestamp && a.event.sequence == b.event.sequence
      ==> a.event.kind == b.event.kind
  }

  lemma LastWordsMatch(a: seq<SignedEvent>, b: seq<SignedEvent>, target: Pubkey, i: nat, j: nat)
    requires NoTies(a) && forall x :: x in a <==> x in b
    requires LastWord(a, target, i) && LastWord(b, target, j)
    ensures a[i].event.kind == b[j].event.kind
  {
    assert a[i] in b && b[j] in a;
  }

  /** Two peers with the same events, listed differently, compute the same follow set. */
  lemma FollowSetIgnoresInputOrder(a: seq<SignedEvent>, b: seq<SignedEvent>)
    requires multiset(a) == multiset(b) && NoTies(a)
    ensures FollowSetOf(a) == FollowSetOf(b)
  {
    SameElements(a, b);
    forall target ensures target in FollowSetOf(a) <==> target in FollowSetOf(b) {
      var i := FinalIsLastWord(a, target);
      var j := FinalIsLastWord(b, target);
      ReplayKeepsTheFinalWord(SortedByTime(a), target);
      ReplayKeepsTheFinalWord(SortedByTime(b), target);
      assert i.Some? ==> a[i.value] in b;
      assert j.Some? ==> b[j.value] in a;
      assert i.Some? <==> j.Some?;
      if i.Some? {
        LastWordsMatch(a, b, target, i.value, j.value);
      }
    }
  }

  lemma {:induction false} InsertNewest(e: SignedEvent, s: seq<SignedEvent>)
    requires forall x :: x in s ==> Less(ByTime, x, e)
    ensures SortIn(ByTime, e, s) == s + [e]
  {
    if s != [] {
      InsertNewest(e, s[1..]);
    }
  }

  lemma {:induction false} InsertBeforeNewest(x: SignedEvent, s: seq<SignedEvent>, e: SignedEvent)
    requires Less(ByTime, x, e)
    ensures SortIn(ByTime, x, s + [e]) == SortIn(ByTime, x, s) + [e]
  {
    if s != [] && Less(ByTime, s[0], x) {
      InsertBeforeNewest(x, s[1..], e);
      assert (s + [e])[1..] == s[1..] + [e];
    } else {
      assert [x] + (s + [e]) == ([x] + s) + [e];
    }
  }

  /** Wherever a strictly latest event stands in the input, the sort puts it last. */
  lemma {:induction false} SortPutsNewestLast(s: seq<SignedEvent>, p: nat, e: SignedEvent)
    requires p <= |s| && forall x :: x in s ==> Less(ByTime, x, e)
    ensures SortedByTime(s[..p] + [e] + s[p..]) == SortedByTime(s) + [e]
  {
    var t := s[..p] + [e] + s[p..];
    if p == 0 {
      assert t[1..] == s;
      StableSortSorts(ByTime, s);
      SameElements(s, SortedByTime(s));
      InsertNewest(e, SortedByTime(s));
    } else {
      assert t[1..] == s[1..][..p - 1] + [e] + s[1..][p - 1..];
      SortPutsNewestLast(s[1..], p - 1, e);
      InsertBeforeNewest(s[0], SortedByTime(s[1..]), e);
    }
  }

  /** An event strictly later than the log decides for its target and for no other. */
  lemma NewestEventDecides(s: seq<SignedEvent>, p: nat, e: SignedEvent)
    requires p <= |s| && forall x :: x in s ==> Less(ByTime, x, e)
    ensures FollowSetOf(s[..p] + [e] + s[p..]) == Apply(FollowSetOf(s), e)
  {
    SortPutsNewestLast(s, p, e);
    var t := SortedByTime(s);
    assert (t + [e])[..|t|] == t;
  }

  // ----- The profile

  predicate IsProfile(se: SignedEvent) {
    se.event.kind == KindProfile && se.event.profile.Some?
  }

  /** events[i] is the newest profile event; of equally new ones, the last in the input. An
      event before time zero never counts. */
  ghost predicate LatestProfile(events: seq<SignedEvent>, i: nat) {
    && i < |events| && IsProfile(events[i]) && events[i].event.timestamp >= 0
    && forall j :: 0 <= j < |events| && IsProfile(events[j])
         ==> events[j].event.timestamp < events[i].event.timestamp
             || (events[j].event.timestamp == events[i].event.timestamp && j <= i)
  }

  /** Last write wins. */
  method Profile(events: seq<SignedEvent>) returns (latest: Option<Bytes>)
    ensures latest.None? <==> forall se :: se in events && IsProfile(se) ==> se.event.timestamp < 0
    ensures latest.Some? ==> exists i: nat ::
      && i < |events| && events[i].event.kind == KindProfile && events[i].event.profile == latest
      && events[i].event.timestamp >= 0
      && forall j :: 0 <= j < |events| && events[j].event.kind == KindProfile && events[j].event.profile.Some? ==>
           || events[j].event.timestamp < events[i].event.timestamp
           || (events[j].event.timestamp == events[i].event.timestamp && j <= i)
    ensures latest.Some? ==> exists i: nat :: LatestProfile(events, i) && events[i].event.profile == latest
  {
    latest := None;
    var latestTS := 0;
    ghost var at: nat := 0;
    for i := 0 to |events|
      invariant latestTS >= 0
      invariant latest.None? ==> latestTS == 0
      invariant latest.None? <==> forall j :: 0 <= j < i && IsProfile(events[j]) ==> events[j].event.timestamp < 0
      invariant latest.Some? ==> LatestProfile(events[..i], at)
      invariant latest.Some? ==> events[at].event.profile == latest && events[at].event.timestamp == latestTS
    {
      var se := events[i];
      if !IsProfile(se) {
        continue;
      }
      if se.event.timestamp >= latestTS {
        latest, latestTS, at := se.event.profile, se.event.timestamp, i;
      }
    }
    assert events[..|events|] == events;
  }

  // ----- The feed

  ghost predicate TombstonedIn(events: seq<SignedEvent>, id: EventID) {
    exists d :: d in events && IsDelete(d) && d.event.delete.value == id
  }

  function Tombstones(events: seq<SignedEvent>): (t: set<EventID>)
    ensures forall id :: id in t <==> TombstonedIn(events, id)
  {
    set d | d in events && IsDelete(d) :: d.event.delete.value
  }

  method Tombstoned(events: seq<SignedEvent>) returns (t: set<EventID>)
    ensures t == Tombstones(events)
    ensures forall id :: id in t <==>
      exists d :: d in events && d.event.kind == KindDelete && d.event.delete == Some(id)
  {
    t := {};
    for i := 0 to |events|
      invariant t == Tombstones(events[..i])
    {
      assert events[..i + 1] == events[..i] + [events[i]];
      if IsDelete(events[i]) {
        t := t + {events[i].event.delete.value};
      }
    }
    assert events[..|events|] == events;
  }

  predicate Shown(tomb: set<EventID>, se: SignedEvent) {
    se.event.kind == KindPost && se.Id() !in tomb
  }

  function Visible(tomb: set<EventID>, s: seq<SignedEvent>): (v: seq<SignedEvent>)
    ensures forall se :: se in v <==> se in s && Shown(tomb, se)
  {
    if s == [] then []
    else
      var v := Visible(tomb, s[..|s| - 1]);
      if Shown(tomb, s[|s| - 1]) then v + [s[|s| - 1]] else v
  }

  function PostsOf(events: seq<SignedEvent>): seq<SignedEvent> {
    StableSort(NewestFirst, Visible(Tombstones(events), SortedByTime(events)))
  }

  lemma VisibleInOrder(events: seq<SignedEvent>)
    ensures Sorted(ByTime, Visible(Tombstones(events), SortedByTime(events)))
    ensures forall se :: se in SortedByTime(events) <==> se in events
  {
    StableSortSorts(ByTime, events);
    SameElements(events, SortedByTime(events));
    VisibleKeepsOrder(Tombstones(events), SortedByTime(events));
  }

  method NonTombstonedPosts(events: seq<SignedEvent>) returns (out: seq<SignedEvent>)
    ensures out == Visible(Tombstones(events), SortedByTime(events))
    ensures forall se :: se in out <==>
      && se in events && se.event.kind == KindPost
      && forall d :: d in events && d.event.kind == KindDelete ==> d.event.delete != Some(se.Id())
    ensures Sorted(ByTime, out)
  {
    VisibleInOrder(events);
    var tomb := Tombstoned(events);
    var sorted := SortedByTime(events);
    out := [];
    for i := 0 to |sorted|
      invariant out == Visible(tomb, sorted[..i])
    {
      assert sorted[..i + 1][..i] == sorted[..i];
      if sorted[i].event.kind != KindPost {
        continue;
      }
      if sorted[i].Id() in tomb {
        continue;
      }
      out := out + [sorted[i]];
    }
    assert sorted[..|sorted|] == sorted;
  }

  method Posts(events: seq<SignedEvent>) returns (posts: seq<SignedEvent>)
    ensures posts == PostsOf(events)
    ensures forall se :: multiset(posts)[se]
              == if se.event.kind == KindPost
                    && (forall d :: d in events && d.event.kind == KindDelete ==> d.event.delete != Some(se.Id()))
                 then multiset(events)[se] else 0
    ensures forall i, j :: 0 <= i < j < |posts| ==>
      || posts[i].event.timestamp > posts[j].event.timestamp
      || (posts[i].event.timestamp == posts[j].event.timestamp && posts[i].event.sequence <= posts[j].event.sequence)
  {
    FeedProjection(events);
    var visible := NonTombstonedPosts(events);
    posts := StableSort(NewestFirst, visible);
  }

  lemma {:induction false} VisibleCounts(tomb: set<EventID>, s: seq<SignedEvent>, se: SignedEvent)
    ensures multiset(Visible(tomb, s))[se] == if Shown(tomb, se) then multiset(s)[se] else 0
  {
    if s != [] {
      VisibleCounts(tomb, s[..|s| - 1], se);
      assert s == s[..|s| - 1] + [s[|s| - 1]];
    }
  }

  lemma {:induction false} VisibleKeepsOrder(tomb: set<EventID>, s: seq<SignedEvent>)
    requires Sorted(ByTime, s)
    ensures Sorted(ByTime, Visible(tomb, s))
  {
    if s != [] {
      VisibleKeepsOrder(tomb, s[..|s| - 1]);
      var v := Visible(tomb, s[..|s| - 1]);
      forall i | 0 <= i < |v| ensures !Less(ByTime, s[|s| - 1], v[i]) {
        assert v[i] in s[..|s| - 1];
      }
    }
  }

  /** The feed lists each Post event that no Delete of the log targets, as often as the log
      holds it, and nothing else: newest first and, within one instant, by sequence. */
  lemma FeedProjection(events: seq<SignedEvent>)
    ensures forall se :: multiset(PostsOf(events))[se]
              == if se.event.kind == KindPost && !TombstonedIn(events, se.Id()) then multiset(events)[se] else 0
    ensures forall i, j :: 0 <= i < j < |PostsOf(events)|
              ==> PostsOf(events)[i].event.timestamp >= PostsOf(events)[j].event.timestamp
    ensures SequencedWithinInstant(PostsOf(events))
  {
    var tomb, sorted := Tombstones(events), SortedByTime(events);
    StableSortSorts(ByTime, events);
    VisibleKeepsOrder(tomb, sorted);
    var v := Visible(tomb, sorted);
    StableSortSorts(NewestFirst, v);
    assert SequencedWithinInstant(v) by {
      forall i, j | 0 <= i < j < |v| && v[i].event.timestamp == v[j].event.timestamp
        ensures v[i].event.sequence <= v[j].event.sequence
      {
        assert !Less(ByTime, v[j], v[i]);
      }
    }
    SecondSortIsStable(v);
    forall se ensures multiset(PostsOf(events))[se]
                   == if se.event.kind == KindPost && !TombstonedIn(events, se.Id()) then multiset(events)[se] else 0
    {
      VisibleCounts(tomb, sorted, se);
    }
    var p := PostsOf(events);
    forall i, j | 0 <= i < j < |p| ensures p[i].event.timestamp >= p[j].event.timestamp {
      assert !Less(NewestFirst, p[j], p[i]);
    }
  }

  /** Membership in the feed, the form the daemon relies on. */
  lemma FeedMembers(events: seq<SignedEvent>, se: SignedEvent)
    ensures se in PostsOf(events)
       <==> se in events && se.event.kind == KindPost && !TombstonedIn(events, se.Id())
  {
    FeedProjection(events);
    assert se in PostsOf(events) <==> multiset(PostsOf(events))[se] > 0;
    assert se in events <==> multiset(events)[se] > 0;
  }
}
