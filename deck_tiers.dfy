/** The markup tiers of the deck quote (deck/app.js `tierPctForSF`): the tiers are sorted by
    their area bound, and the first one whose bound covers the deck area gives the percentage. */
module DeckTiers {
  import opened Common

  datatype Tier = Tier(maxSF: real, pct: real)

  /** The percentage when no tier covers the area. */
  const FallbackPct: real := 0.25

  predicate SortedByMaxSF(s: seq<Tier>)
  {
    forall i, j :: 0 <= i < j < |s| ==> s[i].maxSF <= s[j].maxSF
  }

  /** Inserts `t` before the first tier of `s` whose bound is at least its own, so that equal
      bounds keep their input order, as the stable `Array.prototype.sort` does. */
  function Insert(t: Tier, s: seq<Tier>): (r: seq<Tier>)
    ensures multiset(r) == multiset(s) + multiset{t}
  {
    if s == [] || t.maxSF <= s[0].maxSF then [t] + s
    else
      assert s == [s[0]] + s[1..];
      [s[0]] + Insert(t, s[1..])
  }

  /** Every tier of an insertion came from the list or is the inserted one. */
  lemma InsertMember(t: Tier, s: seq<Tier>, x: Tier)
    requires x in Insert(t, s)
    ensures x in s || x == t
  {
    assert x in multiset(Insert(t, s));
  }

  /** Inserting into a sorted list keeps it sorted. */
  lemma {:induction false} InsertSorted(t: Tier, s: seq<Tier>)
    requires SortedByMaxSF(s)
    ensures SortedByMaxSF(Insert(t, s))
  {
    if s != [] && t.maxSF > s[0].maxSF {
      var rest := Insert(t, s[1..]);
      InsertSorted(t, s[1..]);
      var r := [s[0]] + rest;
      forall i, j | 0 <= i < j < |r| ensures r[i].maxSF <= r[j].maxSF {
        if i == 0 {
          InsertMember(t, s[1..], r[j]);
          if r[j] != t {
            var k :| 0 <= k < |s[1..]| && s[1..][k] == r[j];
            assert s[k + 1] == r[j];
          }
        } else {
          assert r[i] == rest[i - 1] && r[j] == rest[j - 1];
        }
      }
    }
  }

  /** `tiers.slice().sort((a, b) => a.maxSF - b.maxSF)`. */
  function SortTiers(tiers: seq<Tier>): (r: seq<Tier>)
    ensures multiset(r) == multiset(tiers)
    ensures SortedByMaxSF(r)
  {
    if tiers == [] then []
    else
      assert tiers == [tiers[0]] + tiers[1..];
      InsertSorted(tiers[0], SortTiers(tiers[1..]));
      Insert(tiers[0], SortTiers(tiers[1..]))
  }

  /** The loop of `tierPctForSF`: the first tier, in the given order, whose bound is at least
      `sf`; none when no bound is. */
  function FirstCover(s: seq<Tier>, sf: real): (r: Option<Tier>)
    ensures r.Some? ==> r.value in s && sf <= r.value.maxSF
  {
    if s == [] then None
    else if sf <= s[0].maxSF then Some(s[0])
    else FirstCover(s[1..], sf)
  }

  /** The percentage of the tier found, 0.25 when the loop finds none. */
  function PctOf(c: Option<Tier>): real
  {
    if c.Some? then c.value.pct else FallbackPct
  }

  /** `tierPctForSF`: the loop over the tiers sorted by bound. It reads the same tier as
      `BestCover` reads from the tiers in their given order. */
  function TierPctForSF(tiers: seq<Tier>, sf: real): (r: real)
    ensures r == PctOf(BestCover(tiers, sf))
  {
    SortedFirstCover(tiers, sf);
    PctOf(FirstCover(SortTiers(tiers), sf))
  }

  /** The loop stops at the first covering tier, and finds none only when no tier covers. */
  lemma {:induction false} FirstCoverIsFirst(s: seq<Tier>, sf: real)
    ensures FirstCover(s, sf).None? <==> forall k :: 0 <= k < |s| ==> sf > s[k].maxSF
    ensures FirstCover(s, sf).Some? ==>
              exists i :: 0 <= i < |s| && s[i] == FirstCover(s, sf).value && forall k :: 0 <= k < i ==> sf > s[k].maxSF
  {
    if s == [] {
    } else if sf <= s[0].maxSF {
      assert FirstCover(s, sf).value == s[0];
    } else {
      var rest := s[1..];
      FirstCoverIsFirst(rest, sf);
      assert FirstCover(s, sf) == FirstCover(rest, sf);
      forall k | 1 <= k < |s| ensures s[k] == rest[k - 1] {
      }
      if FirstCover(rest, sf).Some? {
        var j :| 0 <= j < |rest| && rest[j] == FirstCover(rest, sf).value && forall k :: 0 <= k < j ==> sf > rest[k].maxSF;
        assert s[j + 1] == rest[j];
      }
    }
  }

  /** `t` when it covers `sf` with a bound no larger than that of `b`, otherwise `b`. */
  function Better(t: Tier, b: Option<Tier>, sf: real): Option<Tier>
  {
    if sf <= t.maxSF && (b.None? || t.maxSF <= b.value.maxSF) then Some(t) else b
  }

  /** A reading of the tiers in their given order, without sorting: the covering tier with the
      smallest bound, the earliest of those when several share it. */
  function BestCover(tiers: seq<Tier>, sf: real): Option<Tier>
  {
    if tiers == [] then None else Better(tiers[0], BestCover(tiers[1..], sf), sf)
  }

  /** `tiers[i]` covers `sf`, no covering tier has a smaller bound, and every covering tier
      listed before it has a larger one. */
  predicate SmallestCoverAt(tiers: seq<Tier>, sf: real, i: int)
  {
    0 <= i < |tiers| && sf <= tiers[i].maxSF &&
    (forall k :: 0 <= k < |tiers| && sf <= tiers[k].maxSF ==> tiers[i].maxSF <= tiers[k].maxSF) &&
    (forall k :: 0 <= k < i && sf <= tiers[k].maxSF ==> tiers[i].maxSF < tiers[k].maxSF)
  }

  /** The reference reading finds nothing exactly when no tier covers the area, and otherwise the
      earliest covering tier with the smallest bound. */
  lemma {:induction false} BestCoverSpec(tiers: seq<Tier>, sf: real)
    ensures BestCover(tiers, sf).None? <==> forall k :: 0 <= k < |tiers| ==> sf > tiers[k].maxSF
    ensures BestCover(tiers, sf).Some? ==>
              exists i :: SmallestCoverAt(tiers, sf, i) && tiers[i] == BestCover(tiers, sf).value
  {
    if tiers != [] {
      var t, rest := tiers[0], tiers[1..];
      BestCoverSpec(rest, sf);
      var b := BestCover(rest, sf);
      if b.Some? {
        var j :| SmallestCoverAt(rest, sf, j) && rest[j] == b.value;
        if sf <= t.maxSF && t.maxSF <= b.value.maxSF {
          SmallestCoverHead(tiers, sf, j);
        } else {
          SmallestCoverShift(tiers, sf, j);
        }
      } else {
        forall k | 1 <= k < |tiers| ensures sf > tiers[k].maxSF {
          assert tiers[k] == rest[k - 1];
        }
        if sf <= t.maxSF {
          assert SmallestCoverAt(tiers, sf, 0);
        }
      }
    }
  }

  /** A covering first tier whose bound is no larger than the rest's smallest cover is itself
      the smallest cover. */
  lemma SmallestCoverHead(tiers: seq<Tier>, sf: real, j: int)
    requires tiers != [] && SmallestCoverAt(tiers[1..], sf, j)
    requires sf <= tiers[0].maxSF && tiers[0].maxSF <= tiers[1..][j].maxSF
    ensures SmallestCoverAt(tiers, sf, 0)
  {
    forall k | 1 <= k < |tiers| && sf <= tiers[k].maxSF ensures tiers[0].maxSF <= tiers[k].maxSF {
      assert tiers[k] == tiers[1..][k - 1];
    }
  }

  /** When the first tier does not cover with a bound that small, the rest's smallest cover is the
      smallest cover of the whole list, one place further on. */
  lemma SmallestCoverShift(tiers: seq<Tier>, sf: real, j: int)
    requires tiers != [] && SmallestCoverAt(tiers[1..], sf, j)
    requires !(sf <= tiers[0].maxSF && tiers[0].maxSF <= tiers[1..][j].maxSF)
    ensures SmallestCoverAt(tiers, sf, j + 1)
  {
    var rest := tiers[1..];
    assert tiers[j + 1] == rest[j];
    forall k | 1 <= k < |tiers| ensures tiers[k] == rest[k - 1] {
    }
  }

  /** Inserting `t` into a sorted list makes the loop find `t` exactly when `t` covers the area
      with a bound no larger than that of the tier found before. */
  lemma {:induction false} InsertFirstCover(t: Tier, s: seq<Tier>, sf: real)
    requires SortedByMaxSF(s)
    ensures FirstCover(Insert(t, s), sf) == Better(t, FirstCover(s, sf), sf)
  {
    if s == [] || t.maxSF <= s[0].maxSF {
      var r := Insert(t, s);
      assert r[0] == t && r[1..] == s;
      var b := FirstCover(s, sf);
      if b.Some? {
        var k :| 0 <= k < |s| && s[k] == b.value;
        assert s[0].maxSF <= s[k].maxSF;
      }
    } else {
      InsertFirstCover(t, s[1..], sf);
      var r := Insert(t, s);
      assert r[0] == s[0] && r[1..] == Insert(t, s[1..]);
    }
  }

  /** Sorting, then taking the first cover, reads the same tier as the reference reading. */
  lemma {:induction false} SortedFirstCover(tiers: seq<Tier>, sf: real)
    ensures FirstCover(SortTiers(tiers), sf) == BestCover(tiers, sf)
  {
    if tiers != [] {
      SortedFirstCover(tiers[1..], sf);
      InsertFirstCover(tiers[0], SortTiers(tiers[1..]), sf);
    }
  }

  /** `tierPctForSF` returns the percentage of the covering tier with the smallest bound,
      whatever the order of the list; among tiers sharing that bound, the one listed first (the
      sort is stable); and 0.25 when no tier covers the area. */
  lemma TierPctIsSmallestCover(tiers: seq<Tier>, sf: real)
    ensures (forall k :: 0 <= k < |tiers| ==> sf > tiers[k].maxSF) ==> TierPctForSF(tiers, sf) == FallbackPct
    ensures (exists k :: 0 <= k < |tiers| && sf <= tiers[k].maxSF) ==>
              exists i :: SmallestCoverAt(tiers, sf, i) && TierPctForSF(tiers, sf) == tiers[i].pct
  {
    BestCoverSpec(tiers, sf);
  }

  /** Reordering the tiers does not change the percentage, as long as tiers with the same bound
      carry the same percentage. */
  lemma TierPctOrderIndependent(a: seq<Tier>, b: seq<Tier>, sf: real)
    requires multiset(a) == multiset(b)
    requires forall t, u :: t in a && u in a && t.maxSF == u.maxSF ==> t.pct == u.pct
    ensures TierPctForSF(a, sf) == TierPctForSF(b, sf)
  {
    BestCoverSpec(a, sf);
    BestCoverSpec(b, sf);
    var ca, cb := BestCover(a, sf), BestCover(b, sf);
    if ca.Some? {
      var i :| SmallestCoverAt(a, sf, i) && a[i] == ca.value;
      var kb := IndexInReordering(a, b, i);
      var j :| SmallestCoverAt(b, sf, j) && b[j] == cb.value;
      var ka := IndexInReordering(b, a, j);
      assert b[j].maxSF <= b[kb].maxSF == a[i].maxSF;
      assert a[i].maxSF <= a[ka].maxSF == b[j].maxSF;
      assert a[i] in a && a[ka] in a;
    } else if cb.Some? {
      var j :| SmallestCoverAt(b, sf, j) && b[j] == cb.value;
      var ka := IndexInReordering(b, a, j);
    }
  }

  /** A tier of `a` sits at some index of a reordering `b` of it. */
  lemma IndexInReordering(a: seq<Tier>, b: seq<Tier>, i: int) returns (k: int)
    requires multiset(a) == multiset(b) && 0 <= i < |a|
    ensures 0 <= k < |b| && b[k] == a[i]
  {
    assert a[i] in multiset(a);
    k :| 0 <= k < |b| && b[k] == a[i];
  }

  /** Tiers of 30% up to 1000 SF, 22% up to 2000 SF and 20% beyond, listed out of order: any deck
      over 1000 SF and up to 2000 SF gets 22%. */
  lemma TierExample(tiers: seq<Tier>, sf: real)
    requires |tiers| == 3
    requires tiers[0] == Tier(1000000.0, 0.20) && tiers[1] == Tier(2000.0, 0.22) && tiers[2] == Tier(1000.0, 0.30)
    requires 1000.0 < sf <= 2000.0
    ensures TierPctForSF(tiers, sf) == 0.22
  {
    TierPctIsSmallestCover(tiers, sf);
    assert sf <= tiers[1].maxSF;
    var i :| SmallestCoverAt(tiers, sf, i) && TierPctForSF(tiers, sf) == tiers[i].pct;
    assert tiers[i].maxSF <= tiers[1].maxSF;
  }

  /** Two tiers with the same bound: the one listed first wins, as the stable sort keeps it first. */
  lemma TieExample(sf: real)
    requires sf <= 1000.0
    ensures TierPctForSF([Tier(1000.0, 0.30), Tier(1000.0, 0.10)], sf) == 0.30
  {
    TierPctIsSmallestCover([Tier(1000.0, 0.30), Tier(1000.0, 0.10)], sf);
  }

}
