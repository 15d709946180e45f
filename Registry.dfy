/**
 * The target registry's rectangle map (`QMap<int, QRect> imageRects`) and
 * what the hit test of a click does to it.
 *
 * The hit test runs `i` over 0, 1, 2, ... while `i < imageRects.size()` and
 * reads `imageRects[i]` through the non-const `operator[]`, which inserts a
 * default, empty rectangle under every key it does not find. It therefore
 * visits every key from 0 up to the largest key, filling the gaps with empty
 * rectangles, until one rectangle contains the click point; that one is
 * removed and the scan stops.
 */
module Registry {
  import opened Geometry

  datatype Option<T> = None | Some(value: T)

  /** The keys 0 .. n-1. */
  function Range(n: int): (r: set<int>)
    ensures forall j :: j in r <==> 0 <= j < n
    decreases n
  {
    if n <= 0 then {} else Range(n - 1) + {n - 1}
  }

  /**
   * The map `m` after `operator[]` has been applied to each key 0 .. n-1:
   * the entries of `m` are kept and every missing key below `n` now holds an
   * empty rectangle.
   */
  function Filled(m: map<int, Rect>, n: int): (r: map<int, Rect>)
    ensures r.Keys == m.Keys + Range(n)
    ensures forall k :: k in m ==> r[k] == m[k]
    ensures forall k :: k in r && k !in m ==> 0 <= k < n && r[k] == EmptyRect
  {
    map k | k in m.Keys + Range(n) :: if k in m then m[k] else EmptyRect
  }

  /** The largest element of a set of keys, searched upwards from its element `w`. */
  ghost function MaxKey(s: set<int>, w: int): (k: int)
    requires w in s
    ensures k in s
    ensures forall j :: j in s ==> j <= k
    decreases s
  {
    if forall j :: j in s ==> j <= w then w
    else
      var y :| y in s && y > w;
      var r := MaxKey(s - {w}, y);
      assert forall j :: j in s ==> j == w || j in s - {w};
      r
  }

  /** One more than the largest key of `m`, or 0 for the empty map: where a scan that finds nothing stops. */
  ghost function KeyBound(m: map<int, Rect>): (b: int)
    ensures forall k :: k in m ==> k < b
    ensures (forall k :: k !in m) ==> b == 0
    ensures (exists k :: k in m) ==> b - 1 in m
  {
    if forall k :: k !in m then 0 else var w :| w in m; MaxKey(m.Keys, w) + 1
  }

  /** Every key of `m` lies in 0 .. c. */
  predicate KeysWithin(m: map<int, Rect>, c: int) {
    forall k :: k in m ==> 0 <= k <= c
  }

  /** `k` is the smallest key of `m` whose rectangle contains the point. */
  ghost predicate IsFirstHit(m: map<int, Rect>, px: int, py: int, k: int) {
    && k in m
    && Contains(m[k], px, py)
    && forall j :: j in m && j < k ==> !Contains(m[j], px, py)
  }

  /** No rectangle of `m` contains the point. */
  ghost predicate NoHit(m: map<int, Rect>, px: int, py: int) {
    forall j :: j in m ==> !Contains(m[j], px, py)
  }

  /**
   * The map after the hit test: on a hit at `k`, the keys below `k` filled in
   * and `k` removed; on a miss, every key up to the largest one filled in.
   */
  ghost function HitTestResult(m: map<int, Rect>, hit: Option<int>): (r: map<int, Rect>)
    ensures forall k :: k in m && hit != Some(k) ==> k in r && r[k] == m[k]
    ensures hit.Some? ==> hit.value !in r
    ensures forall k :: k in r && k !in m ==>
      r[k] == EmptyRect && 0 <= k < (if hit.Some? then hit.value else KeyBound(m))
    ensures hit.None? ==> forall k :: 0 <= k < KeyBound(m) ==> k in r
  {
    match hit
    case Some(k) => Filled(m, k) - {k}
    case None => Filled(m, KeyBound(m))
  }

  lemma {:induction false} RangeCard(n: nat)
    ensures |Range(n)| == n
  {
    if n > 0 {
      RangeCard(n - 1);
      var below := Range(n - 1);
      assert n - 1 !in below;
      assert Range(n) == below + {n - 1};
      assert |below + {n - 1}| == |below| + 1;
    }
  }

  lemma SubsetCard(a: set<int>, b: set<int>)
    requires a <= b
    ensures |a| <= |b|
  {
    assert b == a + (b - a);
  }

  /** While the scan guard `i < |m|` holds, some key of `m` is at least `i`. */
  lemma KeyAtOrAbove(m: map<int, Rect>, i: nat)
    requires forall k :: k in m ==> 0 <= k
    requires i < |m|
    ensures exists k :: k in m && i <= k
  {
    if forall k :: k in m ==> k < i {
      assert m.Keys <= Range(i);
      RangeCard(i);
      SubsetCard(m.Keys, Range(i));
      assert false;
    }
  }

  /** When the scan guard fails with all of 0 .. i-1 present, those are all the keys. */
  lemma KeysExactlyRange(m: map<int, Rect>, i: nat)
    requires Range(i) <= m.Keys
    requires |m| <= i
    ensures m.Keys == Range(i)
  {
    RangeCard(i);
    var extra := m.Keys - Range(i);
    assert m.Keys == Range(i) + extra;
    assert |m.Keys| == |Range(i)| + |extra|;
    assert extra == {};
  }

  /** One more step of the scan: key `i` is read through `operator[]`. */
  lemma FilledStep(m: map<int, Rect>, i: nat)
    ensures Filled(m, i + 1) == if i in Filled(m, i) then Filled(m, i) else Filled(m, i)[i := EmptyRect]
    ensures i in Filled(m, i) <==> i in m
  {
  }

  /**
   * The hit test has read keys 0 .. i-1 of the original map `m0` without a
   * hit: the current map is `m0` with those keys filled in.
   */
  ghost predicate Scanned(m0: map<int, Rect>, m: map<int, Rect>, i: int, px: int, py: int) {
    && 0 <= i <= KeyBound(m0)
    && m == Filled(m0, i)
    && forall j :: j in m0 && j < i ==> !Contains(m0[j], px, py)
  }

  lemma ScanStart(m0: map<int, Rect>, px: int, py: int, c: int)
    requires KeysWithin(m0, c)
    ensures Scanned(m0, m0, 0, px, py)
  {
  }

  /**
   * While the guard `i < |m|` holds, some key at least `i` is still ahead, and
   * reading key `i` through `operator[]` gives the map filled up to `i + 1`.
   */
  lemma ScanStep(m0: map<int, Rect>, m: map<int, Rect>, i: int, px: int, py: int, c: int)
    requires KeysWithin(m0, c)
    requires Scanned(m0, m, i, px, py) && i < |m|
    ensures i < KeyBound(m0)
    ensures Filled(m0, i + 1) == if i in m then m else m[i := EmptyRect]
  {
    KeyAtOrAbove(m, i);
    var k :| k in m && i <= k;
    assert k in m0;
    FilledStep(m0, i);
  }

  /** Key `i` read and missed: the scan moves on to `i + 1`. */
  lemma ScanNext(m0: map<int, Rect>, m: map<int, Rect>, i: int, px: int, py: int)
    requires Scanned(m0, m, i, px, py) && i < KeyBound(m0)
    requires !Contains(Filled(m0, i + 1)[i], px, py)
    ensures Scanned(m0, Filled(m0, i + 1), i + 1, px, py)
  {
  }

  /** The scan stops at key `i` with a hit: `i` is the first hit and removing it gives the hit test's result. */
  lemma ScanHit(m0: map<int, Rect>, m: map<int, Rect>, i: int, px: int, py: int, c: int)
    requires KeysWithin(m0, c)
    requires Scanned(m0, m, i, px, py) && i < KeyBound(m0)
    requires Contains(Filled(m0, i + 1)[i], px, py)
    ensures IsFirstHit(m0, px, py, i)
    ensures Filled(m0, i + 1) - {i} == HitTestResult(m0, Some(i))
    ensures KeysWithin(Filled(m0, i + 1) - {i}, c)
  {
  }

  /** The scan guard fails at `i`: nothing was hit and the map is the hit test's result for a miss. */
  lemma ScanMiss(m0: map<int, Rect>, m: map<int, Rect>, i: int, px: int, py: int, c: int)
    requires KeysWithin(m0, c)
    requires Scanned(m0, m, i, px, py) && |m| <= i
    ensures NoHit(m0, px, py)
    ensures m == HitTestResult(m0, None)
    ensures KeysWithin(m, c)
  {
    KeysExactlyRange(m, i);
    assert forall k :: k in m0 ==> k < i;
    if exists k :: k in m0 {
      assert KeyBound(m0) - 1 in m0;
    }
    assert KeyBound(m0) == i;
    FilledWithin(m0, i, c);
  }

  /** Filling keys below the scan's bound adds no key outside 0 .. c when `m`'s keys are in that range. */
  lemma FilledWithin(m: map<int, Rect>, n: int, c: int)
    requires KeysWithin(m, c)
    requires n <= KeyBound(m)
    ensures KeysWithin(Filled(m, n), c)
  {
  }
}
