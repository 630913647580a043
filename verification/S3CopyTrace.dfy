/** How far a directory copy has come, child by child: the reasoning behind the loop of
    Copy in S3FileSystem. */
module S3CopyTrace {
  import opened S3Keys
  import opened S3Directory

  lemma ChildBelow(was: Objects, src: string, i: nat)
    requires i < |Children(was, src)|
    ensures Children(was, src)[i] in was && Dir(src) < Children(was, src)[i] && src <= Children(was, src)[i]
  {
    assert Children(was, src)[i] in Below(was, Dir(src));
    assert src <= Dir(src);
  }

  /** The step a copy makes for one child: an object is written to its target; a
      directory with only markers below it changes nothing. */
  predicate ChildStep(now: Objects, post: Objects, src: string, dst: string, child: string) {
    && (!IsMarker(child) ==> src <= child && child in now && post == now[Target(src, dst, child) := now[child]])
    && (IsMarker(child) && OnlyMarkers(now, child) ==> post == now)
  }

  // ---------------------------------------------------------------- targets reached

  predicate ReachesUpTo(now: Objects, src: string, dst: string, children: seq<string>, n: nat)
    requires n <= |children|
  {
    forall j :: 0 <= j < n && !IsMarker(children[j]) ==> src <= children[j] && Target(src, dst, children[j]) in now
  }

  lemma ReachesOneMore(was: Objects, now: Objects, post: Objects, src: string, dst: string, n: nat)
    requires n < |Children(was, src)| && ReachesUpTo(now, src, dst, Children(was, src), n) && now.Keys <= post.Keys
    requires ChildStep(now, post, src, dst, Children(was, src)[n])
    ensures ReachesUpTo(post, src, dst, Children(was, src), n + 1)
  {
  }

  lemma AllReached(was: Objects, now: Objects, src: string, dst: string)
    requires ReachesUpTo(now, src, dst, Children(was, src), |Children(was, src)|)
    ensures Reaches(was, now, src, dst)
  {
    forall k | k in was && Dir(src) < k && !IsMarker(k) ensures src <= k && Target(src, dst, k) in now {
      assert k in Below(was, Dir(src));
      assert k in Children(was, src);
    }
  }

  // ---------------------------------------------------------------- copies landed

  predicate LandedUpTo(was: Objects, now: Objects, src: string, dst: string, children: seq<string>, n: nat)
    requires n <= |children|
  {
    forall j :: 0 <= j < n && !IsMarker(children[j]) ==> Landed(was, now, src, dst, children[j])
  }

  lemma LandedOneMore(was: Objects, now: Objects, post: Objects, src: string, dst: string, n: nat)
    requires n < |Children(was, src)| && LandedUpTo(was, now, src, dst, Children(was, src), n)
    requires StaysLanded(was, now, post, src, dst)
    requires !IsMarker(Children(was, src)[n]) ==> Landed(was, post, src, dst, Children(was, src)[n])
    ensures LandedUpTo(was, post, src, dst, Children(was, src), n + 1)
  {
    forall j | 0 <= j < n && !IsMarker(Children(was, src)[j])
      ensures Landed(was, post, src, dst, Children(was, src)[j])
    {
      ChildBelow(was, src, j);
    }
  }

  lemma AllLanded(was: Objects, now: Objects, src: string, dst: string)
    requires Partial(was, now, src, dst)
    requires LandedUpTo(was, now, src, dst, Children(was, src), |Children(was, src)|)
    ensures Copied(was, now, src, dst)
  {
    forall k | k in was && Dir(src) < k && !IsMarker(k) ensures Landed(was, now, src, dst, k) {
      assert k in Below(was, Dir(src));
      assert k in Children(was, src);
    }
    CopyDone(was, now, src, dst);
  }

  // ---------------------------------------------------------------- in listing order

  /** An earlier child has been written to key `t`. */
  predicate WrittenBefore(src: string, dst: string, children: seq<string>, n: nat, t: string)
    requires n <= |children|
  {
    exists l :: 0 <= l < n && WrittenTo(src, dst, children[l], t)
  }

  predicate WrittenTo(src: string, dst: string, child: string, t: string) {
    !IsMarker(child) && src <= child && Target(src, dst, child) == t
  }

  /** Keys no earlier child was written to are as they were. */
  predicate KeptUpTo(was: Objects, now: Objects, src: string, dst: string, children: seq<string>, n: nat)
    requires n <= |children|
  {
    forall t :: t in was ==> t in now && (now[t] == was[t] || WrittenBefore(src, dst, children, n, t))
  }

  /** An earlier child with other bytes has been written to child `j`. */
  predicate Clash(was: Objects, src: string, dst: string, children: seq<string>, l: nat, j: nat)
    requires l < j < |children|
  {
    && children[l] in was && children[j] in was
    && WrittenTo(src, dst, children[l], children[j]) && was[children[l]] != was[children[j]]
  }

  predicate ClashesUpTo(was: Objects, src: string, dst: string, children: seq<string>, n: nat)
    requires n <= |children|
  {
    exists l, j :: 0 <= l < j < n && Clash(was, src, dst, children, l, j)
  }

  /** A child's target holds other bytes than the child had. */
  predicate Missed(was: Objects, now: Objects, src: string, dst: string, child: string) {
    && child in was && !IsMarker(child) && src <= child
    && Target(src, dst, child) in now && now[Target(src, dst, child)] != was[child]
  }

  predicate MissedUpTo(was: Objects, now: Objects, src: string, dst: string, children: seq<string>, n: nat)
    requires n <= |children|
  {
    exists j :: 0 <= j < n && Missed(was, now, src, dst, children[j])
  }

  /** Without a clash so far every copy is right; with one, some copy is wrong. */
  predicate Tracked(was: Objects, now: Objects, src: string, dst: string, children: seq<string>, n: nat)
    requires n <= |children|
  {
    && AddsOnlyTargets(was, now, src, dst)
    && if ClashesUpTo(was, src, dst, children, n) then MissedUpTo(was, now, src, dst, children, n)
       else LandedUpTo(was, now, src, dst, children, n) && KeptUpTo(was, now, src, dst, children, n)
  }

  lemma TargetsDiffer(was: Objects, src: string, dst: string, i: nat, j: nat)
    requires i < |Children(was, src)| && j < |Children(was, src)| && i != j
    ensures src <= Children(was, src)[i] && src <= Children(was, src)[j]
    ensures Target(src, dst, Children(was, src)[i]) != Target(src, dst, Children(was, src)[j])
  {
    ChildBelow(was, src, i);
    ChildBelow(was, src, j);
    if i < j { SortedDistinct(Below(was, Dir(src)), i, j); } else { SortedDistinct(Below(was, Dir(src)), j, i); }
    TargetOfOrigin(src, dst, Children(was, src)[i]);
    TargetOfOrigin(src, dst, Children(was, src)[j]);
  }

  /** In a tidy source no copy lands under whose markers, a marker stays empty. */
  lemma NothingUnderChild(was: Objects, now: Objects, src: string, dst: string, m: string)
    requires Tidy(was, Dir(src)) && Clear(was, src, dst) && AddsOnlyTargets(was, now, src, dst)
    requires m in was && IsMarker(m) && Dir(src) < m
    ensures OnlyMarkers(now, m)
  {
    forall k | k in now && m < k ensures IsMarker(k) {
      if k !in was { NotLandedUnder(was, src, dst, m, k); }
    }
  }

  lemma AddsOneTarget(was: Objects, now: Objects, src: string, dst: string, child: string)
    requires AddsOnlyTargets(was, now, src, dst) && child in was && child in now && Dir(src) < child
    requires !IsMarker(child) && src <= child
    ensures AddsOnlyTargets(was, now[Target(src, dst, child) := now[child]], src, dst)
  {
    TargetOfOrigin(src, dst, child);
  }

  lemma TrackedStart(was: Objects, src: string, dst: string)
    ensures Tracked(was, was, src, dst, Children(was, src), 0)
  {
  }

  /** A marker child changes nothing. */
  lemma TrackedMarker(was: Objects, now: Objects, src: string, dst: string, n: nat)
    requires n < |Children(was, src)| && Tracked(was, now, src, dst, Children(was, src), n)
    requires IsMarker(Children(was, src)[n])
    ensures Tracked(was, now, src, dst, Children(was, src), n + 1)
  {
    var children := Children(was, src);
    if ClashesUpTo(was, src, dst, children, n + 1) { MarkersDoNotClash(was, src, dst, n); }
    if ClashesUpTo(was, src, dst, children, n) { MoreClashes(was, src, dst, children, n); }
    TrackedOn(was, now, src, dst, children, n);
  }

  lemma TrackedOn(was: Objects, now: Objects, src: string, dst: string, children: seq<string>, n: nat)
    requires n < |children| && IsMarker(children[n]) && Tracked(was, now, src, dst, children, n)
    requires ClashesUpTo(was, src, dst, children, n + 1) <==> ClashesUpTo(was, src, dst, children, n)
    ensures Tracked(was, now, src, dst, children, n + 1)
  {
    if !ClashesUpTo(was, src, dst, children, n) { KeptLonger(was, now, src, dst, children, n); }
  }

  lemma MarkersDoNotClash(was: Objects, src: string, dst: string, n: nat)
    requires n < |Children(was, src)| && IsMarker(Children(was, src)[n])
    requires ClashesUpTo(was, src, dst, Children(was, src), n + 1)
    ensures ClashesUpTo(was, src, dst, Children(was, src), n)
  {
    var children := Children(was, src);
    var l, j :| 0 <= l < j < n + 1 && Clash(was, src, dst, children, l, j);
    ChildBelow(was, src, l);
    assert |src| < |children[l]| by { assert src <= Dir(src); }
    TargetIsNoMarker(src, dst, children[l]);
    assert j < n;
  }

  lemma KeptLonger(was: Objects, now: Objects, src: string, dst: string, children: seq<string>, n: nat)
    requires n < |children| && KeptUpTo(was, now, src, dst, children, n)
    ensures KeptUpTo(was, now, src, dst, children, n + 1)
  {
    forall t | t in was ensures t in now && (now[t] == was[t] || WrittenBefore(src, dst, children, n + 1, t)) {
      if now[t] != was[t] {
        var l :| 0 <= l < n && WrittenTo(src, dst, children[l], t);
      }
    }
  }

  /** What is at an object's key when its turn comes. */
  lemma CurrentBytes(was: Objects, now: Objects, src: string, dst: string, n: nat)
    requires n < |Children(was, src)| && !IsMarker(Children(was, src)[n])
    requires !ClashesUpTo(was, src, dst, Children(was, src), n)
    requires LandedUpTo(was, now, src, dst, Children(was, src), n)
    requires KeptUpTo(was, now, src, dst, Children(was, src), n)
    ensures Children(was, src)[n] in was && Children(was, src)[n] in now
    ensures now[Children(was, src)[n]] != was[Children(was, src)[n]] <==>
            ClashesUpTo(was, src, dst, Children(was, src), n + 1)
  {
    var children := Children(was, src);
    var k := children[n];
    ChildBelow(was, src, n);
    if now[k] != was[k] {
      var l :| 0 <= l < n && WrittenTo(src, dst, children[l], k);
      ChildBelow(was, src, l);
      assert Landed(was, now, src, dst, children[l]);
      assert Clash(was, src, dst, children, l, n);
    }
    if ClashesUpTo(was, src, dst, children, n + 1) {
      var l, j :| 0 <= l < j < n + 1 && Clash(was, src, dst, children, l, j);
      assert j == n;
      assert Landed(was, now, src, dst, children[l]);
    }
  }

  lemma StillMissed(was: Objects, now: Objects, src: string, dst: string, n: nat)
    requires n < |Children(was, src)| && MissedUpTo(was, now, src, dst, Children(was, src), n)
    requires var k := Children(was, src)[n]; src <= k && k in now
    ensures var k := Children(was, src)[n];
      MissedUpTo(was, now[Target(src, dst, k) := now[k]], src, dst, Children(was, src), n + 1)
  {
    var children := Children(was, src);
    var post := now[Target(src, dst, children[n]) := now[children[n]]];
    var j :| 0 <= j < n && Missed(was, now, src, dst, children[j]);
    TargetsDiffer(was, src, dst, j, n);
    assert Missed(was, post, src, dst, children[j]);
  }

  lemma StillRight(was: Objects, now: Objects, src: string, dst: string, n: nat)
    requires n < |Children(was, src)| && !IsMarker(Children(was, src)[n])
    requires LandedUpTo(was, now, src, dst, Children(was, src), n)
    requires KeptUpTo(was, now, src, dst, Children(was, src), n)
    requires var k := Children(was, src)[n]; src <= k && k in was && k in now && now[k] == was[k]
    ensures var k := Children(was, src)[n];
            var post := now[Target(src, dst, k) := now[k]];
      && LandedUpTo(was, post, src, dst, Children(was, src), n + 1)
      && KeptUpTo(was, post, src, dst, Children(was, src), n + 1)
  {
    var children := Children(was, src);
    var post := now[Target(src, dst, children[n]) := now[children[n]]];
    forall j | 0 <= j < n + 1 && !IsMarker(children[j]) ensures Landed(was, post, src, dst, children[j]) {
      if j < n {
        assert Landed(was, now, src, dst, children[j]);
        TargetsDiffer(was, src, dst, j, n);
      }
    }
    KeptLonger(was, now, src, dst, children, n);
    assert WrittenTo(src, dst, children[n], Target(src, dst, children[n]));
  }

  lemma TrackedObject(was: Objects, now: Objects, src: string, dst: string, n: nat)
    requires n < |Children(was, src)| && Tracked(was, now, src, dst, Children(was, src), n)
    requires var k := Children(was, src)[n]; !IsMarker(k) && src <= k && k in now
    ensures var k := Children(was, src)[n];
      Tracked(was, now[Target(src, dst, k) := now[k]], src, dst, Children(was, src), n + 1)
  {
    var children := Children(was, src);
    var k := children[n];
    ChildBelow(was, src, n);
    AddsOneTarget(was, now, src, dst, k);
    if ClashesUpTo(was, src, dst, children, n) {
      StillMissed(was, now, src, dst, n);
      MoreClashes(was, src, dst, children, n);
    } else {
      CurrentBytes(was, now, src, dst, n);
      if now[k] == was[k] {
        StillRight(was, now, src, dst, n);
      } else {
        assert Missed(was, now[Target(src, dst, k) := now[k]], src, dst, children[n]);
      }
    }
  }

  lemma MoreClashes(was: Objects, src: string, dst: string, children: seq<string>, n: nat)
    requires n < |children| && ClashesUpTo(was, src, dst, children, n)
    ensures ClashesUpTo(was, src, dst, children, n + 1)
  {
    var l, j :| 0 <= l < j < n && Clash(was, src, dst, children, l, j);
  }

  lemma TrackedOneMore(was: Objects, now: Objects, post: Objects, src: string, dst: string, n: nat)
    requires Tidy(was, Dir(src)) && Clear(was, src, dst)
    requires n < |Children(was, src)| && Tracked(was, now, src, dst, Children(was, src), n)
    requires ChildStep(now, post, src, dst, Children(was, src)[n])
    ensures Tracked(was, post, src, dst, Children(was, src), n + 1)
  {
    ChildBelow(was, src, n);
    if IsMarker(Children(was, src)[n]) {
      NothingUnderChild(was, now, src, dst, Children(was, src)[n]);
      TrackedMarker(was, now, src, dst, n);
    } else {
      TrackedObject(was, now, src, dst, n);
    }
  }

  /** A clash is an object that lands on a later one with other bytes. */
  lemma ClashesAreDisorder(was: Objects, src: string, dst: string)
    ensures ClashesUpTo(was, src, dst, Children(was, src), |Children(was, src)|) <==> !Ordered(was, src, dst)
  {
    var children := Children(was, src);
    if ClashesUpTo(was, src, dst, children, |children|) {
      var l, j :| 0 <= l < j < |children| && Clash(was, src, dst, children, l, j);
      ChildBelow(was, src, l);
      ChildBelow(was, src, j);
      SortedInOrder(Below(was, Dir(src)), l, j);
      assert !LandsOnSame(was, children[l], Target(src, dst, children[l]), Dir(src));
    }
    if !Ordered(was, src, dst) {
      var k :| k in was && Dir(src) < k && !IsMarker(k) && Before(k, Target(src, dst, k)) &&
               !LandsOnSame(was, k, Target(src, dst, k), Dir(src));
      DisorderClashes(was, src, dst, k);
    }
  }

  lemma DisorderClashes(was: Objects, src: string, dst: string, k: string)
    requires k in was && Dir(src) < k && !IsMarker(k) && src <= k && Before(k, Target(src, dst, k))
    requires !LandsOnSame(was, k, Target(src, dst, k), Dir(src))
    ensures ClashesUpTo(was, src, dst, Children(was, src), |Children(was, src)|)
  {
    var children := Children(was, src);
    var t := Target(src, dst, k);
    assert k in Below(was, Dir(src)) && t in Below(was, Dir(src));
    assert k in children && t in children;
    var l :| 0 <= l < |children| && children[l] == k;
    var j :| 0 <= j < |children| && children[j] == t;
    BeforeIrreflexive(k);
    if j < l {
      SortedInOrder(Below(was, Dir(src)), j, l);
      BeforeTransitive(k, t, k);
    }
    assert Clash(was, src, dst, children, l, j);
  }

  /** When every child has been dealt with, the copy is the promised one exactly when no
      object landed on a later one with other bytes. */
  lemma TrackedAll(was: Objects, now: Objects, src: string, dst: string)
    requires Tracked(was, now, src, dst, Children(was, src), |Children(was, src)|)
    ensures Copied(was, now, src, dst) <==> Ordered(was, src, dst)
  {
    var children := Children(was, src);
    ClashesAreDisorder(was, src, dst);
    if Ordered(was, src, dst) {
      forall t | t in was && !IsTarget(was, src, dst, t) ensures t in now && now[t] == was[t] {
        if now[t] != was[t] {
          var l :| 0 <= l < |children| && WrittenTo(src, dst, children[l], t);
          ChildBelow(was, src, l);
          TargetOfOrigin(src, dst, children[l]);
        }
      }
      forall k | k in was && Dir(src) < k && !IsMarker(k) ensures Landed(was, now, src, dst, k) {
        assert k in Below(was, Dir(src));
        assert k in children;
      }
    } else {
      var j :| 0 <= j < |children| && Missed(was, now, src, dst, children[j]);
      ChildBelow(was, src, j);
    }
  }
}
