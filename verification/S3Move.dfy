/** What moving a directory achieves, wherever it goes. */
module S3Move {
  import opened S3Keys
  import opened S3Directory
  import opened S3CopyTrace

  /** Every object strictly below the source is at its place below `dst`, and every
      key that is neither below the source, the source itself, nor a target is as it
      was. */
  predicate Arrived(was: Objects, now: Objects, src: string, dst: string) {
    && (forall k :: k in was && Dir(src) < k && !IsMarker(k) ==>
          Target(src, dst, k) in now && now[Target(src, dst, k)] == was[k])
    && (forall t :: t in was && !(Dir(src) < t) && t != src && !IsTarget(was, src, dst, t) ==>
          t in now && now[t] == was[t])
    && (forall t :: t in now && !IsTarget(was, src, dst, t) ==> t in was && now[t] == was[t])
  }

  /** The objects that do not land in the source are at their places. */
  predicate Survived(was: Objects, now: Objects, src: string, dst: string) {
    forall k :: k in was && Dir(src) < k && !IsMarker(k) && !(Dir(src) < Target(src, dst, k)) ==>
      Target(src, dst, k) in now && now[Target(src, dst, k)] == was[k]
  }

  /** The delete succeeded and left nothing below the source. */
  predicate Emptied(now: Objects, src: string, ok: bool) {
    ok && Below(now, Dir(src)) == {}
  }

  /** A directory moved anywhere. If an object lands on the source's own key, which is
      then unslashed, that key alone is deleted, and the source stays, as after any
      success that could not delete the source. Otherwise the
      source is emptied exactly when no marker strictly below it has an object below it
      or gets one; for a slashed source, and for the whole bucket, the move reports
      just that. Of an emptied source everything arrives exactly when nothing lands in
      it; what lands in it is lost. */
  predicate DirMoved(was: Objects, now: Objects, src: string, dst: string, ok: bool) {
    var deletable := src != "" && Tidy(was, Dir(src)) && Clear(was, src, dst);
    && (IsTarget(was, src, dst, src) ==> ok && src !in now && Below(was, Dir(src)) <= Below(now, Dir(src)))
    && (!IsTarget(was, src, dst, src) ==> (Emptied(now, src, ok) <==> deletable))
    && (src == Dir(src) ==> (ok <==> deletable))
    && (ok ==> deletable || Below(was, Dir(src)) <= Below(now, Dir(src)))
    && (Emptied(now, src, ok) ==> src !in now && (Arrived(was, now, src, dst) <==> Outside(was, src, dst)))
    && (Clear(was, src, dst) && Separate(was, src, dst) && !IsTarget(was, src, dst, src) ==>
          Survived(was, now, src, dst))
  }

  /** A directory of which nothing lands in itself or on its own key arrives whole,
      whether or not the delete succeeds. */
  predicate MovedOutside(was: Objects, now: Objects, src: string, dst: string, ok: bool) {
    Outside(was, src, dst) && !IsTarget(was, src, dst, src) ==>
      && Arrived(was, now, src, dst)
      && (ok <==> src != "" && Tidy(was, Dir(src)))
      && (ok ==> Below(now, Dir(src)) == {} && src !in now)
  }

  /** A directory moved to or into itself is lost: the delete takes the copies with the
      source. Whether or not it succeeds, what is not below the source is as before. */
  predicate MovedInside(was: Objects, now: Objects, src: string, dst: string, ok: bool) {
    Dir(src) <= Landing(src, dst) ==>
      && (ok <==> src != "" && Tidy(was, Dir(src)) && Clear(was, src, dst))
      && (ok ==> now == was - Below(was, Dir(src)) - {src})
      && (!ok ==> SameOutside(was, now, Dir(src)))
  }

  predicate SameOutside(was: Objects, now: Objects, prefix: string) {
    && (forall k :: k in now && !(prefix < k) ==> k in was && now[k] == was[k])
    && (forall k :: k in was && !(prefix < k) ==> k in now)
  }

  /** Places apart are the plain case: nothing lands in the source or on its key. */
  lemma ApartIsOutside(was: Objects, src: string, dst: string)
    requires Apart(Dir(src), Landing(src, dst))
    ensures Outside(was, src, dst) && !IsTarget(was, src, dst, src) && src != ""
  {
    assert src <= Dir(src);
    forall k | k in was && Dir(src) < k && !IsMarker(k) ensures !(Dir(src) < Target(src, dst, k)) {
      TargetOfOrigin(src, dst, k);
      TargetsApart(was, src, dst, Target(src, dst, k));
    }
    if IsTarget(was, src, dst, src) { TargetsApart(was, src, dst, src); }
  }

  // ---------------------------------------------------------------- move, step by step

  /** What Delete makes of the source after the copy. */
  predicate SourceDeleted(copied: Objects, now: Objects, src: string, ok: bool) {
    if InfoOf(copied, src) == Ok(IsDir) then
      && (ok <==> src != "" && Tidy(copied, Dir(src)))
      && (ok ==> now == copied - Below(copied, Dir(src)) - {src})
      && (!ok ==> Pruned(copied, now, Dir(src)))
    else ok && now == copied - {src}
  }

  /** The delete takes at most what is below the source, and its own key. */
  predicate OnlySourceGone(copied: Objects, now: Objects, src: string) {
    && (forall k :: k in now ==> k in copied && now[k] == copied[k])
    && (forall k :: k in copied && k !in now ==> k == src || Dir(src) < k)
  }

  lemma DeletedKeys(copied: Objects, now: Objects, src: string, ok: bool)
    requires SourceDeleted(copied, now, src, ok)
    ensures OnlySourceGone(copied, now, src)
  {
  }

  /** After the copy the source is still a directory, unless an object was put at its
      unslashed key. */
  lemma SourceInfo(was: Objects, copied: Objects, src: string, dst: string)
    requires InfoOf(was, src) == Ok(IsDir) && CopyMade(was, copied, src, dst)
    ensures InfoOf(copied, src) == Ok(IsDir) <==> src == Dir(src) || src !in copied
    ensures src != Dir(src) ==> src !in was && src != ""
  {
    if src != Dir(src) {
      assert |src| < |Dir(src)| && Dir(src) == src + "/";
      var k :| k in was && src + "/" <= k;
      assert k in copied;
    }
  }

  /** After the copy the source can be deleted exactly when it was tidy and no copy has
      landed under one of its markers. */
  lemma SourceAfterCopy(was: Objects, copied: Objects, src: string, dst: string)
    requires CopyMade(was, copied, src, dst)
    ensures Tidy(copied, Dir(src)) <==> Tidy(was, Dir(src)) && Clear(was, src, dst)
  {
    if Tidy(was, Dir(src)) && Clear(was, src, dst) {
      forall m, k | m in copied && k in copied && Dir(src) < m < k && IsMarker(m) ensures IsMarker(k) {
        NothingUnderChild(was, copied, src, dst, m);
      }
    }
    if Tidy(copied, Dir(src)) {
      CopyLeavesClear(was, copied, src, dst);
    }
  }

  lemma StaysClear(objects: Objects, prefix: string, m: string, t: string)
    requires Tidy(objects, prefix) && m in objects && t in objects && prefix < m && IsMarker(m) && !IsMarker(t)
    ensures !(m < t)
  {
  }

  lemma CopyLeavesClear(was: Objects, copied: Objects, src: string, dst: string)
    requires was.Keys <= copied.Keys && Reaches(was, copied, src, dst) && Tidy(copied, Dir(src))
    ensures Clear(was, src, dst)
  {
    forall m, k | m in was && k in was && Dir(src) < m && Dir(src) < k && IsMarker(m) && !IsMarker(k)
      ensures !(m < Target(src, dst, k))
    {
      TargetIsNoMarker(src, dst, k);
      StaysClear(copied, Dir(src), m, Target(src, dst, k));
    }
  }

  /** An object that lands on the source's own key. */
  lemma LandsOnSource(was: Objects, copied: Objects, now: Objects, src: string, dst: string, ok: bool)
    requires InfoOf(was, src) == Ok(IsDir) && CopyMade(was, copied, src, dst) && SourceDeleted(copied, now, src, ok)
    requires IsTarget(was, src, dst, src)
    ensures src != Dir(src) && ok && src !in now && Below(was, Dir(src)) <= Below(now, Dir(src))
  {
    OriginOfTarget(was, src, dst, src);
    TargetsAreNoMarkers(was, src, dst, src);
    SourceInfo(was, copied, src, dst);
    assert src in copied;
  }

  /** Without that the source is emptied exactly when it can be deleted as a directory. */
  lemma EmptiedExactly(was: Objects, copied: Objects, now: Objects, src: string, dst: string, ok: bool)
    requires InfoOf(was, src) == Ok(IsDir) && CopyMade(was, copied, src, dst) && SourceDeleted(copied, now, src, ok)
    requires !IsTarget(was, src, dst, src)
    ensures Emptied(now, src, ok) <==> src != "" && Tidy(was, Dir(src)) && Clear(was, src, dst)
    ensures Emptied(now, src, ok) ==> InfoOf(copied, src) == Ok(IsDir)
  {
    SourceInfo(was, copied, src, dst);
    SourceAfterCopy(was, copied, src, dst);
    if InfoOf(copied, src) == Ok(IsDir) {
      if ok { assert Below(now, Dir(src)) == {}; }
    } else if Below(now, Dir(src)) == {} {
      NothingToCopy(was, copied, now, src, dst);
    }
  }

  lemma NothingToCopy(was: Objects, copied: Objects, now: Objects, src: string, dst: string)
    requires CopyMade(was, copied, src, dst) && now == copied - {src} && Below(now, Dir(src)) == {}
    ensures copied == was
  {
    assert src <= Dir(src);
    assert Below(was, Dir(src)) <= Below(now, Dir(src));
    assert OnlyMarkers(was, Dir(src)) by {
      assert forall k :: k in was && Dir(src) < k ==> k in Below(was, Dir(src));
    }
  }

  lemma AfterMove(was: Objects, copied: Objects, now: Objects, src: string, dst: string, ok: bool)
    requires InfoOf(was, src) == Ok(IsDir) && CopyMade(was, copied, src, dst) && SourceDeleted(copied, now, src, ok)
    ensures DirMoved(was, now, src, dst, ok)
  {
    SourceInfo(was, copied, src, dst);
    SourceAfterCopy(was, copied, src, dst);
    if InfoOf(copied, src) != Ok(IsDir) { SourceStays(was, copied, now, src); }
    if IsTarget(was, src, dst, src) {
      LandsOnSource(was, copied, now, src, dst, ok);
      StillBelow(was, now, src, dst, ok);
    } else {
      EmptiedExactly(was, copied, now, src, dst, ok);
      DeletedKeys(copied, now, src, ok);
      if Clear(was, src, dst) && Separate(was, src, dst) { Survive(was, copied, now, src, dst); }
      if Emptied(now, src, ok) { EmptiedArrives(was, copied, now, src, dst, ok); }
    }
  }

  lemma SourceStays(was: Objects, copied: Objects, now: Objects, src: string)
    requires was.Keys <= copied.Keys && now == copied - {src}
    ensures Below(was, Dir(src)) <= Below(now, Dir(src))
  {
    assert src <= Dir(src);
  }

  lemma StillBelow(was: Objects, now: Objects, src: string, dst: string, ok: bool)
    requires IsTarget(was, src, dst, src) && Below(was, Dir(src)) <= Below(now, Dir(src))
    ensures !Emptied(now, src, ok)
  {
    assert Origin(src, dst, src) in Below(was, Dir(src));
  }

  lemma EmptiedArrives(was: Objects, copied: Objects, now: Objects, src: string, dst: string, ok: bool)
    requires InfoOf(was, src) == Ok(IsDir) && CopyMade(was, copied, src, dst) && SourceDeleted(copied, now, src, ok)
    requires !IsTarget(was, src, dst, src) && Emptied(now, src, ok)
    ensures src !in now && (Arrived(was, now, src, dst) <==> Outside(was, src, dst))
  {
    EmptiedExactly(was, copied, now, src, dst, ok);
    AfterMoveOutside(was, copied, now, src, dst, ok);
    if Arrived(was, now, src, dst) {
      forall k | k in was && Dir(src) < k && !IsMarker(k) ensures !(Dir(src) < Target(src, dst, k)) {
        assert Target(src, dst, k) !in Below(now, Dir(src));
      }
    }
  }

  lemma Survive(was: Objects, copied: Objects, now: Objects, src: string, dst: string)
    requires Copied(was, copied, src, dst) && OnlySourceGone(copied, now, src) && !IsTarget(was, src, dst, src)
    ensures Survived(was, now, src, dst)
  {
    forall k | k in was && Dir(src) < k && !IsMarker(k) && !(Dir(src) < Target(src, dst, k))
      ensures Target(src, dst, k) in now && now[Target(src, dst, k)] == was[k]
    {
      TargetOfOrigin(src, dst, k);
      assert Target(src, dst, k) != src;
    }
  }

  lemma AfterMoveOutside(was: Objects, copied: Objects, now: Objects, src: string, dst: string, ok: bool)
    requires InfoOf(was, src) == Ok(IsDir) && CopyMade(was, copied, src, dst) && SourceDeleted(copied, now, src, ok)
    ensures MovedOutside(was, now, src, dst, ok)
  {
    if Outside(was, src, dst) && !IsTarget(was, src, dst, src) {
      OutsideIsClear(was, src, dst);
      SourceInfo(was, copied, src, dst);
      SourceAfterCopy(was, copied, src, dst);
      DeletedKeys(copied, now, src, ok);
      Survive(was, copied, now, src, dst);
      ArrivesOutside(was, copied, now, src, dst);
    }
  }

  lemma ArrivesOutside(was: Objects, copied: Objects, now: Objects, src: string, dst: string)
    requires Copied(was, copied, src, dst) && Survived(was, now, src, dst) && Outside(was, src, dst)
    requires OnlySourceGone(copied, now, src)
    ensures Arrived(was, now, src, dst)
  {
  }

  lemma AfterMoveInside(was: Objects, copied: Objects, now: Objects, src: string, dst: string, ok: bool)
    requires InfoOf(was, src) == Ok(IsDir) && CopyMade(was, copied, src, dst) && SourceDeleted(copied, now, src, ok)
    ensures MovedInside(was, now, src, dst, ok)
  {
    if Dir(src) <= Landing(src, dst) {
      SourceInfo(was, copied, src, dst);
      SourceAfterCopy(was, copied, src, dst);
      AfterDeleteInside(was, copied, now, src, dst, ok);
    }
  }

  lemma AfterDeleteInside(was: Objects, copied: Objects, now: Objects, src: string, dst: string, ok: bool)
    requires Dir(src) <= Landing(src, dst) && Additive(was, copied, Landing(src, dst))
    requires ok ==> now == copied - Below(copied, Dir(src)) - {src}
    requires !ok ==> Pruned(copied, now, Dir(src))
    ensures ok ==> now == was - Below(was, Dir(src)) - {src}
    ensures !ok ==> SameOutside(was, now, Dir(src))
  {
    if ok {
      forall k ensures k in now <==> k in was && !(Dir(src) < k) && k != src {
      }
    }
  }

  /** A move touches only what is below the source, the source's own key, and what is
      below the place it lands; and it makes no marker. */
  predicate Confined(was: Objects, now: Objects, src: string, dst: string) {
    && (forall k :: k in was && !(Landing(src, dst) < k) && !(Dir(src) < k) && k != src ==>
          k in now && now[k] == was[k])
    && (forall k :: k in now && k !in was ==> Landing(src, dst) < k && !IsMarker(k))
  }

  lemma AfterAnyDelete(was: Objects, copied: Objects, now: Objects, src: string, dst: string)
    requires Additive(was, copied, Landing(src, dst))
    requires OnlySourceGone(copied, now, src)
    ensures Confined(was, now, src, dst)
  {
  }
}
