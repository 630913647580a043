/** The directory view of a bucket: recursive Copy, DeleteAll and Move over a flat
    map from keys to bytes. */
module S3Directory {
  import opened Common
  import opened S3Keys

  type Objects = map<string, Bytes>

  datatype Error = NotExist | EmptyKey

  datatype Result<+T> = Ok(value: T) | Err(error: Error)

  /** `Info` of a key, as far as callers look: a directory or an object. */
  datatype Info = IsDir | IsFile

  // ---------------------------------------------------------------- specification

  predicate HasChildren(objects: Objects, key: string) {
    exists k :: k in objects && key + "/" <= k
  }

  function InfoOf(objects: Objects, key: string): Result<Info> {
    if key == "" || IsMarker(key) then Ok(IsDir)
    else if key in objects then Ok(IsFile)
    else if HasChildren(objects, key) then Ok(IsDir)
    else Err(NotExist)
  }

  /** Keys strictly below a prefix. */
  function Below(objects: Objects, prefix: string): set<string> {
    set k | k in objects && prefix < k
  }

  /** What `ListAll` of `key` enumerates, in order. */
  function Children(objects: Objects, key: string): seq<string> {
    Sorted(Below(objects, Dir(key)))
  }

  function MarkersBelow(objects: Objects, prefix: string): set<string> {
    set k | k in objects && prefix < k && IsMarker(k)
  }

  /** The keys a listing of a directory enumerates, its own marker included. */
  function Listed(objects: Objects, key: string): set<string> {
    set k | k in objects && Dir(key) <= k
  }

  /** An unslashed key of the bucket is a file. The empty key and slashed keys are
      directories, and so is any other key with something in its directory. */
  predicate Directory(objects: Objects, key: string) {
    key == "" || IsMarker(key) || (key !in objects && Listed(objects, key) != {})
  }

  lemma InfoFinds(objects: Objects, key: string)
    ensures InfoOf(objects, key) == Ok(IsDir) <==> Directory(objects, key)
    ensures InfoOf(objects, key) == Ok(IsFile) <==> key != "" && !IsMarker(key) && key in objects
    ensures InfoOf(objects, key).Err? ==> InfoOf(objects, key) == Err(NotExist)
  {
    if key != "" && !IsMarker(key) {
      assert Dir(key) == key + "/";
      if k :| k in objects && key + "/" <= k { assert k in Listed(objects, key); }
      if Listed(objects, key) != {} { var k :| k in Listed(objects, key); }
    }
  }

  /** The source key whose copy lands on `t`. */
  function Origin(src: string, dst: string, t: string): string
    requires dst <= t
  {
    src + t[|dst|..]
  }

  function Target(src: string, dst: string, k: string): string
    requires src <= k
  {
    dst + k[|src|..]
  }

  /** What follows the source key is appended to `dst`. */
  lemma TargetOf(src: string, dst: string, rel: string)
    ensures Target(src, dst, src + rel) == dst + rel
  {
    assert (src + rel)[|src|..] == rel;
  }

  /** A key some object strictly below the source directory is copied to. */
  predicate IsTarget(objects: Objects, src: string, dst: string, t: string) {
    dst <= t &&
    var k := Origin(src, dst, t);
    k in objects && Dir(src) < k && !IsMarker(k)
  }

  /** `now` is `was` with every object strictly below the source directory, markers
      excepted, copied to its place below `dst`, and every other key as it was. */
  predicate Copied(was: Objects, now: Objects, src: string, dst: string) {
    && (forall k :: k in was && Dir(src) < k && !IsMarker(k) ==>
          Target(src, dst, k) in now && now[Target(src, dst, k)] == was[k])
    && (forall t :: t in now && !IsTarget(was, src, dst, t) ==> t in was && now[t] == was[t])
    && (forall t :: t in was && !IsTarget(was, src, dst, t) ==> t in now)
  }

  /** The prefix under which copies land. */
  function Landing(src: string, dst: string): string {
    Target(src, dst, Dir(src))
  }

  /** What every copy keeps, also one into its own source: no key goes away, no
      marker appears, and nothing outside the landing prefix changes. */
  predicate Additive(was: Objects, now: Objects, landing: string) {
    && was.Keys <= now.Keys
    && (forall k :: k in now && k !in was ==> !IsMarker(k))
    && (forall k :: k in was && !(landing < k) ==> now[k] == was[k])
    && (forall k :: k in now && k !in was ==> landing < k)
  }

  /** No marker strictly below the prefix has an object below it. */
  predicate Tidy(objects: Objects, prefix: string) {
    forall m, k :: m in objects && k in objects && prefix < m < k && IsMarker(m) ==> IsMarker(k)
  }

  /** A directory a recursive delete fails on: a nested marker with one file in it. */
  lemma UntidyExample()
    ensures !Tidy(map["d/m/" := [], "d/m/f" := []], "d/")
  {
    var objects: Objects := map["d/m/" := [], "d/m/f" := []];
    var m, k := "d/m/", "d/m/f";
    assert m in objects && k in objects;
    assert "d/" < m by { assert m[..2] == "d/"; }
    assert m < k by { assert k[..4] == m; }
    assert IsMarker(m) && !IsMarker(k);
  }

  /** No object's copy lands below a marker strictly below the source. */
  predicate Clear(objects: Objects, src: string, dst: string) {
    forall m, k :: m in objects && k in objects && Dir(src) < m && Dir(src) < k && IsMarker(m) && !IsMarker(k) ==>
      !(m < Target(src, dst, k))
  }

  /** An object lands strictly below the source only on one with the same bytes. */
  predicate Separate(objects: Objects, src: string, dst: string) {
    forall k :: k in objects && Dir(src) < k && !IsMarker(k) ==>
      LandsOnSame(objects, k, Target(src, dst, k), Dir(src))
  }

  predicate LandsOnSame(objects: Objects, k: string, t: string, prefix: string)
    requires k in objects
  {
    t in objects && prefix < t ==> objects[t] == objects[k]
  }

  /** As Separate, but an object listed before the one that lands on it does not matter:
      it has been copied by then. */
  predicate Ordered(objects: Objects, src: string, dst: string) {
    forall k :: k in objects && Dir(src) < k && !IsMarker(k) && Before(k, Target(src, dst, k)) ==>
      LandsOnSame(objects, k, Target(src, dst, k), Dir(src))
  }

  /** No object strictly below the source lands strictly below the source. */
  predicate Outside(objects: Objects, src: string, dst: string) {
    forall k :: k in objects && Dir(src) < k && !IsMarker(k) ==> !(Dir(src) < Target(src, dst, k))
  }

  lemma OutsideIsClear(objects: Objects, src: string, dst: string)
    requires Outside(objects, src, dst)
    ensures Clear(objects, src, dst) && Separate(objects, src, dst)
  {
  }

  /** A move up that loses an object: its copy lands below the source, and the delete
      takes both. */
  lemma LosingExample()
    ensures var objects: Objects := map["a/b/b/x" := []];
      && Tidy(objects, "a/b/") && Clear(objects, "a/b/", "a/") && !IsTarget(objects, "a/b/", "a/", "a/b/")
      && !Outside(objects, "a/b/", "a/")
  {
    var k := "a/b/b/x";
    assert k[..4] == "a/b/" && k[4..] == "b/x" && "a/" + "b/x" == "a/b/x" && "a/b/x"[..4] == "a/b/";
    assert Target("a/b/", "a/", k) == "a/b/x";
  }

  /** A copy up that loses bytes: one object lands on another before that is copied. */
  lemma OverwritingExample()
    ensures var objects: Objects := map["a/b/b/x" := [0], "a/b/x" := [1]];
      && Tidy(objects, "a/b/") && Clear(objects, "a/b/", "a/") && !Ordered(objects, "a/b/", "a/")
  {
    var objects: Objects := map["a/b/b/x" := [0], "a/b/x" := [1]];
    var k, t := "a/b/b/x", "a/b/x";
    assert k[..4] == "a/b/" && k[4..] == "b/x" && "a/" + "b/x" == t && t[..4] == "a/b/";
    assert Target("a/b/", "a/", k) == t;
    assert Before(k, t) by {
      assert Before(k[4..], t[4..]) && k[4] < t[4];
      assert Before(k[3..], t[3..]) && Before(k[2..], t[2..]) && Before(k[1..], t[1..]);
    }
    assert !LandsOnSame(objects, k, t, "a/b/");
  }

  /** A move up of an unslashed directory that loses an object and leaves the source:
      the copy lands on the source's own key, which Delete then takes for a file. */
  lemma UnslashedExample()
    ensures var objects: Objects := map["a/b/b" := []];
      InfoOf(objects, "a/b") == Ok(IsDir) && IsTarget(objects, "a/b", "a", "a/b")
  {
    var objects: Objects := map["a/b/b" := []];
    var k := "a/b/b";
    assert k[..4] == "a/b/" && "a/b"[1..] == "/b" && "a/b" + "/b" == k;
    assert k in objects && "a/b" + "/" <= k;
  }

  /** There is something at the target of every object strictly below the source. */
  predicate Reaches(was: Objects, now: Objects, src: string, dst: string) {
    forall k :: k in was && Dir(src) < k && !IsMarker(k) ==> Target(src, dst, k) in now
  }

  predicate AddsOnlyTargets(was: Objects, now: Objects, src: string, dst: string) {
    forall t :: t in now ==> t in was || IsTarget(was, src, dst, t)
  }

  predicate OnlyMarkers(objects: Objects, prefix: string) {
    forall k :: k in objects && prefix < k ==> IsMarker(k)
  }

  /** What Copy makes of a directory, wherever it goes. It adds no key that is no
      target, unless a marker of the source has an object below it or gets one; then it
      is the promised copy exactly when no object lands on a later one with other bytes.
      It is the promised copy of any source that no copy lands in but on equal bytes. */
  predicate CopyMade(was: Objects, now: Objects, src: string, dst: string) {
    && Additive(was, now, Landing(src, dst))
    && Reaches(was, now, src, dst)
    && (OnlyMarkers(was, Dir(src)) ==> now == was)
    && (Tidy(was, Dir(src)) && Clear(was, src, dst) ==>
          AddsOnlyTargets(was, now, src, dst) && (Copied(was, now, src, dst) <==> Ordered(was, src, dst)))
    && (Clear(was, src, dst) && Separate(was, src, dst) ==> Copied(was, now, src, dst))
  }

  /** Only keys strictly below the prefix are gone, and nothing else has changed. */
  predicate Pruned(was: Objects, now: Objects, prefix: string) {
    && (forall k :: k in now ==> k in was && now[k] == was[k])
    && (forall k :: k in was && k !in now ==> prefix < k)
  }

  // ---------------------------------------------------------------- copy, step by step

  /** Part of a copy done: some targets are written, nothing else has changed. */
  predicate Partial(was: Objects, now: Objects, src: string, dst: string) {
    && (forall t :: t in now && !IsTarget(was, src, dst, t) ==> t in was && now[t] == was[t])
    && (forall t :: t in was ==> t in now)
    && (forall t :: t in now && IsTarget(was, src, dst, t) ==>
          now[t] == was[Origin(src, dst, t)] || (t in was && now[t] == was[t]))
  }

  predicate Landed(was: Objects, now: Objects, src: string, dst: string, k: string) {
    k in was && src <= k && Target(src, dst, k) in now && now[Target(src, dst, k)] == was[k]
  }

  /** What has landed stays landed. */
  predicate StaysLanded(was: Objects, now: Objects, post: Objects, src: string, dst: string) {
    forall j :: j in was && Landed(was, now, src, dst, j) && Dir(src) < j && !IsMarker(j) ==>
      Landed(was, post, src, dst, j)
  }

  /** A target key is below the landing prefix; if that is apart from the source, the
      key is not below the source. */
  lemma TargetsApart(objects: Objects, src: string, dst: string, t: string)
    requires IsTarget(objects, src, dst, t)
    ensures Landing(src, dst) < t
    ensures Apart(Dir(src), Landing(src, dst)) ==> !(Dir(src) <= t)
  {
    var k := Origin(src, dst, t);
    assert Dir(src) == src + Dir(src)[|src|..];
    assert t == dst + k[|src|..];
    assert k[|src|..][..|Dir(src)| - |src|] == Dir(src)[|src|..];
    assert Landing(src, dst) == t[..|Landing(src, dst)|];
    if Apart(Dir(src), Landing(src, dst)) { ApartKeys(Dir(src), Landing(src, dst), t); }
  }

  lemma TargetOfOrigin(src: string, dst: string, k: string)
    requires src <= k
    ensures dst <= Target(src, dst, k) && Origin(src, dst, Target(src, dst, k)) == k
  {
    assert Target(src, dst, k)[|dst|..] == k[|src|..];
    assert src + k[|src|..] == k;
  }

  /** Copying below a child directory writes targets of the whole copy, from the same
      origins. */
  lemma NestedTarget(src: string, dst: string, child: string, k: string)
    requires src <= child <= k
    ensures Target(child, Target(src, dst, child), k) == Target(src, dst, k)
  {
    assert dst + child[|src|..] + k[|child|..] == dst + k[|src|..] by {
      assert child[|src|..] + k[|child|..] == k[|src|..];
    }
  }

  lemma ObjectStep(was: Objects, now: Objects, src: string, dst: string, k: string)
    requires Partial(was, now, src, dst) && Separate(was, src, dst)
    requires k in was && Dir(src) < k && !IsMarker(k)
    ensures k in now && now[k] == was[k]
    ensures var post := now[Target(src, dst, k) := now[k]];
      && Partial(was, post, src, dst) && Landed(was, post, src, dst, k)
      && (forall j :: Landed(was, now, src, dst, j) && Dir(src) < j ==> Landed(was, post, src, dst, j))
  {
    assert src <= Dir(src);
    TargetOfOrigin(src, dst, k);
    if IsTarget(was, src, dst, k) { LandsWithSameBytes(was, src, dst, k); }
    var post := now[Target(src, dst, k) := now[k]];
    PartialStep(was, now, src, dst, k);
    forall j | Landed(was, now, src, dst, j) && Dir(src) < j ensures Landed(was, post, src, dst, j) {
      TargetOfOrigin(src, dst, j);
    }
  }

  lemma LandsWithSameBytes(was: Objects, src: string, dst: string, t: string)
    requires Separate(was, src, dst) && IsTarget(was, src, dst, t) && t in was && Dir(src) < t
    ensures was[Origin(src, dst, t)] == was[t]
  {
    OriginOfTarget(was, src, dst, t);
    assert LandsOnSame(was, Origin(src, dst, t), t, Dir(src));
  }

  lemma PartialStep(was: Objects, now: Objects, src: string, dst: string, k: string)
    requires Partial(was, now, src, dst) && k in was && k in now && now[k] == was[k]
    requires src <= k && Dir(src) < k && !IsMarker(k)
    ensures Partial(was, now[Target(src, dst, k) := now[k]], src, dst)
  {
    TargetOfOrigin(src, dst, k);
  }

  lemma NotLandedUnder(was: Objects, src: string, dst: string, m: string, k: string)
    requires Clear(was, src, dst) && m in was && IsMarker(m) && Dir(src) < m < k
    ensures !IsTarget(was, src, dst, k)
  {
    if IsTarget(was, src, dst, k) { OriginOfTarget(was, src, dst, k); }
  }

  /** Below a marker of the source nothing lands, not even what is copied from there. */
  lemma NestedClear(was: Objects, now: Objects, src: string, dst: string, m: string)
    requires Partial(was, now, src, dst) && Clear(was, src, dst)
    requires m in was && IsMarker(m) && Dir(src) < m && src <= m
    ensures Clear(now, m, Target(src, dst, m)) && Separate(now, m, Target(src, dst, m))
  {
    forall k | k in now && m < k && !IsMarker(k)
      ensures forall m' :: m' in now && m <= m' && IsMarker(m') ==> !(m' < Target(m, Target(src, dst, m), k))
    {
      NotLandedUnder(was, src, dst, m, k);
      NestedTarget(src, dst, m, k);
      forall m' | m' in now && m <= m' && IsMarker(m') ensures !(m' < Target(src, dst, k)) {
        if IsTarget(was, src, dst, m') { TargetsAreNoMarkers(was, src, dst, m'); }
      }
    }
  }

  lemma TargetsAreNoMarkers(was: Objects, src: string, dst: string, t: string)
    requires IsTarget(was, src, dst, t)
    ensures !IsMarker(t)
  {
    OriginOfTarget(was, src, dst, t);
    assert src <= Dir(src);
    TargetIsNoMarker(src, dst, Origin(src, dst, t));
  }

  /** One nested copy: its targets are ours, from the same origins. */
  lemma DirStep(was: Objects, now: Objects, post: Objects, src: string, dst: string, m: string)
    requires Partial(was, now, src, dst) && Clear(was, src, dst)
    requires m in was && IsMarker(m) && Dir(src) < m && Copied(now, post, m, Target(src, dst, m))
    ensures Partial(was, post, src, dst)
    ensures forall j :: j in was && m < j && !IsMarker(j) ==> Landed(was, post, src, dst, j)
    ensures forall j :: Landed(was, now, src, dst, j) && Dir(src) < j && !IsMarker(j) ==> Landed(was, post, src, dst, j)
  {
    assert src <= Dir(src);
    forall k | k in now && m < k && !IsMarker(k)
      ensures k in was && now[k] == was[k] && Landed(was, post, src, dst, k)
    {
      NotLandedUnder(was, src, dst, m, k);
      NestedTarget(src, dst, m, k);
    }
    forall t | IsTarget(now, m, Target(src, dst, m), t)
      ensures IsTarget(was, src, dst, t) && t in post && post[t] == was[Origin(src, dst, t)]
    {
      NestedOrigin(src, dst, m, t);
      var k := Origin(src, dst, t);
      assert Landed(was, post, src, dst, k);
    }
    forall j | Landed(was, now, src, dst, j) && Dir(src) < j && !IsMarker(j) ensures Landed(was, post, src, dst, j) {
      TargetOfOrigin(src, dst, j);
    }
  }

  lemma NestedOrigin(src: string, dst: string, child: string, t: string)
    requires src <= child && Target(src, dst, child) <= t
    ensures dst <= t && Origin(child, Target(src, dst, child), t) == Origin(src, dst, t)
    ensures Target(src, dst, Origin(src, dst, t)) == t
  {
    var dm := Target(src, dst, child);
    assert t == dm + t[|dm|..];
    assert t[|dst|..] == child[|src|..] + t[|dm|..];
    assert src + (child[|src|..] + t[|dm|..]) == child + t[|dm|..];
    assert Origin(src, dst, t)[|src|..] == t[|dst|..];
  }

  lemma CopyDone(was: Objects, now: Objects, src: string, dst: string)
    requires Partial(was, now, src, dst)
    requires forall k :: k in was && Dir(src) < k && !IsMarker(k) ==> Landed(was, now, src, dst, k)
    ensures Copied(was, now, src, dst)
  {
  }

  lemma TargetIsNoMarker(src: string, dst: string, k: string)
    requires src <= k && |src| < |k| && !IsMarker(k)
    ensures !IsMarker(Target(src, dst, k))
  {
    var t := Target(src, dst, k);
    assert t[|t| - 1] == k[|k| - 1];
  }

  lemma AdditiveObject(was: Objects, now: Objects, src: string, dst: string, k: string)
    requires Additive(was, now, Landing(src, dst)) && k in now && Dir(src) < k && !IsMarker(k)
    ensures src <= k && Target(src, dst, k) != ""
    ensures Additive(was, now[Target(src, dst, k) := now[k]], Landing(src, dst))
  {
    assert src <= Dir(src);
    TargetOfOrigin(src, dst, k);
    TargetIsNoMarker(src, dst, k);
    TargetsApart(now, src, dst, Target(src, dst, k));
  }

  lemma AdditiveDir(was: Objects, now: Objects, post: Objects, src: string, dst: string, m: string)
    requires IsMarker(m) && Dir(src) < m && src <= m
    requires Additive(was, now, Landing(src, dst)) && Additive(now, post, Landing(m, Target(src, dst, m)))
    ensures Additive(was, post, Landing(src, dst))
  {
    LandingExtends(src, dst, m);
  }

  lemma LandingExtends(src: string, dst: string, m: string)
    requires IsMarker(m) && Dir(src) < m && src <= m
    ensures Landing(src, dst) <= Landing(m, Target(src, dst, m)) == Target(src, dst, m)
  {
    var a, b := Dir(src)[|src|..], m[|Dir(src)|..];
    TailsAdd(src, Dir(src), m);
    assert dst + (a + b) == dst + a + b;
    assert m[|m|..] == "";
  }

  lemma TailsAdd(p: string, q: string, r: string)
    requires p <= q <= r
    ensures r[|p|..] == q[|p|..] + r[|q|..]
  {
  }

  // ---------------------------------------------------------------- listings

  lemma ChildrenListed(objects: Objects, key: string)
    ensures Without(Sorted(Listed(objects, key)), Dir(key)) == Children(objects, key)
  {
    SortedWithout(Listed(objects, key), Dir(key));
    BelowIsListed(objects, key);
  }

  lemma BelowIsListed(objects: Objects, key: string)
    ensures Listed(objects, key) - {Dir(key)} == Below(objects, Dir(key))
  {
    forall k | k in objects && Dir(key) <= k ensures Dir(key) < k <==> k != Dir(key) {
      if |k| == |Dir(key)| { assert k == k[..|Dir(key)|]; }
    }
  }

  lemma OriginOfTarget(objects: Objects, src: string, dst: string, t: string)
    requires IsTarget(objects, src, dst, t)
    ensures src <= Origin(src, dst, t) && Target(src, dst, Origin(src, dst, t)) == t
  {
    assert Origin(src, dst, t)[|src|..] == t[|dst|..];
    assert dst + t[|dst|..] == t;
  }

  /** `Copied` says what every key holds: it determines the whole bucket. */
  lemma CopiedIsAll(was: Objects, a: Objects, b: Objects, src: string, dst: string)
    requires Copied(was, a, src, dst) && Copied(was, b, src, dst)
    ensures a == b
  {
    forall t | t in a || t in b ensures t in a && t in b && a[t] == b[t] {
      if IsTarget(was, src, dst, t) {
        OriginOfTarget(was, src, dst, t);
      }
    }
    assert a.Keys == b.Keys;
  }
}
