/** How far a recursive delete has come, child by child, and where it stops: the
    reasoning behind the loop of DeleteAll in S3FileSystem. */
module S3DeleteTrace {
  import opened S3Keys
  import opened S3Directory
  import opened S3CopyTrace

  /** Some of the deletion of a directory is done, without error: children up to `n`
      are gone, with everything below the markers among them, and only an earlier
      marker explains a later child that is missing. */
  predicate Progress(was: Objects, now: Objects, key: string, children: seq<string>, n: nat)
    requires n <= |children|
  {
    && Pruned(was, now, Dir(key))
    && Gone(now, children, n)
    && EmptiedUpTo(now, children, n)
    && Explained(now, children, n)
    && NoneTaken(children, n)
    && TidyUpTo(was, children, n)
  }

  /** The markers dealt with have no non-empty marker below them. */
  predicate TidyUpTo(was: Objects, children: seq<string>, n: nat)
    requires n <= |children|
  {
    forall j :: 0 <= j < n && IsMarker(children[j]) ==> Tidy(was, children[j])
  }

  predicate Gone(now: Objects, children: seq<string>, n: nat)
    requires n <= |children|
  {
    forall j :: 0 <= j < n ==> children[j] !in now
  }

  predicate EmptiedUpTo(now: Objects, children: seq<string>, n: nat)
    requires n <= |children|
  {
    forall j :: 0 <= j < n && IsMarker(children[j]) ==> Below(now, children[j]) == {}
  }

  predicate Explained(now: Objects, children: seq<string>, n: nat)
    requires n <= |children|
  {
    forall j :: n <= j < |children| && children[j] !in now ==> UnderEarlierMarker(children, n, children[j])
  }

  /** No object among the first children was taken away by an earlier marker. */
  predicate NoneTaken(children: seq<string>, n: nat)
    requires n <= |children|
  {
    forall b :: 0 <= b < n && UnderEarlierMarker(children, b, children[b]) ==> IsMarker(children[b])
  }

  predicate UnderEarlierMarker(children: seq<string>, n: nat, k: string)
    requires n <= |children|
  {
    exists a :: 0 <= a < n && IsMarker(children[a]) && children[a] < k
  }

  lemma FewerBelow(was: Objects, now: Objects, key: string, child: string)
    requires Pruned(was, now, Dir(key)) && child in was && Dir(key) < child
    ensures Below(now, Dir(child)) < Below(was, Dir(key))
  {
    assert child in Below(was, Dir(key)) && child !in Below(now, Dir(child));
  }

  /** What `Info` finds of the next child: a marker is a directory; an object is there
      unless an earlier marker took it away, and then nothing is left below it. */
  lemma ChildState(was: Objects, now: Objects, key: string, i: nat)
    requires i < |Children(was, key)| && Progress(was, now, key, Children(was, key), i)
    ensures var children := Children(was, key);
            var child := children[i];
      && (IsMarker(child) ==> InfoOf(now, child) == Ok(IsDir))
      && (!IsMarker(child) && child in now ==>
            InfoOf(now, child) == Ok(IsFile) && !UnderEarlierMarker(children, i, child))
      && (!IsMarker(child) && child !in now ==> InfoOf(now, child) == Err(NotExist) && !Tidy(was, Dir(key)))
  {
    var children := Children(was, key);
    var child := children[i];
    ChildBelow(was, key, i);
    if UnderEarlierMarker(children, i, child) {
      NothingUnderMarker(was, now, key, i);
      var a :| 0 <= a < i && IsMarker(children[a]) && children[a] < child;
      ChildBelow(was, key, a);
    }
  }

  lemma NothingDeleted(was: Objects, key: string)
    ensures Progress(was, was, key, Children(was, key), 0)
  {
    forall j | 0 <= j < |Children(was, key)| ensures Children(was, key)[j] in was {
      ChildBelow(was, key, j);
    }
  }

  lemma NothingUnderMarker(was: Objects, now: Objects, key: string, i: nat)
    requires i < |Children(was, key)| && Progress(was, now, key, Children(was, key), i)
    requires UnderEarlierMarker(Children(was, key), i, Children(was, key)[i])
    ensures Children(was, key)[i] !in now && !HasChildren(now, Children(was, key)[i])
  {
    var children := Children(was, key);
    var a :| 0 <= a < i && IsMarker(children[a]) && children[a] < children[i];
    assert forall k :: k in now ==> (children[a] < k <==> k in Below(now, children[a]));
  }

  /** Child `i`, and what is below it if it is a marker, goes; nothing else does. */
  predicate Removes(now: Objects, post: Objects, child: string) {
    && (forall k :: k in post ==> k in now && post[k] == now[k])
    && (forall k :: k in now && k !in post ==> k == child || (IsMarker(child) && child < k))
    && child !in post && (IsMarker(child) ==> Below(post, child) == {})
  }

  /** A later child that is missing after child `i` was dealt with is below an earlier
      marker, or below child `i`. */
  lemma StillExplained(was: Objects, now: Objects, post: Objects, key: string, i: nat)
    requires i < |Children(was, key)| && Explained(now, Children(was, key), i)
    requires Removes(now, post, Children(was, key)[i])
    ensures Explained(post, Children(was, key), i + 1)
  {
    var children := Children(was, key);
    forall j | i + 1 <= j < |children| && children[j] !in post
      ensures UnderEarlierMarker(children, i + 1, children[j])
    {
      SortedDistinct(Below(was, Dir(key)), i, j);
      if children[j] !in now {
        assert UnderEarlierMarker(children, i, children[j]);
      }
    }
  }

  lemma StillEmpty(now: Objects, post: Objects, m: string)
    requires (forall k :: k in post ==> k in now) && Below(now, m) == {}
    ensures Below(post, m) == {}
  {
    assert Below(post, m) <= Below(now, m);
  }

  lemma StillEmptied(now: Objects, post: Objects, children: seq<string>, i: nat)
    requires i < |children| && EmptiedUpTo(now, children, i) && Removes(now, post, children[i])
    ensures EmptiedUpTo(post, children, i + 1)
  {
    forall j | 0 <= j < i + 1 && IsMarker(children[j]) ensures Below(post, children[j]) == {} {
      if j < i { StillEmpty(now, post, children[j]); }
    }
  }

  lemma StillPruned(was: Objects, now: Objects, post: Objects, prefix: string, child: string)
    requires Pruned(was, now, prefix) && prefix < child && Removes(now, post, child)
    ensures Pruned(was, post, prefix)
  {
  }

  /** One more child dealt with. */
  lemma OneMoreDeleted(was: Objects, now: Objects, post: Objects, key: string, i: nat)
    requires i < |Children(was, key)| && Progress(was, now, key, Children(was, key), i)
    requires var child := Children(was, key)[i];
      && Removes(now, post, child) && (IsMarker(child) || !UnderEarlierMarker(Children(was, key), i, child))
      && (IsMarker(child) ==> Tidy(was, child))
    ensures Progress(was, post, key, Children(was, key), i + 1)
  {
    ChildBelow(was, key, i);
    StillPruned(was, now, post, Dir(key), Children(was, key)[i]);
    StillExplained(was, now, post, key, i);
    StillEmptied(now, post, Children(was, key), i);
  }

  lemma MarkerDeleted(was: Objects, now: Objects, post: Objects, key: string, i: nat)
    requires i < |Children(was, key)| && Progress(was, now, key, Children(was, key), i)
    requires var m := Children(was, key)[i]; IsMarker(m) && Tidy(now, m) && post == now - Below(now, m) - {m}
    ensures Progress(was, post, key, Children(was, key), i + 1)
  {
    MarkerRemoved(now, post, Children(was, key)[i]);
    MarkerWasTidy(was, now, key, i);
    OneMoreDeleted(was, now, post, key, i);
  }

  lemma MarkerRemoved(now: Objects, post: Objects, m: string)
    requires IsMarker(m) && post == now - Below(now, m) - {m}
    ensures Removes(now, post, m)
  {
  }

  lemma ObjectDeleted(was: Objects, now: Objects, post: Objects, key: string, i: nat)
    requires i < |Children(was, key)| && Progress(was, now, key, Children(was, key), i)
    requires var k := Children(was, key)[i]; !IsMarker(k) && k in now && post == now - {k}
    ensures Progress(was, post, key, Children(was, key), i + 1)
  {
    ChildState(was, now, key, i);
    OneMoreDeleted(was, now, post, key, i);
  }

  lemma NothingListed(objects: Objects, key: string)
    ensures !Directory(objects, key) && key !in objects ==> Below(objects, Dir(key)) == {}
  {
    assert Below(objects, Dir(key)) <= Listed(objects, key);
  }

  lemma UntidyBelow(was: Objects, now: Objects, prefix: string, child: string)
    requires Pruned(was, now, prefix) && prefix < child && !Tidy(now, child)
    ensures !Tidy(was, prefix)
  {
    var m, k :| m in now && k in now && child < m < k && IsMarker(m) && !IsMarker(k);
  }

  lemma AllDeleted(was: Objects, now: Objects, key: string)
    requires Progress(was, now, key, Children(was, key), |Children(was, key)|)
    ensures now == was - Below(was, Dir(key)) && Tidy(was, Dir(key))
  {
    var children := Children(was, key);
    forall k | k in Below(was, Dir(key)) ensures k !in now {
      assert k in children;
    }
    forall m, k | m in was && k in was && Dir(key) < m < k && IsMarker(m) ensures IsMarker(k) {
      assert m in Below(was, Dir(key)) && k in Below(was, Dir(key));
      assert m in children && k in children;
      var a :| 0 <= a < |children| && children[a] == m;
      var b :| 0 <= b < |children| && children[b] == k;
      PrefixBefore(m, k);
      if b < a {
        SortedInOrder(Below(was, Dir(key)), b, a);
        BeforeTransitive(m, k, m);
        BeforeIrreflexive(m);
      }
      assert UnderEarlierMarker(children, b, children[b]);
    }
  }

  // ---------------------------------------------------------------- where it stops

  /** What is gone when the delete stops after the marker `c`: everything listed before
      `c` but the markers `c` is below, then `c` and everything below it. */
  predicate Taken(prefix: string, c: string, k: string) {
    prefix < k && (c <= k || (Before(k, c) && !(IsMarker(k) && k < c)))
  }

  /** The delete has stopped after `c`: the first marker that has an object below it but
      no further such marker. */
  predicate StoppedAt(was: Objects, now: Objects, prefix: string, c: string) {
    && c in was && prefix < c && IsMarker(c) && !OnlyMarkers(was, c) && Tidy(was, c)
    && (forall m :: m in was && prefix < m && IsMarker(m) && !OnlyMarkers(was, m) && Before(m, c) ==> m < c)
    && (forall k :: k in now ==> k in was && now[k] == was[k])
    && (forall k :: k in was ==> (k in now <==> !Taken(prefix, c, k)))
  }

  predicate Stopped(was: Objects, now: Objects, prefix: string) {
    exists c :: c in was && StoppedAt(was, now, prefix, c)
  }

  lemma IndexOf(was: Objects, key: string, k: string) returns (j: nat)
    requires k in was && Dir(key) < k
    ensures j < |Children(was, key)| && Children(was, key)[j] == k
  {
    assert k in Below(was, Dir(key));
    assert k in Children(was, key);
    j :| 0 <= j < |Children(was, key)| && Children(was, key)[j] == k;
  }

  lemma OrderOfIndex(was: Objects, key: string, i: nat, j: nat)
    requires i < |Children(was, key)| && j < |Children(was, key)|
    ensures i < j <==> Before(Children(was, key)[i], Children(was, key)[j])
  {
    var a, b := Children(was, key)[i], Children(was, key)[j];
    if i < j {
      SortedInOrder(Below(was, Dir(key)), i, j);
    } else {
      BeforeIrreflexive(a);
      if j < i && Before(a, b) {
        SortedInOrder(Below(was, Dir(key)), j, i);
        BeforeTransitive(a, b, a);
      }
    }
  }

  /** A marker listed before another key, with a key below it that comes after, is a
      prefix of the one between. */
  lemma EarlierMarker(was: Objects, key: string, a: nat, i: nat, k: string)
    requires a < i < |Children(was, key)| && IsMarker(Children(was, key)[a])
    requires Children(was, key)[a] < k && (Before(Children(was, key)[i], k) || Children(was, key)[i] == k)
    ensures UnderEarlierMarker(Children(was, key), i, Children(was, key)[i])
  {
    var children := Children(was, key);
    OrderOfIndex(was, key, a, i);
    if children[i] != k { Between(children[a], children[i], k); }
    SortedDistinct(Below(was, Dir(key)), a, i);
  }

  /** Below a marker that no earlier marker covers, everything is still there. */
  lemma BelowIntact(was: Objects, now: Objects, key: string, i: nat, k: string)
    requires i < |Children(was, key)| && Progress(was, now, key, Children(was, key), i)
    requires !UnderEarlierMarker(Children(was, key), i, Children(was, key)[i])
    requires k in was && (Children(was, key)[i] <= k || Before(Children(was, key)[i], k))
    ensures k in now
  {
    var children := Children(was, key);
    ChildBelow(was, key, i);
    if Dir(key) < k && k !in now && k != children[i] {
      var j := IndexOf(was, key, k);
      if children[i] <= k { PrefixBefore(children[i], k); }
      OrderOfIndex(was, key, i, j);
      assert children[j] !in now;
      assert UnderEarlierMarker(children, i, k);
      var a :| 0 <= a < i && IsMarker(children[a]) && children[a] < k;
      EarlierMarker(was, key, a, i, k);
    }
  }

  lemma MarkerWasTidy(was: Objects, now: Objects, key: string, i: nat)
    requires i < |Children(was, key)| && Progress(was, now, key, Children(was, key), i)
    requires IsMarker(Children(was, key)[i]) && Tidy(now, Children(was, key)[i])
    ensures Tidy(was, Children(was, key)[i])
  {
    var children := Children(was, key);
    if UnderEarlierMarker(children, i, children[i]) {
      var a :| 0 <= a < i && IsMarker(children[a]) && children[a] < children[i];
      assert Tidy(was, children[a]);
    } else {
      forall m, k | m in was && k in was && children[i] < m < k && IsMarker(m) ensures IsMarker(k) {
        BelowIntact(was, now, key, i, m);
        BelowIntact(was, now, key, i, k);
      }
    }
  }

  /** Every non-empty marker listed before a child that is no such marker's is above it. */
  lemma NoEarlierNonEmpty(was: Objects, key: string, n: nat, a: nat, m: string)
    requires a < |Children(was, key)| && a <= n <= |Children(was, key)| && NoneTaken(Children(was, key), n)
    requires m in was && Dir(key) < m && IsMarker(m) && !OnlyMarkers(was, m) && Before(m, Children(was, key)[a])
    ensures m < Children(was, key)[a]
  {
    var children := Children(was, key);
    var c := children[a];
    var e :| e in was && m < e && !IsMarker(e);
    var j := IndexOf(was, key, m);
    var b := IndexOf(was, key, e);
    OrderOfIndex(was, key, j, a);
    PrefixBefore(m, e);
    OrderOfIndex(was, key, j, b);
    OrderOfIndex(was, key, b, a);
    if b < a {
      assert UnderEarlierMarker(children, b, e);
    } else if b != a {
      OrderOfIndex(was, key, a, b);
      Between(m, c, e);
    }
  }

  /** The delete stops at an object that an earlier marker has taken away. */
  lemma StopsHere(was: Objects, now: Objects, key: string, i: nat)
    requires i < |Children(was, key)| && Progress(was, now, key, Children(was, key), i)
    requires !IsMarker(Children(was, key)[i]) && Children(was, key)[i] !in now
    ensures Stopped(was, now, Dir(key))
  {
    var children := Children(was, key);
    var d := children[i];
    assert UnderEarlierMarker(children, i, d);
    var a :| 0 <= a < i && IsMarker(children[a]) && children[a] < d;
    var c := children[a];
    ChildBelow(was, key, a);
    ChildBelow(was, key, i);
    assert Tidy(was, c);
    forall m | m in was && Dir(key) < m && IsMarker(m) && !OnlyMarkers(was, m) && Before(m, c) ensures m < c {
      NoEarlierNonEmpty(was, key, i, a, m);
    }
    forall k | k in was ensures k in now <==> !Taken(Dir(key), c, k) {
      TakenHere(was, now, key, a, i, k);
    }
    assert StoppedAt(was, now, Dir(key), c);
  }

  lemma TakenHere(was: Objects, now: Objects, key: string, a: nat, i: nat, k: string)
    requires a < i < |Children(was, key)| && Progress(was, now, key, Children(was, key), i)
    requires !IsMarker(Children(was, key)[i]) && IsMarker(Children(was, key)[a])
    requires Children(was, key)[a] < Children(was, key)[i] && k in was
    ensures k in now <==> !Taken(Dir(key), Children(was, key)[a], k)
  {
    var children := Children(was, key);
    var c, d := children[a], children[i];
    ChildBelow(was, key, a);
    ChildBelow(was, key, i);
    if Dir(key) < k && k != c {
      var j := IndexOf(was, key, k);
      OrderOfIndex(was, key, j, a);
      if c <= k {
        assert c < k;
        assert k in now ==> k in Below(now, c);
      } else if j < a {
        if IsMarker(k) { NoOtherMarker(was, key, a, i, j); }
      } else {
        assert j != a;
        NotTakenAfter(was, now, key, a, i, j);
      }
    }
  }

  lemma NotTakenAfter(was: Objects, now: Objects, key: string, a: nat, i: nat, j: nat)
    requires a < i < |Children(was, key)| && Progress(was, now, key, Children(was, key), i)
    requires !IsMarker(Children(was, key)[i]) && IsMarker(Children(was, key)[a])
    requires Children(was, key)[a] < Children(was, key)[i]
    requires a < j < |Children(was, key)| && !(Children(was, key)[a] < Children(was, key)[j])
    ensures Children(was, key)[j] in now
  {
    AfterTheObject(was, key, a, i, j);
    ChildBelow(was, key, j);
    forall b | 0 <= b < i && IsMarker(Children(was, key)[b]) ensures !(Children(was, key)[b] < Children(was, key)[j]) {
      NoOtherMarker(was, key, a, i, b);
      NotUnder(was, key, a, i, j, b);
    }
  }

  lemma AfterTheObject(was: Objects, key: string, a: nat, i: nat, j: nat)
    requires a < i < |Children(was, key)| && Children(was, key)[a] < Children(was, key)[i]
    requires a < j < |Children(was, key)| && !(Children(was, key)[a] < Children(was, key)[j])
    ensures i < j
  {
    OrderOfIndex(was, key, a, j);
    OrderOfIndex(was, key, j, i);
    if j < i { Between(Children(was, key)[a], Children(was, key)[j], Children(was, key)[i]); }
  }

  /** Only one of the tidy markers before an object is above it. */
  lemma NoOtherMarker(was: Objects, key: string, a: nat, i: nat, b: nat)
    requires a < i < |Children(was, key)| && b < i && TidyUpTo(was, Children(was, key), i)
    requires !IsMarker(Children(was, key)[i]) && IsMarker(Children(was, key)[a]) && IsMarker(Children(was, key)[b])
    requires Children(was, key)[a] < Children(was, key)[i]
    ensures Children(was, key)[b] < Children(was, key)[i] ==> Children(was, key)[b] == Children(was, key)[a]
  {
    var children := Children(was, key);
    ChildBelow(was, key, a);
    ChildBelow(was, key, b);
    ChildBelow(was, key, i);
    if children[b] < children[i] {
      Comparable(children[b], children[a], children[i]);
      assert Tidy(was, children[a]) && Tidy(was, children[b]);
      assert children[b] <= children[a] ==> children[b] < children[a] || children[b] == children[a];
    }
  }

  lemma NotUnder(was: Objects, key: string, a: nat, i: nat, j: nat, b: nat)
    requires a < i < j < |Children(was, key)| && b < i
    requires IsMarker(Children(was, key)[b]) && !IsMarker(Children(was, key)[i])
    requires Children(was, key)[b] < Children(was, key)[i] ==> Children(was, key)[b] == Children(was, key)[a]
    requires !(Children(was, key)[a] < Children(was, key)[j])
    ensures !(Children(was, key)[b] < Children(was, key)[j])
  {
    OrderOfIndex(was, key, b, i);
    OrderOfIndex(was, key, i, j);
    if Children(was, key)[b] < Children(was, key)[j] {
      Between(Children(was, key)[b], Children(was, key)[i], Children(was, key)[j]);
    }
  }

  /** The delete stops inside a marker. */
  lemma StopsInside(was: Objects, now: Objects, post: Objects, key: string, i: nat)
    requires i < |Children(was, key)| && Progress(was, now, key, Children(was, key), i)
    requires IsMarker(Children(was, key)[i]) && Stopped(now, post, Children(was, key)[i])
    ensures Stopped(was, post, Dir(key))
  {
    var children := Children(was, key);
    var m := children[i];
    var c :| c in now && StoppedAt(now, post, m, c);
    ChildBelow(was, key, i);
    forall a | 0 <= a < i && IsMarker(children[a]) ensures !(children[a] < m) {
      var below := Below(now, children[a]);
      assert c !in below;
    }
    TidyInside(was, now, key, i, c);
    forall n | n in was && Dir(key) < n && IsMarker(n) && !OnlyMarkers(was, n) && Before(n, c) ensures n < c {
      FirstInside(was, now, post, key, i, c, n);
    }
    forall k | k in was ensures k in post <==> !Taken(Dir(key), c, k) {
      TakenInside(was, now, post, key, i, c, k);
    }
    assert StoppedAt(was, post, Dir(key), c);
  }

  lemma TidyInside(was: Objects, now: Objects, key: string, i: nat, c: string)
    requires i < |Children(was, key)| && Progress(was, now, key, Children(was, key), i)
    requires !UnderEarlierMarker(Children(was, key), i, Children(was, key)[i])
    requires Children(was, key)[i] < c && Tidy(now, c)
    ensures Tidy(was, c)
  {
    forall m, k | m in was && k in was && c < m < k && IsMarker(m) ensures IsMarker(k) {
      BelowIntact(was, now, key, i, m);
      BelowIntact(was, now, key, i, k);
    }
  }

  lemma FirstInside(was: Objects, now: Objects, post: Objects, key: string, i: nat, c: string, n: string)
    requires i < |Children(was, key)| && Progress(was, now, key, Children(was, key), i)
    requires !UnderEarlierMarker(Children(was, key), i, Children(was, key)[i]) && IsMarker(Children(was, key)[i])
    requires StoppedAt(now, post, Children(was, key)[i], c)
    requires n in was && Dir(key) < n && IsMarker(n) && !OnlyMarkers(was, n) && Before(n, c)
    ensures n < c
  {
    var children := Children(was, key);
    var m := children[i];
    var j := IndexOf(was, key, n);
    OrderOfIndex(was, key, j, i);
    if j < i {
      NoEarlierNonEmpty(was, key, i, i, n);
    } else if j > i {
      OrderOfIndex(was, key, i, j);
      Between(m, n, c);
      var e :| e in was && n < e && !IsMarker(e);
      BelowIntact(was, now, key, i, n);
      BelowIntact(was, now, key, i, e);
    }
  }

  lemma TakenInside(was: Objects, now: Objects, post: Objects, key: string, i: nat, c: string, k: string)
    requires i < |Children(was, key)| && Progress(was, now, key, Children(was, key), i)
    requires !UnderEarlierMarker(Children(was, key), i, Children(was, key)[i]) && IsMarker(Children(was, key)[i])
    requires StoppedAt(now, post, Children(was, key)[i], c) && k in was
    ensures k in post <==> !Taken(Dir(key), c, k)
  {
    var children := Children(was, key);
    var m := children[i];
    ChildBelow(was, key, i);
    if Dir(key) < k {
      var j := IndexOf(was, key, k);
      OrderOfIndex(was, key, j, i);
      PrefixBefore(m, c);
      if j < i {
        BeforeTransitive(k, m, c);
        if IsMarker(k) {
          NotAbove(was, key, j, i);
          NotBoth(k, m, c);
        }
        NotPrefixOfEarlier(m, c, k);
      } else {
        OrderOfIndex(was, key, i, j);
        BelowIntact(was, now, key, i, k);
        if j > i && !(m < k) { AfterBlock(m, c, k); }
      }
    }
  }

  lemma NotAbove(was: Objects, key: string, j: nat, i: nat)
    requires j < i < |Children(was, key)| && IsMarker(Children(was, key)[j])
    requires !UnderEarlierMarker(Children(was, key), i, Children(was, key)[i])
    ensures !(Children(was, key)[j] <= Children(was, key)[i]) && !(Children(was, key)[i] <= Children(was, key)[j])
  {
    SortedDistinct(Below(was, Dir(key)), j, i);
    OrderOfIndex(was, key, j, i);
    OrderOfIndex(was, key, i, j);
    if Children(was, key)[i] <= Children(was, key)[j] { PrefixBefore(Children(was, key)[i], Children(was, key)[j]); }
  }

  lemma NotPrefixOfEarlier(m: string, c: string, k: string)
    requires m < c && Before(k, m)
    ensures !(c <= k)
  {
    if c <= k {
      PrefixBefore(m, k);
      BeforeTransitive(m, k, m);
      BeforeIrreflexive(m);
    }
  }

  lemma AfterBlock(m: string, c: string, k: string)
    requires m < c && Before(m, k) && !(m < k)
    ensures !(c <= k) && !Before(k, c)
  {
    if Before(k, c) {
      Between(m, k, c);
      BeforeIrreflexive(m);
    }
  }
}
