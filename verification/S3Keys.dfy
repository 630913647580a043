/** Object keys: prefixes, directory markers, and the order in which a bucket lists
    them. */
module S3Keys {

  /** The byte order of keys, strict. */
  predicate Before(a: string, b: string)
    decreases |a|
  {
    b != [] && (a == [] || a[0] < b[0] || (a[0] == b[0] && Before(a[1..], b[1..])))
  }

  lemma {:induction false} BeforeTotal(a: string, b: string)
    ensures Before(a, b) || a == b || Before(b, a)
    decreases |a|
  {
    if a != [] && b != [] && a[0] == b[0] {
      BeforeTotal(a[1..], b[1..]);
      assert a == [a[0]] + a[1..] && b == [b[0]] + b[1..];
    }
  }

  lemma {:induction false} BeforeTransitive(a: string, b: string, c: string)
    requires Before(a, b) && Before(b, c)
    ensures Before(a, c)
    decreases |a|
  {
    if a != [] && a[0] == b[0] && b[0] == c[0] {
      BeforeTransitive(a[1..], b[1..], c[1..]);
    }
  }

  lemma {:induction false} BeforeIrreflexive(a: string)
    ensures !Before(a, a)
    decreases |a|
  {
    if a != [] { BeforeIrreflexive(a[1..]); }
  }

  /** A key is listed before its extensions. */
  lemma {:induction false} PrefixBefore(a: string, b: string)
    requires a < b
    ensures Before(a, b)
    decreases |a|
  {
    if a != [] {
      assert a[0] == b[0] && a[1..] < b[1..];
      PrefixBefore(a[1..], b[1..]);
    }
  }

  /** What is listed between a prefix and a key that extends it extends it too. */
  lemma {:induction false} Between(c: string, k: string, d: string)
    requires c <= d && Before(c, k) && Before(k, d)
    ensures c < k
    decreases |c|
  {
    if c != "" {
      assert d[0] == c[0] && k[0] == c[0];
      assert c[1..] <= d[1..];
      Between(c[1..], k[1..], d[1..]);
      assert k == [k[0]] + k[1..] && c == [c[0]] + c[1..];
    }
  }

  lemma Comparable(a: string, b: string, k: string)
    requires a <= k && b <= k
    ensures a <= b || b <= a
  {
  }

  lemma NotBoth(a: string, b: string, k: string)
    requires !(a <= b) && !(b <= a) && b <= k
    ensures !(a <= k)
  {
    if a <= k { Comparable(a, b, k); }
  }

  predicate Least(m: string, s: set<string>) {
    m in s && forall k :: k in s && k != m ==> Before(m, k)
  }

  lemma {:induction false} LeastExists(s: set<string>) returns (m: string)
    requires s != {}
    ensures Least(m, s)
    decreases |s|
  {
    m :| m in s;
    var rest := s - {m};
    if rest != {} {
      assert |rest| < |s|;
      var r := LeastExists(rest);
      BeforeTotal(m, r);
      if Before(r, m) {
        m := r;
      } else {
        forall k | k in s && k != m ensures Before(m, k) {
          if k != r { BeforeTransitive(m, r, k); }
        }
      }
    }
  }

  lemma LeastUnique(a: string, b: string, s: set<string>)
    requires Least(a, s) && Least(b, s)
    ensures a == b
  {
    if a != b {
      BeforeTransitive(a, b, a);
      BeforeIrreflexive(a);
    }
  }

  /** The keys of a set in listing order. */
  function Sorted(s: set<string>): (keys: seq<string>)
    ensures forall k :: k in keys <==> k in s
    decreases |s|
  {
    if s == {} then []
    else
      assert exists m :: Least(m, s) by { var m := LeastExists(s); }
      assert forall a, b :: Least(a, s) && Least(b, s) ==> a == b by {
        forall a, b | Least(a, s) && Least(b, s) ensures a == b { LeastUnique(a, b, s); }
      }
      var m :| Least(m, s);
      assert |s - {m}| < |s|;
      [m] + Sorted(s - {m})
  }

  lemma SortedFirst(s: set<string>) returns (m: string)
    requires s != {}
    ensures Least(m, s) && m in s && Sorted(s) == [m] + Sorted(s - {m}) && |s - {m}| < |s|
  {
    m := Sorted(s)[0];
    assert Least(m, s);
  }

  lemma {:induction false} SortedInOrder(s: set<string>, i: nat, j: nat)
    requires i < j < |Sorted(s)|
    ensures Before(Sorted(s)[i], Sorted(s)[j])
    decreases |s|
  {
    var m := Sorted(s)[0];
    assert Least(m, s) && Sorted(s) == [m] + Sorted(s - {m});
    if i == 0 {
      assert Sorted(s)[j] == Sorted(s - {m})[j - 1] && Sorted(s - {m})[j - 1] in Sorted(s - {m});
    } else {
      assert |s - {m}| < |s|;
      SortedInOrder(s - {m}, i - 1, j - 1);
    }
  }

  lemma SortedDistinct(s: set<string>, i: nat, j: nat)
    requires i < j < |Sorted(s)|
    ensures Sorted(s)[i] != Sorted(s)[j]
  {
    SortedInOrder(s, i, j);
    BeforeIrreflexive(Sorted(s)[i]);
  }

  // ---------------------------------------------------------------- markers

  /** A key that ends in a slash marks a directory. */
  predicate IsMarker(k: string) {
    k != "" && k[|k| - 1] == '/'
  }

  /** The prefix under which a directory's entries live. */
  function Dir(key: string): (p: string)
    ensures key <= p && |p| <= |key| + 1 && (p == "" || IsMarker(p))
    ensures key == "" || IsMarker(key) ==> p == key
  {
    if key == "" || IsMarker(key) then key else key + "/"
  }

  /** Two prefixes no key can share. */
  predicate Apart(p: string, q: string) {
    !(p <= q) && !(q <= p)
  }

  lemma ApartKeys(p: string, q: string, k: string)
    requires Apart(p, q)
    ensures !(p <= k && q <= k)
  {
  }

  lemma ApartExtend(p: string, q: string, p': string, q': string)
    requires Apart(p, q) && p <= p' && q <= q'
    ensures Apart(p', q')
  {
  }

  // ---------------------------------------------------------------- pages

  function Flatten<T>(pages: seq<seq<T>>): seq<T> {
    if pages == [] then [] else pages[0] + Flatten(pages[1..])
  }

  /** How the service cuts every listing it is asked for. */
  ghost predicate Cuts(cut: seq<string> -> seq<seq<string>>) {
    forall keys :: Flatten(cut(keys)) == keys
  }

  lemma {:induction false} FlattenPrefix<T>(pages: seq<seq<T>>, i: nat)
    requires i < |pages|
    ensures Flatten(pages[..i + 1]) == Flatten(pages[..i]) + pages[i]
    decreases i
  {
    if i == 0 {
      assert pages[..1] == [pages[0]] && pages[..0] == [];
      assert Flatten(pages[..1]) == pages[0] + Flatten(pages[..1][1..]);
    } else {
      assert pages[..i + 1][1..] == pages[1..][..i] && pages[..i][1..] == pages[1..][..i - 1];
      FlattenPrefix(pages[1..], i - 1);
    }
  }

  /** A key that every other key of a set extends comes first. */
  lemma SortedHead(s: set<string>, p: string)
    requires p in s && forall k :: k in s ==> p <= k
    ensures Sorted(s) == [p] + Sorted(s - {p})
  {
    forall k | k in s && k != p ensures Before(p, k) { PrefixBefore(p, k); }
    assert Least(p, s);
    forall a | Least(a, s) ensures a == p { LeastUnique(a, p, s); }
  }

  function Without(keys: seq<string>, p: string): seq<string> {
    if keys == [] then []
    else if keys[0] == p then Without(keys[1..], p)
    else [keys[0]] + Without(keys[1..], p)
  }

  lemma {:induction false} WithoutConcat(a: seq<string>, b: seq<string>, p: string)
    ensures Without(a + b, p) == Without(a, p) + Without(b, p)
    decreases |a|
  {
    if a == [] {
      assert a + b == b;
    } else {
      WithoutConcat(a[1..], b, p);
      assert (a + b)[1..] == a[1..] + b;
    }
  }

  lemma {:induction false} WithoutAbsent(keys: seq<string>, p: string)
    requires p !in keys
    ensures Without(keys, p) == keys
    decreases |keys|
  {
    if keys != [] { WithoutAbsent(keys[1..], p); }
  }

  /** Listing a prefix and skipping the prefix itself leaves the keys below it. */
  lemma SortedWithout(s: set<string>, p: string)
    requires forall k :: k in s ==> p <= k
    ensures Without(Sorted(s), p) == Sorted(s - {p})
  {
    if p in s {
      SortedHead(s, p);
      WithoutConcat([p], Sorted(s - {p}), p);
    } else {
      assert s - {p} == s;
    }
    WithoutAbsent(Sorted(s - {p}), p);
  }
}
