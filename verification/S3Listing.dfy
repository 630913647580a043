/** Listing a directory: the delimited listing of its entries, eager and lazy, and the
    recursive walk. */
module S3Listing {
  import opened S3Keys
  import opened S3Directory

  // ---------------------------------------------------------------- the service's listing

  /** The first path segment with its slash, or everything when there is none. */
  function Head(s: string): (h: string)
    ensures h <= s && (s != "" ==> h != "")
    ensures if '/' in s then IsMarker(h) && '/' !in h[..|h| - 1] else h == s
  {
    if s == "" then ""
    else if s[0] == '/' then "/"
    else [s[0]] + Head(s[1..])
  }

  /** What a listing of `prefix` with delimiter "/" shows for key `k`: the key itself,
      or the common prefix it is rolled up into. */
  function Group(prefix: string, k: string): string
    requires prefix <= k
  {
    prefix + Head(k[|prefix|..])
  }

  function Entries(objects: Objects, prefix: string): set<string> {
    set k | k in objects && prefix <= k :: Group(prefix, k)
  }

  /** Entries other than the prefix itself that end in a slash are common prefixes. */
  predicate IsCommon(prefix: string, e: string) {
    e != prefix && IsMarker(e)
  }

  /** One page of a listing: its objects, then its common prefixes. */
  datatype Page = Page(contents: seq<string>, prefixes: seq<string>)

  function Select(es: seq<string>, prefix: string, common: bool): seq<string> {
    if es == [] then []
    else if IsCommon(prefix, es[0]) == common then [es[0]] + Select(es[1..], prefix, common)
    else Select(es[1..], prefix, common)
  }

  function ToPage(prefix: string, es: seq<string>): Page {
    Page(Select(es, prefix, false), Select(es, prefix, true))
  }

  /** `pages` is one way of cutting the listing of `prefix`; empty pages are allowed. */
  predicate Pagination(objects: Objects, prefix: string, pages: seq<seq<string>>) {
    Flatten(pages) == Sorted(Entries(objects, prefix))
  }

  /** What a page contributes to a directory listing. */
  function FromPage(prefix: string, es: seq<string>): seq<string> {
    Without(ToPage(prefix, es).contents, prefix) + ToPage(prefix, es).prefixes
  }

  function FromPages(prefix: string, pages: seq<seq<string>>): seq<string> {
    if pages == [] then [] else FromPage(prefix, pages[0]) + FromPages(prefix, pages[1..])
  }

  // ---------------------------------------------------------------- each entry once

  lemma {:induction false} SortedMultiset(s: set<string>)
    ensures multiset(Sorted(s)) == multiset(s)
    decreases |s|
  {
    if s != {} {
      var m := Sorted(s)[0];
      assert Sorted(s) == [m] + Sorted(s - {m});
      assert |s - {m}| < |s|;
      SortedMultiset(s - {m});
      assert s == {m} + (s - {m});
    }
  }

  lemma {:induction false} SelectMultiset(es: seq<string>, prefix: string)
    ensures multiset(Select(es, prefix, false)) + multiset(Select(es, prefix, true)) == multiset(es)
    decreases |es|
  {
    if es != [] {
      assert es == [es[0]] + es[1..];
      SelectMultiset(es[1..], prefix);
    }
  }

  lemma {:induction false} WithoutMultiset(es: seq<string>, p: string)
    ensures multiset(Without(es, p)) == multiset(es)[p := 0]
    decreases |es|
  {
    if es != [] {
      assert es == [es[0]] + es[1..];
      WithoutMultiset(es[1..], p);
    }
  }

  lemma {:induction false} SelectedAreCommon(es: seq<string>, prefix: string)
    ensures prefix !in Select(es, prefix, true)
    decreases |es|
  {
    if es != [] { SelectedAreCommon(es[1..], prefix); }
  }

  lemma FromPageMultiset(prefix: string, es: seq<string>)
    ensures multiset(FromPage(prefix, es)) == multiset(es)[prefix := 0]
  {
    SelectMultiset(es, prefix);
    SelectedAreCommon(es, prefix);
    WithoutMultiset(Select(es, prefix, false), prefix);
  }

  lemma {:induction false} FromPagesMultiset(prefix: string, pages: seq<seq<string>>)
    ensures multiset(FromPages(prefix, pages)) == multiset(Flatten(pages))[prefix := 0]
    decreases |pages|
  {
    if pages != [] {
      FromPageMultiset(prefix, pages[0]);
      FromPagesMultiset(prefix, pages[1..]);
    }
  }

  /** However the service cuts its pages, a directory listing shows every entry but
      the directory itself exactly once. */
  lemma ListedOnce(objects: Objects, prefix: string, pages: seq<seq<string>>)
    requires Pagination(objects, prefix, pages)
    ensures multiset(FromPages(prefix, pages)) == multiset(Entries(objects, prefix) - {prefix})
  {
    FromPagesMultiset(prefix, pages);
    SortedMultiset(Entries(objects, prefix));
  }

  // ---------------------------------------------------------------- order within a page

  predicate Ascending(es: seq<string>) {
    forall i, j :: 0 <= i < j < |es| ==> Before(es[i], es[j])
  }

  predicate AllOfKind(es: seq<string>, prefix: string, common: bool) {
    forall i :: 0 <= i < |es| ==> IsCommon(prefix, es[i]) == common
  }

  lemma AscendingCons(e: string, es: seq<string>)
    requires Ascending(es) && forall x :: x in es ==> Before(e, x)
    ensures Ascending([e] + es)
  {
  }

  lemma {:induction false} SelectInOrder(es: seq<string>, prefix: string, common: bool)
    requires Ascending(es)
    ensures Ascending(Select(es, prefix, common)) && AllOfKind(Select(es, prefix, common), prefix, common)
    ensures forall x :: x in Select(es, prefix, common) ==> x in es
    decreases |es|
  {
    if es != [] {
      SelectInOrder(es[1..], prefix, common);
      assert es == [es[0]] + es[1..];
      assert forall x :: x in es[1..] ==> Before(es[0], x);
      AscendingCons(es[0], Select(es[1..], prefix, common));
    }
  }

  lemma {:induction false} WithoutInOrder(es: seq<string>, p: string)
    requires Ascending(es)
    ensures Ascending(Without(es, p)) && forall x :: x in Without(es, p) ==> x in es
    decreases |es|
  {
    if es != [] {
      WithoutInOrder(es[1..], p);
      assert es == [es[0]] + es[1..];
      assert forall x :: x in es[1..] ==> Before(es[0], x);
      AscendingCons(es[0], Without(es[1..], p));
    }
  }

  /** Of one page, objects come before common prefixes, each kind in key order. */
  lemma PageInOrder(prefix: string, es: seq<string>, i: nat, j: nat)
    requires Ascending(es) && i < j < |FromPage(prefix, es)|
    ensures var fs := FromPage(prefix, es);
      && (IsCommon(prefix, fs[i]) ==> IsCommon(prefix, fs[j]))
      && (IsCommon(prefix, fs[i]) == IsCommon(prefix, fs[j]) ==> Before(fs[i], fs[j]))
  {
    SelectInOrder(es, prefix, false);
    SelectInOrder(es, prefix, true);
    var contents, commons := Select(es, prefix, false), Select(es, prefix, true);
    WithoutInOrder(contents, prefix);
    var objects := Without(contents, prefix);
    assert forall k :: 0 <= k < |objects| ==> objects[k] in objects;
    if i < |objects| {
      assert objects[i] in contents;
    }
    if j < |objects| {
      assert objects[j] in contents;
    }
  }

  // ---------------------------------------------------------------- expanding recursively

  lemma {:induction false} HeadDecides(s: string, t: string)
    requires IsMarker(Head(s))
    ensures Head(s) <= t <==> Head(t) == Head(s)
    decreases |s|
  {
    if s[0] != '/' {
      assert Head(s) == [s[0]] + Head(s[1..]);
      assert Head(s)[1..] == Head(s[1..]) && Head(s[1..]) != "";
      if t != "" && t[0] == s[0] {
        HeadDecides(s[1..], t[1..]);
        assert Head(t) == [t[0]] + Head(t[1..]);
        assert Head(s) <= t <==> Head(s[1..]) <= t[1..];
      }
    }
  }

  lemma {:induction false} HeadWhole(s: string)
    requires !IsMarker(Head(s))
    ensures Head(s) == s
    decreases |s|
  {
    if s != "" {
      assert s[0] != '/';
      assert Head(s) == [s[0]] + Head(s[1..]);
      if s[1..] != "" { HeadWhole(s[1..]); }
      assert s == [s[0]] + s[1..];
    }
  }

  /** A common prefix rolls up exactly the keys that extend it. */
  lemma CommonRollsUp(objects: Objects, prefix: string, e: string, k: string)
    requires e in Entries(objects, prefix) && IsCommon(prefix, e) && prefix <= k
    ensures e <= k <==> Group(prefix, k) == e
  {
    var k0 :| k0 in objects && prefix <= k0 && Group(prefix, k0) == e;
    var h, s := Head(k0[|prefix|..]), k[|prefix|..];
    MarkerTail(prefix, h);
    HeadDecides(k0[|prefix|..], s);
    SamePrefix(prefix, h, s);
    SamePrefix(prefix, Head(s), h);
    assert k == prefix + s;
  }

  lemma SamePrefix(prefix: string, a: string, b: string)
    ensures prefix + a <= prefix + b <==> a <= b
    ensures prefix + a == prefix + b <==> a == b
  {
    assert (prefix + a)[|prefix|..] == a && (prefix + b)[|prefix|..] == b;
  }

  lemma MarkerTail(prefix: string, h: string)
    requires IsMarker(prefix + h) && prefix + h != prefix
    ensures IsMarker(h)
  {
    assert h == "" ==> prefix + h == prefix;
    assert h != "" ==> (prefix + h)[|prefix + h| - 1] == h[|h| - 1];
  }

  /** An entry that is no directory is a key, rolled up alone. */
  lemma PlainIsKey(objects: Objects, prefix: string, e: string, k: string)
    requires prefix <= k && Group(prefix, k) == e && !IsMarker(e)
    ensures k == e
  {
    var h := Head(k[|prefix|..]);
    assert h != "" ==> e[|e| - 1] == h[|h| - 1];
    HeadWhole(k[|prefix|..]);
    assert k == prefix + k[|prefix|..];
  }

  /** The directory listing of a prefix. */
  function ListOf(objects: Objects, prefix: string, cut: seq<string> -> seq<seq<string>>): seq<string> {
    FromPages(prefix, cut(Sorted(Entries(objects, prefix))))
  }

  /** What is left to descend into below a prefix. */
  function Depths(objects: Objects, prefix: string): set<(string, int)> {
    set k, i | k in objects && prefix <= k && |prefix| < i <= |k| :: (k, i)
  }

  lemma DeeperIsLess(objects: Objects, prefix: string, e: string)
    requires e in Entries(objects, prefix) && e != prefix
    ensures prefix < e && Depths(objects, e) < Depths(objects, prefix)
  {
    var k :| k in objects && prefix <= k && Group(prefix, k) == e;
    assert k == prefix + k[|prefix|..];
    var h := Head(k[|prefix|..]);
    assert h == "" ==> prefix + h == prefix;
    assert e <= k && |prefix| < |e|;
    assert (k, |e|) in Depths(objects, prefix) && (k, |e|) !in Depths(objects, e);
  }

  lemma ListOfEntries(objects: Objects, prefix: string, cut: seq<string> -> seq<seq<string>>)
    requires Cuts(cut)
    ensures forall e :: e in ListOf(objects, prefix, cut) <==> e in Entries(objects, prefix) && e != prefix
    ensures AllEntries(objects, prefix, ListOf(objects, prefix, cut))
    ensures multiset(ListOf(objects, prefix, cut)) == multiset(Entries(objects, prefix) - {prefix})
  {
    var pages := cut(Sorted(Entries(objects, prefix)));
    ListedOnce(objects, prefix, pages);
    forall e ensures e in ListOf(objects, prefix, cut) <==> e in Entries(objects, prefix) && e != prefix {
      assert e in ListOf(objects, prefix, cut) <==> e in multiset(ListOf(objects, prefix, cut));
    }
    var es := ListOf(objects, prefix, cut);
    forall i | 0 <= i < |es| ensures es[i] in Entries(objects, prefix) && es[i] != prefix {
      assert es[i] in es;
    }
  }

  predicate AllEntries(objects: Objects, prefix: string, es: seq<string>) {
    forall i :: 0 <= i < |es| ==> es[i] in Entries(objects, prefix) && es[i] != prefix
  }

  /** Listing a directory and then, in its place, every directory listed. */
  ghost function Expand(objects: Objects, prefix: string, cut: seq<string> -> seq<seq<string>>): seq<string>
    requires Cuts(cut)
    decreases Depths(objects, prefix), |ListOf(objects, prefix, cut)| + 1
  {
    ListOfEntries(objects, prefix, cut);
    ExpandEach(objects, prefix, ListOf(objects, prefix, cut), cut)
  }

  ghost function ExpandEach(objects: Objects, prefix: string, es: seq<string>,
                            cut: seq<string> -> seq<seq<string>>): seq<string>
    requires Cuts(cut)
    requires AllEntries(objects, prefix, es)
    decreases Depths(objects, prefix), |es|
  {
    if es == [] then []
    else
      DeeperIsLess(objects, prefix, es[0]);
      (if IsMarker(es[0]) then Expand(objects, es[0], cut) else [es[0]]) + ExpandEach(objects, prefix, es[1..], cut)
  }

  /** The objects strictly below a prefix. */
  function Leaves(objects: Objects, prefix: string): set<string> {
    set k | k in objects && prefix < k && !IsMarker(k)
  }

  function LeavesUnder(objects: Objects, prefix: string, es: seq<string>): set<string> {
    set k | k in Leaves(objects, prefix) && Group(prefix, k) in es
  }

  lemma LeavesOfEntry(objects: Objects, prefix: string, e: string)
    requires e in Entries(objects, prefix) && e != prefix
    ensures LeavesUnder(objects, prefix, [e]) == if IsMarker(e) then Leaves(objects, e) else {e}
  {
    DeeperIsLess(objects, prefix, e);
    if IsMarker(e) {
      forall k | k in objects && prefix <= k ensures e <= k <==> Group(prefix, k) == e {
        CommonRollsUp(objects, prefix, e, k);
      }
    } else {
      forall k | k in objects && prefix <= k && Group(prefix, k) == e ensures k == e {
        PlainIsKey(objects, prefix, e, k);
      }
      var k0 :| k0 in objects && prefix <= k0 && Group(prefix, k0) == e;
      PlainIsKey(objects, prefix, e, k0);
    }
  }

  ghost predicate Once(es: seq<string>) {
    forall e :: multiset(es)[e] <= 1
  }

  lemma OnceRest(es: seq<string>)
    requires es != [] && Once(es)
    ensures es[0] !in es[1..] && Once(es[1..])
  {
    assert es == [es[0]] + es[1..];
    assert multiset(es) == multiset{es[0]} + multiset(es[1..]);
    forall x ensures multiset(es[1..])[x] <= 1 {
      assert multiset(es)[x] <= 1;
    }
    assert multiset(es)[es[0]] <= 1;
  }

  lemma OneMore(objects: Objects, prefix: string, e: string, rest: seq<string>, a: seq<string>, b: seq<string>)
    requires e in Entries(objects, prefix) && e != prefix && e !in rest
    requires multiset(a) == if IsMarker(e) then multiset(Leaves(objects, e)) else multiset{e}
    requires multiset(b) == multiset(LeavesUnder(objects, prefix, rest))
    ensures multiset(a + b) == multiset(LeavesUnder(objects, prefix, [e] + rest))
  {
    LeavesOfEntry(objects, prefix, e);
    SplitLeaves(objects, prefix, e, rest);
    assert multiset({e}) == multiset{e};
  }

  /** What one entry expands to. */
  ghost function Part(objects: Objects, e: string, cut: seq<string> -> seq<seq<string>>): seq<string>
    requires Cuts(cut)
  {
    if IsMarker(e) then Expand(objects, e, cut) else [e]
  }

  lemma UnfoldExpand(objects: Objects, prefix: string, es: seq<string>, cut: seq<string> -> seq<seq<string>>)
    requires Cuts(cut) && es != [] && AllEntries(objects, prefix, es)
    ensures ExpandEach(objects, prefix, es, cut) ==
            Part(objects, es[0], cut) + ExpandEach(objects, prefix, es[1..], cut)
  {
  }

  ghost predicate PartExact(objects: Objects, e: string, cut: seq<string> -> seq<seq<string>>)
    requires Cuts(cut)
  {
    multiset(Part(objects, e, cut)) == if IsMarker(e) then multiset(Leaves(objects, e)) else multiset{e}
  }

  lemma {:induction false} ExpandEachExact(objects: Objects, prefix: string, es: seq<string>,
                                           cut: seq<string> -> seq<seq<string>>)
    requires Cuts(cut) && Once(es)
    requires AllEntries(objects, prefix, es)
    ensures multiset(ExpandEach(objects, prefix, es, cut)) == multiset(LeavesUnder(objects, prefix, es))
    decreases Depths(objects, prefix), |es|
  {
    if es != [] {
      OnceRest(es);
      assert PartExact(objects, es[0], cut) by {
        DeeperIsLess(objects, prefix, es[0]);
        if IsMarker(es[0]) { ExpandExact(objects, es[0], cut); }
      }
      var b := ExpandEach(objects, prefix, es[1..], cut);
      assert multiset(b) == multiset(LeavesUnder(objects, prefix, es[1..])) by {
        ExpandEachExact(objects, prefix, es[1..], cut);
      }
      assert es == [es[0]] + es[1..];
      OneMore(objects, prefix, es[0], es[1..], Part(objects, es[0], cut), b);
      UnfoldExpand(objects, prefix, es, cut);
    }
  }

  lemma SplitLeaves(objects: Objects, prefix: string, e: string, rest: seq<string>)
    requires e !in rest
    ensures multiset(LeavesUnder(objects, prefix, [e] + rest)) ==
            multiset(LeavesUnder(objects, prefix, [e])) + multiset(LeavesUnder(objects, prefix, rest))
  {
    var a, b := LeavesUnder(objects, prefix, [e]), LeavesUnder(objects, prefix, rest);
    assert LeavesUnder(objects, prefix, [e] + rest) == a + b && a !! b;
    assert multiset(a + b) == multiset(a) + multiset(b);
  }

  /** Expanding a directory listing recursively yields every object strictly below it
      exactly once, and nothing else, however listings are cut into pages. */
  lemma {:induction false} ExpandExact(objects: Objects, prefix: string, cut: seq<string> -> seq<seq<string>>)
    requires Cuts(cut)
    ensures multiset(Expand(objects, prefix, cut)) == multiset(Leaves(objects, prefix))
    decreases Depths(objects, prefix), |ListOf(objects, prefix, cut)| + 1
  {
    var es := ListOf(objects, prefix, cut);
    ListOfEntries(objects, prefix, cut);
    ExpandEachExact(objects, prefix, es, cut);
    forall k | k in Leaves(objects, prefix) ensures Group(prefix, k) in es {
      GroupIsEntry(objects, prefix, k);
    }
    assert LeavesUnder(objects, prefix, es) == Leaves(objects, prefix);
  }

  lemma GroupIsEntry(objects: Objects, prefix: string, k: string)
    requires k in objects && prefix < k
    ensures Group(prefix, k) in Entries(objects, prefix) && Group(prefix, k) != prefix
  {
    assert k[|prefix|..] != "";
    assert |Group(prefix, k)| > |prefix|;
  }
}
