/** Directory listings as the loops they are: the eager `List`, the lazy iterator
    behind `ListIter`, and the recursive `Walk`. */
module S3Lister {
  import opened S3Keys
  import opened S3Directory
  import opened S3Listing

  /** The pages of one listing appended entry by entry, objects first. */
  method AppendPage(files: seq<string>, prefix: string, es: seq<string>) returns (more: seq<string>)
    ensures more == files + FromPage(prefix, es)
  {
    var page := ToPage(prefix, es);
    more := files;
    for j := 0 to |page.contents|
      invariant more == files + Without(page.contents[..j], prefix)
    {
      assert page.contents[..j + 1] == page.contents[..j] + [page.contents[j]];
      WithoutConcat(page.contents[..j], [page.contents[j]], prefix);
      if page.contents[j] != prefix {
        more := more + [page.contents[j]];
      }
    }
    assert page.contents[..|page.contents|] == page.contents;
    for j := 0 to |page.prefixes|
      invariant more == files + Without(page.contents, prefix) + page.prefixes[..j]
    {
      more := more + [page.prefixes[j]];
    }
    assert page.prefixes[..|page.prefixes|] == page.prefixes;
  }

  lemma {:induction false} FromPagesOneMore(prefix: string, pages: seq<seq<string>>, i: nat)
    requires i < |pages|
    ensures FromPages(prefix, pages[..i + 1]) == FromPages(prefix, pages[..i]) + FromPage(prefix, pages[i])
    decreases i
  {
    if i == 0 {
      assert pages[..1] == [pages[0]] && pages[..0] == [];
      assert FromPages(prefix, pages[..1]) == FromPage(prefix, pages[0]) + FromPages(prefix, pages[..1][1..]);
    } else {
      assert pages[..i + 1][1..] == pages[1..][..i] && pages[..i][1..] == pages[1..][..i - 1];
      FromPagesOneMore(prefix, pages[1..], i - 1);
    }
  }

  /** `List`: every entry of the directory but the directory itself, exactly once. */
  method List(objects: Objects, key: string, pages: seq<seq<string>>) returns (files: seq<string>)
    requires Pagination(objects, Dir(key), pages)
    ensures files == FromPages(Dir(key), pages)
    ensures multiset(files) == multiset(Entries(objects, Dir(key)) - {Dir(key)})
  {
    files := [];
    for i := 0 to |pages|
      invariant files == FromPages(Dir(key), pages[..i])
    {
      files := AppendPage(files, Dir(key), pages[i]);
      FromPagesOneMore(Dir(key), pages, i);
    }
    assert pages[..|pages|] == pages;
    ListedOnce(objects, Dir(key), pages);
  }

  /** The visits of a walk: up to and including the first key the callback rejects. */
  function Visits(keys: seq<string>, accepts: string -> bool): seq<string> {
    if keys == [] then []
    else if accepts(keys[0]) then [keys[0]] + Visits(keys[1..], accepts)
    else [keys[0]]
  }

  predicate AllAccepted(keys: seq<string>, accepts: string -> bool) {
    forall i :: 0 <= i < |keys| ==> accepts(keys[i])
  }

  lemma {:induction false} VisitsConcat(a: seq<string>, b: seq<string>, accepts: string -> bool)
    ensures Visits(a + b, accepts) == if AllAccepted(a, accepts) then a + Visits(b, accepts) else Visits(a, accepts)
    ensures AllAccepted(a, accepts) ==> Visits(a, accepts) == a
    decreases |a|
  {
    if a == [] {
      assert a + b == b;
    } else {
      assert (a + b)[1..] == a[1..] + b;
      VisitsConcat(a[1..], b, accepts);
      assert a == [a[0]] + a[1..];
    }
  }

  lemma AllAcceptedConcat(a: seq<string>, b: seq<string>, accepts: string -> bool)
    requires AllAccepted(a, accepts) && AllAccepted(b, accepts)
    ensures AllAccepted(a + b, accepts)
  {
  }

  method WalkPage(page: seq<string>, prefix: string, accepts: string -> bool) returns (visited: seq<string>, ok: bool)
    ensures visited == Visits(Without(page, prefix), accepts)
    ensures ok <==> AllAccepted(Without(page, prefix), accepts)
    ensures ok ==> visited == Without(page, prefix)
  {
    visited := [];
    for j := 0 to |page|
      invariant visited == Without(page[..j], prefix) && AllAccepted(visited, accepts)
    {
      assert page[..j + 1] == page[..j] + [page[j]];
      WithoutConcat(page[..j], [page[j]], prefix);
      if page[j] != prefix {
        if !accepts(page[j]) {
          PageStops(page, j, prefix, accepts);
          return visited + [page[j]], false;
        }
        visited := visited + [page[j]];
      }
    }
    assert page[..|page|] == page;
    VisitsConcat(visited, [], accepts);
    return visited, true;
  }

  lemma PageStops(page: seq<string>, j: nat, prefix: string, accepts: string -> bool)
    requires j < |page| && page[j] != prefix && !accepts(page[j])
    requires AllAccepted(Without(page[..j], prefix), accepts)
    ensures Visits(Without(page, prefix), accepts) == Without(page[..j], prefix) + [page[j]]
    ensures !AllAccepted(Without(page, prefix), accepts)
  {
    var a, b := Without(page[..j], prefix), Without(page[j..], prefix);
    assert page == page[..j] + page[j..];
    WithoutConcat(page[..j], page[j..], prefix);
    assert b == [page[j]] + Without(page[j..][1..], prefix);
    VisitsConcat(a, b, accepts);
    assert (a + b)[|a|] == page[j];
  }

  /** `Walk`: the callback sees every key strictly below the directory, in order, until
      it fails. */
  method Walk(objects: Objects, key: string, pages: seq<seq<string>>, accepts: string -> bool)
    returns (visited: seq<string>, ok: bool)
    requires Flatten(pages) == Sorted(Listed(objects, key))
    ensures visited == Visits(Children(objects, key), accepts)
    ensures ok <==> AllAccepted(Children(objects, key), accepts)
    ensures ok ==> visited == Children(objects, key)
  {
    var prefix := Dir(key);
    ChildrenListed(objects, key);
    visited := [];
    for i := 0 to |pages|
      invariant visited == Without(Flatten(pages[..i]), prefix) && AllAccepted(visited, accepts)
    {
      var more;
      more, ok := WalkPage(pages[i], prefix, accepts);
      WalkStep(pages, i, prefix, accepts);
      visited := visited + more;
      if !ok { return; }
      AllAcceptedConcat(Without(Flatten(pages[..i]), prefix), more, accepts);
    }
    assert pages[..|pages|] == pages;
    VisitsConcat(visited, [], accepts);
    ok := true;
  }

  /** One more page of a walk without failure so far. */
  lemma WalkStep(pages: seq<seq<string>>, i: nat, prefix: string, accepts: string -> bool)
    requires i < |pages| && AllAccepted(Without(Flatten(pages[..i]), prefix), accepts)
    ensures Without(Flatten(pages[..i + 1]), prefix) == Without(Flatten(pages[..i]), prefix) + Without(pages[i], prefix)
    ensures !AllAccepted(Without(pages[i], prefix), accepts) ==>
      && Visits(Without(Flatten(pages), prefix), accepts) ==
           Without(Flatten(pages[..i]), prefix) + Visits(Without(pages[i], prefix), accepts)
      && !AllAccepted(Without(Flatten(pages), prefix), accepts)
  {
    var a, b := Without(Flatten(pages[..i]), prefix), Without(pages[i], prefix);
    FlattenPrefix(pages, i);
    WithoutConcat(Flatten(pages[..i]), pages[i], prefix);
    FlattenSplit(pages, i + 1);
    var c := Without(Flatten(pages[i + 1..]), prefix);
    WithoutConcat(Flatten(pages[..i + 1]), Flatten(pages[i + 1..]), prefix);
    assert a + b + c == a + (b + c);
    if !AllAccepted(b, accepts) { StopsWithin(a, b, c, accepts); }
  }

  lemma StopsWithin(a: seq<string>, b: seq<string>, c: seq<string>, accepts: string -> bool)
    requires AllAccepted(a, accepts) && !AllAccepted(b, accepts)
    ensures Visits(a + (b + c), accepts) == a + Visits(b, accepts) && !AllAccepted(a + (b + c), accepts)
  {
    VisitsConcat(a, b + c, accepts);
    VisitsConcat(b, c, accepts);
    var j :| 0 <= j < |b| && !accepts(b[j]);
    assert (a + (b + c))[|a| + j] == b[j];
  }

  lemma {:induction false} FlattenSplit(pages: seq<seq<string>>, i: nat)
    requires i <= |pages|
    ensures Flatten(pages) == Flatten(pages[..i]) + Flatten(pages[i..])
    decreases i
  {
    if i == 0 {
      assert pages[0..] == pages;
    } else {
      FlattenSplit(pages[1..], i - 1);
      assert pages[..i][1..] == pages[1..][..i - 1] && pages[i..] == pages[1..][i - 1..];
    }
  }

  // ---------------------------------------------------------------- walk and expansion

  function Plain(keys: seq<string>): seq<string> {
    if keys == [] then []
    else if IsMarker(keys[0]) then Plain(keys[1..])
    else [keys[0]] + Plain(keys[1..])
  }

  function Unmarked(s: set<string>): set<string> {
    set k | k in s && !IsMarker(k)
  }

  lemma PlainFirst(m: string, keys: seq<string>)
    ensures Plain([m] + keys) == if IsMarker(m) then Plain(keys) else [m] + Plain(keys)
  {
    assert ([m] + keys)[1..] == keys;
  }

  lemma UnmarkedFirst(s: set<string>, m: string)
    requires m in s
    ensures multiset(Unmarked(s)) == multiset(Unmarked(s - {m})) + (if IsMarker(m) then multiset{} else multiset{m})
  {
    assert Unmarked(s) == Unmarked(s - {m}) + if IsMarker(m) then {} else {m};
  }

  lemma {:induction false} PlainMultiset(s: set<string>)
    ensures multiset(Plain(Sorted(s))) == multiset(Unmarked(s))
    decreases |s|
  {
    if s != {} {
      var m := SortedFirst(s);
      PlainMultiset(s - {m});
      PlainFirst(m, Sorted(s - {m}));
      UnmarkedFirst(s, m);
    }
  }

  /** Expanding `List` through its directories meets exactly the objects a full `Walk`
      visits besides markers, each as often: once. */
  lemma ExpandMeetsWalk(objects: Objects, key: string, cut: seq<string> -> seq<seq<string>>)
    requires Cuts(cut)
    ensures multiset(Expand(objects, Dir(key), cut)) == multiset(Plain(Children(objects, key)))
  {
    ExpandExact(objects, Dir(key), cut);
    LeavesArePlain(objects, key);
  }

  lemma LeavesArePlain(objects: Objects, key: string)
    ensures multiset(Leaves(objects, Dir(key))) == multiset(Plain(Children(objects, key)))
  {
    PlainMultiset(Below(objects, Dir(key)));
    assert Leaves(objects, Dir(key)) == Unmarked(Below(objects, Dir(key)));
  }

  // ---------------------------------------------------------------- the lazy iterator

  datatype Step = File(key: string) | EOF | Failed

  class FileIterator {
    const prefix: string
    /** The pages not fetched yet. */
    var pages: seq<seq<string>>
    /** Entries of the current page still to be handed out. */
    var buf: seq<string>
    var done: bool

    /** Everything the iterator has yet to yield. */
    function Rest(): seq<string>
      reads this
    {
      if done then [] else buf + FromPages(prefix, pages)
    }

    constructor (prefix: string, pages: seq<seq<string>>)
      ensures Rest() == FromPages(prefix, pages) && this.prefix == prefix && !done
    {
      this.prefix := prefix;
      this.pages := pages;
      buf := [];
      done := false;
    }

    /** Buffers the next page. */
    method Fetch()
      requires !done && buf == [] && pages != []
      modifies this`buf, this`pages
      ensures buf == FromPage(prefix, old(pages)[0]) && pages == old(pages)[1..]
      ensures Rest() == old(Rest())
    {
      buf := AppendPage([], prefix, pages[0]);
      pages := pages[1..];
    }

    /** The next entry, fetching pages while the buffer is empty; the fetch after the
        first `fetches` fails. A failure loses nothing; the end is final. */
    method Next(cancelled: bool, fetches: nat) returns (r: Step)
      modifies this
      ensures r.File? ==> old(Rest()) == [r.key] + Rest()
      ensures r.EOF? ==> old(Rest()) == [] && done
      ensures r.Failed? ==> Rest() == old(Rest()) && !done && (cancelled || |pages| > 0)
      ensures old(done) ==> r.EOF?
      ensures !cancelled && |old(pages)| <= fetches ==> !r.Failed?
    {
      if done { return EOF; }
      if cancelled {
        return Failed;
      }
      var left := fetches;
      while |buf| == 0
        invariant !done && left <= fetches && |old(pages)| - |pages| == fetches - left
        invariant Rest() == old(Rest())
        decreases |pages|
      {
        if pages == [] {
          done := true;
          return EOF;
        }
        if left == 0 {
          return Failed;
        }
        left := left - 1;
        Fetch();
      }
      var key := Take();
      r := File(key);
    }

    /** Hands out the first buffered entry. */
    method Take() returns (key: string)
      requires !done && buf != []
      modifies this`buf
      ensures old(Rest()) == [key] + Rest()
    {
      key := buf[0];
      FirstOut(buf, FromPages(prefix, pages));
      buf := buf[1..];
    }

    /** Discards what is buffered and stops pagination. */
    method Close()
      modifies this
      ensures done && buf == [] && Rest() == []
    {
      done := true;
      buf := [];
    }

    /** Drains the iterator. */
    method Drain() returns (files: seq<string>)
      modifies this
      ensures files == old(Rest()) && done
    {
      files := [];
      while true
        invariant old(Rest()) == files + Rest()
        decreases |Rest()|
      {
        ghost var rest := Rest();
        var r := Next(false, |pages|);
        if r.EOF? { return; }
        OneYielded(files, r.key, rest, Rest());
        files := files + [r.key];
      }
    }
  }

  lemma FirstOut(buf: seq<string>, rest: seq<string>)
    requires buf != []
    ensures buf + rest == [buf[0]] + (buf[1..] + rest)
  {
  }

  lemma OneYielded(files: seq<string>, key: string, rest: seq<string>, rest': seq<string>)
    requires rest == [key] + rest'
    ensures files + rest == files + [key] + rest' && |rest'| < |rest|
  {
  }

  /** Draining a fresh iterator yields exactly what `List` returns, however the listing
      is cut into pages, and the iterator then stays at its end. */
  method ListBothWays(objects: Objects, key: string, pages: seq<seq<string>>)
    returns (eager: seq<string>, lazy: seq<string>)
    requires Pagination(objects, Dir(key), pages)
    ensures eager == lazy && multiset(lazy) == multiset(Entries(objects, Dir(key)) - {Dir(key)})
  {
    eager := List(objects, key, pages);
    var it := new FileIterator(Dir(key), pages);
    lazy := it.Drain();
    var after := it.Next(false, 0);
    assert after.EOF?;
  }
}
