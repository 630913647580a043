/** The S3 file system object: listing, recursive copy, recursive delete and move,
    written as the loops they are and proved against S3Directory. */
module S3FileSystem {
  import opened S3Keys
  import opened S3Directory
  import opened S3CopyTrace
  import opened S3DeleteTrace
  import opened S3Move

  class S3FS {
    /** The bucket. */
    var objects: Objects
    /** How the service cuts a listing into pages. */
    const cut: seq<string> -> seq<seq<string>>

    ghost predicate Valid() {
      Cuts(cut)
    }

    constructor (objects: Objects, cut: seq<string> -> seq<seq<string>>)
      requires Cuts(cut)
      ensures Valid() && this.objects == objects
    {
      this.objects := objects;
      this.cut := cut;
    }

    /** One page of a listing, without the directory's own marker. */
    method Append(files: seq<string>, page: seq<string>, prefix: string, key: string) returns (more: seq<string>)
      requires key in page ==> key == prefix
      ensures more == files + Without(page, prefix)
    {
      more := files;
      for j := 0 to |page|
        invariant more == files + Without(page[..j], prefix)
      {
        assert page[..j + 1] == page[..j] + [page[j]];
        WithoutConcat(page[..j], [page[j]], prefix);
        if page[j] != prefix && page[j] != key {
          more := more + [page[j]];
        }
      }
      assert page[..|page|] == page;
    }

    method Collect(pages: seq<seq<string>>, prefix: string, key: string) returns (files: seq<string>)
      requires forall i :: 0 <= i < |pages| && key in pages[i] ==> key == prefix
      ensures files == Without(Flatten(pages), prefix)
    {
      files := [];
      for i := 0 to |pages|
        invariant files == Without(Flatten(pages[..i]), prefix)
      {
        files := Append(files, pages[i], prefix, key);
        FlattenPrefix(pages, i);
        WithoutConcat(Flatten(pages[..i]), pages[i], prefix);
      }
      assert pages[..|pages|] == pages;
    }

    /** Everything strictly below a directory, page by page, skipping the directory's
        own marker. */
    method ListAll(key: string) returns (files: seq<string>)
      requires Valid()
      ensures files == Children(objects, key)
      ensures forall k :: k in files <==> k in objects && Dir(key) < k
      ensures forall i, j :: 0 <= i < j < |files| ==> Before(files[i], files[j])
    {
      var prefix := Dir(key);
      var pages := cut(Sorted(Listed(objects, key)));
      OwnKeyIsMarker(objects, key, pages);
      files := Collect(pages, prefix, key);
      ChildrenListed(objects, key);
      forall i, j | 0 <= i < j < |files| ensures Before(files[i], files[j]) {
        SortedInOrder(Below(objects, prefix), i, j);
      }
    }

    method CopySingle(src: string, dst: string) returns (r: Result<()>)
      modifies this
      ensures r == if src !in old(objects) then Err(NotExist) else if dst == "" then Err(EmptyKey) else Ok(())
      ensures objects == if r.Ok? then old(objects)[dst := old(objects)[src]] else old(objects)
    {
      if src !in objects { return Err(NotExist); }
      if dst == "" { return Err(EmptyKey); }
      objects := objects[dst := objects[src]];
      return Ok(());
    }

    /** Recursive copy. It terminates for every destination, and what it makes of a
        directory is CopyMade. */
    method Copy(src: string, dst: string) returns (r: Result<()>)
      requires Valid()
      modifies this
      ensures !Directory(old(objects), src) ==>
                && r == (if src !in old(objects) then Err(NotExist) else if dst == "" then Err(EmptyKey) else Ok(()))
                && objects == (if r.Ok? then old(objects)[dst := old(objects)[src]] else old(objects))
      ensures Directory(old(objects), src) ==> r.Ok? && CopyMade(old(objects), objects, src, dst)
      decreases MarkersBelow(objects, Dir(src)), 2
    {
      InfoFinds(objects, src);
      if InfoOf(objects, src) != Ok(IsDir) {
        r := CopySingle(src, dst);
        return;
      }
      var children := ListAll(src);
      r := CopyAll(objects, src, dst, children);
    }

    /** The children of a directory, listed when the bucket was `was`. */
    method CopyAll(ghost was: Objects, src: string, dst: string, children: seq<string>) returns (r: Result<()>)
      requires Valid() && objects == was && children == Children(was, src)
      modifies this
      ensures r.Ok? && CopyMade(was, objects, src, dst)
      decreases MarkersBelow(was, Dir(src)), 1
    {
      for i := 0 to |children|
        invariant Additive(was, objects, Landing(src, dst))
        invariant ReachesUpTo(objects, src, dst, children, i)
        invariant OnlyMarkers(was, Dir(src)) ==> objects == was
        invariant Tidy(was, Dir(src)) && Clear(was, src, dst) ==> Tracked(was, objects, src, dst, children, i)
        invariant Clear(was, src, dst) && Separate(was, src, dst) ==>
                    Partial(was, objects, src, dst) && LandedUpTo(was, objects, src, dst, children, i)
      {
        ghost var now := objects;
        ChildBelow(was, src, i);
        r := CopyChild(was, src, dst, children[i]);
        if r.Err? { return; }
        ReachesOneMore(was, now, objects, src, dst, i);
        if Tidy(was, Dir(src)) && Clear(was, src, dst) {
          TrackedOneMore(was, now, objects, src, dst, i);
        }
        if Clear(was, src, dst) && Separate(was, src, dst) {
          LandedOneMore(was, now, objects, src, dst, i);
        }
      }
      AllReached(was, objects, src, dst);
      if Tidy(was, Dir(src)) && Clear(was, src, dst) {
        TrackedAll(was, objects, src, dst);
      }
      if Clear(was, src, dst) && Separate(was, src, dst) {
        AllLanded(was, objects, src, dst);
      }
      return Ok(());
    }

    /** One child of a directory being copied; `was` is the bucket when the directory
        was listed. */
    method CopyChild(ghost was: Objects, src: string, dst: string, child: string) returns (r: Result<()>)
      requires Valid() && child in was && Dir(src) < child
      requires Additive(was, objects, Landing(src, dst))
      requires Clear(was, src, dst) && Separate(was, src, dst) ==> Partial(was, objects, src, dst)
      modifies this
      ensures r.Ok? && Additive(was, objects, Landing(src, dst)) && old(objects).Keys <= objects.Keys
      ensures ChildStep(old(objects), objects, src, dst, child)
      ensures Clear(was, src, dst) && Separate(was, src, dst) ==>
                && Partial(was, objects, src, dst)
                && (!IsMarker(child) ==> Landed(was, objects, src, dst, child))
                && StaysLanded(was, old(objects), objects, src, dst)
      decreases MarkersBelow(was, Dir(src)), 0
    {
      AdditiveMarkers(was, objects, Landing(src, dst), Dir(src), child);
      ghost var now := objects;
      var info := InfoOf(objects, child);
      if info.Err? { return Err(NotExist); }
      assert src <= Dir(src);
      var dstKey := Target(src, dst, child);
      if info.value.IsDir? {
        r := Copy(child, dstKey);
        AdditiveDir(was, now, objects, src, dst, child);
        if Clear(was, src, dst) && Separate(was, src, dst) {
          NestedClear(was, now, src, dst, child);
          DirStep(was, now, objects, src, dst, child);
        }
      } else {
        AdditiveObject(was, now, src, dst, child);
        r := CopySingle(child, dstKey);
        if Clear(was, src, dst) && Separate(was, src, dst) {
          ObjectStep(was, now, src, dst, child);
        }
      }
    }

    // -------------------------------------------------------------- delete

    /** Deletes one object; deleting an absent one is no error. */
    method DeleteObject(key: string) returns (r: Result<()>)
      modifies this
      ensures r == if key == "" then Err(EmptyKey) else Ok(())
      ensures objects == if r.Ok? then old(objects) - {key} else old(objects)
    {
      if key == "" { return Err(EmptyKey); }
      objects := objects - {key};
      return Ok(());
    }

    /** Recursive delete. It succeeds exactly when no marker strictly below the
        directory has an object below it, and then removes everything strictly below
        the directory and the key itself; the directory's own marker goes only when the
        key is spelt with its slash. Whatever happens, it removes nothing else; when it
        stops, it does so after the first marker with an object but no non-empty marker
        below it. */
    method DeleteAll(key: string) returns (r: Result<()>)
      requires Valid()
      modifies this
      ensures r.Ok? <==> key != "" && Tidy(old(objects), Dir(key))
      ensures Tidy(old(objects), Dir(key)) ==>
                objects == old(objects) - Below(old(objects), Dir(key)) - (if key == "" then {} else {key})
      ensures r.Ok? ==>
                && (forall k :: k in objects <==> k in old(objects) && !(Dir(key) < k) && k != key)
                && (forall k :: k in objects ==> objects[k] == old(objects)[k])
      ensures r.Err? ==> Pruned(old(objects), objects, Dir(key))
      ensures !Tidy(old(objects), Dir(key)) ==> Stopped(old(objects), objects, Dir(key))
      decreases Below(objects, Dir(key)), 1
    {
      ghost var was := objects;
      var children := ListAll(key);
      NothingDeleted(was, key);
      for i := 0 to |children|
        invariant Progress(was, objects, key, children, i)
      {
        r := DeleteChild(was, key, children, i);
        if r.Err? { return; }
      }
      AllDeleted(was, objects, key);
      r := DeleteObject(key);
    }

    /** The next child of a directory being deleted; `was` is the bucket when the
        directory was listed. */
    method DeleteChild(ghost was: Objects, key: string, children: seq<string>, i: nat) returns (r: Result<()>)
      requires Valid() && children == Children(was, key) && i < |children| && Progress(was, objects, key, children, i)
      modifies this
      ensures r.Ok? ==> Progress(was, objects, key, children, i + 1)
      ensures r.Err? ==> !Tidy(was, Dir(key)) && Pruned(was, objects, Dir(key)) && Stopped(was, objects, Dir(key))
      decreases Below(was, Dir(key)), 0
    {
      ghost var now := objects;
      var child := children[i];
      ChildBelow(was, key, i);
      FewerBelow(was, now, key, child);
      ChildState(was, now, key, i);
      var info := InfoOf(objects, child);
      if info.Err? {
        StopsHere(was, now, key, i);
        return Err(NotExist);
      }
      if info.value.IsDir? {
        r := DeleteAll(child);
        if r.Ok? {
          MarkerDeleted(was, now, objects, key, i);
        } else {
          UntidyBelow(was, now, Dir(key), child);
          StopsInside(was, now, objects, key, i);
        }
      } else {
        r := DeleteObject(child);
        ObjectDeleted(was, now, objects, key, i);
      }
    }

    method Delete(key: string) returns (r: Result<()>)
      requires Valid()
      modifies this
      ensures !Directory(old(objects), key) ==>
                r == (if key == "" then Err(EmptyKey) else Ok(())) && objects == old(objects) - {key}
      ensures key !in old(objects) && r.Ok? ==> Below(objects, Dir(key)) == {}
      ensures Directory(old(objects), key) ==>
                && (r.Ok? <==> key != "" && Tidy(old(objects), Dir(key)))
                && (r.Ok? ==> objects == old(objects) - Below(old(objects), Dir(key)) - {key})
                && (r.Err? ==> Pruned(old(objects), objects, Dir(key)))
                && (!Tidy(old(objects), Dir(key)) ==> Stopped(old(objects), objects, Dir(key)))
    {
      InfoFinds(objects, key);
      NothingListed(objects, key);
      if InfoOf(objects, key) == Ok(IsDir) {
        r := DeleteAll(key);
      } else {
        r := DeleteObject(key);
      }
    }

    // -------------------------------------------------------------- move

    /** Copy, then delete the source. An object moved onto itself is lost, moved
        anywhere else it is kept. What a move makes of a directory is DirMoved. */
    method Move(src: string, dst: string) returns (r: Result<()>)
      requires Valid()
      modifies this
      ensures !Directory(old(objects), src) ==>
                && r == (if src !in old(objects) then Err(NotExist) else if dst == "" then Err(EmptyKey) else Ok(()))
                && objects == (if r.Ok? then old(objects)[dst := old(objects)[src]] - {src} else old(objects))
                && (r.Ok? ==> (dst in objects <==> src != dst))
      ensures Directory(old(objects), src) ==>
                && Confined(old(objects), objects, src, dst)
                && DirMoved(old(objects), objects, src, dst, r.Ok?)
                && MovedOutside(old(objects), objects, src, dst, r.Ok?)
                && MovedInside(old(objects), objects, src, dst, r.Ok?)
    {
      ghost var was := objects;
      InfoFinds(was, src);
      r := Copy(src, dst);
      if r.Err? { return; }
      ghost var copied := objects;
      InfoFinds(copied, src);
      r := Delete(src);
      if InfoOf(was, src) == Ok(IsDir) {
        DeletedKeys(copied, objects, src, r.Ok?);
        AfterAnyDelete(was, copied, objects, src, dst);
        AfterMove(was, copied, objects, src, dst, r.Ok?);
        AfterMoveOutside(was, copied, objects, src, dst, r.Ok?);
        AfterMoveInside(was, copied, objects, src, dst, r.Ok?);
      }
    }
  }

  lemma {:induction false} FlattenHas(pages: seq<seq<string>>, i: nat, j: nat)
    requires i < |pages| && j < |pages[i]|
    ensures pages[i][j] in Flatten(pages)
    decreases i
  {
    if i > 0 {
      FlattenHas(pages[1..], i - 1, j);
    }
  }

  /** While copying, a listed child is still there, and the markers below a child
      directory are fewer than those below its parent. */
  lemma AdditiveMarkers(was: Objects, now: Objects, landing: string, prefix: string, child: string)
    requires Additive(was, now, landing) && child in was && prefix < child
    ensures child in now && (InfoOf(now, child) == Ok(IsDir) <==> IsMarker(child))
    ensures InfoOf(now, child).Ok?
    ensures IsMarker(child) ==> MarkersBelow(now, child) < MarkersBelow(was, prefix)
  {
    if IsMarker(child) {
      assert child in MarkersBelow(was, prefix) && child !in MarkersBelow(now, child);
    }
  }

  /** A key below the prefix is never the unslashed key itself. */
  lemma OwnKeyIsMarker(objects: Objects, key: string, pages: seq<seq<string>>)
    requires Flatten(pages) == Sorted(Listed(objects, key))
    ensures forall i :: 0 <= i < |pages| && key in pages[i] ==> key == Dir(key)
  {
    forall i | 0 <= i < |pages| && key in pages[i] ensures key == Dir(key) {
      var j :| 0 <= j < |pages[i]| && pages[i][j] == key;
      FlattenHas(pages, i, j);
      assert key in Listed(objects, key);
    }
  }
}
