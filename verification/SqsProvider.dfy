/** The SQS provider's listener registry as it is kept: a map of slices, each over a
    backing array of its own that removal compacts in place. */
module SqsProvider {
  import opened SqsRegistry

  /** A slice: the first `len` elements of a backing array. */
  datatype Slice = Slice(arr: array<Entry>, len: nat)

  lemma NamedSnoc(es: seq<Entry>, e: Entry, name: string, with: bool)
    ensures Named(es + [e], name, with) == Named(es, name, with) + Pick(e, name, with)
  {
    assert (es + [e])[..|es|] == es;
  }

  lemma IdsSnoc(es: seq<Entry>, e: Entry)
    ensures Ids(es + [e]) == Ids(es) + [e.id]
  {
    assert (es + [e])[..|es|] == es;
  }

  lemma {:induction false} RunSnoc(r: Registry, ops: seq<Op>, op: Op)
    ensures Run(r, ops + [op]) == Apply(Run(r, ops), op)
    decreases |ops|
  {
    if ops == [] {
      assert [] + [op] == [op] && [op][1..] == [];
    } else {
      assert (ops + [op])[1..] == ops[1..] + [op];
      RunSnoc(Apply(r, ops[0]), ops[1..], op);
    }
  }

  lemma OneMoreOp(ops: seq<Op>, op: Op, r: Registry)
    requires r == Apply(Run(EMPTY, ops), op)
    ensures r == Run(EMPTY, ops + [op])
  {
    RunSnoc(EMPTY, ops, op);
  }

  /** What one more entry adds to a pass that keeps the entries with another name and
      cancels those with the name. */
  predicate Turn(e: Entry, name: string, kept: seq<Entry>, kept': seq<Entry>, ids: seq<nat>, ids': seq<nat>) {
    if e.name == name then kept' == kept && ids' == ids + [e.id] else kept' == kept + [e] && ids' == ids
  }

  lemma OneMoreEntry(es: seq<Entry>, e: Entry, name: string)
    ensures Turn(e, name, Named(es, name, false), Named(es + [e], name, false),
                 Ids(Named(es, name, true)), Ids(Named(es + [e], name, true)))
  {
    var kept, named := Named(es, name, false), Named(es, name, true);
    NamedSnoc(es, e, name, true);
    NamedSnoc(es, e, name, false);
    IdsSnoc(named, e);
    assert kept + [] == kept && named + [] == named;
  }

  function Kept(es: seq<Entry>, name: string, r: nat): seq<Entry>
    requires r <= |es|
  {
    Named(es[..r], name, false)
  }

  function Cancelled(es: seq<Entry>, name: string, r: nat): seq<nat>
    requires r <= |es|
  {
    Ids(Named(es[..r], name, true))
  }

  lemma StageTurn(es: seq<Entry>, name: string, r: nat)
    requires r < |es|
    ensures Turn(es[r], name, Kept(es, name, r), Kept(es, name, r + 1),
                 Cancelled(es, name, r), Cancelled(es, name, r + 1))
  {
    assert es[..r + 1] == es[..r] + [es[r]];
    OneMoreEntry(es[..r], es[r], name);
  }

  /** The stages of a pass over `es`. */
  lemma Stages(es: seq<Entry>, name: string) returns (kept: seq<seq<Entry>>, ids: seq<seq<nat>>)
    ensures |kept| == |es| + 1 && |ids| == |es| + 1 && kept[0] == [] && ids[0] == []
    ensures forall r :: 0 <= r < |es| ==> Turn(es[r], name, kept[r], kept[r + 1], ids[r], ids[r + 1])
    ensures kept[|es|] == Named(es, name, false) && ids[|es|] == Ids(Named(es, name, true))
  {
    kept := seq(|es| + 1, r requires 0 <= r <= |es| => Kept(es, name, r));
    ids := seq(|es| + 1, r requires 0 <= r <= |es| => Cancelled(es, name, r));
    forall r | 0 <= r < |es| ensures Turn(es[r], name, kept[r], kept[r + 1], ids[r], ids[r + 1]) {
      StageTurn(es, name, r);
    }
    assert es[..|es|] == es;
  }

  /** Keeps the entries with another name, in order, at the front of the same array,
      and returns the ids it cancelled on the way. */
  method Compact(a: array<Entry>, n: nat, name: string) returns (w: nat, dropped: seq<nat>)
    requires n <= a.Length
    modifies a
    ensures w <= n && a[..w] == Named(old(a[..n]), name, false)
    ensures dropped == Ids(Named(old(a[..n]), name, true))
  {
    ghost var was := a[..n];
    ghost var kept, ids := Stages(was, name);
    w, dropped := 0, [];
    for r := 0 to n
      invariant w <= r && a[..w] == kept[r] && dropped == ids[r]
      invariant forall k :: r <= k < n ==> a[k] == was[k]
    {
      var e := a[r];
      assert Turn(was[r], name, kept[r], kept[r + 1], ids[r], ids[r + 1]);
      if e.name == name {
        dropped := dropped + [e.id];
      } else {
        a[w] := e;
        assert a[..w + 1] == a[..w] + [e];
        w := w + 1;
      }
    }
  }

  /** The ids of a slice's entries, in order. */
  method IdsOf(s: Slice) returns (ids: seq<nat>)
    requires s.len <= s.arr.Length
    ensures ids == Ids(s.arr[..s.len])
  {
    ids := [];
    for i := 0 to s.len
      invariant ids == Ids(s.arr[..i])
    {
      assert s.arr[..i + 1] == s.arr[..i] + [s.arr[i]];
      IdsSnoc(s.arr[..i], s.arr[i]);
      ids := ids + [s.arr[i].id];
    }
  }

  /** Appends in place while the array has room, and in a bigger array otherwise. */
  method AppendTo(s: Slice, e: Entry) returns (t: Slice)
    requires s.len <= s.arr.Length
    modifies s.arr
    ensures t.len <= t.arr.Length && t.arr[..t.len] == old(s.arr[..s.len]) + [e]
    ensures t.arr == s.arr || fresh(t.arr)
  {
    var arr := s.arr;
    if s.len == arr.Length {
      arr := new Entry[2 * s.len + 1];
      for i := 0 to s.len
        invariant arr[..i] == s.arr[..i]
        modifies arr
      {
        arr[i] := s.arr[i];
        assert arr[..i + 1] == arr[..i] + [s.arr[i]] && s.arr[..i + 1] == s.arr[..i] + [s.arr[i]];
      }
    }
    arr[s.len] := e;
    t := Slice(arr, s.len + 1);
    assert arr[..s.len + 1] == arr[..s.len] + [e];
  }

  class Provider {
    var listeners: map<string, Slice>
    var closed: bool
    /** The number the next listener gets. */
    var nextId: nat
    /** The registry these fields hold, with every listener ever registered and every
        cancel the registry has called. */
    ghost var view: Registry
    /** The operations so far. */
    ghost var ops: seq<Op>
    /** The backing arrays in use. */
    ghost var arrays: set<array<Entry>>

    ghost predicate Holds(h: string)
      reads this, arrays
    {
      && h in listeners && h in view.lists && listeners[h].arr in arrays
      && listeners[h].len <= listeners[h].arr.Length
      && listeners[h].arr[..listeners[h].len] == view.lists[h]
    }

    /** No host but `host` uses `arr`, and the other slices hold their lists. */
    ghost predicate Others(host: string, arr: array<Entry>)
      reads this, arrays
    {
      forall h :: h != host && (h in listeners || h in view.lists) ==> Holds(h) && listeners[h].arr != arr
    }

    ghost predicate Unshared()
      reads this
    {
      forall h, g :: h in listeners && g in listeners && h != g ==> listeners[h].arr != listeners[g].arr
    }

    /** The slices hold the registry's lists, and no two hosts share an array. */
    ghost predicate Shape()
      reads this, arrays
    {
      && nextId == |view.added|
      && Unshared()
      && (forall h :: h in listeners || h in view.lists ==> Holds(h))
    }

    ghost predicate Valid()
      reads this, arrays
    {
      Shape() && view == Run(EMPTY, ops)
    }

    constructor ()
      ensures Valid() && view == EMPTY && ops == [] && !closed && arrays == {}
    {
      listeners := map[];
      closed := false;
      nextId := 0;
      view, ops, arrays := EMPTY, [], {};
    }

    /** Every listener this provider was ever given is listed and was never cancelled by
        the registry, or is gone and was cancelled by it exactly once. */
    lemma EveryListenerAccounted()
      requires Valid()
      ensures Accounted(view)
    {
      RunAccounted(EMPTY, ops);
    }

    /** Registers a listener at the end of its host's list. */
    method AddListener(host: string, name: string)
      requires Valid()
      modifies this, arrays
      ensures Valid() && ops == old(ops) + [Add(host, name)]
      ensures view == Apply(old(view), Add(host, name)) && closed == old(closed)
      ensures var e := Entry(|old(view).added|, name);
        && view.added == old(view).added + [Added(host, e)] && view.cancelled == old(view).cancelled
        && view.lists == old(view).lists[host := ListOf(old(view).lists, host) + [e]]
      ensures fresh(arrays - old(arrays))
    {
      ghost var before := view;
      Insert(host, Entry(nextId, name));
      Record(Add(host, name), before);
    }

    method Insert(host: string, e: Entry)
      requires Shape() && e.id == nextId
      modifies this`listeners, this`view, this`arrays, this`nextId, arrays
      ensures Shape() && view == Apply(old(view), Add(host, e.name))
      ensures fresh(arrays - old(arrays))
    {
      var s := Extended(host, e);
      Put(host, s);
      nextId := nextId + 1;
      view := view.(added := view.added + [Added(host, e)]);
    }

    /** The slice with one more entry. */
    method Extended(host: string, e: Entry) returns (s: Slice)
      requires Shape()
      modifies arrays
      ensures s.len <= s.arr.Length && s.arr[..s.len] == ListOf(view.lists, host) + [e]
      ensures s.arr in arrays || fresh(s.arr)
      ensures Unshared() && Others(host, s.arr)
    {
      s := Room(host);
      s := AppendTo(s, e);
      assert forall h :: h != host && (h in listeners || h in view.lists) ==> old(Holds(h));
    }

    method Put(host: string, s: Slice)
      requires Others(host, s.arr) && Unshared() && nextId == |view.added|
      requires s.len <= s.arr.Length
      modifies this`listeners, this`view, this`arrays
      ensures Shape() && view == old(view).(lists := old(view).lists[host := s.arr[..s.len]])
      ensures arrays == old(arrays) + {s.arr}
    {
      arrays := arrays + {s.arr};
      listeners := listeners[host := s];
      view := view.(lists := view.lists[host := s.arr[..s.len]]);
      assert forall h :: h != host && (h in listeners || h in view.lists) ==> old(Holds(h));
    }

    /** The slice a host's next listener is appended to. */
    method Room(host: string) returns (s: Slice)
      requires Shape()
      ensures s.len <= s.arr.Length && s.arr[..s.len] == ListOf(view.lists, host)
      ensures if host in listeners then s == listeners[host] else fresh(s.arr)
    {
      if host in listeners {
        assert Holds(host);
        s := listeners[host];
      } else {
        var arr := new Entry[1];
        s := Slice(arr, 0);
        assert host in view.lists ==> Holds(host);
      }
    }

    /** Cancels every listener of a host and forgets the host. */
    method RemoveListeners(host: string)
      requires Valid()
      modifies this
      ensures Valid() && ops == old(ops) + [RemoveAll(host)]
      ensures view == Apply(old(view), RemoveAll(host)) && closed == old(closed)
      ensures host !in listeners && RemovedAll(old(view), view, host)
      ensures arrays == old(arrays)
    {
      ghost var before := view;
      EveryListenerAccounted();
      Unlist(host);
      Record(RemoveAll(host), before);
      RemoveAllMeans(before, host);
    }

    method Unlist(host: string)
      requires Shape()
      modifies this`listeners, this`view
      ensures Shape() && view == WithoutHost(old(view), host) && host !in listeners
    {
      var ids: seq<nat> := [];
      assert host in listeners || host in view.lists ==> Holds(host);
      if host in listeners {
        ids := IdsOf(listeners[host]);
      }
      Forget(host);
      Cancel(ids);
    }

    method Forget(host: string)
      requires Unshared() && nextId == |view.added|
      requires forall h :: h != host && (h in listeners || h in view.lists) ==> Holds(h)
      modifies this`listeners, this`view
      ensures Shape() && view == old(view).(lists := old(view).lists - {host})
    {
      listeners := listeners - {host};
      view := view.(lists := view.lists - {host});
      assert forall h :: h in listeners || h in view.lists ==> old(Holds(h));
    }

    /** Records an operation. */
    ghost method Record(op: Op, before: Registry)
      requires Shape() && before == Run(EMPTY, ops) && view == Apply(before, op)
      modifies this`ops
      ensures Valid() && ops == old(ops) + [op]
    {
      OneMoreOp(ops, op, view);
      ops := ops + [op];
    }

    /** Cancels the listeners of a host that have the given name; the others stay, in
        order and in the same array. */
    method RemoveNamedListener(host: string, name: string)
      requires Valid()
      modifies this, arrays
      ensures Valid() && ops == old(ops) + [RemoveNamed(host, name)]
      ensures view == Apply(old(view), RemoveNamed(host, name)) && closed == old(closed)
      ensures RemovedNamed(old(view), view, host, name)
      ensures arrays == old(arrays)
    {
      ghost var before := view;
      EveryListenerAccounted();
      Prune(host, name);
      Record(RemoveNamed(host, name), before);
      RemoveNamedMeans(before, host, name);
    }

    method Prune(host: string, name: string)
      requires Shape()
      modifies this`listeners, this`view, this`arrays, arrays
      ensures Shape() && view == WithoutNamed(old(view), host, name) && arrays == old(arrays)
    {
      if host !in listeners {
        assert host in view.lists ==> Holds(host);
        return;
      }
      var s, dropped := Compacted(host, name);
      Replace(host, s);
      Cancel(dropped);
    }

    method Replace(host: string, s: Slice)
      requires Others(host, s.arr) && Unshared() && nextId == |view.added|
      requires s.len <= s.arr.Length && s.arr in arrays
      modifies this`listeners, this`view, this`arrays
      ensures Shape() && view == old(view).(lists := WithList(old(view).lists, host, s.arr[..s.len]))
      ensures arrays == old(arrays)
    {
      if s.len == 0 {
        Forget(host);
      } else {
        Put(host, s);
      }
    }

    method Cancel(ids: seq<nat>)
      requires Shape()
      modifies this`view
      ensures Shape() && view == old(view).(cancelled := old(view).cancelled + multiset(ids))
    {
      view := view.(cancelled := view.cancelled + multiset(ids));
      assert forall h :: h in listeners || h in view.lists ==> old(Holds(h));
    }

    method Compacted(host: string, name: string) returns (s: Slice, dropped: seq<nat>)
      requires Shape() && host in listeners
      modifies arrays
      ensures host in view.lists && s.arr in arrays && s.len <= s.arr.Length
      ensures s.arr[..s.len] == Named(view.lists[host], name, false)
      ensures dropped == Ids(Named(view.lists[host], name, true))
      ensures Unshared() && Others(host, s.arr)
    {
      assert Holds(host);
      s := listeners[host];
      var w, ids := Compact(s.arr, s.len, name);
      s, dropped := Slice(s.arr, w), ids;
      assert forall h :: h != host && (h in listeners || h in view.lists) ==> old(Holds(h));
    }

    /** Cancels every listener of every host, hosts in no particular order, and forgets
        them all. */
    method Close()
      requires Valid()
      modifies this
      ensures Valid() && ops == old(ops) + [SqsRegistry.Close]
      ensures view == Apply(old(view), SqsRegistry.Close) && ClosedAll(old(view), view)
      ensures closed && listeners == map[] && arrays == old(arrays)
    {
      ghost var before := view;
      EveryListenerAccounted();
      closed := true;
      DropAll();
      Record(SqsRegistry.Close, before);
      CloseMeans(before);
    }

    method DropAll()
      requires Shape() && Accounted(view)
      modifies this`listeners, this`view
      ensures Shape() && listeners == map[]
      ensures view == old(view).(lists := map[],
                                 cancelled := old(view).cancelled + multiset(ListedIds(old(view).lists)))
    {
      ghost var ids := AllIds();
      listeners := map[];
      view := view.(lists := map[], cancelled := view.cancelled + ids);
    }

    /** The ids cancelled by going through the hosts in an arbitrary order. */
    method AllIds() returns (ids: multiset<nat>)
      requires Shape() && Accounted(view)
      ensures ids == multiset(ListedIds(view.lists))
    {
      ids := multiset{};
      var left := listeners;
      ghost var rest := view.lists;
      while left != map[]
        invariant left.Keys == rest.Keys
        invariant forall h :: h in left ==> h in listeners && left[h] == listeners[h]
        invariant forall h :: h in rest ==> h in view.lists && rest[h] == view.lists[h]
        invariant ids + multiset(ListedIds(rest)) == multiset(ListedIds(view.lists))
        decreases left.Keys
      {
        var host :| host in left;
        assert Holds(host);
        var some := IdsOf(left[host]);
        TakeHost(view, rest, host);
        ids := ids + multiset(some);
        left, rest := left - {host}, rest - {host};
      }
    }
  }

  /** Closing host by host cancels each listener once. */
  lemma TakeHost(r: Registry, left: map<string, seq<Entry>>, host: string)
    requires Accounted(r) && host in left
    requires forall h :: h in left ==> h in r.lists && left[h] == r.lists[h]
    ensures multiset(ListedIds(left)) == multiset(ListedIds(left - {host})) + multiset(Ids(left[host]))
  {
    forall id
      ensures multiset(ListedIds(left))[id] ==
              multiset(ListedIds(left - {host}))[id] + multiset(Ids(left[host]))[id]
    {
      IdsCount(left[host], id);
      TakeId(r, left, host, id);
    }
  }

  lemma TakeId(r: Registry, left: map<string, seq<Entry>>, host: string, id: nat)
    requires Accounted(r) && host in left
    requires forall h :: h in left ==> h in r.lists && left[h] == r.lists[h]
    ensures id in ListedIds(left) <==> id in ListedIds(left - {host}) || (exists e :: e in left[host] && e.id == id)
    ensures !(id in ListedIds(left - {host}) && (exists e :: e in left[host] && e.id == id))
  {
    ListedById(r, host, id);
    if id in ListedIds(left) {
      var h, i :| h in left && 0 <= i < |left[h]| && left[h][i].id == id;
      assert ListedAs(r.added, h, r.lists[h][i]);
      if h != host { assert h in left - {host}; }
    }
    if id in ListedIds(left - {host}) {
      var h, i :| h in left - {host} && 0 <= i < |left[h]| && left[h][i].id == id;
      assert ListedAs(r.added, h, r.lists[h][i]);
      assert left[h][i].id in ListedIds(left);
    }
    if e :| e in left[host] && e.id == id {
      var i :| 0 <= i < |left[host]| && left[host][i] == e;
      assert left[host][i].id in ListedIds(left);
    }
  }
}
