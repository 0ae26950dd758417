/** GPU write tracking: the collation and the chunked dump of mali_kbase_gwt.c. */
module WriteTracking {
  const PAGE_SIZE: nat := 4096
  const CHUNK: nat := 32

  const EPERM: int := 1
  const EBUSY: int := 16
  const EINVAL: int := 22

  /** A run of pages that the GPU has written, all in one region. */
  datatype Entry = Entry(region: nat, page: nat, num: nat)

  type Page = (nat, nat)

  /** The (region, address) pairs that an entry stands for. */
  ghost function Pages(e: Entry): multiset<Page>
    decreases e.num
  {
    if e.num == 0 then multiset{}
    else multiset{(e.region, e.page)} + Pages(Entry(e.region, e.page + PAGE_SIZE, e.num - 1))
  }

  ghost function PagesOf(es: seq<Entry>): multiset<Page> {
    if es == [] then multiset{} else Pages(es[0]) + PagesOf(es[1..])
  }

  predicate Mergeable(a: Entry, b: Entry) {
    a.region == b.region && a.page + a.num * PAGE_SIZE == b.page
  }

  ghost predicate Sorted(es: seq<Entry>) {
    forall i, j :: 0 <= i < j < |es| ==> es[i].page <= es[j].page
  }

  ghost predicate Collated(es: seq<Entry>) {
    forall i :: 0 <= i < |es| - 1 ==> !Mergeable(es[i], es[i + 1])
  }

  // ----------------------------------------------------------------- pages

  lemma Assoc(a: multiset<Page>, b: multiset<Page>, c: multiset<Page>)
    ensures (a + b) + c == a + (b + c)
  {
  }

  lemma Swap(a: multiset<Page>, b: multiset<Page>, c: multiset<Page>)
    ensures a + (b + c) == b + (a + c)
  {
  }

  /** An entry stands for its pages, one after the other from its address on, once each. */
  lemma {:induction false} PagesAre(e: Entry, region: nat, addr: nat)
    ensures Pages(e)[(region, addr)] ==
      if region == e.region && e.page <= addr < e.page + e.num * 4096 && (addr - e.page) % 4096 == 0 then 1 else 0
    decreases e.num
  {
    if e.num > 0 {
      PagesAre(Entry(e.region, e.page + PAGE_SIZE, e.num - 1), region, addr);
    }
  }

  lemma Unfold(region: nat, page: nat, num: nat)
    ensures Pages(Entry(region, page, 0)) == multiset{}
    ensures num > 0 ==>
      Pages(Entry(region, page, num)) == multiset{(region, page)} + Pages(Entry(region, page + PAGE_SIZE, num - 1))
  {
  }

  lemma Cons(e: Entry, es: seq<Entry>)
    ensures PagesOf([e] + es) == Pages(e) + PagesOf(es)
  {
    assert ([e] + es)[1..] == es;
  }

  lemma EmptyPages()
    ensures PagesOf([]) == multiset{}
  {
  }

  /** Merging two adjacent entries of one region keeps the pages. */
  lemma {:induction false} MergedPages(a: Entry, b: Entry)
    requires Mergeable(a, b)
    ensures Pages(Entry(a.region, a.page, a.num + b.num)) == Pages(a) + Pages(b)
    decreases a.num
  {
    hide Pages;
    if a.num == 0 {
      Unfold(a.region, a.page, 0);
      assert Entry(a.region, a.page, a.num + b.num) == b;
    } else {
      var tail := Entry(a.region, a.page + PAGE_SIZE, a.num - 1);
      MergedPages(tail, b);
      Unfold(a.region, a.page, a.num);
      Unfold(a.region, a.page, a.num + b.num);
      Assoc(multiset{(a.region, a.page)}, Pages(tail), Pages(b));
    }
  }

  lemma {:induction false} PagesOfConcat(xs: seq<Entry>, ys: seq<Entry>)
    ensures PagesOf(xs + ys) == PagesOf(xs) + PagesOf(ys)
  {
    hide Pages, PagesOf;
    if xs == [] {
      assert xs + ys == ys;
      EmptyPages();
    } else {
      PagesOfConcat(xs[1..], ys);
      assert xs == [xs[0]] + xs[1..];
      assert xs + ys == [xs[0]] + (xs[1..] + ys);
      Cons(xs[0], xs[1..]);
      Cons(xs[0], xs[1..] + ys);
      Assoc(Pages(xs[0]), PagesOf(xs[1..]), PagesOf(ys));
    }
  }

  /** A list of proper entries stands for at least one page. */
  lemma SomePages(es: seq<Entry>)
    requires es != [] && es[0].num > 0
    ensures (es[0].region, es[0].page) in PagesOf(es)
  {
    hide Pages, PagesOf;
    assert es == [es[0]] + es[1..];
    Cons(es[0], es[1..]);
    Unfold(es[0].region, es[0].page, es[0].num);
  }

  // --------------------------------------------------------------- sorting

  function Insert(e: Entry, es: seq<Entry>): seq<Entry> {
    if es == [] || e.page <= es[0].page then [e] + es else [es[0]] + Insert(e, es[1..])
  }

  /** list_sort: any sorted permutation will do. */
  function Sort(es: seq<Entry>): seq<Entry> {
    if es == [] then [] else Insert(es[0], Sort(es[1..]))
  }

  lemma {:induction false} InsertSorts(e: Entry, es: seq<Entry>)
    requires Sorted(es)
    ensures Sorted(Insert(e, es))
    ensures forall x :: x in Insert(e, es) <==> x == e || x in es
  {
    if !(es == [] || e.page <= es[0].page) {
      assert Sorted(es[1..]);
      InsertSorts(e, es[1..]);
      forall x | x in Insert(e, es[1..])
        ensures es[0].page <= x.page
      {
        if x in es[1..] {
          var k :| 0 <= k < |es[1..]| && es[1..][k] == x;
          assert es[k + 1] == x;
        }
      }
      assert forall x :: x in es <==> x == es[0] || x in es[1..];
    }
  }

  lemma {:induction false} InsertKeeps(e: Entry, es: seq<Entry>)
    ensures PagesOf(Insert(e, es)) == Pages(e) + PagesOf(es)
  {
    hide Pages, PagesOf;
    if es == [] || e.page <= es[0].page {
      Cons(e, es);
    } else {
      InsertKeeps(e, es[1..]);
      assert es == [es[0]] + es[1..];
      Cons(es[0], es[1..]);
      Cons(es[0], Insert(e, es[1..]));
      Swap(Pages(e), Pages(es[0]), PagesOf(es[1..]));
    }
  }

  lemma {:induction false} SortSorts(es: seq<Entry>)
    ensures Sorted(Sort(es)) && PagesOf(Sort(es)) == PagesOf(es) && forall x :: x in Sort(es) <==> x in es
  {
    hide Pages, PagesOf;
    if es != [] {
      SortSorts(es[1..]);
      InsertSorts(es[0], Sort(es[1..]));
      InsertKeeps(es[0], Sort(es[1..]));
      assert es == [es[0]] + es[1..];
      Cons(es[0], es[1..]);
    }
  }

  // --------------------------------------------------------------- merging

  /** The entry at pos is merged into the one before it. */
  function Merged(es: seq<Entry>, pos: nat): seq<Entry>
    requires 0 < pos < |es|
  {
    es[..pos - 1] + [Entry(es[pos - 1].region, es[pos - 1].page, es[pos - 1].num + es[pos].num)] + es[pos + 1..]
  }

  lemma MergeKeepsPages(es: seq<Entry>, pos: nat)
    requires 0 < pos < |es| && Mergeable(es[pos - 1], es[pos])
    ensures PagesOf(Merged(es, pos)) == PagesOf(es)
  {
    hide Pages, PagesOf;
    var a, b, rest := es[pos - 1], es[pos], es[pos + 1..];
    var ab := Entry(a.region, a.page, a.num + b.num);
    MergedPages(a, b);
    Cons(b, rest);
    Cons(a, [b] + rest);
    Cons(ab, rest);
    Assoc(Pages(a), Pages(b), PagesOf(rest));
    assert es == es[..pos - 1] + ([a] + ([b] + rest));
    assert Merged(es, pos) == es[..pos - 1] + ([ab] + rest);
    PagesOfConcat(es[..pos - 1], [a] + ([b] + rest));
    PagesOfConcat(es[..pos - 1], [ab] + rest);
  }

  /** In a collated list no entry starts where the one before it, of the same region, ends. */
  lemma CollatedMeans(es: seq<Entry>)
    ensures Collated(es) <==>
      forall i :: 0 <= i < |es| - 1 && es[i].region == es[i + 1].region ==> es[i].page + es[i].num * 4096 != es[i + 1].page
  {
    assert Collated(es) <==> forall i :: 0 <= i < |es| - 1 ==> !Mergeable(es[i], es[i + 1]);
    forall i | 0 <= i < |es| - 1
      ensures Mergeable(es[i], es[i + 1]) <==>
        es[i].region == es[i + 1].region && es[i].page + es[i].num * 4096 == es[i + 1].page
    {
    }
  }

  lemma MergeKeepsOrder(es: seq<Entry>, pos: nat)
    requires 0 < pos < |es| && Sorted(es) && Collated(es[..pos])
    ensures Sorted(Merged(es, pos)) && Collated(Merged(es, pos)[..pos])
    ensures Proper(es) ==> Proper(Merged(es, pos))
  {
    var m := Merged(es, pos);
    assert forall i :: 0 <= i < |m| ==> m[i].page == (if i < pos then es[i].page else es[i + 1].page);
    assert forall i :: 0 <= i < |m| ==> m[i].region == (if i < pos then es[i].region else es[i + 1].region);
    forall i | 0 <= i < pos - 1
      ensures !Mergeable(m[i], m[i + 1])
    {
      assert !Mergeable(es[..pos][i], es[..pos][i + 1]);
    }
  }

  /** Every entry stands for at least one page. */
  ghost predicate Proper(es: seq<Entry>) {
    forall e :: e in es ==> e.num > 0
  }

  // -------------------------------------------------------------- tracking

  class Tracker {
    var enabled: bool
    var current: seq<Entry>
    var snapshot: seq<Entry>
    /** pages recorded, reported to user space, and dropped by a failed copy, since the start */
    ghost var recorded: multiset<Page>
    ghost var reported: multiset<Page>
    ghost var dropped: multiset<Page>

    ghost predicate Conserved()
      reads this
    {
      recorded == reported + dropped + PagesOf(snapshot) + PagesOf(current)
    }

    ghost predicate Valid()
      reads this
    {
      && Conserved()
      && Sorted(snapshot) && Collated(snapshot)
      && Proper(snapshot) && Proper(current)
    }

    constructor ()
      ensures Valid() && !enabled
    {
      enabled, current, snapshot := false, [], [];
      recorded, reported, dropped := multiset{}, multiset{}, multiset{};
    }

    /** kbase_gpu_gwt_start */
    method Start() returns (err: int)
      requires Valid()
      modifies this
      ensures Valid() && enabled
      ensures if old(enabled) then err == -16 && recorded == old(recorded) && current == old(current) && snapshot == old(snapshot)
              else err == 0 && recorded == multiset{} && current == [] && snapshot == []
    {
      hide Pages, PagesOf;
      EmptyPages();
      if enabled {
        return -EBUSY;
      }
      current, snapshot, enabled := [], [], true;
      recorded, reported, dropped := multiset{}, multiset{}, multiset{};
      return 0;
    }

    /** kbase_gpu_gwt_stop */
    method Stop() returns (err: int)
      requires Valid()
      modifies this
      ensures Valid() && !enabled
      ensures if old(enabled) then err == 0 && current == [] && snapshot == []
              else err == -22 && current == old(current) && snapshot == old(snapshot) && recorded == old(recorded)
    {
      hide Pages, PagesOf;
      EmptyPages();
      if !enabled {
        return -EINVAL;
      }
      current, snapshot, enabled := [], [], false;
      recorded, reported, dropped := multiset{}, multiset{}, multiset{};
      return 0;
    }

    /** An entry is added to the current list. */
    method Add(e: Entry)
      requires Valid() && e.num > 0
      modifies this`current, this`recorded
      ensures Valid() && current == [e] + old(current) && recorded == old(recorded) + Pages(e)
    {
      hide Pages, PagesOf;
      Cons(e, current);
      AddLast(reported, dropped, PagesOf(snapshot), PagesOf(current), Pages(e));
      recorded := recorded + Pages(e);
      current := [e] + current;
    }

    /** A write fault on a page: recorded once until the next snapshot is taken. */
    method RecordFault(region: nat, page: nat)
      requires Valid() && enabled
      modifies this`current, this`recorded
      ensures Valid()
      ensures if exists e :: e in old(current) && e.page == page then current == old(current) && recorded == old(recorded)
              else current == [Entry(region, page, 1)] + old(current)
                   && recorded == old(recorded) + multiset{(region, page)}
    {
      hide Pages, PagesOf, Sorted, Collated;
      for i := 0 to |current|
        invariant forall k :: 0 <= k < i ==> current[k].page != page
      {
        if current[i].page == page {
          return;
        }
      }
      Unfold(region, page, 1);
      Unfold(region, page + PAGE_SIZE, 0);
      Add(Entry(region, page, 1));
    }

    /** kbase_gpu_gwt_collate */
    method Collate()
      modifies this`snapshot
      ensures PagesOf(snapshot) == PagesOf(old(snapshot)) && Sorted(snapshot) && Collated(snapshot)
      ensures Proper(old(snapshot)) ==> Proper(snapshot)
      ensures forall i :: 0 <= i < |snapshot| - 1 && snapshot[i].region == snapshot[i + 1].region ==>
        snapshot[i].page + snapshot[i].num * 4096 != snapshot[i + 1].page
    {
      hide Pages, PagesOf, Sorted, Mergeable, Merged;
      SortSorts(snapshot);
      snapshot := Sort(snapshot);
      var pos := 0;
      while pos < |snapshot|
        invariant 0 <= pos <= |snapshot|
        invariant PagesOf(snapshot) == PagesOf(old(snapshot)) && Sorted(snapshot)
        invariant Collated(snapshot[..pos])
        invariant Proper(old(snapshot)) ==> Proper(snapshot)
        decreases |snapshot| - pos
      {
        if pos == 0 || !Mergeable(snapshot[pos - 1], snapshot[pos]) {
          CollatedNext(snapshot, pos);
          pos := pos + 1;
        } else {
          MergeKeepsPages(snapshot, pos);
          MergeKeepsOrder(snapshot, pos);
          MergedSize(snapshot, pos);
          snapshot := Merged(snapshot, pos);
        }
      }
      assert snapshot[..pos] == snapshot;
      CollatedMeans(snapshot);
    }

    /** The first step of kbase_gpu_gwt_dump: when nothing is left of the last snapshot, what
        has been recorded since is collated into a new one. */
    method TakeSnapshot()
      requires Valid()
      modifies this`snapshot, this`current
      ensures Valid()
      ensures if old(snapshot) == [] then current == [] && PagesOf(snapshot) == PagesOf(old(current))
              else snapshot == old(snapshot) && current == old(current)
    {
      hide Pages, PagesOf, Sorted, Collated, Proper;
      EmptyPages();
      if snapshot == [] && current != [] {
        snapshot, current := current, [];
        Collate();
        ProperNil();
        AddLast(reported, dropped, multiset{}, multiset{}, PagesOf(snapshot));
      }
    }

    /** The inner loop of kbase_gpu_gwt_dump: up to 32 entries, and no more than the user
        buffer still holds, are taken off the snapshot. */
    method TakeChunk(len: nat, done: nat) returns (addrs: seq<nat>, sizes: seq<nat>)
      requires snapshot != [] && done < len
      modifies this`snapshot
      ensures var n := |addrs|;
        && 0 < n <= |old(snapshot)| && n == |sizes| && snapshot == old(snapshot)[n..]
        && n <= 32 && done + n <= len && (n < 32 && done + n < len ==> snapshot == [])
        && (forall i :: 0 <= i < n ==> addrs[i] == old(snapshot)[i].page && sizes[i] == old(snapshot)[i].num)
    {
      addrs, sizes := [], [];
      while snapshot != []
        invariant |addrs| == |sizes| <= |old(snapshot)| && snapshot == old(snapshot)[|addrs|..]
        invariant |addrs| < CHUNK && done + |addrs| < len
        invariant forall i :: 0 <= i < |addrs| ==> addrs[i] == old(snapshot)[i].page && sizes[i] == old(snapshot)[i].num
        decreases |snapshot|
      {
        addrs, sizes := addrs + [snapshot[0].page], sizes + [snapshot[0].num];
        snapshot := snapshot[1..];
        if |addrs| == CHUNK || len == done + |addrs| {
          break;
        }
      }
    }

    /** The copy of one chunk to user space succeeds or fails; either way its entries are
        off the snapshot. */
    method CopyChunk(ghost chunk: seq<Entry>, ok: bool)
      requires chunk != [] && Proper(chunk) && |chunk| <= CHUNK
      requires recorded == reported + dropped + PagesOf(chunk) + PagesOf(snapshot) + PagesOf(current)
      modifies this`reported, this`dropped
      ensures Conserved()
      ensures ok ==> reported == old(reported) + PagesOf(chunk) && dropped == old(dropped)
      ensures !ok ==> reported == old(reported) && dropped == old(dropped) + PagesOf(chunk) && dropped != old(dropped)
    {
      hide Pages, PagesOf;
      SomePages(chunk);
      if ok {
        MoveLeft(reported, dropped, PagesOf(chunk));
        reported := reported + PagesOf(chunk);
      } else {
        Assoc(reported, dropped, PagesOf(chunk));
        dropped := dropped + PagesOf(chunk);
        assert dropped[(chunk[0].region, chunk[0].page)] > old(dropped)[(chunk[0].region, chunk[0].page)];
      }
    }

    /** One turn of the outer loop of kbase_gpu_gwt_dump. */
    method NextChunk(len: nat, done: nat, ok: bool) returns (addrs: seq<nat>, sizes: seq<nat>)
      requires Valid() && snapshot != [] && done < len
      modifies this`snapshot, this`reported, this`dropped
      ensures Valid()
      ensures var n := |addrs|;
        && 0 < n <= |old(snapshot)| && snapshot == old(snapshot)[n..] && n <= 32 && done + n <= len
        && Shown(addrs, sizes, old(snapshot)) && (n < 32 && done + n < len ==> snapshot == [])
        && reported == (if ok then old(reported) + PagesOf(old(snapshot)[..n]) else old(reported))
        && dropped == (if ok then old(dropped) else old(dropped) + PagesOf(old(snapshot)[..n]))
      ensures !ok ==> dropped != old(dropped)
    {
      hide Pages, PagesOf, Sorted, Collated;
      ghost var list := snapshot;
      addrs, sizes := TakeChunk(len, done);
      ghost var chunk := list[..|addrs|];
      assert list == chunk + snapshot;
      PagesOfConcat(chunk, snapshot);
      TailInOrder(list, snapshot);
      Assoc(reported + dropped, PagesOf(chunk), PagesOf(snapshot));
      CopyChunk(chunk, ok);
    }

    /** The first entries of the list have been reported, and the others are still to come. */
    ghost predicate Copying(list: seq<Entry>, addrs: seq<nat>, sizes: seq<nat>, base: multiset<Page>)
      reads this
    {
      && Valid() && |addrs| + |snapshot| == |list| && snapshot == list[|addrs|..]
      && Shown(addrs, sizes, list) && SumIs(reported, base, list[..|addrs|])
    }

    /** One turn of the outer loop, for a chunk of which `missed` bytes cannot be copied. */
    method CopyNext(len: nat, missed: nat, addrs: seq<nat>, sizes: seq<nat>, ghost list: seq<Entry>, ghost base: multiset<Page>)
      returns (a: seq<nat>, s: seq<nat>)
      requires Copying(list, addrs, sizes, base) && snapshot != [] && |addrs| < len
      modifies this`snapshot, this`reported, this`dropped
      ensures Valid() && 0 < |a| <= |list| - |addrs| && snapshot == list[|addrs| + |a|..]
      ensures |a| == var n := if |list| < len then |list| else len; if |addrs| + 32 < n then 32 else n - |addrs|
      ensures missed == 0 ==> Copying(list, addrs + a, sizes + s, base) && dropped == old(dropped)
      ensures missed != 0 ==> reported == old(reported) && dropped != old(dropped)
      ensures missed != 0 ==> SumIs(dropped, old(dropped), list[|addrs|..|addrs| + |a|])
    {
      hide Pages, PagesOf, Sorted, Collated, Proper, Conserved;
      ghost var before := reported;
      a, s := NextChunk(len, |addrs|, missed == 0);
      ShownExtend(addrs, sizes, list, a, s);
      assert list[|addrs|..][..|a|] == list[|addrs|..|addrs| + |a|];
      SumExtend(before, base, list, |addrs|, |addrs| + |a|);
    }

    /** The outer loop of kbase_gpu_gwt_dump. `copies` tells for each chunk how many bytes of
        it cannot be copied to user space; chunks beyond are copied. */
    method CopyOut(len: nat, copies: seq<nat>) returns (err: int, addrs: seq<nat>, sizes: seq<nat>)
      requires Valid() && len > 0
      modifies this`snapshot, this`reported, this`dropped
      ensures Valid()
      ensures var list, n, rest := old(snapshot), |addrs|, |old(snapshot)| - |snapshot|;
        && n <= len && n <= rest && snapshot == list[rest..] && Shown(addrs, sizes, list)
        && SumIs(reported, old(reported), list[..n])
        && (err == 0 ==> dropped == old(dropped))
        && (err != 0 ==> dropped != old(dropped) && SumIs(dropped, old(dropped), list[n..rest]))
        && CopiedUpTo(copies, if |list| < len then |list| else len, err, n, rest)
    {
      hide Pages, PagesOf, Sorted, Collated, Proper, Conserved, SumIs, Shown, ChunksDone, CopiedUpTo, Valid;
      err, addrs, sizes := 0, [], [];
      ghost var list := snapshot;
      ghost var n := if |list| < len then |list| else len;
      var k := 0;
      SumStart(reported, list);
      ShownNil(list);
      ChunksStart(copies, n);
      while snapshot != [] && |addrs| < len
        invariant Copying(list, addrs, sizes, old(reported)) && dropped == old(dropped)
        invariant |addrs| <= n && ChunksDone(copies, n, k, |addrs|)
        decreases |snapshot|
      {
        var missed := if k < |copies| then copies[k] else 0;
        var a, s := CopyNext(len, missed, addrs, sizes, list, old(reported));
        if missed != 0 {
          ChunkFails(copies, n, k, |addrs|);
          return missed, addrs, sizes;
        }
        ChunkDone(copies, n, k, |addrs|, |a|);
        addrs, sizes := addrs + a, sizes + s;
        k := k + 1;
      }
      ChunksEnd(copies, n, k, |addrs|);
    }

    /** kbase_gpu_gwt_dump. `list` is the snapshot that the call works on: what was left of
        the last one, or else everything recorded since. Without a failing copy the first
        entries of it, as many as the user buffer holds, are reported, the others are kept,
        and no page is lost; a failing copy loses the pages of its chunk. */
    method Dump(len: nat, buffers: bool, copies: seq<nat>)
      returns (err: int, addrs: seq<nat>, sizes: seq<nat>, more: bool, ghost list: seq<Entry>)
      requires Valid()
      modifies this`snapshot, this`current, this`reported, this`dropped
      ensures Valid()
      ensures !enabled || len == 0 || !buffers ==>
        && err == (if !enabled then -1 else -22) && snapshot == old(snapshot) && current == old(current)
        && reported == old(reported) && dropped == old(dropped)
      ensures enabled && len > 0 && buffers ==>
        && (if old(snapshot) == [] then current == [] && PagesOf(list) == PagesOf(old(current))
            else list == old(snapshot) && current == old(current))
        && Sorted(list) && Collated(list)
        && |addrs| <= len && Shown(addrs, sizes, list)
        && reported == old(reported) + PagesOf(list[..|addrs|])
        && (err == 0 <==> dropped == old(dropped))
        && |snapshot| <= |list|
        && CopiedUpTo(copies, if |list| < len then |list| else len, err, |addrs|, |list| - |snapshot|)
      ensures enabled && len > 0 && buffers && err == 0 ==>
        && |addrs| == (if |list| < len then |list| else len) && snapshot == list[|addrs|..] && (more <==> |list| > len)
      ensures enabled && len > 0 && buffers && err != 0 ==>
        && |addrs| + |snapshot| <= |list| && snapshot == list[|list| - |snapshot|..]
        && dropped == old(dropped) + PagesOf(list[|addrs|..|list| - |snapshot|])
    {
      hide Pages, PagesOf, Sorted, Collated, Conserved, Proper;
      err, addrs, sizes, more, list := 0, [], [], false, [];
      if !enabled {
        return -EPERM, [], [], false, [];
      }
      if len == 0 || !buffers {
        return -EINVAL, [], [], false, [];
      }
      TakeSnapshot();
      list := snapshot;
      err, addrs, sizes := CopyOut(len, copies);
      more := snapshot != [];
    }
  }

  /** The number of the first chunk that cannot be copied to user space. */
  function FirstFailing(copies: seq<nat>): (f: nat)
    ensures f <= |copies| && (f < |copies| ==> copies[f] != 0) && forall j :: 0 <= j < f ==> copies[j] == 0
  {
    if copies == [] then 0
    else if copies[0] != 0 then 0
    else
      var f := FirstFailing(copies[1..]);
      assert forall j :: 1 <= j < |copies| ==> copies[j] == copies[1..][j - 1];
      f + 1
  }

  /** What has become of n entries that are copied in chunks: up to the first failing chunk they
      are reported, that one is lost as well as taken, and its bytes that are missing are the
      error; without a failing chunk among them all are reported. */
  predicate CopiedUpTo(copies: seq<nat>, n: nat, err: int, done: nat, taken: nat) {
    var f := FirstFailing(copies);
    if f < |copies| && 32 * f < n
    then err == copies[f] && done == 32 * f && taken == if 32 * (f + 1) < n then 32 * (f + 1) else n
    else err == 0 && done == n && taken == n
  }

  /** The first k chunks of n entries have been copied. */
  ghost predicate ChunksDone(copies: seq<nat>, n: nat, k: nat, done: nat) {
    && done == (if 32 * k < n then 32 * k else n) && (k > 0 ==> 32 * (k - 1) < n)
    && (forall j :: 0 <= j < k && j < |copies| ==> copies[j] == 0)
  }

  lemma ChunksStart(copies: seq<nat>, n: nat)
    ensures ChunksDone(copies, n, 0, 0)
  {
  }

  lemma ChunkDone(copies: seq<nat>, n: nat, k: nat, done: nat, more: nat)
    requires ChunksDone(copies, n, k, done) && done < n && more == (if done + CHUNK < n then CHUNK else n - done)
    requires k < |copies| ==> copies[k] == 0
    ensures ChunksDone(copies, n, k + 1, done + more)
  {
  }

  lemma ChunkFails(copies: seq<nat>, n: nat, k: nat, done: nat)
    requires ChunksDone(copies, n, k, done) && done < n && k < |copies| && copies[k] != 0
    ensures CopiedUpTo(copies, n, copies[k], done, if done + 32 < n then done + 32 else n)
  {
    assert FirstFailing(copies) == k;
  }

  lemma ChunksEnd(copies: seq<nat>, n: nat, k: nat, done: nat)
    requires ChunksDone(copies, n, k, done) && done >= n
    ensures CopiedUpTo(copies, n, 0, done, done)
  {
    assert FirstFailing(copies) >= k || FirstFailing(copies) == |copies|;
  }

  /** The tail of a list in order is in order. */
  lemma TailInOrder(es: seq<Entry>, tail: seq<Entry>)
    requires |tail| <= |es| && tail == es[|es| - |tail|..]
    ensures Sorted(es) ==> Sorted(tail)
    ensures Collated(es) ==> Collated(tail)
    ensures Proper(es) ==> Proper(tail)
  {
    hide Mergeable;
    var d := |es| - |tail|;
    assert forall i :: 0 <= i < |tail| ==> tail[i] == es[d + i];
    if Collated(es) {
      forall i | 0 <= i < |tail| - 1
        ensures !Mergeable(tail[i], tail[i + 1])
      {
        assert !Mergeable(es[d + i], es[d + i + 1]);
      }
    }
  }

  lemma MoveLeft(a: multiset<Page>, b: multiset<Page>, c: multiset<Page>)
    ensures a + b + c == (a + c) + b
  {
  }

  lemma ProperNil()
    ensures Proper([])
  {
  }

  /** The bag r is the bag base with the pages of these entries added. */
  ghost predicate SumIs(r: multiset<Page>, base: multiset<Page>, es: seq<Entry>) {
    r == base + PagesOf(es)
  }

  /** What user space gets to see of the first entries of a list. */
  ghost predicate Shown(addrs: seq<nat>, sizes: seq<nat>, es: seq<Entry>) {
    && |addrs| == |sizes| <= |es|
    && forall i :: 0 <= i < |addrs| ==> addrs[i] == es[i].page && sizes[i] == es[i].num
  }

  lemma ShownNil(es: seq<Entry>)
    ensures Shown([], [], es)
  {
  }

  lemma ShownExtend(addrs: seq<nat>, sizes: seq<nat>, es: seq<Entry>, addrs': seq<nat>, sizes': seq<nat>)
    requires Shown(addrs, sizes, es) && Shown(addrs', sizes', es[|addrs|..])
    ensures Shown(addrs + addrs', sizes + sizes', es)
  {
  }

  lemma SumStart(r: multiset<Page>, es: seq<Entry>)
    ensures SumIs(r, r, es[..0])
  {
  }

  lemma SumExtend(r: multiset<Page>, base: multiset<Page>, es: seq<Entry>, i: nat, j: nat)
    requires i <= j <= |es| && SumIs(r, base, es[..i])
    ensures SumIs(r + PagesOf(es[i..j]), base, es[..j])
    ensures forall d: multiset<Page> :: SumIs(d + PagesOf(es[i..j]), d, es[i..j])
  {
    hide PagesOf;
    assert es[..j] == es[..i] + es[i..j];
    PagesOfConcat(es[..i], es[i..j]);
    Assoc(base, PagesOf(es[..i]), PagesOf(es[i..j]));
  }

  lemma MergedSize(es: seq<Entry>, pos: nat)
    requires 0 < pos < |es|
    ensures |Merged(es, pos)| == |es| - 1
  {
  }

  lemma CollatedNext(es: seq<Entry>, pos: nat)
    requires pos < |es| && Collated(es[..pos]) && (pos == 0 || !Mergeable(es[pos - 1], es[pos]))
    ensures Collated(es[..pos + 1])
  {
    hide Mergeable;
    forall i | 0 <= i < pos
      ensures !Mergeable(es[i], es[i + 1])
    {
      if i < pos - 1 {
        assert !Mergeable(es[..pos][i], es[..pos][i + 1]);
      }
    }
  }

  lemma AddLast(a: multiset<Page>, b: multiset<Page>, c: multiset<Page>, d: multiset<Page>, e: multiset<Page>)
    ensures a + b + c + d + e == a + b + c + (e + d)
  {
  }
}
