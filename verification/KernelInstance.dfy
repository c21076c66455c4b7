/** Staged set-up and unwinding of a kernel module instance: pages, page arrays and eventfd references.

    Whether an allocation, a user copy or an eventfd look-up fails is decided by an arbitrary oracle. */
module KernelInstance {
  import opened Basics
  import opened Words

  const PAGE_SIZE: nat := 4096
  const MIN_ENTRIES: nat := 16
  const MAX_ENTRIES: nat := 4096
  const ENTRY_BYTES: nat := 64
  const COMPLETION_BYTES: nat := 32
  const EBADF: int := 9
  const ENOMEM: int := 12
  const EFAULT: int := 14
  const EBUSY: int := 16
  const EINVAL: int := 22

  datatype Header = Header(ringSize: nat, mask: nat, entrySize: nat, head: nat, tail: nat)

  /** `pages` is the page array with its own identity; None stands for a null pointer. */
  datatype Ring = Ring(pages: Option<(nat, seq<nat>)>, nrPages: nat, nrEntries: nat, entrySize: nat,
    header: Option<Header>)

  datatype Params = Params(submitEntries: nat, completeEntries: nat, eventfd: int)

  // ── Page counts ──

  function PagesNeeded(entries: nat, size: nat): nat { 1 + (entries * size + PAGE_SIZE - 1) / PAGE_SIZE }

  /** One header page and exactly as many data pages as the entries need. */
  lemma PagesAreTight(entries: nat, size: nat)
    ensures entries * size <= (PagesNeeded(entries, size) - 1) * PAGE_SIZE < entries * size + PAGE_SIZE
  {
  }

  predicate GoodSize(n: nat) { MIN_ENTRIES <= n <= MAX_ENTRIES && n > 0 && And(n, n - 1) == 0 }

  /** A size passes the check if and only if it is a power of two between 16 and 4096. */
  lemma GoodSizeIff(n: nat)
    ensures GoodSize(n) <==> MIN_ENTRIES <= n <= MAX_ENTRIES && exists k: nat :: n == Pow2(k)
  {
    if n > 0 {
      PowerOfTwoIff(n);
    }
  }

  // ── The kernel's side ──

  class Kernel {
    const oracle: nat -> bool
    var asked: nat
    /** How often something failed. */
    var refusals: nat
    var next: nat
    var live: set<nat>
    var arrays: set<nat>
    var refs: nat

    constructor (o: nat -> bool)
      ensures live == {} && arrays == {} && refs == 0 && Valid()
    {
      oracle, asked, refusals, next, live, arrays, refs := o, 0, 0, 0, {}, {}, 0;
    }

    ghost predicate Valid()
      reads this
    {
      (forall p | p in live :: p < next) && (forall a | a in arrays :: a < next)
    }

    method Fails() returns (b: bool)
      modifies this`asked, this`refusals
      ensures b == oracle(old(asked)) && asked == old(asked) + 1 && refusals == old(refusals) + One(b)
    {
      b := oracle(asked);
      asked := asked + 1;
      refusals := refusals + One(b);
    }

    method AllocPage() returns (p: Option<nat>)
      requires Valid()
      modifies this`asked, this`refusals, this`next, this`live
      ensures Valid() && next >= old(next)
      ensures refusals == old(refusals) + One(p.None?)
      ensures p.None? ==> live == old(live)
      ensures p.Some? ==> p.value !in old(live) && live == old(live) + {p.value}
    {
      var b := Fails();
      if b {
        return None;
      }
      p := Some(next);
      live := live + {next};
      next := next + 1;
    }

    /** Freeing demands a page that is allocated: a second free of the same page would not be allowed. */
    method FreePage(p: nat)
      requires p in live && Valid()
      modifies this`live
      ensures Valid() && live == old(live) - {p}
    {
      live := live - {p};
    }

    method AllocArray() returns (a: Option<nat>)
      requires Valid()
      modifies this`asked, this`refusals, this`next, this`arrays
      ensures Valid() && next >= old(next)
      ensures refusals == old(refusals) + One(a.None?)
      ensures a.None? ==> arrays == old(arrays)
      ensures a.Some? ==> a.value !in old(arrays) && arrays == old(arrays) + {a.value}
    {
      var b := Fails();
      if b {
        return None;
      }
      a := Some(next);
      arrays := arrays + {next};
      next := next + 1;
    }

    method FreeArray(a: nat)
      requires a in arrays && Valid()
      modifies this`arrays
      ensures Valid() && arrays == old(arrays) - {a}
    {
      arrays := arrays - {a};
    }

    method GetEventfd() returns (ok: bool)
      requires Valid()
      modifies this`asked, this`refusals, this`refs
      ensures Valid() && refs == old(refs) + One(ok) && refusals == old(refusals) + One(!ok)
    {
      var b := Fails();
      ok := !b;
      if ok {
        refs := refs + 1;
      }
    }

    method PutEventfd()
      requires refs > 0 && Valid()
      modifies this`refs
      ensures Valid() && refs == old(refs) - 1
    {
      refs := refs - 1;
    }
  }

  // ── Rings ──

  ghost function Elems(s: seq<nat>): set<nat> { set p | p in s }

  predicate Distinct(s: seq<nat>) { forall i, j | 0 <= i < j < |s| :: s[i] != s[j] }

  ghost function RingPages(r: Ring): set<nat> { if r.pages.Some? then Elems(r.pages.value.1) else {} }

  function RingArray(r: Ring): set<nat> { if r.pages.Some? then {r.pages.value.0} else {} }

  predicate RingOk(r: Ring) { r.pages.Some? ==> r.nrPages == |r.pages.value.1| && Distinct(r.pages.value.1) }

  /** A ring as `ksvc_ring_alloc` sets it up. */
  predicate RingBuilt(r: Ring, entries: nat, size: nat) {
    && r.pages.Some? && r.nrPages == |r.pages.value.1| == PagesNeeded(entries, size)
    && r.nrEntries == entries && r.entrySize == size
    && entries > 0 && r.header == Some(Header(entries, entries - 1, size, 0, 0))
  }

  /** Frees the first n pages of the array from the last to the first. */
  method FreePrefix(k: Kernel, pages: seq<nat>, n: nat)
    requires k.Valid() && n <= |pages| && Distinct(pages) && Elems(pages[..n]) <= k.live
    modifies k`live
    ensures k.Valid() && k.live == old(k.live) - Elems(pages[..n])
  {
    var i := n;
    while i > 0
      invariant 0 <= i <= n && k.Valid()
      invariant k.live == old(k.live) - Elems(pages[i..n])
    {
      i := i - 1;
      assert pages[i] == pages[..n][i];
      assert forall j | i < j < n :: pages[j] != pages[i];
      k.FreePage(pages[i]);
      assert pages[i..n] == [pages[i]] + pages[i + 1..n];
    }
    assert pages[0..n] == pages[..n];
  }

  method RingAlloc(k: Kernel, ring: Ring, entries: nat, size: nat) returns (r: Ring, ret: int)
    requires k.Valid() && entries > 0 && ring.pages.None?
    modifies k`asked, k`refusals, k`next, k`live, k`arrays
    ensures k.Valid() && RingOk(r) && (ret == 0 || ret == -ENOMEM)
    ensures k.refusals == old(k.refusals) + One(ret != 0)
    ensures ret == 0 ==> RingBuilt(r, entries, size)
    ensures ret == 0 ==> RingPages(r) !! old(k.live) && k.live == old(k.live) + RingPages(r)
    ensures ret == 0 ==> RingArray(r) !! old(k.arrays) && k.arrays == old(k.arrays) + RingArray(r)
    ensures ret != 0 ==> r.pages.None? && k.live == old(k.live) && k.arrays == old(k.arrays)
  {
    r := ring;
    var nrPages := PagesNeeded(entries, size);
    var array_ := k.AllocArray();
    if array_.None? {
      return r, -ENOMEM;
    }
    var pages: seq<nat> := [];
    while |pages| < nrPages
      invariant |pages| <= nrPages && k.Valid() && k.arrays == old(k.arrays) + {array_.value}
      invariant k.refusals == old(k.refusals)
      invariant Distinct(pages) && Elems(pages) !! old(k.live) && k.live == old(k.live) + Elems(pages)
    {
      var p := k.AllocPage();
      if p.None? {
        assert pages[..|pages|] == pages;
        FreePrefix(k, pages, |pages|);
        k.FreeArray(array_.value);
        return r.(pages := None), -ENOMEM;
      }
      assert forall x | x in pages :: x in Elems(pages);
      assert Elems(pages + [p.value]) == Elems(pages) + {p.value};
      pages := pages + [p.value];
    }
    r := r.(pages := Some((array_.value, pages)), nrPages := nrPages, nrEntries := entries, entrySize := size,
      header := None);
    var noAddress := k.Fails();
    if noAddress {
      assert pages[..|pages|] == pages;
      FreePrefix(k, pages, |pages|);
      k.FreeArray(array_.value);
      return r.(pages := None), -ENOMEM;
    }
    r := r.(header := Some(Header(entries, entries - 1, size, 0, 0)));
    ret := 0;
  }

  method RingFree(k: Kernel, ring: Ring) returns (r: Ring)
    requires k.Valid() && RingOk(ring) && RingPages(ring) <= k.live && RingArray(ring) <= k.arrays
    modifies k`live, k`arrays
    ensures k.Valid() && r.pages.None? && RingOk(r)
    ensures k.live == old(k.live) - RingPages(ring) && k.arrays == old(k.arrays) - RingArray(ring)
    ensures ring.pages.Some? ==> r.nrPages == 0
  {
    if ring.pages.None? {
      return ring;
    }
    var pages := ring.pages.value.1;
    var i := 0;
    while i < ring.nrPages
      invariant i <= ring.nrPages == |pages| && k.Valid() && k.arrays == old(k.arrays)
      invariant k.live == old(k.live) - Elems(pages[..i])
    {
      assert pages[i] in Elems(pages);
      assert forall j | 0 <= j < i :: pages[j] != pages[i];
      k.FreePage(pages[i]);
      assert pages[..i + 1] == pages[..i] + [pages[i]];
      i := i + 1;
    }
    assert pages[..i] == pages;
    k.FreeArray(ring.pages.value.0);
    return ring.(pages := None, header := None, nrPages := 0);
  }

  // ── Instances ──

  class Instance {
    var submit: Ring
    var complete: Ring
    var sharedPage: Option<nat>
    var sharedMapped: bool
    var eventfd: bool
    var created: bool

    constructor ()
      ensures Empty() && !created
    {
      var blank := Ring(None, 0, 0, 0, None);
      submit, complete, sharedPage, sharedMapped, eventfd, created := blank, blank, None, false, false, false;
    }

    /** Holds nothing. */
    ghost predicate Empty()
      reads this
    {
      submit.pages.None? && complete.pages.None? && sharedPage.None? && !sharedMapped && !eventfd
    }

    ghost function Pages(): set<nat>
      reads this
    {
      RingPages(submit) + RingPages(complete) + (if sharedPage.Some? then {sharedPage.value} else {})
    }

    ghost function Arrays(): set<nat>
      reads this
    {
      RingArray(submit) + RingArray(complete)
    }

    /** What it holds is allocated, once each; it is created or holds nothing. */
    ghost predicate Valid(k: Kernel)
      reads this, k
    {
      && k.Valid() && RingOk(submit) && RingOk(complete) && Pages() <= k.live && Arrays() <= k.arrays
      && RingPages(submit) !! RingPages(complete) && RingArray(submit) !! RingArray(complete)
      && (sharedPage.Some? ==> sharedPage.value !in RingPages(submit) + RingPages(complete))
      && (eventfd ==> k.refs > 0)
      && (!created ==> Empty()) && (sharedPage.None? ==> !sharedMapped)
    }

    method SharedAlloc(k: Kernel) returns (ret: int)
      requires k.Valid() && sharedPage.None?
      modifies this`sharedPage, this`sharedMapped, k`asked, k`refusals, k`next, k`live
      ensures k.Valid() && (ret == 0 || ret == -ENOMEM) && k.refusals == old(k.refusals) + One(ret != 0)
      ensures ret == 0 ==> sharedPage.Some? && sharedMapped && sharedPage.value !in old(k.live)
      ensures ret == 0 ==> k.live == old(k.live) + {sharedPage.value}
      ensures ret != 0 ==> sharedPage.None? && !sharedMapped && k.live == old(k.live)
    {
      sharedMapped := false;
      sharedPage := k.AllocPage();
      if sharedPage.None? {
        return -ENOMEM;
      }
      var noAddress := k.Fails();
      if noAddress {
        k.FreePage(sharedPage.value);
        sharedPage := None;
        return -ENOMEM;
      }
      sharedMapped := true;
      return 0;
    }

    method SharedFree(k: Kernel)
      requires k.Valid() && (sharedPage.Some? ==> sharedPage.value in k.live) && (sharedPage.None? ==> !sharedMapped)
      modifies this`sharedPage, this`sharedMapped, k`live
      ensures k.Valid() && sharedPage.None? && !sharedMapped
      ensures k.live == old(k.live) - old(if sharedPage.Some? then {sharedPage.value} else {})
    {
      if sharedPage.Some? {
        k.FreePage(sharedPage.value);
        sharedPage := None;
        sharedMapped := false;
      }
    }

    /** The two rings and the shared page, undone in reverse order when a later one fails. */
    method Build(k: Kernel, params: Params) returns (ret: int)
      requires Valid(k) && !created && params.submitEntries > 0 && params.completeEntries > 0
      modifies this, k
      ensures k.Valid() && !created && !eventfd && k.refs == old(k.refs)
      ensures (ret == 0 || ret == -ENOMEM) && k.refusals == old(k.refusals) + One(ret != 0)
      ensures ret != 0 ==> Empty() && k.live == old(k.live) && k.arrays == old(k.arrays)
      ensures ret == 0 ==> RingBuilt(submit, params.submitEntries, ENTRY_BYTES)
      ensures ret == 0 ==> RingBuilt(complete, params.completeEntries, COMPLETION_BYTES)
      ensures ret == 0 ==> RingOk(submit) && RingOk(complete) && sharedPage.Some? && sharedMapped
      ensures ret == 0 ==> RingPages(submit) !! RingPages(complete) && RingArray(submit) !! RingArray(complete)
      ensures ret == 0 ==> sharedPage.value !in RingPages(submit) + RingPages(complete)
      ensures ret == 0 ==> Pages() !! old(k.live) && k.live == old(k.live) + Pages()
      ensures ret == 0 ==> Arrays() !! old(k.arrays) && k.arrays == old(k.arrays) + Arrays()
    {
      submit, ret := RingAlloc(k, submit, params.submitEntries, ENTRY_BYTES);
      if ret != 0 {
        return;
      }
      complete, ret := RingAlloc(k, complete, params.completeEntries, COMPLETION_BYTES);
      if ret == 0 {
        ret := SharedAlloc(k);
        if ret == 0 {
          return;
        }
        complete := RingFree(k, complete);
      }
      submit := RingFree(k, submit);
    }

    /** `KSVC_IOC_CREATE`.  A failed call gives back everything it took and leaves the instance holding nothing; a
        successful one holds exactly the pages, arrays and reference it should.  On a fresh instance it succeeds if and
        only if both sizes are good and the kernel refuses nothing. */
    method Create(k: Kernel, params: Params) returns (ret: int)
      requires Valid(k)
      modifies this, k
      ensures Valid(k)
      ensures old(created) ==> ret == -EBUSY && created && k.live == old(k.live) && k.arrays == old(k.arrays)
      ensures old(created) ==> k.refs == old(k.refs)
      ensures old(created) ==> submit == old(submit) && complete == old(complete) && sharedPage == old(sharedPage)
      ensures old(created) ==> eventfd == old(eventfd)
      ensures !old(created) && ret != 0 ==>
        !created && k.live == old(k.live) && k.arrays == old(k.arrays) && k.refs == old(k.refs)
      ensures var good := GoodSize(params.submitEntries) && GoodSize(params.completeEntries);
        || old(created)
        || (&& (ret == 0 <==> good && k.refusals == old(k.refusals))
            && (ret == -EINVAL <==> !good && k.refusals == old(k.refusals)))
      ensures ret == 0 ==> created && GoodSize(params.submitEntries) && GoodSize(params.completeEntries)
      ensures ret == 0 ==> RingBuilt(submit, params.submitEntries, ENTRY_BYTES)
      ensures ret == 0 ==> RingBuilt(complete, params.completeEntries, COMPLETION_BYTES)
      ensures ret == 0 ==> k.live == old(k.live) + Pages() && Pages() !! old(k.live)
      ensures ret == 0 ==> k.arrays == old(k.arrays) + Arrays() && Arrays() !! old(k.arrays)
      ensures ret == 0 ==> (eventfd <==> params.eventfd >= 0) && k.refs == old(k.refs) + (if eventfd then 1 else 0)
    {
      if created {
        return -EBUSY;
      }
      var badCopy := k.Fails();
      if badCopy {
        return -EFAULT;
      }
      if !GoodSize(params.submitEntries) || !GoodSize(params.completeEntries) {
        return -EINVAL;
      }
      ret := Build(k, params);
      if ret != 0 {
        return;
      }
      if params.eventfd >= 0 {
        eventfd := k.GetEventfd();
        if !eventfd {
          ret := -EBADF;
          Unwind(k);
          return;
        }
      }
      badCopy := k.Fails();
      if badCopy {
        ret := -EFAULT;
        if eventfd {
          k.PutEventfd();
          eventfd := false;
        }
        Unwind(k);
        return;
      }
      created := true;
      return 0;
    }

    /** The labels from `err_free_shared` down. */
    method Unwind(k: Kernel)
      requires k.Valid() && RingOk(submit) && RingOk(complete) && !eventfd
      requires Pages() <= k.live && Arrays() <= k.arrays && (sharedPage.None? ==> !sharedMapped)
      requires RingPages(submit) !! RingPages(complete) && RingArray(submit) !! RingArray(complete)
      requires sharedPage.Some? ==> sharedPage.value !in RingPages(submit) + RingPages(complete)
      modifies this, k
      ensures Empty() && k.Valid() && created == old(created) && k.refs == old(k.refs) && k.refusals == old(k.refusals)
      ensures k.live == old(k.live) - old(Pages()) && k.arrays == old(k.arrays) - old(Arrays())
    {
      SharedFree(k);
      complete := RingFree(k, complete);
      submit := RingFree(k, submit);
    }

    /** `ksvc_instance_destroy`: everything held is released, exactly once. */
    method Destroy(k: Kernel)
      requires Valid(k)
      modifies this, k
      ensures Empty() && k.Valid()
      ensures k.live == old(k.live) - old(Pages()) && k.arrays == old(k.arrays) - old(Arrays())
      ensures k.refs == old(k.refs) - old(if eventfd then 1 else 0)
    {
      if eventfd {
        k.PutEventfd();
        eventfd := false;
      }
      submit := RingFree(k, submit);
      complete := RingFree(k, complete);
      SharedFree(k);
    }
  }

  /** Open, any number of CREATE calls that fail wherever they like or succeed, and release: the kernel has back
      every page, array and reference, and nothing more. */
  method Session(k: Kernel, calls: seq<Params>)
    requires k.Valid()
    modifies k
    ensures k.Valid() && k.live == old(k.live) && k.arrays == old(k.arrays) && k.refs == old(k.refs)
  {
    var inst := new Instance();
    var i := 0;
    while i < |calls|
      invariant i <= |calls| && inst.Valid(k) && fresh(inst)
      invariant k.live == old(k.live) + inst.Pages() && inst.Pages() !! old(k.live)
      invariant k.arrays == old(k.arrays) + inst.Arrays() && inst.Arrays() !! old(k.arrays)
      invariant k.refs == old(k.refs) + (if inst.eventfd then 1 else 0)
    {
      var ret := inst.Create(k, calls[i]);
      i := i + 1;
    }
    inst.Destroy(k);
  }
}
