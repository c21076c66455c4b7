/** The timer backend: a heap ordered by deadline with lazily cancelled entries. */
module TimerHeap {
  import opened Basics

  datatype Kind = Preempt | Sleep | Timeout | Periodic(interval: nat)

  /** Times are nanoseconds on the monotonic clock. */
  datatype Entry = Entry(handle: nat, deadline: int, gvt: nat, affinity: Option<nat>, kind: Kind)

  datatype Expired = Expired(gvt: nat, affinity: Option<nat>, kind: Kind)

  /** `heap` lists the heap in the order in which it gives up its entries; `next` is the handle counter. */
  datatype Timers = Timers(heap: seq<Entry>, cancelled: set<nat>, next: nat, inserted: nat, fired: nat, dropped: nat)

  predicate Before(a: Entry, b: Entry) {
    a.deadline < b.deadline || (a.deadline == b.deadline && a.handle < b.handle)
  }

  /** What `BinaryHeap::push` does to the order of removal. */
  function Put(heap: seq<Entry>, e: Entry): seq<Entry> {
    if heap == [] || Before(e, heap[0]) then [e] + heap else [heap[0]] + Put(heap[1..], e)
  }

  function PutAll(heap: seq<Entry>, es: seq<Entry>): seq<Entry>
    decreases |es|
  {
    if es == [] then heap else PutAll(Put(heap, es[0]), es[1..])
  }

  function Report(e: Entry): Expired { Expired(e.gvt, e.affinity, e.kind) }

  /** There is one report per entry, in the same order, with that entry's thread, worker and kind. */
  predicate Tells(reports: seq<Expired>, es: seq<Entry>) {
    && |reports| == |es|
    && forall i | 0 <= i < |es| ::
         reports[i].gvt == es[i].gvt && reports[i].affinity == es[i].affinity && reports[i].kind == es[i].kind
  }

  function Reports(es: seq<Entry>): (r: seq<Expired>)
    ensures Tells(r, es)
  {
    if es == [] then [] else [Report(es[0])] + Reports(es[1..])
  }

  /** The loop of `poll_expired`: the entries fired, what is left of the heap, and the marks left. */
  function Sweep(heap: seq<Entry>, cancelled: set<nat>, now: int): (seq<Entry>, seq<Entry>, set<nat>)
    decreases |heap|
  {
    if heap == [] || heap[0].deadline > now then ([], heap, cancelled)
    else if heap[0].handle in cancelled then Sweep(heap[1..], cancelled - {heap[0].handle}, now)
    else
      var (fired, rest, marks) := Sweep(heap[1..], cancelled, now);
      ([heap[0]] + fired, rest, marks)
  }

  /** The entry that follows a fired periodic one, with a handle of its own. */
  function Successor(e: Entry, handle: nat, time: int): Entry
    requires e.kind.Periodic?
  {
    e.(handle := handle, deadline := time + e.kind.interval)
  }

  /** The successors of the periodic entries in `fired`: `clock(k)` is the k-th clock reading of the poll. */
  function Successors(fired: seq<Entry>, next: nat, clock: nat -> int, k: nat): (r: seq<Entry>)
    ensures |r| <= |fired|
    decreases |fired|
  {
    if fired == [] then []
    else if fired[0].kind.Periodic? then
      [Successor(fired[0], next + k, clock(k))] + Successors(fired[1..], next, clock, k + 1)
    else Successors(fired[1..], next, clock, k)
  }

  function Inserted(s: Timers, e: Entry): Timers {
    s.(heap := Put(s.heap, e), inserted := s.inserted + 1)
  }

  function Cancelled(s: Timers, h: nat): Timers {
    if h in s.cancelled then s else s.(cancelled := s.cancelled + {h}, dropped := s.dropped + 1)
  }

  function Polled(s: Timers, now: int, clock: nat -> int): (Timers, seq<Expired>) {
    var (fired, rest, marks) := Sweep(s.heap, s.cancelled, now);
    var again := Successors(fired, s.next, clock, 0);
    var heap := PutAll(rest, again);
    (Timers(heap, if heap == [] then {} else marks, s.next + |again|, s.inserted, s.fired + |fired|, s.dropped),
     Reports(fired))
  }

  lemma {:induction false} SuccessorsSplit(fired: seq<Entry>, e: Entry, next: nat, clock: nat -> int, k: nat)
    ensures Successors(fired + [e], next, clock, k) == Successors(fired, next, clock, k) +
      (if e.kind.Periodic?
       then var n := k + |Successors(fired, next, clock, k)|; [Successor(e, next + n, clock(n))] else [])
    decreases |fired|
  {
    if fired == [] {
      assert ([] + [e])[1..] == [];
    } else {
      assert (fired + [e])[1..] == fired[1..] + [e];
      SuccessorsSplit(fired[1..], e, next, clock, if fired[0].kind.Periodic? then k + 1 else k);
    }
  }

  lemma {:induction false} PutAllSplit(heap: seq<Entry>, es: seq<Entry>, e: Entry)
    ensures PutAll(heap, es + [e]) == Put(PutAll(heap, es), e)
    decreases |es|
  {
    if es == [] {
      assert ([] + [e])[1..] == [];
      assert PutAll(Put(heap, e), []) == Put(heap, e);
    } else {
      assert (es + [e])[1..] == es[1..] + [e];
      PutAllSplit(Put(heap, es[0]), es[1..], e);
    }
  }

  /** The sweep `all` is `fired` followed by what the sweep `left` still has to do. */
  ghost predicate Joins(all: (seq<Entry>, seq<Entry>, set<nat>), fired: seq<Entry>,
                        left: (seq<Entry>, seq<Entry>, set<nat>)) {
    all == (fired + left.0, left.1, left.2)
  }

  lemma SweepStep(all: (seq<Entry>, seq<Entry>, set<nat>), fired: seq<Entry>, heap: seq<Entry>, cancelled: set<nat>,
      now: int)
    requires heap != [] && heap[0].deadline <= now && Joins(all, fired, Sweep(heap, cancelled, now))
    ensures heap[0].handle in cancelled ==> Joins(all, fired, Sweep(heap[1..], cancelled - {heap[0].handle}, now))
    ensures heap[0].handle !in cancelled ==> Joins(all, fired + [heap[0]], Sweep(heap[1..], cancelled, now))
  {
    var f := Sweep(heap[1..], cancelled, now).0;
    assert fired + ([heap[0]] + f) == fired + [heap[0]] + f;
  }

  class HeapTimerBackend {
    var heap: seq<Entry>
    var cancelled: set<nat>
    var totalInserted: nat
    var totalFired: nat
    var totalCancelled: nat
    /** The process-wide counter of `TimerHandle::new`. */
    var nextHandle: nat

    ghost function View(): Timers
      reads this
    {
      Timers(heap, cancelled, nextHandle, totalInserted, totalFired, totalCancelled)
    }

    constructor ()
      ensures View() == Timers([], {}, 1, 0, 0, 0)
    {
      heap, cancelled, nextHandle := [], {}, 1;
      totalInserted, totalFired, totalCancelled := 0, 0, 0;
    }

    method NewHandle() returns (h: nat)
      modifies this`nextHandle
      ensures h == old(nextHandle) && nextHandle == old(nextHandle) + 1
    {
      h := nextHandle;
      nextHandle := nextHandle + 1;
    }

    method HeapPush(e: Entry)
      modifies this`heap
      ensures heap == Put(old(heap), e)
    {
      var i := 0;
      while i < |heap| && !Before(e, heap[i])
        invariant i <= |heap| && heap == old(heap)
        invariant Put(heap, e) == heap[..i] + Put(heap[i..], e)
      {
        assert heap[i..][1..] == heap[i + 1..] && heap[..i] + [heap[i]] == heap[..i + 1];
        i := i + 1;
      }
      heap := heap[..i] + [e] + heap[i..];
    }

    method Insert(e: Entry) returns (h: nat)
      modifies this
      ensures h == e.handle && View() == Inserted(old(View()), e)
    {
      HeapPush(e);
      totalInserted := totalInserted + 1;
      h := e.handle;
    }

    method Cancel(h: nat) returns (marked: bool)
      modifies this
      ensures marked <==> h !in old(cancelled)
      ensures View() == Cancelled(old(View()), h)
    {
      marked := h !in cancelled;
      if marked {
        cancelled := cancelled + {h};
        totalCancelled := totalCancelled + 1;
      }
    }

    /** The first loop of `poll_expired`: pop what is due, skip what is marked, remember what to reschedule. */
    method Collect(now: int, clock: nat -> int) returns (expired: seq<Expired>, again: seq<Entry>,
        ghost fired: seq<Entry>)
      modifies this
      ensures (fired, heap, cancelled) == Sweep(old(heap), old(cancelled), now)
      ensures expired == Reports(fired) && again == Successors(fired, old(nextHandle), clock, 0)
      ensures nextHandle == old(nextHandle) + |again| && totalFired == old(totalFired) + |fired|
      ensures totalInserted == old(totalInserted) && totalCancelled == old(totalCancelled)
    {
      ghost var all := Sweep(heap, cancelled, now);
      expired, again, fired := [], [], [];
      assert [] + all.0 == all.0;
      while heap != [] && heap[0].deadline <= now
        invariant totalInserted == old(totalInserted) && totalCancelled == old(totalCancelled)
        invariant totalFired == old(totalFired) + |fired| && nextHandle == old(nextHandle) + |again|
        invariant expired == Reports(fired) && again == Successors(fired, old(nextHandle), clock, 0)
        invariant Joins(all, fired, Sweep(heap, cancelled, now))
        decreases |heap|
      {
        var e := heap[0];
        SweepStep(all, fired, heap, cancelled, now);
        heap := heap[1..];
        hide Sweep, Joins;
        if e.handle in cancelled {
          cancelled := cancelled - {e.handle};
        } else {
          SuccessorsSplit(fired, e, old(nextHandle), clock, 0);
          ReportsSplit(fired, e);
          hide Successors, Reports;
          if e.kind.Periodic? {
            var time := clock(|again|);
            var h := NewHandle();
            again := again + [Successor(e, h, time)];
          }
          totalFired := totalFired + 1;
          expired := expired + [Report(e)];
          fired := fired + [e];
        }
      }
      assert fired + [] == fired;
    }

    method PushAll(es: seq<Entry>)
      modifies this`heap
      ensures heap == PutAll(old(heap), es)
    {
      var i := 0;
      while i < |es|
        invariant i <= |es| && heap == PutAll(old(heap), es[..i])
      {
        PutAllSplit(old(heap), es[..i], es[i]);
        assert es[..i] + [es[i]] == es[..i + 1];
        HeapPush(es[i]);
        i := i + 1;
      }
      assert es[..i] == es;
    }

    method PollExpired(now: int, clock: nat -> int) returns (expired: seq<Expired>)
      modifies this
      ensures (View(), expired) == Polled(old(View()), now, clock)
      ensures Tells(expired, Sweep(old(heap), old(cancelled), now).0) && totalFired == old(totalFired) + |expired|
    {
      var again: seq<Entry>;
      ghost var fired: seq<Entry>;
      expired, again, fired := Collect(now, clock);
      PushAll(again);
      if heap == [] {
        cancelled := {};
      }
    }

    method NextDeadline() returns (r: Option<int>)
      ensures r == None <==> heap == []
      ensures r.Some? ==> r.value == heap[0].deadline
    {
      if heap == [] {
        return None;
      }
      return Some(heap[0].deadline);
    }

    /** Live timers as the backend reports them: heap size less marks, not below zero. */
    method Len() returns (n: nat)
      ensures n == Count(View())
    {
      if |heap| < |cancelled| {
        return 0;
      }
      return |heap| - |cancelled|;
    }
  }

  function Count(s: Timers): nat {
    if |s.heap| < |s.cancelled| then 0 else |s.heap| - |s.cancelled|
  }

  lemma {:induction false} ReportsSplit(es: seq<Entry>, e: Entry)
    ensures Reports(es + [e]) == Reports(es) + [Report(e)]
  {
  }
}
