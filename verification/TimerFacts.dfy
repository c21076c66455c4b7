/** The lazily cancelled heap refines a plain set of live timers. */
module TimerFacts {
  import opened Basics
  import opened TimerHeap

  predicate Sorted(es: seq<Entry>) {
    forall i, j | 0 <= i < j < |es| :: Before(es[i], es[j])
  }

  predicate Distinct(es: seq<Entry>) {
    forall i, j | 0 <= i < j < |es| :: es[i].handle != es[j].handle
  }

  ghost function Handles(es: seq<Entry>): set<nat> { set e | e in es :: e.handle }

  /** Every handle in use or marked has been issued. */
  ghost predicate Valid(s: Timers) {
    && Sorted(s.heap) && Distinct(s.heap)
    && (forall e | e in s.heap :: e.handle < s.next)
    && (forall h | h in s.cancelled :: h < s.next)
  }

  /** The abstract state: the timers that are pending and not cancelled. */
  ghost function Live(s: Timers): set<Entry> { set e | e in s.heap && e.handle !in s.cancelled }

  // ── The heap ──

  lemma {:induction false} PutFacts(heap: seq<Entry>, e: Entry)
    ensures |Put(heap, e)| == |heap| + 1
    ensures forall x :: x in Put(heap, e) <==> x in heap || x == e
  {
    if heap != [] && !Before(e, heap[0]) {
      PutFacts(heap[1..], e);
      assert heap == [heap[0]] + heap[1..];
    }
  }

  lemma {:induction false} PutSorted(heap: seq<Entry>, e: Entry)
    requires Sorted(heap) && Distinct(heap) && forall x | x in heap :: x.handle != e.handle
    ensures Sorted(Put(heap, e)) && Distinct(Put(heap, e))
  {
    if heap != [] && !Before(e, heap[0]) {
      var rest := Put(heap[1..], e);
      assert forall x | x in heap[1..] :: x.handle != e.handle;
      PutSorted(heap[1..], e);
      PutFacts(heap[1..], e);
      assert forall i | 0 <= i < |rest| :: rest[i] in rest;
      forall i | 0 <= i < |rest| ensures Before(heap[0], rest[i]) && heap[0].handle != rest[i].handle {
        if rest[i] != e {
          var j :| 0 <= j < |heap[1..]| && heap[1..][j] == rest[i];
          assert heap[j + 1] == rest[i];
        }
      }
      hide Put;
    }
  }

  /** Adding entries whose handles are new and distinct. */
  lemma {:induction false} PutAllFacts(heap: seq<Entry>, es: seq<Entry>)
    requires Sorted(heap) && Distinct(heap) && Distinct(es)
    requires forall x, y | x in heap && y in es :: x.handle != y.handle
    ensures Sorted(PutAll(heap, es)) && Distinct(PutAll(heap, es))
    ensures forall x :: x in PutAll(heap, es) <==> x in heap || x in es
    decreases |es|
  {
    if es != [] {
      PutFacts(heap, es[0]);
      PutSorted(heap, es[0]);
      assert forall y | y in es[1..] :: y in es && y.handle != es[0].handle;
      PutAllFacts(Put(heap, es[0]), es[1..]);
      assert forall x :: x in es <==> x == es[0] || x in es[1..];
      hide Sorted, Distinct, Put;
    }
  }

  // ── The sweep ──

  ghost predicate SweepSpec(heap: seq<Entry>, cancelled: set<nat>, now: int, fired: seq<Entry>, rest: seq<Entry>,
      marks: set<nat>) {
    && Sorted(fired) && Sorted(rest) && Distinct(rest)
    && (forall e :: e in fired <==> e in heap && e.deadline <= now && e.handle !in cancelled)
    && (forall e :: e in rest <==> e in heap && e.deadline > now)
    && (forall h :: h in marks <==> h in cancelled && forall e | e in heap && e.deadline <= now :: e.handle != h)
  }

  /** The sweep stops exactly where the rest is in the future, fires what is due and unmarked, and uses up the marks of
      what is due and marked. */
  lemma {:induction false} SweepFacts(heap: seq<Entry>, cancelled: set<nat>, now: int)
    requires Sorted(heap) && Distinct(heap)
    ensures var (fired, rest, marks) := Sweep(heap, cancelled, now); SweepSpec(heap, cancelled, now, fired, rest, marks)
    decreases |heap|
  {
    if heap == [] {
    } else if heap[0].deadline > now {
      forall e | e in heap ensures e.deadline > now {
        var i :| 0 <= i < |heap| && heap[i] == e;
      }
    } else {
      var e, tail := heap[0], heap[1..];
      TailOf(heap);
      if e.handle in cancelled {
        SweepFacts(tail, cancelled - {e.handle}, now);
      } else {
        SweepFacts(tail, cancelled, now);
        SortedCons(e, Sweep(tail, cancelled, now).0);
      }
      hide Sorted, Distinct;
    }
  }

  lemma TailOf(heap: seq<Entry>)
    requires Sorted(heap) && Distinct(heap) && heap != []
    ensures Sorted(heap[1..]) && Distinct(heap[1..])
    ensures forall x | x in heap[1..] :: Before(heap[0], x) && x.handle != heap[0].handle
    ensures forall x :: x in heap <==> x == heap[0] || x in heap[1..]
  {
    forall x | x in heap[1..] ensures Before(heap[0], x) && x.handle != heap[0].handle {
      var i :| 0 <= i < |heap[1..]| && heap[1..][i] == x;
      assert heap[i + 1] == x;
    }
  }

  lemma SortedCons(e: Entry, es: seq<Entry>)
    requires Sorted(es) && forall x | x in es :: Before(e, x)
    ensures Sorted([e] + es)
  {
  }

  // ── Periodic timers ──

  function Periodics(fired: seq<Entry>): (r: seq<Entry>)
    ensures forall i | 0 <= i < |r| :: r[i].kind.Periodic?
  {
    if fired == [] then []
    else if fired[0].kind.Periodic? then [fired[0]] + Periodics(fired[1..])
    else Periodics(fired[1..])
  }

  /** e is timer p again: for the same thread and worker, of the same kind, due one interval after `time`. */
  predicate Renews(e: Entry, p: Entry, handle: nat, time: int)
    requires p.kind.Periodic?
  {
    && e.handle == handle && e.deadline == time + p.kind.interval
    && e.gvt == p.gvt && e.affinity == p.affinity && e.kind == p.kind
  }

  ghost predicate Follow(es: seq<Entry>, ps: seq<Entry>, next: nat, clock: nat -> int, k: nat)
    requires forall i | 0 <= i < |ps| :: ps[i].kind.Periodic?
  {
    |es| == |ps| && forall i | 0 <= i < |ps| :: Renews(es[i], ps[i], next + k + i, clock(k + i))
  }

  lemma FollowCons(e: Entry, es: seq<Entry>, p: Entry, ps: seq<Entry>, next: nat, clock: nat -> int, k: nat)
    requires p.kind.Periodic? && (forall i | 0 <= i < |ps| :: ps[i].kind.Periodic?)
    requires Renews(e, p, next + k, clock(k)) && Follow(es, ps, next, clock, k + 1)
    ensures Follow([e] + es, [p] + ps, next, clock, k)
  {
    forall i | 0 <= i < |[p] + ps| ensures Renews(([e] + es)[i], ([p] + ps)[i], next + k + i, clock(k + i)) {
      if i > 0 {
        assert ([e] + es)[i] == es[i - 1] && ([p] + ps)[i] == ps[i - 1];
        assert k + 1 + (i - 1) == k + i;
      }
    }
  }

  /** Exactly one successor per fired periodic timer, in firing order, each with the next fresh handle and a deadline
      one interval after its own clock reading. */
  lemma {:induction false} SuccessorsMatch(fired: seq<Entry>, next: nat, clock: nat -> int, k: nat)
    ensures Follow(Successors(fired, next, clock, k), Periodics(fired), next, clock, k)
    decreases |fired|
  {
    if fired == [] {
    } else if fired[0].kind.Periodic? {
      SuccessorsMatch(fired[1..], next, clock, k + 1);
      hide Follow;
      FollowCons(Successor(fired[0], next + k, clock(k)), Successors(fired[1..], next, clock, k + 1), fired[0],
        Periodics(fired[1..]),
                 next, clock, k);
    } else {
      SuccessorsMatch(fired[1..], next, clock, k);
      hide Follow;
    }
  }

  /** The successor of the i-th of the periodic entries ps. */
  function Nth(ps: seq<Entry>, i: nat, next: nat, clock: nat -> int): (e: Entry)
    requires i < |ps| && ps[i].kind.Periodic?
    ensures e.handle == next + i && Renews(e, ps[i], next + i, clock(i))
  {
    Entry(next + i, clock(i) + ps[i].kind.interval, ps[i].gvt, ps[i].affinity, ps[i].kind)
  }

  ghost function Renewed(fired: seq<Entry>, next: nat, clock: nat -> int): set<Entry> {
    set i | 0 <= i < |Periodics(fired)| :: Nth(Periodics(fired), i, next, clock)
  }

  ghost predicate FreshSpec(es: seq<Entry>, fired: seq<Entry>, next: nat, clock: nat -> int) {
    && Distinct(es) && (forall e | e in es :: next <= e.handle < next + |es|)
    && (forall e :: e in es <==> e in Renewed(fired, next, clock))
  }

  lemma FollowFresh(es: seq<Entry>, fired: seq<Entry>, next: nat, clock: nat -> int)
    requires Follow(es, Periodics(fired), next, clock, 0)
    ensures FreshSpec(es, fired, next, clock)
  {
    var ps := Periodics(fired);
    hide Periodics;
    assert forall i | 0 <= i < |es| :: es[i] == Nth(ps, i, next, clock);
    hide Follow, Nth, Successor;
    forall e | e in es ensures e in Renewed(fired, next, clock) && next <= e.handle < next + |es| {
      var i :| 0 <= i < |es| && es[i] == e;
      assert e == Nth(ps, i, next, clock);
    }
    forall e | e in Renewed(fired, next, clock) ensures e in es {
      var i :| 0 <= i < |ps| && e == Nth(ps, i, next, clock);
      assert es[i] == e;
    }
  }

  lemma SuccessorsFresh(fired: seq<Entry>, next: nat, clock: nat -> int)
    ensures FreshSpec(Successors(fired, next, clock, 0), fired, next, clock)
  {
    hide *;
    SuccessorsMatch(fired, next, clock, 0);
    FollowFresh(Successors(fired, next, clock, 0), fired, next, clock);
  }

  // ── Refinement ──

  /** A poll of the abstract set: everything due fires in (deadline, handle) order and is gone, except that every fired
      periodic timer leaves its successor. */
  ghost predicate PollSpec(m: set<Entry>, next: nat, now: int, clock: nat -> int, fired: seq<Entry>, m': set<Entry>,
      next': nat) {
    && Sorted(fired)
    && (forall e :: e in fired <==> e in m && e.deadline <= now)
    && m' == (set e | e in m && e.deadline > now) + Renewed(fired, next, clock)
    && next' == next + |Periodics(fired)|
  }

  /** Every poll of the backend is a poll of the set of live timers, and marks never reach an entry they were not meant
      for. */
  lemma PollRefines(s: Timers, now: int, clock: nat -> int) returns (fired: seq<Entry>)
    requires Valid(s)
    ensures Valid(Polled(s, now, clock).0) && fired == Sweep(s.heap, s.cancelled, now).0
    ensures Tells(Polled(s, now, clock).1, fired)
    ensures PollSpec(Live(s), s.next, now, clock, fired, Live(Polled(s, now, clock).0), Polled(s, now, clock).0.next)
  {
    var sw := Sweep(s.heap, s.cancelled, now);
    fired := sw.0;
    var again := Successors(fired, s.next, clock, 0);
    SweepFacts(s.heap, s.cancelled, now);
    SuccessorsFresh(fired, s.next, clock);
    SuccessorsMatch(fired, s.next, clock, 0);
    PutAllFacts(sw.1, again);
    hide Sweep, Successors, PutAll, Renewed, Periodics;
    PollParts(s, now, clock, sw, again);
  }

  lemma PollParts(s: Timers, now: int, clock: nat -> int, sw: (seq<Entry>, seq<Entry>, set<nat>), again: seq<Entry>)
    requires Valid(s) && sw == Sweep(s.heap, s.cancelled, now) && again == Successors(sw.0, s.next, clock, 0)
    requires SweepSpec(s.heap, s.cancelled, now, sw.0, sw.1, sw.2)
    requires forall e | e in again :: s.next <= e.handle < s.next + |again|
    requires forall e :: e in again <==> e in Renewed(sw.0, s.next, clock)
    requires |again| == |Periodics(sw.0)|
    requires Sorted(PutAll(sw.1, again)) && Distinct(PutAll(sw.1, again))
    requires forall x :: x in PutAll(sw.1, again) <==> x in sw.1 || x in again
    ensures Valid(Polled(s, now, clock).0) && Tells(Polled(s, now, clock).1, sw.0)
    ensures PollSpec(Live(s), s.next, now, clock, sw.0, Live(Polled(s, now, clock).0), Polled(s, now, clock).0.next)
  {
    hide Sweep, Successors, PutAll, Renewed, Periodics, Sorted, Distinct;
    var t := Polled(s, now, clock).0;
    assert t.heap == PutAll(sw.1, again);
    assert forall h | h in t.cancelled :: h in s.cancelled;
    forall e ensures e in Live(t) <==> (e in Live(s) && e.deadline > now) || e in Renewed(sw.0, s.next, clock) {
      if e in sw.1 && t.heap != [] {
        OthersKeepMarks(s, now, sw, e);
      }
    }
  }

  /** A sweep does not touch the mark of an entry that is not due. */
  lemma OthersKeepMarks(s: Timers, now: int, sw: (seq<Entry>, seq<Entry>, set<nat>), e: Entry)
    requires Valid(s) && SweepSpec(s.heap, s.cancelled, now, sw.0, sw.1, sw.2) && e in s.heap && e.deadline > now
    ensures e.handle in sw.2 <==> e.handle in s.cancelled
  {
    forall x | x in s.heap && x.deadline <= now ensures x.handle != e.handle {
      var i :| 0 <= i < |s.heap| && s.heap[i] == x;
      var j :| 0 <= j < |s.heap| && s.heap[j] == e;
    }
  }

  /** Inserting an entry with an unused handle makes exactly that entry live if and only if its handle carries no
      mark. */
  lemma InsertIff(s: Timers, e: Entry)
    requires Valid(s) && e.handle !in Handles(s.heap)
    ensures Live(Inserted(s, e)) == Live(s) + {e} <==> e.handle !in s.cancelled
    ensures e.handle in s.cancelled ==> Live(Inserted(s, e)) == Live(s)
    ensures e.handle < s.next ==> Valid(Inserted(s, e))
  {
    PutFacts(s.heap, e);
    assert forall x | x in s.heap :: x.handle in Handles(s.heap);
    PutSorted(s.heap, e);
    hide Put, Sorted, Distinct;
    if e.handle in s.cancelled {
      assert e !in Live(Inserted(s, e));
      assert forall x :: x in Live(Inserted(s, e)) <==> x in Live(s);
    } else {
      assert forall x :: x in Live(Inserted(s, e)) <==> x in Live(s) || x == e;
    }
  }

  /** Cancelling removes exactly the timer with that handle, pending or not, and answers true unless it is marked. */
  lemma CancelRefines(s: Timers, h: nat)
    requires Valid(s)
    ensures Live(Cancelled(s, h)) == set e | e in Live(s) && e.handle != h
    ensures h < s.next ==> Valid(Cancelled(s, h))
    ensures (exists e :: e in Live(s) && e.handle == h) ==> h !in s.cancelled
  {
  }

  // ── Runs ──

  datatype Op = Issue | Insert(e: Entry) | Cancel(h: nat) | Poll(now: int, clock: nat -> int)

  /** Handles come from the counter, and an entry is inserted once and before anybody cancels it. */
  ghost predicate Allowed(s: Timers, op: Op) {
    match op
    case Issue => true
    case Insert(e) => e.handle < s.next && e.handle !in Handles(s.heap) && e.handle !in s.cancelled
    case Cancel(h) => h < s.next
    case Poll(_, _) => true
  }

  /** What an operation answers: whether a cancel is the first for its handle, what a poll reports. */
  datatype Answer = Silent | Marking(first: bool) | Firing(reports: seq<Expired>)

  function Do(s: Timers, op: Op): (Timers, Answer) {
    match op
    case Issue => (s.(next := s.next + 1), Silent)
    case Insert(e) => (Inserted(s, e), Silent)
    case Cancel(h) => (Cancelled(s, h), Marking(h !in s.cancelled))
    case Poll(now, clock) => var (t, reports) := Polled(s, now, clock); (t, Firing(reports))
  }

  /** The plain state: the live timers, the handles cancelled since the last poll, and the next handle. */
  datatype Plain = Plain(live: set<Entry>, recent: set<nat>, next: nat)

  /** The same operations on the plain state.  A cancel of a live timer answers true, a repeated one false. */
  ghost predicate SetStep(m: Plain, op: Op, out: Answer, m': Plain) {
    match op
    case Issue => m' == m.(next := m.next + 1) && out == Silent
    case Insert(e) => m' == m.(live := m.live + {e}) && out == Silent
    case Cancel(h) =>
      && m' == Plain((set e | e in m.live && e.handle != h), m.recent + {h}, m.next)
      && out.Marking? && (h in m.recent ==> !out.first) && ((exists e :: e in m.live && e.handle == h) ==> out.first)
    case Poll(now, clock) =>
      && m'.recent == {} && out.Firing?
      && exists fired ::
           PollSpec(m.live, m.next, now, clock, fired, m'.live, m'.next) && Tells(out.reports, fired)
  }

  ghost function View(s: Timers, recent: set<nat>): Plain { Plain(Live(s), recent, s.next) }

  function Recent(recent: set<nat>, op: Op): set<nat> {
    match op
    case Cancel(h) => recent + {h}
    case Poll(_, _) => {}
    case Issue => recent
    case Insert(_) => recent
  }

  lemma StepRefines(s: Timers, recent: set<nat>, op: Op)
    requires Valid(s) && Allowed(s, op) && recent <= s.cancelled
    ensures Valid(Do(s, op).0) && Recent(recent, op) <= Do(s, op).0.cancelled
    ensures SetStep(View(s, recent), op, Do(s, op).1, View(Do(s, op).0, Recent(recent, op)))
  {
    match op
    case Issue =>
    case Insert(e) => InsertIff(s, e);
    case Cancel(h) => CancelRefines(s, h);
    case Poll(now, clock) =>
      var fired := PollRefines(s, now, clock);
      hide Polled, PollSpec, Valid, Live, Reports;
  }

  ghost predicate AllAllowed(s: Timers, ops: seq<Op>)
    decreases |ops|
  {
    ops == [] || (Allowed(s, ops[0]) && AllAllowed(Do(s, ops[0]).0, ops[1..]))
  }

  function DoAll(s: Timers, ops: seq<Op>): (Timers, seq<Answer>)
    decreases |ops|
  {
    if ops == [] then (s, [])
    else
      var (s1, out) := Do(s, ops[0]);
      var (t, outs) := DoAll(s1, ops[1..]);
      (t, [out] + outs)
  }

  ghost predicate SetRun(m: Plain, ops: seq<Op>, outs: seq<Answer>, m': Plain)
    decreases |ops|
  {
    |outs| == |ops| &&
    if ops == [] then m' == m
    else exists m1 :: SetStep(m, ops[0], outs[0], m1) && SetRun(m1, ops[1..], outs[1..], m')
  }

  /** Every run of the backend answers exactly like a run of the plain set of live timers. */
  lemma {:induction false} RunRefines(s: Timers, recent: set<nat>, ops: seq<Op>) returns (recent': set<nat>)
    requires Valid(s) && AllAllowed(s, ops) && recent <= s.cancelled
    ensures Valid(DoAll(s, ops).0)
    ensures SetRun(View(s, recent), ops, DoAll(s, ops).1, View(DoAll(s, ops).0, recent'))
    decreases |ops|
  {
    recent' := recent;
    if ops != [] {
      StepRefines(s, recent, ops[0]);
      var s1, r1 := Do(s, ops[0]).0, Recent(recent, ops[0]);
      recent' := RunRefines(s1, r1, ops[1..]);
      assert DoAll(s, ops).1[1..] == DoAll(s1, ops[1..]).1;
      hide SetStep, Do, View, Valid, Allowed;
      assert SetStep(View(s, recent), ops[0], DoAll(s, ops).1[0], View(s1, r1));
    }
  }

  // ── Statistics ──

  function Inserts(ops: seq<Op>): nat {
    if ops == [] then 0 else One(ops[0].Insert?) + Inserts(ops[1..])
  }

  function Firings(outs: seq<Answer>): nat {
    if outs == [] then 0 else (if outs[0].Firing? then |outs[0].reports| else 0) + Firings(outs[1..])
  }

  function Marks(outs: seq<Answer>): nat {
    if outs == [] then 0 else One(outs[0].Marking? && outs[0].first) + Marks(outs[1..])
  }

  /** The counters count the inserts, the reports and the cancels that answered true, over every run. */
  lemma {:induction false} CountersCount(s: Timers, ops: seq<Op>)
    ensures var (t, outs) := DoAll(s, ops);
      && t.inserted == s.inserted + Inserts(ops)
      && t.fired == s.fired + Firings(outs)
      && t.dropped == s.dropped + Marks(outs)
    decreases |ops|
  {
    if ops != [] {
      CountersCount(Do(s, ops[0]).0, ops[1..]);
      assert DoAll(s, ops).1[1..] == DoAll(Do(s, ops[0]).0, ops[1..]).1;
    }
  }

  // ── Length ──

  ghost function Unmarked(heap: seq<Entry>, cancelled: set<nat>): set<Entry> {
    set e | e in heap && e.handle !in cancelled
  }

  lemma {:induction false} Cardinalities(heap: seq<Entry>, cancelled: set<nat>)
    requires Distinct(heap)
    ensures |Handles(heap)| == |heap|
    ensures |Unmarked(heap, cancelled)| == |Handles(heap) - cancelled|
  {
    if heap == [] {
      assert Handles(heap) == {} && Unmarked(heap, cancelled) == {};
    } else {
      var e, tail := heap[0], heap[1..];
      Cardinalities(tail, cancelled);
      SetsCons(e, tail, cancelled);
      assert heap == [e] + tail;
      hide Unmarked, Handles, Distinct;
      OneMore(e, Unmarked(tail, cancelled), Handles(tail), cancelled);
    }
  }

  lemma OneMore(e: Entry, live: set<Entry>, hs: set<nat>, cancelled: set<nat>)
    requires |live| == |hs - cancelled| && e !in live && e.handle !in hs
    ensures |{e.handle} + hs| == 1 + |hs|
    ensures |live + (if e.handle in cancelled then {} else {e})| == |({e.handle} + hs) - cancelled|
  {
    if e.handle in cancelled {
      assert live + {} == live;
      assert ({e.handle} + hs) - cancelled == hs - cancelled;
    } else {
      assert ({e.handle} + hs) - cancelled == (hs - cancelled) + {e.handle};
    }
  }

  lemma SetsCons(e: Entry, tail: seq<Entry>, cancelled: set<nat>)
    requires Distinct([e] + tail)
    ensures Handles([e] + tail) == {e.handle} + Handles(tail) && e.handle !in Handles(tail)
    ensures Unmarked([e] + tail, cancelled) == Unmarked(tail, cancelled) + (if e.handle in cancelled then {} else {e})
    ensures e !in Unmarked(tail, cancelled)
  {
    forall x | x in tail ensures x.handle != e.handle {
      var i :| 0 <= i < |tail| && tail[i] == x;
      assert ([e] + tail)[i + 1] == x && ([e] + tail)[0] == e;
    }
  }

  /** `len` never over-reports, and is exact if and only if no mark is stale or nothing is live. */
  lemma LenIff(s: Timers)
    requires Valid(s)
    ensures Count(s) <= |Live(s)|
    ensures Count(s) == |Live(s)| <==> s.cancelled <= Handles(s.heap) || Live(s) == {}
  {
    Cardinalities(s.heap, s.cancelled);
    assert Live(s) == Unmarked(s.heap, s.cancelled);
    var hs, cs := Handles(s.heap), s.cancelled;
    assert hs == (hs - cs) + (hs * cs) && cs == (cs - hs) + (hs * cs);
    assert cs <= hs <==> cs - hs == {};
  }

  /** If only pending timers are ever cancelled, no mark is ever stale, so `len` is always exact. */
  lemma {:induction false} PendingCancelsKeepLenExact(s: Timers, ops: seq<Op>)
    requires Valid(s) && AllAllowed(s, ops) && s.cancelled <= Handles(s.heap) && CancelsPending(s, ops)
    ensures Valid(DoAll(s, ops).0) && Count(DoAll(s, ops).0) == |Live(DoAll(s, ops).0)|
    decreases |ops|
  {
    if ops == [] {
      LenIff(s);
    } else {
      StepRefines(s, {}, ops[0]);
      NoStaleStep(s, ops[0]);
      PendingCancelsKeepLenExact(Do(s, ops[0]).0, ops[1..]);
    }
  }

  ghost predicate CancelsPending(s: Timers, ops: seq<Op>)
    decreases |ops|
  {
    ops == [] ||
    ((ops[0].Cancel? ==> ops[0].h in Handles(s.heap)) && CancelsPending(Do(s, ops[0]).0, ops[1..]))
  }

  lemma NoStaleStep(s: Timers, op: Op)
    requires Valid(s) && Allowed(s, op) && s.cancelled <= Handles(s.heap)
    requires op.Cancel? ==> op.h in Handles(s.heap)
    ensures Do(s, op).0.cancelled <= Handles(Do(s, op).0.heap)
  {
    match op
    case Issue =>
    case Insert(e) => PutFacts(s.heap, e);
    case Cancel(h) =>
    case Poll(now, clock) =>
      var sw := Sweep(s.heap, s.cancelled, now);
      var again := Successors(sw.0, s.next, clock, 0);
      SweepFacts(s.heap, s.cancelled, now);
      SuccessorsFresh(sw.0, s.next, clock);
      PutAllFacts(sw.1, again);
      assert FreshSpec(again, sw.0, s.next, clock);
      hide Sweep, Successors, PutAll, Renewed, Sorted, Distinct;
      assert forall h | h in sw.2 :: h in Handles(sw.1);
  }

  /** Marking a handle before it is issued suppresses the timer that is later given it. */
  lemma UnissuedMarkSuppresses(s: Timers, e: Entry)
    requires Valid(s) && e.handle == s.next
    ensures Live(Inserted(Cancelled(s, e.handle).(next := s.next + 1), e)) == Live(s)
  {
    PutFacts(s.heap, e);
  }

  // ── The timer thread ──

  function Lesser(a: int, b: int): int { if a < b then a else b }

  function Greater(a: int, b: int): int { if a < b then b else a }

  /** `calculate_sleep`, with the clock read after the deadline was fetched. */
  function SleepFor(head: Option<int>, now: int, minSleep: nat, maxPoll: nat): nat {
    match head
    case None => maxPoll
    case Some(deadline) =>
      if deadline <= now then 0 else Greater(Lesser(deadline - now, maxPoll), minSleep)
  }

  function NextDeadline(s: Timers): Option<int> {
    if s.heap == [] then None else Some(s.heap[0].deadline)
  }

  /** The thread never oversleeps a live timer by more than the minimum sleep, never sleeps through more than a polling
      interval, and sleeps without a deadline only when nothing is live.  Nor does it wake too early: with an empty heap
      it sleeps the whole interval, and with nothing due at least the minimum, and up to the interval or to an entry's
      deadline. */
  lemma NeverOversleeps(s: Timers, now: int, minSleep: nat, maxPoll: nat)
    requires Valid(s)
    ensures var sleep := SleepFor(NextDeadline(s), now, minSleep, maxPoll);
            && (forall e | e in Live(s) :: now + sleep <= Greater(e.deadline, now + minSleep))
            && (forall e | e in Live(s) && e.deadline <= now :: sleep == 0)
            && sleep <= Greater(minSleep, maxPoll)
            && (NextDeadline(s) == None ==> Live(s) == {})
            && (s.heap == [] ==> sleep == maxPoll)
            && (s.heap != [] && (forall e | e in s.heap :: now < e.deadline) ==>
                  sleep >= minSleep && (sleep >= maxPoll || exists e :: e in s.heap && e.deadline <= now + sleep))
  {
    forall e | e in Live(s) ensures s.heap[0].deadline <= e.deadline {
      var i :| 0 <= i < |s.heap| && s.heap[i] == e;
    }
  }

  /** The poll fires entry e: it is among the entries swept, all of which are reported, and it is gone afterwards. */
  ghost predicate Fires(s: Timers, poll: int, clock: nat -> int, e: Entry) {
    var fired := Sweep(s.heap, s.cancelled, poll).0;
    e in fired && Tells(Polled(s, poll, clock).1, fired) && e !in Live(Polled(s, poll, clock).0)
  }

  lemma DueFires(s: Timers, poll: int, clock: nat -> int, e: Entry)
    requires Valid(s) && e in Live(s)
    ensures if e.deadline <= poll then Fires(s, poll, clock, e)
            else !Fires(s, poll, clock, e) && e in Live(Polled(s, poll, clock).0)
  {
    var fired := PollRefines(s, poll, clock);
    assert e.handle < s.next;
    SweepFacts(s.heap, s.cancelled, poll);
    RenewedFresh(fired, s.next, clock, e);
    hide Valid, Polled, Reports, Renewed, Periodics, Sorted, Sweep;
  }

  /** Successors have handles nobody had before. */
  lemma RenewedFresh(fired: seq<Entry>, next: nat, clock: nat -> int, e: Entry)
    requires e.handle < next
    ensures e !in Renewed(fired, next, clock)
  {
    hide Nth;
  }

  /** One round of the timer thread, from the sleep calculation to the next poll: a live timer either fires in that
      poll, which is then no later than its deadline or the minimum sleep, or is not due and stays live. */
  lemma FiresPromptly(s: Timers, now: int, minSleep: nat, maxPoll: nat, clock: nat -> int, e: Entry)
    requires Valid(s) && e in Live(s)
    ensures var poll := now + SleepFor(NextDeadline(s), now, minSleep, maxPoll);
            if e.deadline <= poll then poll <= Greater(e.deadline, now + minSleep) && Fires(s, poll, clock, e)
            else !Fires(s, poll, clock, e) && e in Live(Polled(s, poll, clock).0)
  {
    hide *;
    NeverOversleeps(s, now, minSleep, maxPoll);
    DueFires(s, now + SleepFor(NextDeadline(s), now, minSleep, maxPoll), clock, e);
  }
}
