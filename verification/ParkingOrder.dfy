/** Nothing overtakes in a queue, and whoever finds a parked worker notifies. */
module ParkingOrder {
  import opened Basics
  import opened Parking

  /** Ids have left at the front and arrived at the back. */
  ghost predicate Fifo(q: seq<Id>, q': seq<Id>) { exists n: nat :: n <= |q| && q[n..] <= q' }

  lemma LeftAndArrived(q: seq<Id>, n: nat, more: seq<Id>)
    requires n <= |q|
    ensures Fifo(q, q[n..] + more)
  {
  }

  lemma Untouched(q: seq<Id>)
    ensures Fifo(q, q)
  {
    LeftAndArrived(q, 0, []);
    assert q[0..] + [] == q;
  }

  /** Every step of anybody takes from the front of each queue and adds at its back. */
  lemma QueuesAreFifo(s: State, st: Step, w: nat)
    requires Shaped(s) && Enabled(s, st) && w < |s.locals|
    ensures Fifo(s.global, Apply(s, st).global) && |Apply(s, st).locals| == |s.locals|
    ensures Fifo(s.locals[w], Apply(s, st).locals[w])
  {
    Untouched(s.global);
    Untouched(s.locals[w]);
    hide Fifo;
    match st
    case Pop(v, p) => PopFifo(s, v, p, w); hide PopApply;
    case Work(v, k) =>
      if k.Push? {
        PushFifo(s, v, k.id, k.hint, if s.pcs[v].Run? then Some(s.pcs[v].id) else None, w);
        hide Pushing;
      } else if k.PushBack? {
        PushFifo(s, v, s.pcs[v].id, true, None, w);
        hide Pushing;
      }
    case OutPush(_, id) =>
      LeftAndArrived(s.global, 0, [id]);
      assert s.global[0..] == s.global;
    case _ =>
  }

  lemma PushFifo(s: State, v: nat, id: Id, hint: bool, running: Option<Id>, w: nat)
    requires Shaped(s) && v < |s.pcs| && w < |s.locals|
    requires Fifo(s.global, s.global) && Fifo(s.locals[w], s.locals[w])
    ensures var t := Pushing(s, v, id, hint, running);
      Fifo(s.global, t.global) && |t.locals| == |s.locals| && Fifo(s.locals[w], t.locals[w])
  {
    LeftAndArrived(s.global, 0, [id]);
    LeftAndArrived(s.locals[w], 0, [id]);
    assert s.global[0..] == s.global && s.locals[w][0..] == s.locals[w];
    hide Fifo;
  }

  lemma PopFifo(s: State, v: nat, p: PopStep, w: nat)
    requires PopEnabled(s, v, p) && w < |s.locals|
    ensures Fifo(s.global, PopApply(s, v, p).global) && |PopApply(s, v, p).locals| == |s.locals|
    ensures Fifo(s.locals[w], PopApply(s, v, p).locals[w])
  {
    GlobalFifo(s, v, p);
    LocalFifo(s, v, p, w);
    hide Fifo;
  }

  lemma GlobalFifo(s: State, v: nat, p: PopStep)
    requires PopEnabled(s, v, p)
    ensures Fifo(s.global, PopApply(s, v, p).global)
  {
    var n := if p.GrabBatch? then (if |s.global| < BATCH then |s.global| else BATCH) else 1;
    Untouched(s.global);
    if n <= |s.global| {
      LeftAndArrived(s.global, n, []);
      assert s.global[n..] + [] == s.global[n..];
    }
    if p.HaulOne? {
      LeftAndArrived(s.global, 0, [s.pcs[v].ids[0]]);
      assert s.global[0..] == s.global;
    }
    hide Fifo;
  }

  lemma LocalFifo(s: State, v: nat, p: PopStep, w: nat)
    requires PopEnabled(s, v, p) && w < |s.locals|
    ensures |PopApply(s, v, p).locals| == |s.locals| && Fifo(s.locals[w], PopApply(s, v, p).locals[w])
  {
    Untouched(s.locals[w]);
    hide Fifo;
    if p.UnloadOne? || p.HaulOne? {
      LocalGains(s, v, p, w);
      hide PopApply;
    } else if p.StealHalf? || p.PopLocal? {
      LocalLoses(s, v, p, w);
      hide PopApply;
    }
  }

  lemma LocalGains(s: State, v: nat, p: PopStep, w: nat)
    requires PopEnabled(s, v, p) && w < |s.locals| && (p.UnloadOne? || p.HaulOne?)
    ensures |PopApply(s, v, p).locals| == |s.locals| && Fifo(s.locals[w], PopApply(s, v, p).locals[w])
  {
    var q := s.locals[w];
    Untouched(q);
    LeftAndArrived(q, 0, [if p.UnloadOne? then s.pcs[v].batch[0] else s.pcs[v].ids[0]]);
    assert q[0..] == q;
    hide Fifo;
  }

  lemma LocalLoses(s: State, v: nat, p: PopStep, w: nat)
    requires PopEnabled(s, v, p) && w < |s.locals| && (p.StealHalf? || p.PopLocal?)
    ensures |PopApply(s, v, p).locals| == |s.locals| && Fifo(s.locals[w], PopApply(s, v, p).locals[w])
  {
    var q := s.locals[w];
    var n := if p.StealHalf? then |q| / 2 else Least(|q|, 1);
    Untouched(q);
    LeftAndArrived(q, n, []);
    assert q[n..] + [] == q[n..];
    hide Fifo;
  }

  /** The thread has found a parked worker and can do nothing but notify. */
  predicate MustNotify(s: State, st: Step)
    requires Enabled(s, st)
  {
    match st
    case Pop(w, p) => s.pcs[w].Spill? && s.pcs[w].sure ==> p.SpillNotify?
    case Work(w, k) => s.pcs[w].Telling? && s.pcs[w].tell.sure ==> k.Notify?
    case Idle(w, _) => !s.pcs[w].Spill? && !s.pcs[w].Telling?
    case OutRead(p) => !s.pushers[p].tell.sure
    case _ => true
  }

  predicate Sure(s: State, st: Step)
    requires Enabled(s, st) && |Apply(s, st).pcs| == |s.pcs| && |Apply(s, st).pushers| == |s.pushers|
  {
    var t := Apply(s, st);
    match st
    case Pop(w, p) => t.pcs[w].Spill? && t.pcs[w].sure
    case Work(w, k) => t.pcs[w].Telling? && t.pcs[w].tell.sure
    case OutRead(p) => t.pushers[p].Busy? && t.pushers[p].tell.sure
    case _ => false
  }

  /** Whoever has pushed and looks at the parked counter goes on to notify if and only if it is positive, and does
      nothing else before. */
  lemma ReadersNotifyIffParked(s: State, st: Step)
    requires Enabled(s, st) && (st.OutRead? || (st.Work? && st.k.Read?) || (st.Pop? && st.pop.SpillRead?))
    ensures |Apply(s, st).pcs| == |s.pcs| && |Apply(s, st).pushers| == |s.pushers|
    ensures Sure(s, st) <==> s.parked > 0
    ensures forall next | Enabled(Apply(s, st), next) :: MustNotify(Apply(s, st), next)
  {
  }

  /** The looks at the parked counter a worker or an outside pusher still owes, the current one included. */
  function Owes(pc: Pc): nat { if pc.Telling? then pc.tell.more + 1 else 0 }

  function OutOwes(p: Pusher): nat { if p.Busy? then p.tell.more + 1 else 0 }

  /** A push to the own queue is followed by one look, a push to the global queue by two, and each look that finds nobody
      parked or has notified is one less. */
  lemma LooksAreMade(s: State, w: nat, st: WorkStep)
    requires WorkEnabled(s, w, st)
    ensures var t := WorkApply(s, w, st);
      && |t.pcs| == |s.pcs|
      && (st.Push? || st.PushBack? ==> Owes(t.pcs[w]) == if t.global == s.global then 1 else 2)
      && ((st.Read? && s.parked == 0) || st.Notify? ==> Owes(t.pcs[w]) + 1 == Owes(s.pcs[w]))
  {
  }

  lemma OutLooksAreMade(s: State, st: Step)
    requires Enabled(s, st) && (st.OutPush? || st.OutRead? || st.OutNotify?)
    ensures var t := Apply(s, st);
      && |t.pushers| == |s.pushers|
      && (st.OutPush? ==> OutOwes(t.pushers[st.p]) == 2)
      && ((st.OutRead? && s.parked == 0) || st.OutNotify? ==> OutOwes(t.pushers[st.p]) + 1 == OutOwes(s.pushers[st.p]))
  {
  }
}
