/** No id is lost or made up while workers pop, steal, park and are notified. */
module ParkingConserves {
  import opened Basics
  import opened Bags
  import opened Parking

  /** The worker is moving no ids. */
  predicate Free(pc: Pc) { !pc.Grab? && !pc.Unload? && !pc.Haul? && !pc.Spill? }

  /** What a worker has popped or taken and is still moving. */
  function InHand(pc: Pc): multiset<Id> {
    if Free(pc) then multiset{}
    else multiset{pc.id} + (if pc.Grab? then multiset{} else multiset(if pc.Unload? then pc.batch else pc.ids))
  }

  function Share(s: State, w: nat): multiset<Id>
    requires w < |s.pcs| == |s.locals|
  {
    multiset(s.locals[w]) + InHand(s.pcs[w])
  }

  function Shares(s: State): (bs: seq<multiset<Id>>)
    requires |s.pcs| == |s.locals|
    ensures |bs| == |s.pcs|
  {
    seq(|s.pcs|, w requires 0 <= w < |s.pcs| => Share(s, w))
  }

  /** Everything pushed is queued, in a worker's hands or was returned by a pop, and nothing else is. */
  ghost predicate Balanced(s: State) {
    Shaped(s) && multiset(s.global) + Sum(Shares(s)) + s.handed == s.pushed
  }

  /** A batch being unloaded fits into the local queue. */
  predicate Fits(s: State) {
    Shaped(s) && forall w | 0 <= w < |s.pcs| && s.pcs[w].Unload? :: |s.locals[w]| + |s.pcs[w].batch| <= BATCH
  }

  /** Worker w's local queue, place and the global queue replaced, some ids pushed and some returned by a pop. */
  function Turn(s: State, w: nat, local: seq<Id>, global: seq<Id>, pc: Pc, pushed: multiset<Id>, handed: multiset<Id>):
      State
    requires Shaped(s) && w < |s.pcs|
  {
    s.(locals := s.locals[w := local], global := global, pcs := s.pcs[w := pc], pushed := s.pushed + pushed,
       handed := s.handed + handed)
  }

  lemma SharesTurn(s: State, w: nat, t: State)
    requires Shaped(s) && Shaped(t) && w < |s.pcs| == |t.pcs|
    requires t.locals == s.locals[w := t.locals[w]] && t.pcs == s.pcs[w := t.pcs[w]]
    ensures Shares(t) == Shares(s)[w := Share(t, w)] && Shares(s)[w] == Share(s, w)
  {
    hide InHand;
  }

  /** A turn that leaves as much outside worker w's share as it takes from it keeps the balance. */
  lemma TurnBalanced(s: State, w: nat, local: seq<Id>, global: seq<Id>, pc: Pc, pushed: multiset<Id>,
                     handed: multiset<Id>)
    requires Balanced(s) && w < |s.pcs|
    requires multiset(global) + (multiset(local) + InHand(pc)) + handed ==
      multiset(s.global) + (multiset(s.locals[w]) + InHand(s.pcs[w])) + pushed
    ensures Balanced(Turn(s, w, local, global, pc, pushed, handed))
  {
    var t := Turn(s, w, local, global, pc, pushed, handed);
    SharesTurn(s, w, t);
    SumUpdate(Shares(s), w, Share(t, w));
    hide Shares, Sum, InHand;
    Exchanged(multiset(s.global), Sum(Shares(s)), s.handed, Share(s, w), multiset(t.global), Sum(Shares(t)), handed,
              Share(t, w), pushed);
  }

  lemma Exchanged(g: multiset<Id>, h: multiset<Id>, o: multiset<Id>, b: multiset<Id>,
                  g': multiset<Id>, h': multiset<Id>, out: multiset<Id>, b': multiset<Id>, new': multiset<Id>)
    requires h' + b == h + b' && g' + b' + out == g + b + new'
    ensures g' + h' + (o + out) == g + h + o + new'
  {
    forall x ensures (g' + h' + (o + out))[x] == (g + h + o + new')[x] {
      assert (h' + b)[x] == (h + b')[x];
      assert (g' + b' + out)[x] == (g + b + new')[x];
    }
  }

  lemma Front(q: seq<Id>)
    requires q != []
    ensures multiset(q) == multiset{q[0]} + multiset(q[1..])
  {
    assert q == [q[0]] + q[1..];
  }

  lemma Cut(q: seq<Id>, n: nat)
    requires n <= |q|
    ensures multiset(q) == multiset(q[..n]) + multiset(q[n..])
  {
    assert q == q[..n] + q[n..];
  }

  /** Only the worker's place changes. */
  lemma GotoBalanced(s: State, w: nat, pc: Pc)
    requires Balanced(s) && w < |s.pcs| && InHand(pc) == InHand(s.pcs[w])
    ensures Balanced(Goto(s, w, pc))
  {
    hide Balanced, InHand;
    GlobalBalanced(s, w, s.global, pc);
  }

  lemma FreeBalanced(s: State, w: nat, pc: Pc)
    requires Balanced(s) && w < |s.pcs| && Free(pc) && Free(s.pcs[w])
    ensures Balanced(Goto(s, w, pc))
  {
    hide Balanced, Free, Goto;
    GotoBalanced(s, w, pc);
  }

  /** The worker returns from its pop with what it has been holding. */
  lemma HandBalanced(s: State, w: nat, id: Id)
    requires Balanced(s) && w < |s.pcs| && InHand(s.pcs[w]) == multiset{id}
    ensures Balanced(HandOut(s, w, id))
  {
    assert s.locals[w := s.locals[w]] == s.locals;
    assert Turn(s, w, s.locals[w], s.global, Run(id), multiset{}, multiset{id}) == HandOut(s, w, id);
    hide Balanced;
    TurnBalanced(s, w, s.locals[w], s.global, Run(id), multiset{}, multiset{id});
  }

  lemma QuietTurn(s: State, w: nat, local: seq<Id>, global: seq<Id>, pc: Pc)
    requires Shaped(s) && w < |s.pcs|
    ensures Turn(s, w, local, global, pc, multiset{}, multiset{}) ==
      Goto(s, w, pc).(locals := s.locals[w := local], global := global)
  {
  }

  lemma QuietGlobal(s: State, w: nat, global: seq<Id>, pc: Pc)
    requires Shaped(s) && w < |s.pcs|
    ensures Turn(s, w, s.locals[w], global, pc, multiset{}, multiset{}) == Goto(s, w, pc).(global := global)
  {
    assert s.locals[w := s.locals[w]] == s.locals;
  }

  lemma GlobalBalanced(s: State, w: nat, global: seq<Id>, pc: Pc)
    requires Balanced(s) && w < |s.pcs|
    requires multiset(global) + InHand(pc) == multiset(s.global) + InHand(s.pcs[w])
    ensures Balanced(Goto(s, w, pc).(global := global))
  {
    QuietGlobal(s, w, global, pc);
    hide Balanced, InHand, Turn, Goto;
    Regroup(multiset(global), multiset(s.locals[w]), InHand(pc), multiset(s.global), InHand(s.pcs[w]));
    TurnBalanced(s, w, s.locals[w], global, pc, multiset{}, multiset{});
  }

  lemma Regroup(g: multiset<Id>, l: multiset<Id>, h: multiset<Id>, g': multiset<Id>, h': multiset<Id>)
    requires g + h == g' + h'
    ensures g + (l + h) + multiset{} == g' + (l + h') + multiset{}
  {
    forall x ensures (g + (l + h) + multiset{})[x] == (g' + (l + h') + multiset{})[x] {
      assert (g + h)[x] == (g' + h')[x];
    }
  }

  lemma LocalBalanced(s: State, w: nat, local: seq<Id>, pc: Pc)
    requires Balanced(s) && w < |s.pcs|
    requires multiset(local) + InHand(pc) == multiset(s.locals[w]) + InHand(s.pcs[w])
    ensures Balanced(Goto(s, w, pc).(locals := s.locals[w := local]))
  {
    QuietTurn(s, w, local, s.global, pc);
    assert Goto(s, w, pc).global == s.global;
    hide Balanced, InHand, Turn, Goto;
    TurnBalanced(s, w, local, s.global, pc, multiset{}, multiset{});
  }

  lemma TakeBalanced(s: State, w: nat)
    requires Balanced(s) && PopEnabled(s, w, CheckGlobal)
    ensures Balanced(PopApply(s, w, CheckGlobal))
  {
    hide Balanced;
    var id := s.global[0];
    var t := Goto(s, w, Grab(id)).(global := s.global[1..]);
    Front(s.global);
    assert PopApply(s, w, CheckGlobal) == HandOut(t, w, id);
    hide PopApply;
    GlobalBalanced(s, w, s.global[1..], Grab(id));
    HandBalanced(t, w, id);
  }

  lemma PopLocalBalanced(s: State, w: nat)
    requires Balanced(s) && PopEnabled(s, w, PopLocal)
    ensures Balanced(PopApply(s, w, PopLocal))
  {
    hide Balanced;
    if s.locals[w] == [] {
      GotoBalanced(s, w, LookGlobal);
    } else {
      var id := s.locals[w][0];
      var t := Goto(s, w, Grab(id)).(locals := s.locals[w := s.locals[w][1..]]);
      Front(s.locals[w]);
      assert PopApply(s, w, PopLocal) == HandOut(t, w, id);
      hide PopApply;
      LocalBalanced(s, w, s.locals[w][1..], Grab(id));
      HandBalanced(t, w, id);
    }
  }

  lemma PopGlobalBalanced(s: State, w: nat)
    requires Balanced(s) && PopEnabled(s, w, PopGlobal)
    ensures Balanced(PopApply(s, w, PopGlobal))
  {
    hide Balanced;
    if s.global == [] {
      GotoBalanced(s, w, Steal);
    } else {
      Front(s.global);
      GlobalBalanced(s, w, s.global[1..], Grab(s.global[0]));
    }
  }

  lemma BatchBalanced(s: State, w: nat)
    requires Balanced(s) && PopEnabled(s, w, GrabBatch)
    ensures Balanced(PopApply(s, w, GrabBatch))
  {
    hide Balanced;
    var n := if |s.global| < BATCH then |s.global| else BATCH;
    var (id, pc) := (s.pcs[w].id, Unload(s.pcs[w].id, s.global[..n]));
    Cut(s.global, n);
    assert PopApply(s, w, GrabBatch) == Goto(s, w, pc).(global := s.global[n..]);
    assert InHand(pc) == multiset{id} + multiset(s.global[..n]) && InHand(s.pcs[w]) == multiset{id};
    hide PopApply, PopEnabled, InHand, Goto;
    GlobalBalanced(s, w, s.global[n..], pc);
  }

  lemma Passed(local: seq<Id>, id: Id, ids: seq<Id>)
    requires ids != []
    ensures multiset(local + [ids[0]]) + (multiset{id} + multiset(ids[1..])) ==
      multiset(local) + (multiset{id} + multiset(ids))
  {
    Front(ids);
  }

  lemma UnloadBalanced(s: State, w: nat)
    requires Balanced(s) && Fits(s) && PopEnabled(s, w, UnloadOne)
    ensures Balanced(PopApply(s, w, UnloadOne))
  {
    hide Balanced;
    var (id, b) := (s.pcs[w].id, s.pcs[w].batch);
    var pc := Unload(id, b[1..]);
    assert PopApply(s, w, UnloadOne) == Goto(s, w, pc).(locals := s.locals[w := s.locals[w] + [b[0]]]);
    assert InHand(pc) == multiset{id} + multiset(b[1..]) && InHand(s.pcs[w]) == multiset{id} + multiset(b);
    Passed(s.locals[w], id, b);
    hide PopApply, PopEnabled, InHand, Fits, Goto;
    LocalBalanced(s, w, s.locals[w] + [b[0]], pc);
  }

  lemma HaulBalanced(s: State, w: nat)
    requires Balanced(s) && PopEnabled(s, w, HaulOne)
    ensures Balanced(PopApply(s, w, HaulOne))
  {
    hide Balanced;
    var (id, ids) := (s.pcs[w].id, s.pcs[w].ids);
    var pc := if |s.locals[w]| < LOCAL_CAPACITY then Haul(id, ids[1..]) else Spill(id, ids[1..], false);
    assert PopApply(s, w, HaulOne) ==
      if pc.Haul? then Goto(s, w, pc).(locals := s.locals[w := s.locals[w] + [ids[0]]])
      else Goto(s, w, pc).(global := s.global + [ids[0]]);
    assert InHand(s.pcs[w]) == multiset{id} + multiset(ids) && InHand(pc) == multiset{id} + multiset(ids[1..]);
    hide PopApply, InHand, Goto, PopEnabled;
    if pc.Haul? {
      Passed(s.locals[w], id, ids);
      LocalBalanced(s, w, s.locals[w] + [ids[0]], pc);
    } else {
      Passed(s.global, id, ids);
      GlobalBalanced(s, w, s.global + [ids[0]], pc);
    }
  }

  /** Stealing, seen as the victim putting its older half at the back of the global queue and the thief fetching it. */
  lemma StealBalanced(s: State, w: nat, v: nat)
    requires Balanced(s) && PopEnabled(s, w, StealHalf(v))
    ensures Balanced(PopApply(s, w, StealHalf(v)))
  {
    hide Balanced;
    var n := |s.locals[v]| / 2;
    var taken := s.locals[v][..n];
    var m := s.(locals := s.locals[v := s.locals[v][n..]], global := s.global + taken);
    var pc := Haul(taken[0], taken[1..]);
    assert PopApply(s, w, StealHalf(v)) == Goto(m, w, pc).(global := s.global);
    assert InHand(pc) == multiset{taken[0]} + multiset(taken[1..]) && InHand(m.pcs[w]) == multiset{};
    hide PopApply, InHand, PopEnabled, Goto;
    Aside(s, v, n);
    Front(taken);
    GlobalBalanced(m, w, s.global, pc);
  }

  lemma Aside(s: State, v: nat, n: nat)
    requires Balanced(s) && v < |s.pcs| && n <= |s.locals[v]|
    ensures Balanced(s.(locals := s.locals[v := s.locals[v][n..]], global := s.global + s.locals[v][..n]))
  {
    Cut(s.locals[v], n);
    assert s.pcs[v := s.pcs[v]] == s.pcs;
    assert Turn(s, v, s.locals[v][n..], s.global + s.locals[v][..n], s.pcs[v], multiset{}, multiset{}) ==
           s.(locals := s.locals[v := s.locals[v][n..]], global := s.global + s.locals[v][..n]);
    hide Balanced, InHand;
    TurnBalanced(s, v, s.locals[v][n..], s.global + s.locals[v][..n], s.pcs[v], multiset{}, multiset{});
  }

  /** The balance is about queues, places and the two logs only. */
  lemma OnlyShares(s: State, t: State)
    requires Balanced(s) && Shaped(t)
    requires t.locals == s.locals && t.global == s.global && t.pcs == s.pcs
    requires t.pushed == s.pushed && t.handed == s.handed
    ensures Balanced(t)
  {
    assert Shares(t) == Shares(s);
    hide Shares, Sum;
  }

  /** A notification moves nobody's ids. */
  lemma NotifyBalanced(s: State, v: nat)
    requires Balanced(s)
    ensures Balanced(Notified(s, v))
  {
    hide Balanced;
    if At(s, v, Waiting) {
      GotoBalanced(s, v, Leaving);
    }
  }

  /** A worker that notifies another one and goes on. */
  lemma TellsBalanced(s: State, w: nat, v: nat, pc: Pc)
    requires Balanced(s) && w < |s.pcs| && s.pcs[w] != Waiting && InHand(pc) == InHand(s.pcs[w])
    ensures w < |Notified(s, v).pcs| && Balanced(Goto(Notified(s, v), w, pc))
  {
    NotifySpares(s, w, v);
    hide Balanced, InHand, Goto, Notified;
    NotifyBalanced(s, v);
    GotoBalanced(Notified(s, v), w, pc);
  }

  lemma NotifySpares(s: State, w: nat, v: nat)
    requires w < |s.pcs| && s.pcs[w] != Waiting
    ensures w < |Notified(s, v).pcs| && Notified(s, v).pcs[w] == s.pcs[w]
  {
  }

  lemma SpillBalanced(s: State, w: nat, v: nat)
    requires Balanced(s) && PopEnabled(s, w, SpillNotify(v))
    ensures Balanced(PopApply(s, w, SpillNotify(v)))
  {
    hide Balanced, Goto, Notified;
    TellsBalanced(s, w, v, Haul(s.pcs[w].id, s.pcs[w].ids));
  }

  lemma StayBalanced(s: State, w: nat, st: PopStep)
    requires Balanced(s) && PopEnabled(s, w, st) && (st.SkipCheck? || st.SpillRead? || st.NoWork?)
    ensures Balanced(PopApply(s, w, st))
  {
    hide Balanced;
    var pc := PopApply(s, w, st).pcs[w];
    assert PopApply(s, w, st) == Goto(s, w, pc);
    if st.SpillRead? {
      assert !pc.Unload? && !pc.Grab? && !Free(pc) && pc.id == s.pcs[w].id && pc.ids == s.pcs[w].ids;
    } else {
      assert Free(pc) && Free(s.pcs[w]);
    }
    hide PopApply, PopEnabled, Goto, Free;
    GotoBalanced(s, w, pc);
  }

  lemma ReturnBalanced(s: State, w: nat, st: PopStep)
    requires Balanced(s) && PopEnabled(s, w, st) && (st.UnloadDone? || st.HaulDone?)
    ensures Balanced(PopApply(s, w, st))
  {
    hide Balanced;
    var id := s.pcs[w].id;
    assert PopApply(s, w, st) == HandOut(s, w, id) && InHand(s.pcs[w]) == multiset{id};
    hide PopApply, PopEnabled, InHand, HandOut;
    HandBalanced(s, w, id);
  }

  lemma PopBalanced(s: State, w: nat, st: PopStep)
    requires Balanced(s) && Fits(s) && PopEnabled(s, w, st)
    ensures Balanced(PopApply(s, w, st))
  {
    hide Balanced, PopApply, Fits, PopEnabled;
    match st
    case CheckGlobal => TakeBalanced(s, w);
    case PopLocal => PopLocalBalanced(s, w);
    case PopGlobal => PopGlobalBalanced(s, w);
    case GrabBatch => BatchBalanced(s, w);
    case UnloadOne => UnloadBalanced(s, w);
    case StealHalf(v) => StealBalanced(s, w, v);
    case HaulOne => HaulBalanced(s, w);
    case SpillNotify(v) => SpillBalanced(s, w, v);
    case UnloadDone => ReturnBalanced(s, w, st);
    case HaulDone => ReturnBalanced(s, w, st);
    case _ => StayBalanced(s, w, st);
  }

  lemma IdleBalanced(s: State, w: nat, st: IdleStep)
    requires Balanced(s) && IdleEnabled(s, w, st)
    ensures Balanced(IdleApply(s, w, st))
  {
    hide Balanced, InHand;
    var t := IdleApply(s, w, st);
    var pc := t.pcs[w];
    assert Free(pc) && Free(s.pcs[w]) && Shaped(t);
    assert t == Goto(s, w, pc).(parked := t.parked, flying := t.flying);
    hide Free, IdleApply, IdleEnabled;
    FreeBalanced(s, w, pc);
    OnlyShares(Goto(s, w, pc), t);
  }

  lemma PushTurn(s: State, w: nat, local: seq<Id>, global: seq<Id>, pc: Pc, id: Id)
    requires Shaped(s) && w < |s.pcs|
    ensures Turn(s, w, local, global, pc, multiset{id}, multiset{}) ==
      Goto(s, w, pc).(locals := s.locals[w := local], global := global, pushed := s.pushed + multiset{id})
  {
  }

  lemma PushBalanced(s: State, w: nat, id: Id, hint: bool, running: Option<Id>)
    requires Balanced(s) && w < |s.pcs| && Free(s.pcs[w])
    ensures Balanced(Pushing(s, w, id, hint, running))
  {
    assert Shaped(s);
    hide Balanced, InHand;
    var here := hint && |s.locals[w]| < LOCAL_CAPACITY;
    var pc := Telling(Tell(if here then 0 else 1, false), running);
    var l, g := if here then s.locals[w] + [id] else s.locals[w], if here then s.global else s.global + [id];
    assert s.locals[w := s.locals[w]] == s.locals;
    PushTurn(s, w, l, g, pc, id);
    assert Pushing(s, w, id, hint, running) == Turn(s, w, l, g, pc, multiset{id}, multiset{});
    assert Free(pc);
    hide Pushing, Turn, Free, Goto;
    OneMore(s.global, s.locals[w], id, g, l);
    Nothings(s, w, pc);
    TurnBalanced(s, w, l, g, pc, multiset{id}, multiset{});
  }

  lemma Nothings(s: State, w: nat, pc: Pc)
    requires w < |s.pcs| && Free(pc) && Free(s.pcs[w])
    ensures InHand(pc) == InHand(s.pcs[w]) == multiset{}
  {
  }

  lemma OneMore(g: seq<Id>, l: seq<Id>, id: Id, g': seq<Id>, l': seq<Id>)
    requires (g' == g && l' == l + [id]) || (g' == g + [id] && l' == l)
    ensures multiset(g') + (multiset(l') + multiset{}) + multiset{} ==
      multiset(g) + (multiset(l) + multiset{}) + multiset{id}
  {
  }

  lemma WorkBalanced(s: State, w: nat, st: WorkStep)
    requires Balanced(s) && WorkEnabled(s, w, st)
    ensures Balanced(WorkApply(s, w, st))
  {
    hide Balanced, Pushing;
    match st
    case Push(id, hint) => PushBalanced(s, w, id, hint, if s.pcs[w].Run? then Some(s.pcs[w].id) else None);
    case PushBack => PushBalanced(s, w, s.pcs[w].id, true, None);
    case Notify(v) => TellsBalanced(s, w, v, Done(s.pcs[w].tell, s.pcs[w].running));
    case _ => LightBalanced(s, w, st);
  }

  lemma LightBalanced(s: State, w: nat, st: WorkStep)
    requires Balanced(s) && WorkEnabled(s, w, st) && !st.Push? && !st.PushBack? && !st.Notify?
    ensures Balanced(WorkApply(s, w, st))
  {
    hide Balanced, InHand;
    var t := WorkApply(s, w, st);
    var pc := t.pcs[w];
    assert Free(pc) && Free(s.pcs[w]) && Shaped(t);
    assert t == Goto(s, w, pc).(flying := t.flying);
    hide Free, WorkApply, WorkEnabled;
    FreeBalanced(s, w, pc);
    OnlyShares(Goto(s, w, pc), t);
  }

  lemma OutBalanced(s: State, p: nat, id: Id)
    requires Balanced(s) && Enabled(s, OutPush(p, id))
    ensures Balanced(Apply(s, OutPush(p, id)))
  {
    var t := Apply(s, OutPush(p, id));
    assert Shaped(t) && t.global == s.global + [id] && t.pushed == s.pushed + multiset{id} && t.handed == s.handed;
    assert Shares(t) == Shares(s);
    hide Shares, Sum, Apply, Enabled;
    Arrives(s.global, id, Sum(Shares(s)), s.handed);
  }

  lemma Arrives(g: seq<Id>, id: Id, h: multiset<Id>, o: multiset<Id>)
    ensures multiset(g + [id]) + h + o == multiset(g) + h + o + multiset{id}
  {
  }

  lemma StepBalanced(s: State, st: Step)
    requires Balanced(s) && Fits(s) && Enabled(s, st)
    ensures Balanced(Apply(s, st))
  {
    assert Shaped(s);
    hide Balanced, Fits;
    match st
    case Pop(w, p) => PopBalanced(s, w, p);
    case Idle(w, i) => IdleBalanced(s, w, i);
    case Work(w, k) => WorkBalanced(s, w, k);
    case OutPush(p, id) => OutBalanced(s, p, id);
    case OutRead(p) => OnlyShares(s, Apply(s, st));
    case OutNotify(p, v) =>
      NotifyBalanced(s, v);
      OnlyShares(Notified(s, v), Apply(s, st));
  }

  lemma PopFits(s: State, w: nat, st: PopStep)
    requires Fits(s) && EmptyLocals(s) && PopEnabled(s, w, st)
    ensures Fits(PopApply(s, w, st))
  {
  }

  /** Workers that are unloading a batch do nothing else, and nobody else touches their queues. */
  lemma WorkFits(s: State, w: nat, st: WorkStep)
    requires Fits(s) && WorkEnabled(s, w, st)
    ensures Fits(WorkApply(s, w, st))
  {
  }

  lemma IdleFits(s: State, w: nat, st: IdleStep)
    requires Fits(s) && IdleEnabled(s, w, st)
    ensures Fits(IdleApply(s, w, st))
  {
  }

  lemma StepFits(s: State, st: Step)
    requires Fits(s) && EmptyLocals(s) && Enabled(s, st)
    ensures Fits(Apply(s, st))
  {
    match st
    case Pop(w, p) => PopFits(s, w, p); hide PopApply, PopEnabled, Fits;
    case Idle(w, i) => IdleFits(s, w, i); hide IdleApply, IdleEnabled, Fits;
    case Work(w, k) => WorkFits(s, w, k); hide WorkApply, WorkEnabled, Fits;
    case _ =>
  }

  lemma {:induction false} RunBalanced(s: State, steps: seq<Step>, t: State)
    requires Inv(s) && Fits(s) && Balanced(s) && Runs(s, steps, t)
    ensures Balanced(t)
    decreases |steps|
  {
    if steps != [] {
      assert Shaped(s) && EmptyLocals(s);
      hide Inv, EmptyLocals, Fits, Balanced, Enabled, Apply;
      StepKeeps(s, steps[0]);
      StepFits(s, steps[0]);
      StepBalanced(s, steps[0]);
      RunBalanced(Apply(s, steps[0]), steps[1..], t);
    }
  }

  lemma {:induction false} EmptySum(bs: seq<multiset<Id>>)
    requires forall i | 0 <= i < |bs| :: bs[i] == multiset{}
    ensures Sum(bs) == multiset{}
  {
    if bs != [] {
      EmptySum(bs[1..]);
    }
  }

  lemma InitialBalanced(s: State)
    requires Initial(s)
    ensures Balanced(s) && Fits(s)
  {
    EmptySum(Shares(s));
  }

  /** In every run, as multisets, the ids in the global queue, in the local queues, in the hands of workers that are
      grabbing or hauling, and those that pops have returned are exactly the ids that have been pushed. */
  lemma EveryRunConserves(s0: State, steps: seq<Step>, s: State)
    requires Initial(s0) && |s0.pcs| > 0 && Runs(s0, steps, s)
    ensures Shaped(s) && multiset(s.global) + Sum(Shares(s)) + s.handed == s.pushed
  {
    InitialBalanced(s0);
    NobodyInside(s0.pcs);
    assert Inv(s0);
    hide Inv, Fits, Initial, Runs, EmptyLocals;
    RunBalanced(s0, steps, s);
  }
}
