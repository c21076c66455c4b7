/** Voluntary context switches behave as coroutines: whatever runs in between, on however many CPUs, a context that is
    resumed sees exactly what it left. */
module Coroutines {
  import opened Words
  import opened ContextSwitch

  /** What a suspended context left behind: its callee-saved registers and return address, or its start parameters. */
  datatype Rest =
    | Away(rsp: int, rbx: int, rbp: int, r12: int, r13: int, r14: int, r15: int, ret: int)
    | New(top: nat, fn: int, arg: int)

  /** `on` says which context each CPU executes. */
  datatype State = State(k: Code, areas: seq<int>, cpus: seq<Cpu>, on: seq<nat>, mem: Mem, asleep: map<nat, Rest>)

  /** Other code running on a CPU, a call of the switch, or the set-up of a new context. */
  datatype Event =
    | Run(c: nat, cpu: Cpu, mem: Mem) | Go(c: nat, to: nat, ret: int) | Make(i: nat, top: nat, fn: int, arg: int)

  predicate InArea(a: int, x: int) { a <= x < a + 64 }

  predicate Disjoint(a: int, b: int) { a + 64 <= b || b + 64 <= a }

  /** Ordinary code leaves the save areas and return slots of suspended contexts alone. */
  ghost predicate Spares(s: State, mem: Mem) {
    forall i | i in s.asleep && i < |s.areas| ::
      && SameWords(s.mem, mem, s.areas[i])
      && (s.asleep[i].Away? ==> Get(mem, s.asleep[i].rsp - 8) == Get(s.mem, s.asleep[i].rsp - 8))
  }

  /** The stack slot for a return address is nobody else's. */
  predicate OwnSlot(s: State, slot: int) {
    && (forall i | 0 <= i < |s.areas| :: !InArea(s.areas[i], slot))
    && (forall i | i in s.asleep :: s.asleep[i].Away? ==> s.asleep[i].rsp - 8 != slot)
  }

  ghost predicate Enabled(s: State, e: Event) {
    match e
    case Run(c, _, mem) => c < |s.cpus| && Spares(s, mem)
    case Go(c, to, _) =>
      && c < |s.cpus| == |s.on| && s.on[c] < |s.areas| && to in s.asleep && to < |s.areas| && to != s.on[c]
      && OwnSlot(s, s.cpus[c].rsp - 8)
    case Make(i, top, _, _) => i < |s.areas| && i !in s.asleep && i !in s.on && top < TWO64
  }

  function Leaving(cpu: Cpu, ret: int): Rest {
    Away(cpu.rsp, cpu.rbx, cpu.rbp, cpu.r12, cpu.r13, cpu.r14, cpu.r15, ret)
  }

  ghost function Apply(s: State, e: Event): State
    requires Enabled(s, e)
  {
    match e
    case Run(c, cpu, mem) => s.(cpus := s.cpus[c := cpu], mem := mem)
    case Go(c, to, ret) =>
      var m := Switch(s.k, Machine(s.cpus[c], s.mem), s.areas[s.on[c]], s.areas[to], ret);
      s.(cpus := s.cpus[c := m.cpu], mem := m.mem, on := s.on[c := to],
         asleep := (s.asleep - {to})[s.on[c] := Leaving(s.cpus[c], ret)])
    case Make(i, top, fn, arg) =>
      s.(mem := InitContext(s.k, s.mem, s.areas[i], top, fn, arg), asleep := s.asleep[i := New(top, fn, arg)])
  }

  // ── The invariant ──

  /** The save area at `a` holds these eight words. */
  predicate Holds(m: Mem, a: int, rsp: int, rip: int, rbx: int, rbp: int, r12: int, r13: int, r14: int, r15: int) {
    && Get(m, a) == rsp && Get(m, a + 0x08) == rip && Get(m, a + 0x10) == rbx && Get(m, a + 0x18) == rbp
    && Get(m, a + 0x20) == r12 && Get(m, a + 0x28) == r13 && Get(m, a + 0x30) == r14 && Get(m, a + 0x38) == r15
  }

  predicate Keeps(k: Code, m: Mem, a: int, r: Rest) {
    match r
    case Away(rsp, rbx, rbp, r12, r13, r14, r15, ret) =>
      Holds(m, a, rsp - 8, k.label_, rbx, rbp, r12, r13, r14, r15) && Get(m, rsp - 8) == ret
    case New(top, fn, arg) => Holds(m, a, AlignDown(top), k.trampoline, 0, 0, fn, arg, 0, 0)
  }

  predicate Placed(s: State) {
    && s.k.label_ != s.k.trampoline
    && (forall i, j | 0 <= i < j < |s.areas| :: Disjoint(s.areas[i], s.areas[j]))
    && |s.on| == |s.cpus|
    && (forall c | 0 <= c < |s.on| :: s.on[c] < |s.areas| && s.on[c] !in s.asleep)
    && (forall c, d | 0 <= c < d < |s.on| :: s.on[c] != s.on[d])
  }

  ghost predicate Inv(s: State) {
    && Placed(s)
    && (forall i | i in s.asleep :: i < |s.areas|)
    && (forall i | i in s.asleep :: Keeps(s.k, s.mem, s.areas[i], s.asleep[i]))
    && (forall i, j | i in s.asleep && 0 <= j < |s.areas| :: s.asleep[i].Away? ==>
      !InArea(s.areas[j], s.asleep[i].rsp - 8))
  }

  /** Memory differs at most in the save area at `from` and in one slot. */
  ghost predicate Frame(m: Mem, m': Mem, from: int, slot: int) {
    forall x | !InArea(from, x) && x != slot :: Get(m', x) == Get(m, x)
  }

  predicate SameWords(m: Mem, m': Mem, a: int) {
    && Get(m', a) == Get(m, a) && Get(m', a + 0x08) == Get(m, a + 0x08)
    && Get(m', a + 0x10) == Get(m, a + 0x10) && Get(m', a + 0x18) == Get(m, a + 0x18)
    && Get(m', a + 0x20) == Get(m, a + 0x20) && Get(m', a + 0x28) == Get(m, a + 0x28)
    && Get(m', a + 0x30) == Get(m, a + 0x30) && Get(m', a + 0x38) == Get(m, a + 0x38)
  }

  lemma FrameSpares(m: Mem, m': Mem, from: int, slot: int, a: int)
    requires Frame(m, m', from, slot) && Disjoint(from, a) && !InArea(a, slot)
    ensures SameWords(m, m', a)
  {
    hide Get;
  }

  /** A save area keeps its meaning while its own words and its return slot stay the same. */
  lemma KeepsFrame(k: Code, m: Mem, m': Mem, a: int, r: Rest)
    requires Keeps(k, m, a, r) && SameWords(m, m', a)
    requires r.Away? ==> Get(m', r.rsp - 8) == Get(m, r.rsp - 8)
    ensures Keeps(k, m', a, r)
  {
    hide Get, AlignDown;
  }

  /** What the save half writes. */
  lemma SaveSpec(k: Code, m: Machine)
    ensures var t := Save(k, m);
      && Holds(t.mem, m.cpu.rdi, m.cpu.rsp, k.label_, m.cpu.rbx, m.cpu.rbp, m.cpu.r12, m.cpu.r13, m.cpu.r14, m.cpu.r15)
      && t.cpu == m.cpu.(rax := k.label_)
  {
  }

  lemma SaveFrame(k: Code, m: Machine, x: int)
    requires !InArea(m.cpu.rdi, x)
    ensures Get(Save(k, m).mem, x) == Get(m.mem, x)
  {
  }

  /** What the load half reads. */
  lemma RestoreSpec(m: Machine, rsp: int, rip: int, rbx: int, rbp: int, r12: int, r13: int, r14: int, r15: int)
    requires Holds(m.mem, m.cpu.rsi, rsp, rip, rbx, rbp, r12, r13, r14, r15)
    ensures var t := Restore(m);
      && t.mem == m.mem && t.cpu.rsp == rsp && t.cpu.pc == rip && t.cpu.rbx == rbx && t.cpu.rbp == rbp
      && t.cpu.r12 == r12 && t.cpu.r13 == r13 && t.cpu.r14 == r14 && t.cpu.r15 == r15
  {
  }

  /** The CPU after resuming what was left as r. */
  predicate Resumed(k: Code, cpu: Cpu, r: Rest) {
    match r
    case Away(rsp, rbx, rbp, r12, r13, r14, r15, ret) =>
      && cpu.pc == ret && cpu.rsp == rsp && cpu.rbx == rbx && cpu.rbp == rbp
      && cpu.r12 == r12 && cpu.r13 == r13 && cpu.r14 == r14 && cpu.r15 == r15
    case New(top, fn, arg) =>
      cpu.pc == k.trampoline && cpu.rsp == AlignDown(top) && cpu.r12 == fn && cpu.r13 == arg && cpu.rbx == 0 == cpu.rbp
  }

  /** One switch: the leaver is saved, nothing else changes in memory but its return slot, and the other is resumed. */
  ghost predicate SwitchOk(k: Code, m: Machine, from: int, to: int, ret: int, r: Rest, t: Machine) {
    && Keeps(k, t.mem, from, Leaving(m.cpu, ret))
    && Frame(m.mem, t.mem, from, m.cpu.rsp - 8)
    && Resumed(k, t.cpu, r)
  }

  lemma SwitchSpec(k: Code, m: Machine, from: int, to: int, ret: int, r: Rest)
    requires k.label_ != k.trampoline && Disjoint(from, to) && Keeps(k, m.mem, to, r)
    requires !InArea(from, m.cpu.rsp - 8) && !InArea(to, m.cpu.rsp - 8)
    requires r.Away? ==> r.rsp - 8 != m.cpu.rsp - 8 && !InArea(from, r.rsp - 8)
    ensures SwitchOk(k, m, from, to, ret, r, Switch(k, m, from, to, ret))
  {
    var p := Push(m.(cpu := m.cpu.(rdi := from, rsi := to)), ret);
    var s := Save(k, p);
    SaveSpec(k, p);
    SwitchFrame(k, m, from, to, ret);
    FrameSpares(m.mem, s.mem, from, m.cpu.rsp - 8, to);
    SaveFrame(k, p, m.cpu.rsp - 8);
    hide Save, Restore;
    assert r.Away? ==> Get(s.mem, r.rsp - 8) == Get(m.mem, r.rsp - 8);
    hide AlignDown, Frame, SameWords, InArea, Get;
    KeepsFrame(k, m.mem, s.mem, to, r);
    ResumeFrom(k, s, r);
    hide Resumed, Holds, Restore;
  }

  lemma SwitchFrame(k: Code, m: Machine, from: int, to: int, ret: int)
    ensures Frame(m.mem, Save(k, Push(m.(cpu := m.cpu.(rdi := from, rsi := to)), ret)).mem, from, m.cpu.rsp - 8)
  {
    var p := Push(m.(cpu := m.cpu.(rdi := from, rsi := to)), ret);
    forall x | !InArea(from, x) && x != m.cpu.rsp - 8 ensures Get(Save(k, p).mem, x) == Get(m.mem, x) {
      SaveFrame(k, p, x);
      hide Save;
    }
    hide Save;
  }

  /** Loading from a save area and, at the label, returning. */
  lemma ResumeFrom(k: Code, s: Machine, r: Rest)
    requires k.label_ != k.trampoline && Keeps(k, s.mem, s.cpu.rsi, r)
    ensures var t := Restore(s); t.mem == s.mem && Resumed(k, (if t.cpu.pc == k.label_ then Ret(t) else t).cpu, r)
  {
    hide AlignDown;
    if r.Away? {
      RestoreSpec(s, r.rsp - 8, k.label_, r.rbx, r.rbp, r.r12, r.r13, r.r14, r.r15);
    } else {
      RestoreSpec(s, AlignDown(r.top), k.trampoline, 0, 0, r.fn, r.arg, 0, 0);
    }
    hide Restore, Get;
  }

  lemma GoResumes(s: State, c: nat, to: nat, ret: int)
    requires Inv(s) && Enabled(s, Go(c, to, ret))
    ensures var m := Machine(s.cpus[c], s.mem);
      SwitchOk(s.k, m, s.areas[s.on[c]], s.areas[to], ret, s.asleep[to],
        Switch(s.k, m, s.areas[s.on[c]], s.areas[to], ret))
  {
    hide Switch, Keeps, SwitchOk;
    SwitchSpec(s.k, Machine(s.cpus[c], s.mem), s.areas[s.on[c]], s.areas[to], ret, s.asleep[to]);
  }

  lemma GoPlaces(s: State, c: nat, to: nat, ret: int)
    requires Inv(s) && Enabled(s, Go(c, to, ret))
    ensures Placed(Apply(s, Go(c, to, ret)))
  {
    hide Switch, Keeps;
  }

  /** Suspended contexts other than the two involved are untouched. */
  lemma OthersKept(s: State, mem: Mem, from: nat, slot: int, i: nat)
    requires Inv(s) && from < |s.areas| && i in s.asleep && i != from && OwnSlot(s, slot)
    requires Frame(s.mem, mem, s.areas[from], slot)
    ensures Keeps(s.k, mem, s.areas[i], s.asleep[i])
  {
    assert Disjoint(s.areas[from], s.areas[i]);
    assert s.asleep[i].Away? ==> Get(mem, s.asleep[i].rsp - 8) == Get(s.mem, s.asleep[i].rsp - 8);
    FrameSpares(s.mem, mem, s.areas[from], slot, s.areas[i]);
    assert Keeps(s.k, s.mem, s.areas[i], s.asleep[i]);
    hide Frame, SameWords, Inv, Keeps, Get;
    KeepsFrame(s.k, s.mem, mem, s.areas[i], s.asleep[i]);
  }

  lemma GoKeeps(s: State, c: nat, to: nat, ret: int)
    requires Inv(s) && Enabled(s, Go(c, to, ret))
    ensures Inv(Apply(s, Go(c, to, ret)))
  {
    hide Frame, Keeps, Switch, Resumed;
    var t := Apply(s, Go(c, to, ret));
    var slot := s.cpus[c].rsp - 8;
    GoPlaces(s, c, to, ret);
    GoResumes(s, c, to, ret);
    assert Keeps(s.k, t.mem, s.areas[s.on[c]], Leaving(s.cpus[c], ret));
    assert Frame(s.mem, t.mem, s.areas[s.on[c]], slot);
    forall i | i in t.asleep ensures i < |t.areas| && Keeps(t.k, t.mem, t.areas[i], t.asleep[i]) {
      if i != s.on[c] {
        OthersKept(s, t.mem, s.on[c], slot, i);
      }
    }
    hide Placed;
    assert OwnSlot(s, slot);
  }

  lemma MakeKeeps(s: State, i: nat, top: nat, fn: int, arg: int)
    requires Inv(s) && Enabled(s, Make(i, top, fn, arg))
    ensures Inv(Apply(s, Make(i, top, fn, arg)))
  {
    var t := Apply(s, Make(i, top, fn, arg));
    InitSpec(s.k, s.mem, s.areas[i], top, fn, arg);
    hide InitContext, AlignDown;
    forall j | j in t.asleep ensures Keeps(t.k, t.mem, t.areas[j], t.asleep[j]) {
      if j != i {
        assert Disjoint(s.areas[i], s.areas[j]);
        FrameSpares(s.mem, t.mem, s.areas[i], s.areas[i], s.areas[j]);
        hide SameWords;
        KeepsFrame(s.k, s.mem, t.mem, s.areas[j], s.asleep[j]);
      }
      hide Keeps;
    }
    hide Keeps, Frame, Get;
  }

  lemma InitSpec(k: Code, mem: Mem, area: int, top: nat, fn: int, arg: int)
    ensures Keeps(k, InitContext(k, mem, area, top, fn, arg), area, New(top, fn, arg))
    ensures Frame(mem, InitContext(k, mem, area, top, fn, arg), area, area)
  {
    hide AlignDown;
  }

  lemma RunKeeps(s: State, c: nat, cpu: Cpu, mem: Mem)
    requires Inv(s) && Enabled(s, Run(c, cpu, mem))
    ensures Inv(Apply(s, Run(c, cpu, mem)))
  {
    hide SameWords, Get, Keeps;
    forall i | i in s.asleep ensures Keeps(s.k, mem, s.areas[i], s.asleep[i]) {
      KeepsFrame(s.k, s.mem, mem, s.areas[i], s.asleep[i]);
    }
  }

  lemma EventKeeps(s: State, e: Event)
    requires Inv(s) && Enabled(s, e)
    ensures Inv(Apply(s, e))
  {
    hide Inv, Enabled, Apply;
    match e
    case Run(c, cpu, mem) => RunKeeps(s, c, cpu, mem);
    case Go(c, to, ret) => GoKeeps(s, c, to, ret);
    case Make(i, top, fn, arg) => MakeKeeps(s, i, top, fn, arg);
  }

  ghost predicate Runs(s: State, es: seq<Event>, t: State)
    decreases |es|
  {
    if es == [] then t == s else Enabled(s, es[0]) && Runs(Apply(s, es[0]), es[1..], t)
  }

  lemma {:induction false} RunsKeep(s: State, es: seq<Event>, t: State)
    requires Inv(s) && Runs(s, es, t)
    ensures Inv(t)
    decreases |es|
  {
    hide Inv, Enabled, Apply;
    if es != [] {
      EventKeeps(s, es[0]);
      RunsKeep(Apply(s, es[0]), es[1..], t);
    }
  }

  predicate Initial(s: State) { Placed(s) && s.asleep == map[] }

  /** After any run of switches, set-ups and other code, switching to a suspended context gives it back exactly the
      stack pointer, rbx, rbp, r12-r15 and return address it left with, or starts it in the trampoline if it is new. */
  lemma ResumesExactly(s0: State, es: seq<Event>, s: State, c: nat, to: nat, ret: int)
    requires Initial(s0) && Runs(s0, es, s) && Enabled(s, Go(c, to, ret))
    ensures Resumed(s.k, Apply(s, Go(c, to, ret)).cpus[c], s.asleep[to])
    ensures s.on[c] in Apply(s, Go(c, to, ret)).asleep &&
      Apply(s, Go(c, to, ret)).asleep[s.on[c]] == Leaving(s.cpus[c], ret)
  {
    RunsKeep(s0, es, s);
    GoResumes(s, c, to, ret);
    hide Runs, Inv, Keeps, Switch;
  }
}
