/** The dispatcher loop together with everything it talks to: user space on both rings, the kernel behind the I/O
    backend and the threads of the worker pool, interleaved step by step.

    The router, the results of the kernel and the results of the pool are arbitrary functions. */
module Dispatcher {
  import opened Basics

  const ENOSYS: int := 38
  const RETRIES: nat := 1000

  datatype Tier = SharedPage | IoUring | WorkerPool | Legacy

  /** `num` tells requests apart; correlation ids are chosen by the caller and may repeat. */
  datatype Req = Req(num: nat, corr: nat, nr: nat)
  datatype Comp = Comp(num: nat, corr: nat, result: int)

  datatype Hand = Free | Busy(req: Req) | Done(comp: Comp, tries: nat)

  datatype Phase = PollIo | PushIo | PollWork | PushWork | Flush1 | Notify1 | Dequeue | Route | Kick | Flush2 | Notify2

  datatype World = World(router: nat -> Tier, io: nat -> int, pool: nat -> int,
                         ringSize: nat, queueDepth: nat, maxBatch: nat, maxIo: nat, maxWork: nat)

  /** `issued` are all requests ever submitted; `lost` those whose completion was dropped by an ignored push failure;
      `refused` are the numbers of those the backend or the pool did not take, with the answer given. */
  datatype State = State(
    phase: Phase, issued: seq<Req>, submitq: seq<Req>, batch: seq<Req>,
    queued: seq<Req>, flying: seq<Req>, ioDone: seq<Comp>, ioBuf: seq<Comp>,
    work: seq<Req>, hands: seq<Hand>, results: seq<Comp>, workBuf: seq<Comp>,
    unpub: seq<Comp>, unread: seq<Comp>, got: seq<Comp>, lost: seq<Comp>, untold: nat, refused: map<nat, Answer>)

  /** What `IoBackend::submit` answers. */
  datatype Answer = Accepted | Full | Refused

  datatype LoopStep = TakeIo(n: nat) | PushOneIo | PopOneResult | PopEnough | PushOneWork | Publish | Tell | TakeBatch
    | RouteOne(answer: Answer) | RouteDone | KickIo

  datatype Step =
    | Loop(l: LoopStep)
    | Submit(corr: nat, nr: nat) | Consume
    | Complete(i: nat)
    | WorkerTake(w: nat) | WorkerRun(w: nat) | WorkerPush(w: nat)

  // ── Steps ──

  /** `completion_ring.push` with its result ignored. */
  function Pushed(c: World, s: State, x: Comp): State {
    if |s.unread| + |s.unpub| < c.ringSize then s.(unpub := s.unpub + [x]) else s.(lost := s.lost + [x])
  }

  /** The dispatcher itself answers a request that was not taken. */
  function TurnedAway(c: World, s: State, r: Req, answer: Answer): State {
    var result := if answer == Full then -EAGAIN else -ENOSYS;
    Pushed(c, s.(refused := s.refused[r.num := answer]), Comp(r.num, r.corr, result))
  }

  predicate LoopEnabled(c: World, s: State, st: LoopStep) {
    match st
    case TakeIo(n) => s.phase == PollIo && n <= |s.ioDone| && n <= c.maxIo
    case PushOneIo => s.phase == PushIo
    case PopOneResult => s.phase == PollWork && s.results != [] && |s.workBuf| < c.maxWork
    case PopEnough => s.phase == PollWork && (s.results == [] || |s.workBuf| >= c.maxWork)
    case PushOneWork => s.phase == PushWork
    case Publish => s.phase == Flush1 || s.phase == Flush2
    case Tell => s.phase == Notify1 || s.phase == Notify2
    case TakeBatch => s.phase == Dequeue
    case RouteOne(_) => s.phase == Route && s.batch != []
    case RouteDone => s.phase == Route && s.batch == []
    case KickIo => s.phase == Kick
  }

  function RouteApply(c: World, s: State, answer: Answer): State
    requires s.batch != []
  {
    var r := s.batch[0];
    var s1 := s.(batch := s.batch[1..]);
    match c.router(r.nr)
    case SharedPage => Pushed(c, s1, Comp(r.num, r.corr, -ENOSYS))
    case IoUring =>
      if answer == Accepted then s1.(queued := s.queued + [r]) else TurnedAway(c, s1, r, answer)
    case WorkerPool =>
      if |s.work| < c.queueDepth then s1.(work := s.work + [r]) else TurnedAway(c, s1, r, Full)
    case Legacy => Pushed(c, s1, Comp(r.num, r.corr, -ENOSYS))
  }

  function LoopApply(c: World, s: State, st: LoopStep): State
    requires LoopEnabled(c, s, st)
  {
    match st
    case TakeIo(n) => s.(phase := PushIo, ioBuf := s.ioDone[..n], ioDone := s.ioDone[n..])
    case PushOneIo =>
      if s.ioBuf == [] then s.(phase := PollWork) else Pushed(c, s.(ioBuf := s.ioBuf[1..]), s.ioBuf[0])
    case PopOneResult => s.(workBuf := s.workBuf + [s.results[0]], results := s.results[1..])
    case PopEnough => s.(phase := PushWork)
    case PushOneWork =>
      if s.workBuf == [] then s.(phase := Flush1) else Pushed(c, s.(workBuf := s.workBuf[1..]), s.workBuf[0])
    case Publish =>
      var first := s.phase == Flush1;
      if s.unpub == [] then s.(phase := if first then Dequeue else PollIo)
      else s.(phase := if first then Notify1 else Notify2, unread := s.unread + s.unpub, unpub := [],
        untold := s.untold + |s.unpub|)
    case Tell => s.(phase := if s.phase == Notify1 then Dequeue else PollIo, untold := 0)
    case TakeBatch =>
      var n := Least(|s.submitq|, c.maxBatch);
      s.(phase := Route, batch := s.submitq[..n], submitq := s.submitq[n..])
    case RouteOne(answer) => RouteApply(c, s, answer)
    case RouteDone => s.(phase := Kick)
    case KickIo => s.(phase := Flush2, flying := s.flying + s.queued, queued := [])
  }

  predicate Enabled(c: World, s: State, st: Step) {
    match st
    case Loop(l) => LoopEnabled(c, s, l)
    case Submit(_, _) => true
    case Consume => s.unread != []
    case Complete(i) => i < |s.flying|
    case WorkerTake(w) => w < |s.hands| && s.hands[w] == Free && s.work != []
    case WorkerRun(w) => w < |s.hands| && s.hands[w].Busy?
    case WorkerPush(w) => w < |s.hands| && s.hands[w].Done?
  }

  function Apply(c: World, s: State, st: Step): State
    requires Enabled(c, s, st)
  {
    match st
    case Loop(l) => LoopApply(c, s, l)
    case Submit(corr, nr) =>
      var r := Req(|s.issued|, corr, nr);
      s.(issued := s.issued + [r], submitq := s.submitq + [r])
    case Consume => s.(got := s.got + [s.unread[0]], unread := s.unread[1..])
    case Complete(i) =>
      var r := s.flying[i];
      s.(flying := s.flying[..i] + s.flying[i + 1..], ioDone := s.ioDone + [Comp(r.num, r.corr, c.io(r.num))])
    case WorkerTake(w) => s.(work := s.work[1..], hands := s.hands[w := Busy(s.work[0])])
    case WorkerRun(w) =>
      var r := s.hands[w].req;
      s.(hands := s.hands[w := Done(Comp(r.num, r.corr, c.pool(r.num)), 0)])
    case WorkerPush(w) =>
      var h := s.hands[w];
      if |s.results| < c.queueDepth then s.(results := s.results + [h.comp], hands := s.hands[w := Free])
      else if h.tries + 1 > RETRIES then s.(lost := s.lost + [h.comp], hands := s.hands[w := Free])
      else s.(hands := s.hands[w := Done(h.comp, h.tries + 1)])
  }

  predicate Initial(s: State) {
    && s == State(PollIo, [], [], [], [], [], [], [], [], s.hands, [], [], [], [], [], [], 0, map[])
    && forall w | 0 <= w < |s.hands| :: s.hands[w] == Free
  }

  ghost predicate Runs(c: World, s: State, steps: seq<Step>, t: State)
    decreases |steps|
  {
    if steps == [] then t == s else Enabled(c, s, steps[0]) && Runs(c, Apply(c, s, steps[0]), steps[1..], t)
  }

  /** Requests submitted and not yet consumed by user space. */
  function Outstanding(s: State): int { |s.issued| - |s.got| }

  /** User space never has more requests outstanding than the completion ring and the pool's queues have room for. */
  predicate Modest(c: World, s: State) { Outstanding(s) <= c.ringSize && Outstanding(s) <= c.queueDepth }

  ghost predicate AlwaysModest(c: World, s: State, steps: seq<Step>)
    decreases |steps|
  {
    && Modest(c, s)
    && (steps == [] || (Enabled(c, s, steps[0]) && AlwaysModest(c, Apply(c, s, steps[0]), steps[1..])))
  }

  // ── Accounting ──

  /** A request is followed by its number and its correlation id. */
  type Tag = (nat, nat)

  function ReqTag(r: Req): Tag { (r.num, r.corr) }

  function CompTag(x: Comp): Tag { (x.num, x.corr) }

  function Reqs(rs: seq<Req>, x: Tag): nat {
    if rs == [] then 0 else One(ReqTag(rs[0]) == x) + Reqs(rs[1..], x)
  }

  function Comps(xs: seq<Comp>, x: Tag): nat {
    if xs == [] then 0 else One(CompTag(xs[0]) == x) + Comps(xs[1..], x)
  }

  function InHand(h: Hand, x: Tag): nat {
    match h
    case Free => 0
    case Busy(r) => One(ReqTag(r) == x)
    case Done(y, _) => One(CompTag(y) == x)
  }

  function Hands(hs: seq<Hand>, x: Tag): nat {
    if hs == [] then 0 else InHand(hs[0], x) + Hands(hs[1..], x)
  }

  function Occupied(hs: seq<Hand>): nat {
    if hs == [] then 0 else One(!hs[0].Free?) + Occupied(hs[1..])
  }

  /** How often a request, or its completion, is on its way, counting every queue, buffer and thread. */
  function OnTheWay(s: State, x: Tag): nat {
    Reqs(s.submitq, x) + Reqs(s.batch, x)
    + Reqs(s.queued, x) + Reqs(s.flying, x) + Comps(s.ioDone, x) + Comps(s.ioBuf, x)
    + Reqs(s.work, x) + Hands(s.hands, x) + Comps(s.results, x) + Comps(s.workBuf, x)
    + Comps(s.unpub, x) + Comps(s.unread, x)
  }

  function Load(s: State): nat {
    |s.submitq| + |s.batch| + |s.queued| + |s.flying| + |s.ioDone| + |s.ioBuf|
    + |s.work| + Occupied(s.hands) + |s.results| + |s.workBuf| + |s.unpub| + |s.unread|
  }

  /** What was issued is on its way, delivered or lost, and nothing else is. */
  predicate Accounted(s: State, x: Tag) {
    Reqs(s.issued, x) == OnTheWay(s, x) + Comps(s.got, x) + Comps(s.lost, x)
  }

  predicate Counted(s: State) { |s.issued| == Load(s) + |s.got| + |s.lost| }

  /** Which buffers can be in use at which point of the loop. */
  predicate Tidy(s: State) {
    && (s.phase != PushIo ==> s.ioBuf == [])
    && (s.phase != PollWork && s.phase != PushWork ==> s.workBuf == [])
    && (s.phase != Route ==> s.batch == [])
    && (s.phase != Route && s.phase != Kick ==> s.queued == [])
    && (s.phase in {PollIo, Notify1, Dequeue, Notify2} ==> s.unpub == [])
    && (s.phase != Notify1 && s.phase != Notify2 ==> s.untold == 0)
  }

  /** The result a request gets, by the way it is routed: the kernel's or the pool's if it was taken, and otherwise a
      refusal, or that the call is not supported. */
  predicate Owed(c: World, refused: map<nat, Answer>, r: Req, result: int) {
    match c.router(r.nr)
    case IoUring =>
      if r.num !in refused then result == c.io(r.num)
      else if refused[r.num] == Full then result == -EAGAIN else result == -ENOSYS
    case WorkerPool => if r.num !in refused then result == c.pool(r.num) else result == -EAGAIN
    case SharedPage => result == -ENOSYS
    case Legacy => result == -ENOSYS
  }

  /** A completion answers a submitted request, with its correlation id and the result that request is owed. */
  predicate Legit(c: World, issued: seq<Req>, refused: map<nat, Answer>, x: Comp) {
    && x.num < |issued| && issued[x.num].corr == x.corr && issued[x.num].num == x.num
    && Owed(c, refused, issued[x.num], x.result)
  }

  predicate AllLegit(c: World, issued: seq<Req>, refused: map<nat, Answer>, xs: seq<Comp>) {
    forall i | 0 <= i < |xs| :: Legit(c, issued, refused, xs[i])
  }

  /** Requests on their way are submitted ones, none of them refused, and where they are is where the router sends
      them. */
  predicate Known(issued: seq<Req>, refused: map<nat, Answer>, r: Req) {
    r.num < |issued| && issued[r.num] == r && r.num !in refused
  }

  predicate AllKnown(issued: seq<Req>, refused: map<nat, Answer>, rs: seq<Req>) {
    forall i | 0 <= i < |rs| :: Known(issued, refused, rs[i])
  }

  predicate Routed(c: World, issued: seq<Req>, refused: map<nat, Answer>, rs: seq<Req>, tier: Tier) {
    forall i | 0 <= i < |rs| :: Known(issued, refused, rs[i]) && c.router(rs[i].nr) == tier
  }

  predicate HandOk(c: World, issued: seq<Req>, refused: map<nat, Answer>, h: Hand) {
    match h
    case Free => true
    case Busy(r) => Known(issued, refused, r) && c.router(r.nr) == WorkerPool
    case Done(x, _) => Legit(c, issued, refused, x)
  }

  predicate AllHandsOk(c: World, issued: seq<Req>, refused: map<nat, Answer>, hs: seq<Hand>) {
    forall w | 0 <= w < |hs| :: HandOk(c, issued, refused, hs[w])
  }

  predicate Placed(c: World, s: State) {
    && AllKnown(s.issued, s.refused, s.submitq) && AllKnown(s.issued, s.refused, s.batch)
    && Routed(c, s.issued, s.refused, s.queued, IoUring) && Routed(c, s.issued, s.refused, s.flying, IoUring)
    && Routed(c, s.issued, s.refused, s.work, WorkerPool) && AllHandsOk(c, s.issued, s.refused, s.hands)
  }

  predicate Answered(c: World, s: State) {
    && AllLegit(c, s.issued, s.refused, s.ioDone) && AllLegit(c, s.issued, s.refused, s.ioBuf)
    && AllLegit(c, s.issued, s.refused, s.results) && AllLegit(c, s.issued, s.refused, s.workBuf)
    && AllLegit(c, s.issued, s.refused, s.unpub) && AllLegit(c, s.issued, s.refused, s.unread)
    && AllLegit(c, s.issued, s.refused, s.got)
  }

  /** Only submitted requests have been refused. */
  predicate Refusals(s: State) { forall n | n in s.refused :: n < |s.issued| }

  predicate Honest(c: World, s: State) { Placed(c, s) && Answered(c, s) && Refusals(s) }

  ghost predicate Inv(c: World, s: State) {
    Tidy(s) && Counted(s) && Honest(c, s) && Numbered(s) && forall x :: Accounted(s, x)
  }

  /** Requests are numbered in the order of submission. */
  predicate Numbered(s: State) { forall k | 0 <= k < |s.issued| :: s.issued[k].num == k }
}
