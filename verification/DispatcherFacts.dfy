/** Conservation, exactly-once completion and publication over every run of the dispatcher. */
module DispatcherFacts {
  import opened Basics
  import opened Dispatcher

  // ── Counting ──

  lemma {:induction false} ReqsAppend(a: seq<Req>, b: seq<Req>, x: Tag)
    ensures Reqs(a + b, x) == Reqs(a, x) + Reqs(b, x)
  {
    if a == [] {
      assert a + b == b;
    } else {
      ReqsAppend(a[1..], b, x);
      assert (a + b)[1..] == a[1..] + b;
    }
  }

  lemma {:induction false} CompsAppend(a: seq<Comp>, b: seq<Comp>, x: Tag)
    ensures Comps(a + b, x) == Comps(a, x) + Comps(b, x)
  {
    if a == [] {
      assert a + b == b;
    } else {
      CompsAppend(a[1..], b, x);
      assert (a + b)[1..] == a[1..] + b;
    }
  }

  lemma ReqsAdd(a: seq<Req>, r: Req, x: Tag)
    ensures Reqs(a + [r], x) == Reqs(a, x) + One(ReqTag(r) == x)
  {
    ReqsAppend(a, [r], x);
    assert [r][1..] == [];
  }

  lemma CompsAdd(a: seq<Comp>, y: Comp, x: Tag)
    ensures Comps(a + [y], x) == Comps(a, x) + One(CompTag(y) == x)
  {
    CompsAppend(a, [y], x);
    assert [y][1..] == [];
  }

  lemma ReqsSplit(a: seq<Req>, n: nat, x: Tag)
    requires n <= |a|
    ensures Reqs(a, x) == Reqs(a[..n], x) + Reqs(a[n..], x)
  {
    ReqsAppend(a[..n], a[n..], x);
    assert a == a[..n] + a[n..];
  }

  lemma CompsSplit(a: seq<Comp>, n: nat, x: Tag)
    requires n <= |a|
    ensures Comps(a, x) == Comps(a[..n], x) + Comps(a[n..], x)
  {
    CompsAppend(a[..n], a[n..], x);
    assert a == a[..n] + a[n..];
  }

  lemma ReqsPick(a: seq<Req>, i: nat, x: Tag)
    requires i < |a|
    ensures Reqs(a, x) == Reqs(a[..i] + a[i + 1..], x) + One(ReqTag(a[i]) == x)
  {
    ReqsSplit(a, i, x);
    ReqsAppend(a[..i], a[i + 1..], x);
    assert a[i..][1..] == a[i + 1..];
  }

  lemma {:induction false} HandsUpdate(hs: seq<Hand>, w: nat, h: Hand, x: Tag)
    requires w < |hs|
    ensures Hands(hs[w := h], x) + InHand(hs[w], x) == Hands(hs, x) + InHand(h, x)
    ensures Occupied(hs[w := h]) + One(!hs[w].Free?) == Occupied(hs) + One(!h.Free?)
  {
    if w == 0 {
      assert hs[0 := h][1..] == hs[1..];
    } else {
      HandsUpdate(hs[1..], w - 1, h, x);
      assert hs[w := h][1..] == hs[1..][w - 1 := h];
    }
  }

  // ── Conservation, step by step ──

  /** Nothing appears or disappears for tag x and in number. */
  predicate Kept(s: State, t: State, x: Tag) {
    && (Accounted(s, x) ==> Accounted(t, x))
    && (Counted(s) ==> Counted(t))
  }

  /** A push adds one completion to the ring or to the lost ones. */
  lemma PushedAdds(c: World, s: State, y: Comp, x: Tag)
    ensures var t := Pushed(c, s, y);
      && t == s.(unpub := t.unpub, lost := t.lost) && |t.unpub| + |t.lost| == |s.unpub| + |s.lost| + 1
      && Comps(t.unpub, x) + Comps(t.lost, x) == Comps(s.unpub, x) + Comps(s.lost, x) + One(CompTag(y) == x)
  {
    CompsAdd(s.unpub, y, x);
    CompsAdd(s.lost, y, x);
    hide Comps;
  }

  /** A routed request is queued for the backend or the pool, or the dispatcher answers it with y. */
  lemma RouteCases(c: World, s: State, answer: Answer) returns (y: Comp)
    requires s.batch != []
    ensures CompTag(y) == ReqTag(s.batch[0])
    ensures var (r, s1, t) := (s.batch[0], s.(batch := s.batch[1..]), RouteApply(c, s, answer));
      || t == s1.(queued := s.queued + [r]) || t == s1.(work := s.work + [r])
      || t == Pushed(c, s1.(refused := t.refused), y)
  {
    hide Pushed;
    var r, tier := s.batch[0], c.router(s.batch[0].nr);
    var full := (tier == IoUring && answer == Full) || tier == WorkerPool;
    y := Comp(r.num, r.corr, if full then -EAGAIN else -ENOSYS);
    RefusedAfter(c, s, answer);
  }

  /** Pushing an answer does not touch the log of refusals. */
  lemma RefusedAfter(c: World, s: State, answer: Answer)
    requires s.batch != []
    ensures RouteApply(c, s, answer).refused ==
      match c.router(s.batch[0].nr)
      case IoUring => if answer == Accepted then s.refused else s.refused[s.batch[0].num := answer]
      case WorkerPool => if |s.work| < c.queueDepth then s.refused else s.refused[s.batch[0].num := Full]
      case _ => s.refused
  {
  }

  lemma RouteKeeps(c: World, s: State, answer: Answer, x: Tag)
    requires s.batch != []
    ensures Kept(s, RouteApply(c, s, answer), x)
  {
    var r, s1, t := s.batch[0], s.(batch := s.batch[1..]), RouteApply(c, s, answer);
    assert Reqs(s.batch, x) == One(ReqTag(r) == x) + Reqs(s1.batch, x);
    var y := RouteCases(c, s, answer);
    hide RouteApply;
    if t == s1.(queued := s.queued + [r]) {
      ReqsAdd(s.queued, r, x);
      hide *;
      LeavesBatch(s, t, r, x);
    } else if t == s1.(work := s.work + [r]) {
      ReqsAdd(s.work, r, x);
      hide *;
      LeavesBatch(s, t, r, x);
    } else {
      PushedAdds(c, s1.(refused := t.refused), y, x);
      hide *;
      LeavesBatch(s, t, r, x);
    }
  }

  lemma LeavesBatch(s: State, t: State, r: Req, x: Tag)
    requires t == s.(batch := t.batch, queued := t.queued, work := t.work, unpub := t.unpub, lost := t.lost,
                    refused := t.refused)
    requires Reqs(s.batch, x) == One(ReqTag(r) == x) + Reqs(t.batch, x) && |s.batch| == |t.batch| + 1
    requires Reqs(t.queued, x) + Reqs(t.work, x) + Comps(t.unpub, x) + Comps(t.lost, x)
      == Reqs(s.queued, x) + Reqs(s.work, x) + Comps(s.unpub, x) + Comps(s.lost, x) + One(ReqTag(r) == x)
    requires |t.queued| + |t.work| + |t.unpub| + |t.lost| == |s.queued| + |s.work| + |s.unpub| + |s.lost| + 1
    ensures Kept(s, t, x)
  {
    hide Reqs, Comps, Hands, Occupied;
  }

  lemma PushKeeps(c: World, s: State, l: LoopStep, x: Tag)
    requires LoopEnabled(c, s, l) && (l.PushOneIo? || l.PushOneWork?)
    ensures Kept(s, LoopApply(c, s, l), x)
  {
    if l.PushOneIo? && s.ioBuf != [] {
      assert Comps(s.ioBuf, x) == One(CompTag(s.ioBuf[0]) == x) + Comps(s.ioBuf[1..], x);
      PushedAdds(c, s.(ioBuf := s.ioBuf[1..]), s.ioBuf[0], x);
    } else if l.PushOneWork? && s.workBuf != [] {
      assert Comps(s.workBuf, x) == One(CompTag(s.workBuf[0]) == x) + Comps(s.workBuf[1..], x);
      PushedAdds(c, s.(workBuf := s.workBuf[1..]), s.workBuf[0], x);
    }
    hide Reqs, Comps, Hands, Pushed, Occupied;
  }

  lemma TakeIoKeeps(c: World, s: State, n: nat, x: Tag)
    requires Tidy(s) && LoopEnabled(c, s, TakeIo(n))
    ensures Kept(s, LoopApply(c, s, TakeIo(n)), x)
  {
    assert Comps([], x) == 0;
    CompsSplit(s.ioDone, n, x);
    hide Reqs, Comps, Hands, Occupied;
  }

  lemma PopResultKeeps(c: World, s: State, x: Tag)
    requires LoopEnabled(c, s, PopOneResult)
    ensures Kept(s, LoopApply(c, s, PopOneResult), x)
  {
    CompsAdd(s.workBuf, s.results[0], x);
    assert Comps(s.results, x) == One(CompTag(s.results[0]) == x) + Comps(s.results[1..], x);
    hide Reqs, Comps, Hands, Occupied;
  }

  lemma PublishKeeps(c: World, s: State, x: Tag)
    requires LoopEnabled(c, s, Publish)
    ensures Kept(s, LoopApply(c, s, Publish), x)
  {
    assert Comps([], x) == 0;
    CompsAppend(s.unread, s.unpub, x);
    hide Reqs, Comps, Hands, Occupied;
  }

  lemma BatchKeeps(c: World, s: State, x: Tag)
    requires Tidy(s) && LoopEnabled(c, s, TakeBatch)
    ensures Kept(s, LoopApply(c, s, TakeBatch), x)
  {
    assert Reqs([], x) == 0;
    ReqsSplit(s.submitq, Least(|s.submitq|, c.maxBatch), x);
    hide Reqs, Comps, Hands, Occupied;
  }

  lemma KickKeeps(c: World, s: State, x: Tag)
    requires LoopEnabled(c, s, KickIo)
    ensures Kept(s, LoopApply(c, s, KickIo), x)
  {
    assert Reqs([], x) == 0;
    ReqsAppend(s.flying, s.queued, x);
    hide Reqs, Comps, Hands, Occupied;
  }

  lemma LoopKeeps(c: World, s: State, l: LoopStep, x: Tag)
    requires Tidy(s) && LoopEnabled(c, s, l)
    ensures Kept(s, LoopApply(c, s, l), x)
  {
    hide Tidy, Reqs, Comps, Hands, Occupied, Pushed, RouteApply;
    match l
    case TakeIo(n) => TakeIoKeeps(c, s, n, x); hide LoopApply;
    case PushOneIo => PushKeeps(c, s, l, x); hide LoopApply;
    case PopOneResult => PopResultKeeps(c, s, x); hide LoopApply;
    case PopEnough =>
    case PushOneWork => PushKeeps(c, s, l, x); hide LoopApply;
    case Publish => PublishKeeps(c, s, x); hide LoopApply;
    case Tell =>
    case TakeBatch => BatchKeeps(c, s, x); hide LoopApply;
    case RouteOne(answer) => RouteKeeps(c, s, answer, x);
    case RouteDone =>
    case KickIo => KickKeeps(c, s, x); hide LoopApply;
  }

  lemma HandMoves(s: State, t: State, w: nat, x: Tag)
    requires w < |s.hands| == |t.hands| && t.hands == s.hands[w := t.hands[w]]
    requires t == s.(work := t.work, hands := t.hands, results := t.results, lost := t.lost)
    requires Reqs(s.work, x) + InHand(s.hands[w], x) + Comps(s.results, x) + Comps(s.lost, x)
      == Reqs(t.work, x) + InHand(t.hands[w], x) + Comps(t.results, x) + Comps(t.lost, x)
    requires |s.work| + One(!s.hands[w].Free?) + |s.results| + |s.lost|
      == |t.work| + One(!t.hands[w].Free?) + |t.results| + |t.lost|
    ensures Kept(s, t, x)
  {
    HandsUpdate(s.hands, w, t.hands[w], x);
    hide Reqs, Comps, Hands, Occupied, InHand, One;
  }

  lemma TakeKeeps(c: World, s: State, w: nat, x: Tag)
    requires Enabled(c, s, WorkerTake(w))
    ensures Kept(s, Apply(c, s, WorkerTake(w)), x)
  {
    var t := Apply(c, s, WorkerTake(w));
    assert Reqs(s.work, x) == One(ReqTag(s.work[0]) == x) + Reqs(t.work, x);
    hide Reqs, Comps, Hands, Kept;
    HandMoves(s, t, w, x);
  }

  lemma RunKeeps(c: World, s: State, w: nat, x: Tag)
    requires Enabled(c, s, WorkerRun(w))
    ensures Kept(s, Apply(c, s, WorkerRun(w)), x)
  {
    hide Reqs, Comps, Hands, Kept;
    HandMoves(s, Apply(c, s, WorkerRun(w)), w, x);
  }

  lemma ResultKeeps(c: World, s: State, w: nat, x: Tag)
    requires Enabled(c, s, WorkerPush(w))
    ensures Kept(s, Apply(c, s, WorkerPush(w)), x)
  {
    CompsAdd(s.results, s.hands[w].comp, x);
    CompsAdd(s.lost, s.hands[w].comp, x);
    hide Reqs, Comps, Hands, Kept;
    HandMoves(s, Apply(c, s, WorkerPush(w)), w, x);
  }

  lemma CompleteKeeps(c: World, s: State, i: nat, x: Tag)
    requires Enabled(c, s, Complete(i))
    ensures Kept(s, Apply(c, s, Complete(i)), x)
  {
    var r := s.flying[i];
    ReqsPick(s.flying, i, x);
    CompsAdd(s.ioDone, Comp(r.num, r.corr, c.io(r.num)), x);
    hide Reqs, Comps, Hands, Occupied;
  }

  /** Every step of every actor keeps every request accounted for. */
  lemma StepKeeps(c: World, s: State, st: Step, x: Tag)
    requires Tidy(s) && Enabled(c, s, st)
    ensures Kept(s, Apply(c, s, st), x)
  {
    match st
    case Loop(l) => LoopKeeps(c, s, l, x); hide LoopApply;
    case Submit(corr, nr) =>
      ReqsAdd(s.issued, Req(|s.issued|, corr, nr), x);
      ReqsAdd(s.submitq, Req(|s.issued|, corr, nr), x);
      hide Reqs, Comps, Hands, Occupied;
    case Consume =>
      CompsAdd(s.got, s.unread[0], x);
      assert Comps(s.unread, x) == One(CompTag(s.unread[0]) == x) + Comps(s.unread[1..], x);
      hide Reqs, Comps, Hands, Occupied;
    case Complete(i) => CompleteKeeps(c, s, i, x); hide Apply;
    case WorkerTake(w) => TakeKeeps(c, s, w, x); hide Apply;
    case WorkerRun(w) => RunKeeps(c, s, w, x); hide Apply;
    case WorkerPush(w) => ResultKeeps(c, s, w, x); hide Apply;
  }

  // ── The loop's discipline and the results ──

  lemma LoopTidies(c: World, s: State, l: LoopStep)
    requires Tidy(s) && LoopEnabled(c, s, l)
    ensures Tidy(LoopApply(c, s, l))
  {
  }

  lemma StepTidies(c: World, s: State, st: Step)
    requires Tidy(s) && Enabled(c, s, st)
    ensures Tidy(Apply(c, s, st))
  {
    if st.Loop? {
      LoopTidies(c, s, st.l);
      hide Tidy, LoopApply;
    } else {
      assert Apply(c, s, st).phase == s.phase;
    }
  }

  lemma LoopPlaces(c: World, s: State, l: LoopStep)
    requires Placed(c, s) && LoopEnabled(c, s, l) && !l.RouteOne?
    ensures Placed(c, LoopApply(c, s, l))
  {
    hide Known, HandOk;
  }

  lemma LoopAnswers(c: World, s: State, l: LoopStep)
    requires Answered(c, s) && LoopEnabled(c, s, l) && !l.RouteOne?
    ensures Answered(c, LoopApply(c, s, l)) && LoopApply(c, s, l).refused == s.refused
  {
    hide Legit;
  }

  lemma {:induction false} NoReq(rs: seq<Req>, x: Tag, i: nat)
    requires Reqs(rs, x) == 0 && i < |rs|
    ensures ReqTag(rs[i]) != x
  {
    if i > 0 {
      NoReq(rs[1..], x, i - 1);
    }
  }

  lemma {:induction false} NoComp(xs: seq<Comp>, x: Tag, i: nat)
    requires Comps(xs, x) == 0 && i < |xs|
    ensures CompTag(xs[i]) != x
  {
    if i > 0 {
      NoComp(xs[1..], x, i - 1);
    }
  }

  lemma {:induction false} NoHand(hs: seq<Hand>, x: Tag, w: nat)
    requires Hands(hs, x) == 0 && w < |hs|
    ensures InHand(hs[w], x) == 0
  {
    if w > 0 {
      NoHand(hs[1..], x, w - 1);
    }
  }

  lemma {:induction false} ReqsCount(rs: seq<Req>, from: nat, x: Tag)
    requires forall k | 0 <= k < |rs| :: rs[k].num == from + k
    ensures Reqs(rs, x) == if from <= x.0 < from + |rs| && rs[x.0 - from].corr == x.1 then 1 else 0
    decreases |rs|
  {
    if rs != [] {
      assert forall k | 0 <= k < |rs[1..]| :: rs[1..][k] == rs[k + 1];
      ReqsCount(rs[1..], from + 1, x);
    }
  }

  // ── A refusal concerns no other request ──

  lemma StillKnown(issued: seq<Req>, refused: map<nat, Answer>, rs: seq<Req>, r: Req, a: Answer)
    requires AllKnown(issued, refused, rs) && Known(issued, refused, r) && Reqs(rs, ReqTag(r)) == 0
    ensures AllKnown(issued, refused[r.num := a], rs)
  {
    forall i | 0 <= i < |rs| ensures Known(issued, refused[r.num := a], rs[i]) {
      NoReq(rs, ReqTag(r), i);
      assert Known(issued, refused, rs[i]);
    }
  }

  lemma StillRouted(c: World, issued: seq<Req>, refused: map<nat, Answer>, rs: seq<Req>, tier: Tier, r: Req, a: Answer)
    requires Routed(c, issued, refused, rs, tier) && Known(issued, refused, r) && Reqs(rs, ReqTag(r)) == 0
    ensures Routed(c, issued, refused[r.num := a], rs, tier)
  {
    assert AllKnown(issued, refused, rs);
    StillKnown(issued, refused, rs, r, a);
    hide Known;
  }

  lemma StillLegit(c: World, issued: seq<Req>, refused: map<nat, Answer>, xs: seq<Comp>, r: Req, a: Answer)
    requires AllLegit(c, issued, refused, xs) && Known(issued, refused, r) && Comps(xs, ReqTag(r)) == 0
    ensures AllLegit(c, issued, refused[r.num := a], xs)
  {
    forall i | 0 <= i < |xs| ensures Legit(c, issued, refused[r.num := a], xs[i]) {
      NoComp(xs, ReqTag(r), i);
      assert Legit(c, issued, refused, xs[i]);
    }
  }

  lemma StillOk(c: World, issued: seq<Req>, refused: map<nat, Answer>, hs: seq<Hand>, r: Req, a: Answer)
    requires AllHandsOk(c, issued, refused, hs) && Known(issued, refused, r) && Hands(hs, ReqTag(r)) == 0
    ensures AllHandsOk(c, issued, refused[r.num := a], hs)
  {
    forall w | 0 <= w < |hs| ensures HandOk(c, issued, refused[r.num := a], hs[w]) {
      NoHand(hs, ReqTag(r), w);
      assert HandOk(c, issued, refused, hs[w]);
    }
  }

  /** The request at the head of the batch is nowhere else, and not answered. */
  lemma OnlyHere(s: State)
    requires Numbered(s) && s.batch != [] && Accounted(s, ReqTag(s.batch[0]))
    ensures OnTheWay(s.(batch := s.batch[1..]), ReqTag(s.batch[0])) == Comps(s.got, ReqTag(s.batch[0])) == 0
  {
    var x := ReqTag(s.batch[0]);
    ReqsCount(s.issued, 0, x);
    assert Reqs(s.batch, x) == 1 + Reqs(s.batch[1..], x);
    hide Reqs, Comps, Hands;
  }

  lemma RefusePlaced(c: World, s: State, a: Answer)
    requires Placed(c, s) && s.batch != []
    requires OnTheWay(s.(batch := s.batch[1..]), ReqTag(s.batch[0])) == 0
    ensures Placed(c, s.(batch := s.batch[1..], refused := s.refused[s.batch[0].num := a]))
  {
    var r := s.batch[0];
    assert Known(s.issued, s.refused, r);
    assert AllKnown(s.issued, s.refused, s.batch[1..]) by { hide Known; }
    hide Known, HandOk, Reqs, Comps, Hands, Routed, AllHandsOk, AllKnown;
    StillKnown(s.issued, s.refused, s.submitq, r, a);
    StillKnown(s.issued, s.refused, s.batch[1..], r, a);
    StillRouted(c, s.issued, s.refused, s.queued, IoUring, r, a);
    StillRouted(c, s.issued, s.refused, s.flying, IoUring, r, a);
    StillRouted(c, s.issued, s.refused, s.work, WorkerPool, r, a);
    StillOk(c, s.issued, s.refused, s.hands, r, a);
  }

  lemma RefuseAnswered(c: World, s: State, a: Answer)
    requires Answered(c, s) && s.batch != [] && Known(s.issued, s.refused, s.batch[0])
    requires OnTheWay(s.(batch := s.batch[1..]), ReqTag(s.batch[0])) == Comps(s.got, ReqTag(s.batch[0])) == 0
    ensures Answered(c, s.(batch := s.batch[1..], refused := s.refused[s.batch[0].num := a]))
  {
    var r := s.batch[0];
    hide Known, Reqs, Comps, Hands, AllLegit;
    StillLegit(c, s.issued, s.refused, s.ioDone, r, a);
    StillLegit(c, s.issued, s.refused, s.ioBuf, r, a);
    StillLegit(c, s.issued, s.refused, s.results, r, a);
    StillLegit(c, s.issued, s.refused, s.workBuf, r, a);
    StillLegit(c, s.issued, s.refused, s.unpub, r, a);
    StillLegit(c, s.issued, s.refused, s.unread, r, a);
    StillLegit(c, s.issued, s.refused, s.got, r, a);
  }

  /** Answering a request with what it is owed. */
  lemma PushedHonest(c: World, s: State, x: Comp)
    requires Honest(c, s) && Legit(c, s.issued, s.refused, x)
    ensures Honest(c, Pushed(c, s, x))
  {
    hide Legit, Known, HandOk, Routed, AllHandsOk, AllKnown;
  }

  lemma TurnedAwayHonest(c: World, s: State, a: Answer)
    requires Honest(c, s) && Numbered(s) && s.batch != [] && Accounted(s, ReqTag(s.batch[0]))
    requires a != Accepted
    requires c.router(s.batch[0].nr) == IoUring || (c.router(s.batch[0].nr) == WorkerPool && a == Full)
    ensures Honest(c, TurnedAway(c, s.(batch := s.batch[1..]), s.batch[0], a))
  {
    var r := s.batch[0];
    var t := s.(batch := s.batch[1..], refused := s.refused[r.num := a]);
    var x := Comp(r.num, r.corr, if a == Full then -EAGAIN else -ENOSYS);
    assert Known(s.issued, s.refused, r);
    assert Legit(c, t.issued, t.refused, x);
    assert Refusals(t);
    hide Legit, Known, Placed, Answered, Refusals, Numbered, Accounted, Pushed;
    OnlyHere(s);
    hide OnTheWay;
    RefusePlaced(c, s, a);
    RefuseAnswered(c, s, a);
    PushedHonest(c, t, x);
  }

  lemma TakenHonest(c: World, s: State)
    requires Honest(c, s) && s.batch != []
    ensures var r, t := s.batch[0], s.(batch := s.batch[1..]);
      && Honest(c, t)
      && (c.router(r.nr) == IoUring ==> Honest(c, t.(queued := s.queued + [r])))
      && (c.router(r.nr) == WorkerPool ==> Honest(c, t.(work := s.work + [r])))
  {
    assert Known(s.issued, s.refused, s.batch[0]);
    hide Known, AllHandsOk, Answered, Refusals;
  }

  lemma RouteHonest(c: World, s: State, answer: Answer)
    requires Honest(c, s) && Numbered(s) && s.batch != [] && Accounted(s, ReqTag(s.batch[0]))
    ensures Honest(c, RouteApply(c, s, answer))
  {
    var r, tier := s.batch[0], c.router(s.batch[0].nr);
    assert Known(s.issued, s.refused, r);
    var x := Comp(r.num, r.corr, -ENOSYS);
    assert tier != IoUring && tier != WorkerPool ==> Legit(c, s.issued, s.refused, x);
    hide Honest, Numbered, Accounted, Known, Legit, TurnedAway, Pushed;
    TakenHonest(c, s);
    match tier
    case IoUring =>
      if answer != Accepted {
        TurnedAwayHonest(c, s, answer);
      }
    case WorkerPool => TurnedAwayHonest(c, s, Full);
    case SharedPage => PushedHonest(c, s.(batch := s.batch[1..]), x);
    case Legacy => PushedHonest(c, s.(batch := s.batch[1..]), x);
  }

  /** A new request leaves what is known about the earlier ones. */
  lemma SubmitHonest(c: World, s: State, corr: nat, nr: nat)
    requires Honest(c, s)
    ensures Honest(c, Apply(c, s, Submit(corr, nr)))
  {
    hide Owed;
    var t := Apply(c, s, Submit(corr, nr));
    assert forall k | 0 <= k < |s.issued| :: t.issued[k] == s.issued[k];
  }

  lemma WorkerHonest(c: World, s: State, st: Step)
    requires Honest(c, s) && Enabled(c, s, st) && (st.WorkerTake? || st.WorkerRun? || st.WorkerPush?)
    ensures Honest(c, Apply(c, s, st))
  {
    assert HandOk(c, s.issued, s.refused, s.hands[st.w]);
  }

  /** Every step keeps: each completion carries exactly the result its request is owed, and a request is where the
      router sends it. */
  lemma StepHonest(c: World, s: State, st: Step)
    requires Honest(c, s) && Numbered(s) && Enabled(c, s, st)
    requires s.batch != [] ==> Accounted(s, ReqTag(s.batch[0]))
    ensures Honest(c, Apply(c, s, st))
  {
    hide Accounted, Numbered;
    match st
    case Loop(l) =>
      if l.RouteOne? {
        RouteHonest(c, s, l.answer);
        hide Honest, RouteApply;
      } else {
        LoopPlaces(c, s, l);
        LoopAnswers(c, s, l);
        assert LoopApply(c, s, l).issued == s.issued;
        hide Placed, Answered, LoopApply;
      }
    case Submit(corr, nr) => SubmitHonest(c, s, corr, nr); hide Honest;
    case Consume => hide Legit, HandOk, Known;
    case Complete(i) => assert Known(s.issued, s.refused, s.flying[i]); hide HandOk;
    case WorkerTake(_) => WorkerHonest(c, s, st); hide Honest;
    case WorkerRun(_) => WorkerHonest(c, s, st); hide Honest;
    case WorkerPush(_) => WorkerHonest(c, s, st); hide Honest;
  }

  lemma StepInv(c: World, s: State, st: Step)
    requires Inv(c, s) && Enabled(c, s, st)
    ensures Inv(c, Apply(c, s, st))
  {
    var t := Apply(c, s, st);
    StepTidies(c, s, st);
    StepHonest(c, s, st);
    assert Numbered(t) by { hide Tidy, Honest, Counted, Accounted, LoopApply; NumberedStep(c, s, st); }
    hide Tidy, Honest, Counted, Apply, Enabled, Numbered;
    StepKeeps(c, s, st, (0, 0));
    forall x ensures Accounted(t, x) {
      StepKeeps(c, s, st, x);
      hide Accounted;
    }
  }

  lemma NumberedStep(c: World, s: State, st: Step)
    requires Numbered(s) && Enabled(c, s, st)
    ensures Numbered(Apply(c, s, st))
  {
    if !st.Submit? {
      assert Apply(c, s, st).issued == s.issued;
    }
  }

  lemma {:induction false} RunInv(c: World, s: State, steps: seq<Step>, t: State)
    requires Inv(c, s) && Runs(c, s, steps, t)
    ensures Inv(c, t)
    decreases |steps|
  {
    hide Inv, Apply, Enabled;
    if steps != [] {
      StepInv(c, s, steps[0]);
      RunInv(c, Apply(c, s, steps[0]), steps[1..], t);
    }
  }

  lemma {:induction false} NoHands(hs: seq<Hand>, x: Tag)
    requires forall w | 0 <= w < |hs| :: hs[w] == Free
    ensures Hands(hs, x) == 0 && Occupied(hs) == 0
  {
    if hs != [] {
      NoHands(hs[1..], x);
    }
  }

  lemma InitialInv(c: World, s: State)
    requires Initial(s)
    ensures Inv(c, s)
  {
    NoHands(s.hands, (0, 0));
    forall x ensures Accounted(s, x) {
      NoHands(s.hands, x);
    }
  }
}
