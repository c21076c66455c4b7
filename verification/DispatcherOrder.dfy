/** The dispatcher keeps order where its rings promise it, and its batches stay within their limits. */
module DispatcherOrder {
  import opened Basics
  import opened Dispatcher

  // ── Completions ──

  /** Everything the dispatcher has pushed into the completion ring so far, oldest first. */
  function Ring(s: State): seq<Comp> { s.got + s.unread + s.unpub }

  lemma PushedAppends(c: World, s: State, x: Comp)
    ensures Ring(s) <= Ring(Pushed(c, s, x)) && Pushed(c, s, x) == s.(unpub := Pushed(c, s, x).unpub,
      lost := Pushed(c, s, x).lost)
  {
    assert s.got + s.unread + (s.unpub + [x]) == Ring(s) + [x];
  }

  lemma RouteAppends(c: World, s: State, answer: Answer)
    requires s.batch != []
    ensures Ring(s) <= Ring(RouteApply(c, s, answer))
  {
    var r, s1 := s.batch[0], s.(batch := s.batch[1..]);
    PushedAppends(c, s1, Comp(r.num, r.corr, -ENOSYS));
    PushedAppends(c, s1.(refused := s.refused[r.num := answer]),
                  Comp(r.num, r.corr, if answer == Full then -EAGAIN else -ENOSYS));
    PushedAppends(c, s1.(refused := s.refused[r.num := Full]), Comp(r.num, r.corr, -EAGAIN));
    hide Pushed;
  }

  /** User space sees completions in the order in which they were pushed: no step reorders the ring. */
  lemma StepAppends(c: World, s: State, st: Step)
    requires Enabled(c, s, st)
    ensures Ring(s) <= Ring(Apply(c, s, st))
  {
    match st
    case Loop(l) =>
      if l.RouteOne? {
        RouteAppends(c, s, l.answer);
        hide RouteApply;
      } else if l.PushOneIo? && s.ioBuf != [] {
        PushedAppends(c, s.(ioBuf := s.ioBuf[1..]), s.ioBuf[0]);
        hide Pushed;
      } else if l.PushOneWork? && s.workBuf != [] {
        PushedAppends(c, s.(workBuf := s.workBuf[1..]), s.workBuf[0]);
        hide Pushed;
      } else {
        assert s.got + (s.unread + s.unpub) + [] == Ring(s);
      }
    case Consume => assert s.got + [s.unread[0]] + s.unread[1..] + s.unpub == Ring(s);
    case _ =>
  }

  /** What user space has consumed, can consume or will be shown next only grows at its end, in every run. */
  lemma {:induction false} CompletionsKeepTheirOrder(c: World, s: State, steps: seq<Step>, t: State)
    requires Runs(c, s, steps, t)
    ensures Ring(s) <= Ring(t)
    decreases |steps|
  {
    if steps != [] {
      hide Enabled, Apply, Ring;
      StepAppends(c, s, steps[0]);
      CompletionsKeepTheirOrder(c, Apply(c, s, steps[0]), steps[1..], t);
    }
  }

  // ── Requests ──

  predicate Latest(issued: seq<Req>, rs: seq<Req>) { |rs| <= |issued| && rs == issued[|issued| - |rs|..] }

  /** The requests not yet routed are the latest submitted ones, in order. */
  predicate InOrder(s: State) { Latest(s.issued, s.batch + s.submitq) }

  predicate Limits(c: World, s: State) {
    && |s.batch| <= c.maxBatch && |s.ioBuf| <= c.maxIo && |s.workBuf| <= c.maxWork
    && |s.work| <= c.queueDepth && |s.results| <= c.queueDepth && |s.unread| + |s.unpub| <= c.ringSize
  }

  lemma LatestNext(issued: seq<Req>, batch: seq<Req>, submitq: seq<Req>)
    requires batch != [] && Latest(issued, batch + submitq)
    ensures Latest(issued, batch[1..] + submitq)
  {
    assert batch[1..] + submitq == (batch + submitq)[1..];
  }

  lemma LatestAdd(issued: seq<Req>, batch: seq<Req>, submitq: seq<Req>, r: Req)
    requires Latest(issued, batch + submitq)
    ensures Latest(issued + [r], batch + (submitq + [r]))
  {
    assert batch + (submitq + [r]) == batch + submitq + [r];
  }

  lemma RouteLeaves(c: World, s: State, answer: Answer)
    requires s.batch != []
    ensures var t := RouteApply(c, s, answer);
      t.batch == s.batch[1..] && t.submitq == s.submitq && t.issued == s.issued
  {
  }

  /** The requests not yet routed, and all requests. */
  predicate Left(s: State, t: State) { t.batch == s.batch && t.submitq == s.submitq && t.issued == s.issued }

  lemma LoopLeaves(c: World, s: State, l: LoopStep)
    requires LoopEnabled(c, s, l) && !l.RouteOne? && !l.TakeBatch?
    ensures Left(s, LoopApply(c, s, l))
  {
  }

  lemma OthersLeave(c: World, s: State, st: Step)
    requires Enabled(c, s, st) && !st.Submit? && !(st.Loop? && (st.l.RouteOne? || st.l.TakeBatch?))
    ensures Left(s, Apply(c, s, st))
  {
    if st.Loop? {
      LoopLeaves(c, s, st.l);
      hide LoopApply;
    }
  }

  lemma TakeOrder(c: World, s: State)
    requires InOrder(s) && LoopEnabled(c, s, TakeBatch) && s.batch == []
    ensures InOrder(LoopApply(c, s, TakeBatch))
  {
    var n := Least(|s.submitq|, c.maxBatch);
    assert s.submitq[..n] + s.submitq[n..] == s.submitq == [] + s.submitq;
    hide Latest;
  }

  lemma StepOrder(c: World, s: State, st: Step)
    requires InOrder(s) && Enabled(c, s, st) && (s.phase == Dequeue ==> s.batch == [])
    ensures InOrder(Apply(c, s, st))
  {
    hide Latest;
    if st.Submit? {
      LatestAdd(s.issued, s.batch, s.submitq, Req(|s.issued|, st.corr, st.nr));
    } else if st.Loop? && st.l.RouteOne? {
      RouteLeaves(c, s, st.l.answer);
      LatestNext(s.issued, s.batch, s.submitq);
      hide RouteApply;
    } else if st.Loop? && st.l.TakeBatch? {
      TakeOrder(c, s);
      hide LoopApply;
    } else {
      OthersLeave(c, s, st);
      hide Apply, Enabled;
    }
  }

  lemma LoopLimits(c: World, s: State, l: LoopStep)
    requires Limits(c, s) && LoopEnabled(c, s, l)
    ensures Limits(c, LoopApply(c, s, l))
  {
  }

  lemma StepLimits(c: World, s: State, st: Step)
    requires Limits(c, s) && Enabled(c, s, st)
    ensures Limits(c, Apply(c, s, st))
  {
    if st.Loop? {
      LoopLimits(c, s, st.l);
      hide LoopApply, Limits;
    }
  }

  /** Between iterations of the loop nothing is left in the batch. */
  predicate Dequeued(s: State) { s.phase != Route ==> s.batch == [] }

  lemma StepDequeued(c: World, s: State, st: Step)
    requires Dequeued(s) && Enabled(c, s, st)
    ensures Dequeued(Apply(c, s, st))
  {
    if !st.Loop? {
      assert Apply(c, s, st).phase == s.phase && Apply(c, s, st).batch == s.batch;
    }
  }

  lemma {:induction false} RunOrder(c: World, s: State, steps: seq<Step>, t: State)
    requires InOrder(s) && Limits(c, s) && Dequeued(s) && Runs(c, s, steps, t)
    ensures InOrder(t) && Limits(c, t)
    decreases |steps|
  {
    if steps != [] {
      assert s.phase == Dequeue ==> s.batch == [];
      hide Enabled, Apply, InOrder, Limits, Dequeued;
      StepOrder(c, s, steps[0]);
      StepLimits(c, s, steps[0]);
      StepDequeued(c, s, steps[0]);
      RunOrder(c, Apply(c, s, steps[0]), steps[1..], t);
    }
  }

  /** In every run requests are routed in the order of submission, and no batch, buffer, queue or ring exceeds its
      configured limit. */
  lemma RequestsAreRoutedInOrder(c: World, s0: State, steps: seq<Step>, s: State)
    requires Initial(s0) && Runs(c, s0, steps, s)
    ensures InOrder(s) && Limits(c, s)
  {
    assert InOrder(s0) && Limits(c, s0) && Dequeued(s0);
    hide InOrder, Limits, Dequeued;
    RunOrder(c, s0, steps, s);
  }
}
