/** Every run of the HTTP server keeps one operation per connection and sends every reply exactly. */
module HttpFacts {
  import opened Basics
  import opened HttpServer

  // ── Counting ──

  lemma {:induction false} OpsAppend(a: seq<Op>, b: seq<Op>, who: Option<nat>)
    ensures Ops(a + b, who) == Ops(a, who) + Ops(b, who)
  {
    if a == [] {
      assert a + b == b;
    } else {
      OpsAppend(a[1..], b, who);
      assert (a + b)[1..] == a[1..] + b;
    }
  }

  lemma {:induction false} CqesAppend(a: seq<Cqe>, b: seq<Cqe>, who: Option<nat>)
    ensures Cqes(a + b, who) == Cqes(a, who) + Cqes(b, who)
  {
    if a == [] {
      assert a + b == b;
    } else {
      CqesAppend(a[1..], b, who);
      assert (a + b)[1..] == a[1..] + b;
    }
  }

  lemma OpsAdd(a: seq<Op>, op: Op, who: Option<nat>)
    ensures Ops(a + [op], who) == Ops(a, who) + One(For(op, who))
  {
    OpsAppend(a, [op], who);
    assert [op][1..] == [];
  }

  lemma CqesAdd(a: seq<Cqe>, q: Cqe, who: Option<nat>)
    ensures Cqes(a + [q], who) == Cqes(a, who) + One(For(q.op, who))
  {
    CqesAppend(a, [q], who);
    assert [q][1..] == [];
  }

  lemma OpsPick(a: seq<Op>, i: nat, who: Option<nat>)
    requires i < |a|
    ensures Ops(a, who) == Ops(a[..i] + a[i + 1..], who) + One(For(a[i], who))
  {
    OpsAppend(a[..i], a[i..], who);
    OpsAppend(a[..i], a[i + 1..], who);
    assert a == a[..i] + a[i..] && a[i..][1..] == a[i + 1..];
  }

  lemma {:induction false} NoOps(a: seq<Op>, who: Option<nat>, i: nat)
    requires Ops(a, who) == 0 && i < |a|
    ensures !For(a[i], who)
  {
    if i > 0 {
      NoOps(a[1..], who, i - 1);
    }
  }

  lemma {:induction false} NoCqes(a: seq<Cqe>, who: Option<nat>, i: nat)
    requires Cqes(a, who) == 0 && i < |a|
    ensures !For(a[i].op, who)
  {
    if i > 0 {
      NoCqes(a[1..], who, i - 1);
    }
  }

  // ── Handling one completion ──

  /** The state with the completion taken out of the inbox. */
  function Rest(s: Server): Server
    requires s.inbox != []
  {
    s.(inbox := s.inbox[1..])
  }

  /** All that is accounted for. */
  function Entire(s: Server, who: Option<nat>): nat { Outstanding(s, who) + Lost(s, who) }

  /** Once its completion is taken, a connection has no operation left. */
  lemma TakenOut(s: Server, idx: nat)
    requires Inv(s) && s.inbox != [] && For(s.inbox[0].op, Some(idx))
    ensures Live(s, idx) && Entire(Rest(s), Some(idx)) == 0
  {
    assert OpOk(s.slots, s.inbox[0].op);
    assert Outstanding(s, Some(idx)) + Lost(s, Some(idx)) == Due(s, Some(idx));
    hide Inv, Ops;
  }

  /** Changing a slot that no operation refers to disturbs no other operation. */
  lemma OthersFit(s: Server, slots: seq<Option<Conn>>, idx: nat)
    requires AllFit(s) && Entire(s, Some(idx)) == 0 && idx < |s.slots| == |slots| && slots == s.slots[idx := slots[idx]]
    ensures AllFit(s.(slots := slots))
  {
    OpsOthers(s.slots, slots, s.flying, idx);
    OpsOthers(s.slots, slots, s.queued, idx);
    OpsOthers(s.slots, slots, s.rejected, idx);
    CqesOthers(s.slots, slots, s.done, idx);
    CqesOthers(s.slots, slots, s.inbox, idx);
    CqesOthers(s.slots, slots, s.dropped, idx);
    hide OpsOk, CqesOk, Ops, Cqes;
  }

  /** A submission adds its operation, queued or lost. */
  lemma SubmitAdds(s: Server, op: Op, who: Option<nat>)
    ensures Entire(Submit(s, op), who) == Entire(s, who) + One(For(op, who))
  {
    OpsAdd(s.queued, op, who);
    OpsAdd(s.rejected, op, who);
    hide Ops, Cqes;
  }

  lemma SubmitFits(s: Server, op: Op)
    requires AllFit(s) && OpOk(s.slots, op)
    ensures AllFit(Submit(s, op))
  {
    hide OpOk, CqesOk;
  }

  lemma OpsOthers(was: seq<Option<Conn>>, slots: seq<Option<Conn>>, ops: seq<Op>, idx: nat)
    requires OpsOk(was, ops) && idx < |was| == |slots| && slots == was[idx := slots[idx]]
    ensures Ops(ops, Some(idx)) == 0 ==> OpsOk(slots, ops)
  {
    if Ops(ops, Some(idx)) == 0 {
      forall i | 0 <= i < |ops| ensures OpOk(slots, ops[i]) {
        NoOps(ops, Some(idx), i);
        assert OpOk(was, ops[i]);
        hide Fits, Ops;
      }
    }
    hide Ops, OpOk;
  }

  lemma CqesOthers(was: seq<Option<Conn>>, slots: seq<Option<Conn>>, qs: seq<Cqe>, idx: nat)
    requires CqesOk(was, qs) && idx < |was| == |slots| && slots == was[idx := slots[idx]]
    ensures Cqes(qs, Some(idx)) == 0 ==> CqesOk(slots, qs)
  {
    if Cqes(qs, Some(idx)) == 0 {
      forall i | 0 <= i < |qs| ensures OpOk(slots, qs[i].op) && ResultOk(qs[i]) {
        NoCqes(qs, Some(idx), i);
        assert OpOk(was, qs[i].op);
        hide Fits, Cqes, ResultOk;
      }
    }
    hide Cqes, OpOk, ResultOk;
  }

  /** The connection takes its next operation: everything is kept if the two fit. */
  lemma NextOpKeeps(s: Server, t: Server, idx: nat, conn: Conn, op: Op)
    requires Inv(s) && s.inbox != [] && For(s.inbox[0].op, Some(idx)) && For(op, Some(idx)) && Fits(op, conn)
    requires idx < |s.slots| && t == Submit(SetConn(Rest(s), idx, conn), op).(finished := t.finished) && AllSent(t)
    ensures Inv(t)
  {
    var r := Rest(s);
    TakenOut(s, idx);
    assert AllFit(r) && Partition(s.slots, s.free);
    assert Partition(t.slots, t.free) by { LivePartition(s.slots, s.free, idx, conn); }
    hide Partition;
    var m := SetConn(r, idx, conn);
    OthersFit(r, m.slots, idx);
    assert OpOk(m.slots, op);
    hide AllFit, Fits, OpOk, AllSent;
    SubmitFits(m, op);
    FinishedFits(Submit(m, op), t.finished);
    forall who ensures Outstanding(t, who) + Lost(t, who) == Due(t, who) {
      assert Outstanding(s, who) + Lost(s, who) == Due(s, who);
      assert Cqes(s.inbox, who) == One(For(s.inbox[0].op, who)) + Cqes(r.inbox, who);
      SubmitAdds(m, op, who);
      hide Ops, Cqes;
    }
  }

  lemma FinishedFits(s: Server, finished: seq<(seq<Byte>, seq<Byte>)>)
    requires AllFit(s)
    ensures AllFit(s.(finished := finished))
  {
    hide OpsOk, CqesOk;
  }

  lemma LivePartition(slots: seq<Option<Conn>>, free: seq<nat>, idx: nat, conn: Conn)
    requires Partition(slots, free) && idx < |slots| && slots[idx].Some?
    ensures Partition(slots[idx := Some(conn)], free)
  {
  }

  lemma CloseStarts(s: Server, idx: nat)
    requires Inv(s) && s.inbox != [] && For(s.inbox[0].op, Some(idx))
    ensures Inv(StartClose(Rest(s), idx))
  {
    TakenOut(s, idx);
    assert AllSent(s);
    NextOpKeeps(s, StartClose(Rest(s), idx), idx, s.slots[idx].value.(state := Closing), Close(idx));
    hide Inv;
  }

  /** The completion at hand is what its connection waits for. */
  lemma AtHand(s: Server, idx: nat)
    requires Inv(s) && s.inbox != [] && For(s.inbox[0].op, Some(idx))
    ensures Live(s, idx) && Fits(s.inbox[0].op, s.slots[idx].value) && ResultOk(s.inbox[0]) && AllSent(s)
  {
    assert OpOk(s.slots, s.inbox[0].op);
  }

  lemma RecvKeeps(c: World, s: Server)
    requires Inv(s) && s.inbox != [] && s.inbox[0].op.Recv?
    ensures Inv(Handle(c, Rest(s), s.inbox[0]))
  {
    var q := s.inbox[0];
    var idx := q.op.idx;
    if q.result <= 0 {
      CloseStarts(s, idx);
      hide Inv;
    } else {
      AtHand(s, idx);
      hide Inv;
      var conn := s.slots[idx].value.(recvd := s.slots[idx].value.recvd + q.data);
      var t := Handle(c, Rest(s), q);
      match c.plan(conn.recvd)
      case More =>
        if |conn.recvd| >= RECV_BUF {
          NextOpKeeps(s, t, idx, conn.(state := Closing), Close(idx));
        } else {
          NextOpKeeps(s, t, idx, conn, Recv(idx, RECV_BUF - |conn.recvd|));
        }
      case Reply(bytes) => ReplyKeeps(s, t, idx, conn, SendingReply, bytes);
      case Open => NextOpKeeps(s, t, idx, conn.(state := FileOpening), FileOpen(idx));
    }
  }

  lemma ReplyKeeps(s: Server, t: Server, idx: nat, conn: Conn, state: ConnState, bytes: seq<Byte>)
    requires Inv(s) && s.inbox != [] && For(s.inbox[0].op, Some(idx)) && idx < |s.slots|
    requires (state == SendingReply || state == FileSending) && t == SendReply(Rest(s), idx, conn, state, bytes)
    ensures Inv(t)
  {
    assert AllSent(s);
    hide Inv;
    assert bytes[0..] == bytes && bytes[..0] == [];
    NextOpKeeps(s, t, idx, conn.(sendBuf := bytes, sendOff := 0, wire := [], state := state), Send(idx, bytes));
  }

  /** A partial send leaves the rest to be sent and the prefix transmitted. */
  lemma Progress(buf: seq<Byte>, off: nat, n: nat)
    requires off + n <= |buf|
    ensures buf[off..][..n] == buf[off..off + n] && buf[..off] + buf[off..off + n] == buf[..off + n]
  {
  }

  lemma SendKeeps(c: World, s: Server)
    requires Inv(s) && s.inbox != [] && s.inbox[0].op.Send?
    ensures Inv(Handle(c, Rest(s), s.inbox[0]))
  {
    var q := s.inbox[0];
    var idx := q.op.idx;
    if q.result <= 0 {
      CloseStarts(s, idx);
      hide Inv;
    } else {
      AtHand(s, idx);
      hide Inv;
      var was := s.slots[idx].value;
      Progress(was.sendBuf, was.sendOff, q.result);
      var conn := was.(sendOff := was.sendOff + q.result, wire := was.wire + Sent(q));
      assert conn.wire == was.sendBuf[..conn.sendOff];
      var t := Handle(c, Rest(s), q);
      if conn.sendOff < |conn.sendBuf| {
        NextOpKeeps(s, t, idx, conn, Send(idx, conn.sendBuf[conn.sendOff..]));
      } else {
        assert conn.wire == conn.sendBuf;
        if conn.state == FileSending {
          NextOpKeeps(s, t, idx, conn.(fileFd := -1, state := FileClosing), FileClose(idx));
        } else {
          NextOpKeeps(s, t, idx, Reset(conn), Recv(idx, RECV_BUF));
        }
      }
    }
  }

  lemma FileKeeps(c: World, s: Server)
    requires Inv(s) && s.inbox != [] && (s.inbox[0].op.FileOpen? || s.inbox[0].op.FileRead? || s.inbox[0].op.FileClose?)
    ensures Inv(Handle(c, Rest(s), s.inbox[0]))
  {
    var q := s.inbox[0];
    var idx := q.op.idx;
    AtHand(s, idx);
    hide Inv;
    var conn, t := s.slots[idx].value, Handle(c, Rest(s), q);
    if q.op.FileOpen? {
      if q.result < 0 {
        ReplyKeeps(s, t, idx, conn, SendingReply, c.notFound);
      } else {
        NextOpKeeps(s, t, idx, conn.(fileFd := q.result, state := FileReading), FileRead(idx));
      }
    } else if q.op.FileRead? {
      ReplyKeeps(s, t, idx, conn, FileSending, c.wrap(conn.recvd, if q.result <= 0 then [] else q.data));
    } else {
      NextOpKeeps(s, t, idx, Reset(conn), Recv(idx, RECV_BUF));
    }
  }

  /** A slot is given back only by its own close, when nothing refers to it any more. */
  lemma CloseKeeps(c: World, s: Server)
    requires Inv(s) && s.inbox != [] && s.inbox[0].op.Close?
    ensures Inv(Handle(c, Rest(s), s.inbox[0]))
  {
    var idx, r, t := s.inbox[0].op.idx, Rest(s), Handle(c, Rest(s), s.inbox[0]);
    TakenOut(s, idx);
    assert AllFit(r) && Partition(s.slots, s.free);
    FreeKeeps(s.slots, s.free, idx);
    hide Partition;
    OthersFit(r, t.slots, idx);
    assert AllFit(t) by { hide OpsOk, CqesOk; }
    hide AllFit;
    forall who ensures Outstanding(t, who) + Lost(t, who) == Due(t, who) {
      assert Outstanding(s, who) + Lost(s, who) == Due(s, who);
      assert Cqes(s.inbox, who) == One(For(s.inbox[0].op, who)) + Cqes(r.inbox, who);
      hide Ops, Cqes;
    }
  }

  lemma FreeKeeps(slots: seq<Option<Conn>>, free: seq<nat>, idx: nat)
    requires Partition(slots, free) && idx < |slots| && slots[idx].Some?
    ensures Partition(slots[idx := None], free + [idx])
  {
    forall i | 0 <= i < |slots| && slots[idx := None][i].None? ensures i in free + [idx] {
      if i == idx {
        assert (free + [idx])[|free|] == idx;
      }
    }
  }

  /** Taking the last free slot. */
  lemma AllocKeeps(slots: seq<Option<Conn>>, free: seq<nat>, conn: Conn)
    requires Partition(slots, free) && free != []
    ensures var idx := free[|free| - 1];
      idx < |slots| && slots[idx].None? && Partition(slots[idx := Some(conn)], free[..|free| - 1])
  {
    var n := |free| - 1;
    var idx := free[n];
    forall i | 0 <= i < |slots| && slots[idx := Some(conn)][i].None? ensures i in free[..n] {
      var k :| 0 <= k < |free| && free[k] == i;
      assert k < n;
      assert free[..n][k] == i;
    }
  }

  /** Taking the accept out of the inbox leaves no accept outstanding. */
  lemma AcceptTaken(s: Server, who: Option<nat>)
    requires Inv(s) && s.inbox != [] && s.inbox[0].op == Accept
    ensures Entire(Rest(s), who) + One(who.None?) == Due(s, who) && AllFit(Rest(s)) && AllSent(s)
  {
    assert Outstanding(s, who) + Lost(s, who) == Due(s, who);
    hide Ops;
  }

  lemma RefusedAcceptKeeps(s: Server)
    requires Inv(s) && s.inbox != [] && s.inbox[0].op == Accept
    ensures Inv(Submit(Rest(s), Accept))
  {
    var t := Submit(Rest(s), Accept);
    forall who ensures Outstanding(t, who) + Lost(t, who) == Due(t, who) {
      AcceptTaken(s, who);
      SubmitAdds(Rest(s), Accept, who);
      hide Ops, Cqes;
    }
    AcceptTaken(s, None);
    SubmitFits(Rest(s), Accept);
    hide Ops, Cqes, Outstanding, Lost, AllFit, OpsOk, CqesOk;
  }

  lemma FreshFits(slots: seq<Option<Conn>>, idx: nat, fd: int)
    requires idx < |slots| && slots[idx] == Some(NewConn(fd))
    ensures OpOk(slots, Recv(idx, RECV_BUF))
  {
  }

  lemma TakenAcceptKeeps(s: Server, fd: int)
    requires Inv(s) && s.inbox != [] && s.inbox[0].op == Accept && s.free != []
    ensures var idx := s.free[|s.free| - 1];
      idx < |s.slots| &&
      Inv(Submit(Submit(SetConn(Rest(s).(free := s.free[..|s.free| - 1]), idx, NewConn(fd)), Recv(idx, RECV_BUF)),
        Accept))
  {
    var idx := s.free[|s.free| - 1];
    assert Partition(s.slots, s.free);
    AllocKeeps(s.slots, s.free, NewConn(fd));
    hide Partition;
    var r := Rest(s);
    var m := SetConn(r.(free := s.free[..|s.free| - 1]), idx, NewConn(fd));
    var u := Submit(m, Recv(idx, RECV_BUF));
    var t := Submit(u, Accept);
    AcceptTaken(s, Some(idx));
    OthersFit(r, m.slots, idx);
    assert AllFit(m) by { hide OpsOk, CqesOk; }
    FreshFits(m.slots, idx, fd);
    hide AllFit, OpOk;
    SubmitFits(m, Recv(idx, RECV_BUF));
    AcceptFits(u.slots);
    SubmitFits(u, Accept);
    forall who ensures Outstanding(t, who) + Lost(t, who) == Due(t, who) {
      hide Inv;
      AcceptCounts(s, m, idx, who);
      hide Submit, Outstanding, Lost;
    }
    hide SetConn, Outstanding, Lost, Due;
  }

  lemma AcceptCounts(s: Server, m: Server, idx: nat, who: Option<nat>)
    requires Inv(s) && s.inbox != [] && s.inbox[0].op == Accept && idx < |s.slots| && s.slots[idx].None?
    requires m == Rest(s).(slots := m.slots, free := m.free) && |m.slots| == |s.slots| && m.slots[idx].Some?
    requires forall i | 0 <= i < |s.slots| && i != idx :: m.slots[i] == s.slots[i]
    ensures var t := Submit(Submit(m, Recv(idx, RECV_BUF)), Accept); Outstanding(t, who) + Lost(t, who) == Due(t, who)
  {
    AcceptTaken(s, who);
    hide Inv;
    SubmitAdds(m, Recv(idx, RECV_BUF), who);
    SubmitAdds(Submit(m, Recv(idx, RECV_BUF)), Accept, who);
    hide Ops, Cqes;
  }

  lemma AcceptFits(slots: seq<Option<Conn>>)
    ensures OpOk(slots, Accept)
  {
  }

  lemma HandleKeeps(c: World, s: Server)
    requires Inv(s) && s.inbox != []
    ensures Inv(Apply(c, s, HandleOne))
  {
    match s.inbox[0].op
    case Accept =>
      if s.inbox[0].result >= 0 && s.free != [] {
        TakenAcceptKeeps(s, s.inbox[0].result);
        hide Inv;
      } else {
        RefusedAcceptKeeps(s);
        hide Inv;
      }
    case Recv(_, _) => RecvKeeps(c, s); hide Inv, Handle;
    case Send(_, _) => SendKeeps(c, s); hide Inv, Handle;
    case Close(_) => CloseKeeps(c, s); hide Inv, Handle;
    case FileOpen(_) => FileKeeps(c, s); hide Inv, Handle;
    case FileRead(_) => FileKeeps(c, s); hide Inv, Handle;
    case FileClose(_) => FileKeeps(c, s); hide Inv, Handle;
  }

  // ── The kernel and the ring ──

  lemma CompleteKeeps(c: World, s: Server, i: nat, result: int, data: seq<Byte>)
    requires Inv(s) && Enabled(s, Complete(i, result, data))
    ensures Inv(Apply(c, s, Complete(i, result, data)))
  {
    var t := Apply(c, s, Complete(i, result, data));
    assert OpOk(s.slots, s.flying[i]);
    forall who ensures Outstanding(t, who) + Lost(t, who) == Due(t, who) {
      assert Outstanding(s, who) + Lost(s, who) == Due(s, who);
      OpsPick(s.flying, i, who);
      CqesAdd(s.done, t.done[|s.done|], who);
      hide Ops, Cqes;
    }
    hide Ops, Cqes, Outstanding, Lost, OpOk, Partition;
  }

  lemma FlushKeeps(c: World, s: Server)
    requires Inv(s) && Enabled(s, Flush)
    ensures Inv(Apply(c, s, Flush))
  {
    var t := Apply(c, s, Flush);
    forall who ensures Outstanding(t, who) + Lost(t, who) == Due(t, who) {
      assert Outstanding(s, who) + Lost(s, who) == Due(s, who);
      OpsAppend(s.flying, s.queued, who);
      assert Ops([], who) == 0;
      hide Ops, Cqes;
    }
    hide Ops, Cqes, Outstanding, Lost, OpOk, Partition;
  }

  /** The completions ready are returned, except one past the limit, which is lost. */
  lemma PollCounts(c: World, s: Server, who: Option<nat>)
    requires Enabled(s, Poll)
    ensures Entire(Apply(c, s, Poll), who) == Entire(s, who)
    ensures |s.done| > POLL_MAX ==> Lost(Apply(c, s, Poll), who) == Lost(s, who) + One(For(s.done[POLL_MAX].op, who))
  {
    var t := Apply(c, s, Poll);
    assert Cqes([], who) == 0;
    if |s.done| > POLL_MAX {
      var rest := s.done[POLL_MAX..];
      CqesAppend(s.done[..POLL_MAX], rest, who);
      assert s.done == s.done[..POLL_MAX] + rest && rest[1..] == s.done[POLL_MAX + 1..];
      assert Cqes(rest, who) == One(For(rest[0].op, who)) + Cqes(rest[1..], who);
      CqesAdd(s.dropped, s.done[POLL_MAX], who);
    }
    hide Ops, Cqes;
  }

  lemma PollKeeps(c: World, s: Server)
    requires Inv(s) && Enabled(s, Poll)
    ensures Inv(Apply(c, s, Poll))
  {
    var t := Apply(c, s, Poll);
    assert AllFit(t) by { hide OpOk, ResultOk; }
    hide AllFit, Partition;
    forall who ensures Outstanding(t, who) + Lost(t, who) == Due(t, who) {
      assert Outstanding(s, who) + Lost(s, who) == Due(s, who);
      PollCounts(c, s, who);
      hide Outstanding, Lost;
    }
    hide Outstanding, Lost;
  }

  lemma StepKeeps(c: World, s: Server, st: Step)
    requires Inv(s) && Enabled(s, st)
    ensures Inv(Apply(c, s, st))
  {
    hide Inv, Apply;
    match st
    case Complete(i, result, data) => CompleteKeeps(c, s, i, result, data);
    case Flush => FlushKeeps(c, s);
    case Poll => PollKeeps(c, s);
    case HandleOne => HandleKeeps(c, s);
  }

  lemma {:induction false} RunKeeps(c: World, s: Server, steps: seq<Step>, t: Server)
    requires Inv(s) && Runs(c, s, steps, t)
    ensures Inv(t)
    decreases |steps|
  {
    hide Inv, Apply, Enabled;
    if steps != [] {
      StepKeeps(c, s, steps[0]);
      RunKeeps(c, Apply(c, s, steps[0]), steps[1..], t);
    }
  }

  lemma InitialInv(s: Server)
    requires Initial(s)
    ensures Inv(s)
  {
    forall i | 0 <= i < |s.slots| ensures i in s.free {
      assert s.free[|s.slots| - 1 - i] == i;
    }
    forall who ensures Outstanding(s, who) + Lost(s, who) == Due(s, who) {
      assert [Accept][1..] == [];
    }
  }

  // ── What follows for every run ──

  /** In every run, what the listener and the live connections are due is outstanding or has been lost, and nothing is
      due to a free slot. */
  lemma AlwaysAccounted(c: World, s0: Server, steps: seq<Step>, s: Server, who: Option<nat>)
    requires Initial(s0) && Runs(c, s0, steps, s)
    ensures Outstanding(s, who) + Lost(s, who) == Due(s, who)
  {
    hide Outstanding, Lost, Runs, Initial;
    InitialInv(s0);
    RunKeeps(c, s0, steps, s);
  }

  /** Exactly one accept and exactly one operation per live connection are outstanding, none for a free slot. */
  ghost predicate OneEach(s: Server) { forall who :: Outstanding(s, who) == Due(s, who) }

  ghost predicate AlwaysOneEach(c: World, s: Server, steps: seq<Step>)
    decreases |steps|
  {
    OneEach(s) && (steps == [] || (Enabled(s, steps[0]) && AlwaysOneEach(c, Apply(c, s, steps[0]), steps[1..])))
  }

  /** How many operations the handler submits for a completion. */
  function Submissions(s: Server, q: Cqe): nat {
    match q.op
    case Accept => if q.result >= 0 && s.free != [] then 2 else 1
    case Close(_) => 0
    case Recv(_, _) => 1
    case Send(_, _) => 1
    case FileOpen(_) => 1
    case FileRead(_) => 1
    case FileClose(_) => 1
  }

  /** A poll that finds more than 128 completions ready, or a handler that submits into a full submission queue. */
  predicate Overflows(s: Server, st: Step) {
    || (st == Poll && |s.done| > POLL_MAX)
    || (st == HandleOne && s.inbox != [] && |s.queued| + Submissions(s, s.inbox[0]) > SQ_ENTRIES)
  }

  ghost predicate NeverOverflows(c: World, s: Server, steps: seq<Step>)
    decreases |steps|
  {
    steps == [] ||
    (Enabled(s, steps[0]) && !Overflows(s, steps[0]) && NeverOverflows(c, Apply(c, s, steps[0]), steps[1..]))
  }

  predicate NothingLost(s: Server) { s.dropped == [] && s.rejected == [] }

  /** What handling a completion does to the submission queue. */
  lemma HandleSubmits(c: World, s: Server, q: Cqe)
    requires OpOk(s.slots, q.op) && (forall i | 0 <= i < |s.free| :: s.free[i] < |s.slots|)
    ensures var t := Handle(c, s, q);
      && t.inbox == s.inbox && t.dropped == s.dropped
      && |t.queued| + |t.rejected| == |s.queued| + |s.rejected| + Submissions(s, q)
      && |t.queued| == Least(|s.queued| + Submissions(s, q), if |s.queued| > SQ_ENTRIES then |s.queued| else SQ_ENTRIES)
  {
    hide Fits;
    if q.op.Recv? {
      RecvSubmits(c, s, q.op.idx, q.result, q.data);
      hide OnRecv;
    }
  }

  lemma RecvSubmits(c: World, s: Server, idx: nat, result: int, data: seq<Byte>)
    requires Live(s, idx)
    ensures exists slots, op :: OnRecv(c, s, idx, result, data) == Submit(s.(slots := slots), op)
  {
    var t := OnRecv(c, s, idx, result, data);
    if result <= 0 {
      assert t == Submit(s.(slots := t.slots), Close(idx));
    } else {
      var conn := s.slots[idx].value.(recvd := s.slots[idx].value.recvd + data);
      match c.plan(conn.recvd)
      case More =>
        if |conn.recvd| >= RECV_BUF {
          assert t == Submit(s.(slots := t.slots), Close(idx));
        } else {
          assert t == Submit(s.(slots := t.slots), Recv(idx, RECV_BUF - |conn.recvd|));
        }
      case Reply(bytes) => assert t == Submit(s.(slots := t.slots), Send(idx, bytes));
      case Open => assert t == Submit(s.(slots := t.slots), FileOpen(idx));
    }
  }

  /** Something is lost in a step if and only if it overflows. */
  lemma LosesIffOverflows(c: World, s: Server, st: Step)
    requires Inv(s) && Enabled(s, st) && NothingLost(s) && |s.queued| <= SQ_ENTRIES
    ensures NothingLost(Apply(c, s, st)) <==> !Overflows(s, st)
    ensures |Apply(c, s, st).queued| <= SQ_ENTRIES
  {
    if st == HandleOne {
      assert OpOk(s.slots, s.inbox[0].op) && Partition(s.slots, s.free);
      hide Inv;
      HandleSubmits(c, Rest(s), s.inbox[0]);
      hide Handle;
    }
  }

  /** A lost operation is missing from what is outstanding. */
  lemma LostIsMissing(s: Server)
    requires Inv(s) && !NothingLost(s)
    ensures !OneEach(s)
  {
    var op := if s.dropped != [] then s.dropped[0].op else s.rejected[0];
    var who := if op.Accept? then None else Some(op.idx);
    assert For(op, who);
    assert Lost(s, who) > 0;
    assert Outstanding(s, who) + Lost(s, who) == Due(s, who);
    hide Inv;
  }

  lemma NothingIsMissing(s: Server)
    requires Inv(s) && NothingLost(s)
    ensures OneEach(s)
  {
    forall who ensures Outstanding(s, who) == Due(s, who) {
      assert Outstanding(s, who) + Lost(s, who) == Due(s, who);
    }
    hide Inv;
  }

  lemma {:induction false} OneEachIff(c: World, s: Server, steps: seq<Step>, t: Server)
    requires Inv(s) && NothingLost(s) && |s.queued| <= SQ_ENTRIES && Runs(c, s, steps, t)
    ensures AlwaysOneEach(c, s, steps) <==> NeverOverflows(c, s, steps)
    decreases |steps|
  {
    NothingIsMissing(s);
    hide Inv, OneEach, Apply, Enabled;
    if steps != [] {
      LosesIffOverflows(c, s, steps[0]);
      StepKeeps(c, s, steps[0]);
      if Overflows(s, steps[0]) {
        LostIsMissing(Apply(c, s, steps[0]));
      } else {
        OneEachIff(c, Apply(c, s, steps[0]), steps[1..], t);
      }
    }
  }

  /** Throughout a run exactly one accept and exactly one operation per live connection are outstanding if and only if
      no poll in it found more than 128 completions ready and no handler submitted into a full submission queue. */
  lemma OneOperationEachIff(c: World, s0: Server, steps: seq<Step>, s: Server)
    requires Initial(s0) && Runs(c, s0, steps, s)
    ensures AlwaysOneEach(c, s0, steps) <==> NeverOverflows(c, s0, steps)
  {
    InitialInv(s0);
    hide Inv, Runs, AlwaysOneEach, NeverOverflows;
    OneEachIff(c, s0, steps, s);
  }

  /** Lost operations stay lost. */
  lemma LostGrows(c: World, s: Server, st: Step, who: Option<nat>)
    requires Enabled(s, st)
    ensures Lost(Apply(c, s, st), who) >= Lost(s, who)
  {
    var t := Apply(c, s, st);
    if st == Poll {
      PollCounts(c, s, who);
    } else if st == HandleOne {
      HandleRejects(c, Rest(s), s.inbox[0]);
      hide Handle;
      assert t.rejected == s.rejected + t.rejected[|s.rejected|..];
      OpsAppend(s.rejected, t.rejected[|s.rejected|..], who);
    }
    hide Ops, Cqes;
  }

  lemma HandleRejects(c: World, s: Server, q: Cqe)
    ensures Handle(c, s, q).dropped == s.dropped && s.rejected <= Handle(c, s, q).rejected
  {
    if q.op.Recv? {
      if Live(s, q.op.idx) {
        RecvSubmits(c, s, q.op.idx, q.result, q.data);
        hide OnRecv;
      }
    }
  }

  /** Once the listener's or a connection's operation is lost, it has none outstanding for the rest of every run: the
      server takes no further connection, or that connection is neither served nor closed. */
  lemma {:induction false} LostForever(c: World, s: Server, steps: seq<Step>, t: Server, who: Option<nat>)
    requires Inv(s) && Lost(s, who) > 0 && Runs(c, s, steps, t)
    ensures Outstanding(t, who) == 0 && Due(t, who) == 1
    decreases |steps|
  {
    if steps == [] {
      assert Outstanding(s, who) + Lost(s, who) == Due(s, who);
      hide Inv, Outstanding, Lost;
    } else {
      hide Inv, Lost, Apply, Enabled, Outstanding, Due;
      LostGrows(c, s, steps[0], who);
      StepKeeps(c, s, steps[0]);
      LostForever(c, Apply(c, s, steps[0]), steps[1..], t, who);
    }
  }

  // ── Submissions between flushes ──

  /** Every poll comes after a successful flush. */
  ghost predicate Flushed(c: World, s: Server, steps: seq<Step>)
    decreases |steps|
  {
    steps == [] ||
    (Enabled(s, steps[0]) && (steps[0] == Poll ==> s.queued == []) && Flushed(c, Apply(c, s, steps[0]), steps[1..]))
  }

  predicate Budget(s: Server) {
    |s.queued| + |s.inbox| + Cqes(s.inbox, None) <= POLL_MAX + 1 && s.rejected == []
  }

  lemma BudgetStep(c: World, s: Server, st: Step)
    requires Inv(s) && Budget(s) && Enabled(s, st) && (st == Poll ==> s.queued == [])
    ensures Budget(Apply(c, s, st))
  {
    if st == HandleOne {
      assert OpOk(s.slots, s.inbox[0].op) && Partition(s.slots, s.free);
      assert Cqes(s.inbox, None) == One(For(s.inbox[0].op, None)) + Cqes(Rest(s).inbox, None);
      hide Inv, Cqes;
      HandleSubmits(c, Rest(s), s.inbox[0]);
      hide Handle;
    } else if st == Poll {
      StepKeeps(c, s, st);
      var t := Apply(c, s, st);
      assert Outstanding(t, None) + Lost(t, None) == 1;
      hide Inv, Cqes, Ops;
    }
  }

  lemma {:induction false} BudgetRun(c: World, s: Server, steps: seq<Step>, t: Server)
    requires Inv(s) && Budget(s) && Runs(c, s, steps, t) && Flushed(c, s, steps)
    ensures Budget(t)
    decreases |steps|
  {
    hide Inv, Budget, Apply, Enabled;
    if steps != [] {
      BudgetStep(c, s, steps[0]);
      StepKeeps(c, s, steps[0]);
      BudgetRun(c, Apply(c, s, steps[0]), steps[1..], t);
    }
  }

  /** If every poll comes after a successful flush, at most 129 submissions are ever queued, so a ring of 512 entries
      never turns one away. */
  lemma RingNeverRejects(c: World, s0: Server, steps: seq<Step>, s: Server)
    requires Initial(s0) && Runs(c, s0, steps, s) && Flushed(c, s0, steps)
    ensures |s.queued| <= POLL_MAX + 1 < SQ_ENTRIES && s.rejected == []
  {
    InitialInv(s0);
    hide Inv, Runs, Flushed;
    BudgetRun(c, s0, steps, s);
  }

  /** No poll finds more completions ready than it returns. */
  ghost predicate NeverCrowded(c: World, s: Server, steps: seq<Step>)
    decreases |steps|
  {
    steps == [] ||
    (Enabled(s, steps[0]) && (steps[0] == Poll ==> |s.done| <= POLL_MAX) &&
     NeverCrowded(c, Apply(c, s, steps[0]), steps[1..]))
  }

  lemma {:induction false} OverflowsAreCrowds(c: World, s: Server, steps: seq<Step>, t: Server)
    requires Inv(s) && Budget(s) && Runs(c, s, steps, t) && Flushed(c, s, steps)
    ensures NeverOverflows(c, s, steps) <==> NeverCrowded(c, s, steps)
    decreases |steps|
  {
    if steps != [] {
      assert steps[0] == HandleOne ==> !Overflows(s, steps[0]);
      hide Inv, Apply, Budget;
      BudgetStep(c, s, steps[0]);
      StepKeeps(c, s, steps[0]);
      OverflowsAreCrowds(c, Apply(c, s, steps[0]), steps[1..], t);
    }
  }

  /** With successful flushes, one operation each holds throughout if and only if no poll found more than 128
      completions ready. */
  lemma OneOperationEachIffNeverCrowded(c: World, s0: Server, steps: seq<Step>, s: Server)
    requires Initial(s0) && Runs(c, s0, steps, s) && Flushed(c, s0, steps)
    ensures AlwaysOneEach(c, s0, steps) <==> NeverCrowded(c, s0, steps)
  {
    InitialInv(s0);
    hide Inv, Runs, AlwaysOneEach, NeverOverflows, NeverCrowded, Flushed;
    OneEachIff(c, s0, steps, s);
    OverflowsAreCrowds(c, s0, steps, s);
  }

  /** Free list and live connections partition the slab, and a completion finds its connection live and in the state
      that waits for it. */
  lemma SlabStaysSound(c: World, s0: Server, steps: seq<Step>, s: Server)
    requires Initial(s0) && Runs(c, s0, steps, s)
    ensures Partition(s.slots, s.free)
    ensures s.inbox != [] ==> OpOk(s.slots, s.inbox[0].op)
  {
    InitialInv(s0);
    RunKeeps(c, s0, steps, s);
    hide Runs;
  }

  /** A slot turns free only when the completion of its own close is handled. */
  lemma FreedByOwnClose(c: World, s: Server, st: Step, idx: nat)
    requires Inv(s) && Enabled(s, st) && Live(s, idx) && !Live(Apply(c, s, st), idx)
    ensures st == HandleOne && s.inbox[0].op == Close(idx)
  {
    if st == HandleOne && s.inbox[0].op != Close(idx) {
      hide Inv;
      HandleSpares(c, Rest(s), s.inbox[0], idx);
    }
  }

  /** Handling anything but its own close leaves a live connection live. */
  lemma HandleSpares(c: World, s: Server, q: Cqe, idx: nat)
    requires Live(s, idx) && q.op != Close(idx)
    ensures Live(Handle(c, s, q), idx)
  {
    if q.op.Recv? {
      RecvSpares(c, s, q, idx);
      hide OnRecv;
    }
  }

  lemma RecvSpares(c: World, s: Server, q: Cqe, idx: nat)
    requires Live(s, idx) && q.op.Recv?
    ensures Live(OnRecv(c, s, q.op.idx, q.result, q.data), idx)
  {
  }

  /** Every completed reply was transmitted exactly as built, in order, however the kernel cut it into partial sends. */
  lemma RepliesSentExactly(c: World, s0: Server, steps: seq<Step>, s: Server, i: nat)
    requires Initial(s0) && Runs(c, s0, steps, s) && i < |s.finished|
    ensures s.finished[i].1 == s.finished[i].0
  {
    InitialInv(s0);
    RunKeeps(c, s0, steps, s);
    hide Runs;
  }
}
