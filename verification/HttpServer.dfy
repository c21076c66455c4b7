/** The event-loop HTTP server: a slab of connections, each driven by one outstanding operation at a time.

    What a request asks for, the replies and the file contents are arbitrary. */
module HttpServer {
  import opened Basics

  const RECV_BUF: nat := 4096
  const FILE_BUF: nat := 65536
  const POLL_MAX: nat := 128
  const SQ_ENTRIES: nat := 512

  datatype ConnState = Receiving | SendingReply | FileOpening | FileReading | FileSending | FileClosing | Closing

  /** `wire` is what the kernel has transmitted of the current reply. */
  datatype Conn = Conn(fd: int, state: ConnState, recvd: seq<Byte>, sendBuf: seq<Byte>, sendOff: nat, fileFd: int,
                       wire: seq<Byte>)

  datatype Op =
    | Accept
    | Recv(idx: nat, room: nat) | Send(idx: nat, data: seq<Byte>) | Close(idx: nat)
    | FileOpen(idx: nat) | FileRead(idx: nat) | FileClose(idx: nat)

  /** `data` are the bytes received or read. */
  datatype Cqe = Cqe(op: Op, result: int, data: seq<Byte>)

  datatype Plan = More | Reply(bytes: seq<Byte>) | Open

  /** `wrap` makes the reply from the request and the bytes of the file it asks for. */
  datatype World = World(plan: seq<Byte> -> Plan, notFound: seq<Byte>, wrap: (seq<Byte>, seq<Byte>) -> seq<Byte>)

  /** `queued` are submissions not yet flushed; `finished` pairs every completed reply with what was transmitted.
      `dropped` are completions taken from the ring and not returned, `rejected` submissions into a full queue. */
  datatype Server = Server(slots: seq<Option<Conn>>, free: seq<nat>, flying: seq<Op>, queued: seq<Op>, done: seq<Cqe>,
                           inbox: seq<Cqe>, finished: seq<(seq<Byte>, seq<Byte>)>,
                           dropped: seq<Cqe>, rejected: seq<Op>)

  // ── Correlation ids ──

  const OP_MASK: bv64 := 0xFF00_0000_0000_0000
  const IDX_MASK: bv64 := 0xFFFF_FFFF

  function MakeId(op: bv64, idx: bv64): bv64 { op | idx }

  function DecodeOp(id: bv64): bv64 { id & OP_MASK }

  function DecodeIdx(id: bv64): bv64 { id & IDX_MASK }

  /** An operation code in the top byte and a 32-bit index can always be told apart again. */
  lemma IdRoundTrip(op: bv64, idx: bv64)
    requires op & OP_MASK == op && idx & IDX_MASK == idx
    ensures DecodeOp(MakeId(op, idx)) == op && DecodeIdx(MakeId(op, idx)) == idx
  {
  }

  // ── The handler ──

  predicate Live(s: Server, idx: nat) { idx < |s.slots| && s.slots[idx].Some? }

  /** A submission whose result is ignored: it is lost when the submission queue is full. */
  function Submit(s: Server, op: Op): Server {
    if |s.queued| < SQ_ENTRIES then s.(queued := s.queued + [op]) else s.(rejected := s.rejected + [op])
  }

  function SetConn(s: Server, idx: nat, conn: Conn): Server
    requires idx < |s.slots|
  {
    s.(slots := s.slots[idx := Some(conn)])
  }

  function NewConn(fd: int): Conn { Conn(fd, Receiving, [], [], 0, -1, []) }

  function Reset(conn: Conn): Conn { conn.(recvd := [], sendBuf := [], sendOff := 0, state := Receiving, fileFd := -1,
      wire := []) }

  /** Start sending a reply. */
  function SendReply(s: Server, idx: nat, conn: Conn, state: ConnState, bytes: seq<Byte>): Server
    requires idx < |s.slots|
  {
    Submit(SetConn(s, idx, conn.(sendBuf := bytes, sendOff := 0, wire := [], state := state)), Send(idx, bytes))
  }

  function StartClose(s: Server, idx: nat): Server {
    if Live(s, idx) then Submit(SetConn(s, idx, s.slots[idx].value.(state := Closing)), Close(idx)) else s
  }

  function OnAccept(s: Server, result: int): Server {
    var s1 :=
      if result >= 0 && s.free != [] && s.free[|s.free| - 1] < |s.slots| then
        var idx := s.free[|s.free| - 1];
        Submit(SetConn(s.(free := s.free[..|s.free| - 1]), idx, NewConn(result)), Recv(idx, RECV_BUF))
      else s;
    Submit(s1, Accept)
  }

  function OnRecv(c: World, s: Server, idx: nat, result: int, data: seq<Byte>): Server {
    if result <= 0 then StartClose(s, idx)
    else if !Live(s, idx) then s
    else
      var conn := s.slots[idx].value.(recvd := s.slots[idx].value.recvd + data);
      match c.plan(conn.recvd)
      case More =>
        if |conn.recvd| >= RECV_BUF then StartClose(SetConn(s, idx, conn), idx)
        else Submit(SetConn(s, idx, conn), Recv(idx, RECV_BUF - |conn.recvd|))
      case Reply(bytes) => SendReply(s, idx, conn, SendingReply, bytes)
      case Open => Submit(SetConn(s, idx, conn.(state := FileOpening)), FileOpen(idx))
  }

  function OnSend(s: Server, idx: nat, result: int, sent: seq<Byte>): Server {
    if result <= 0 then StartClose(s, idx)
    else if !Live(s, idx) then s
    else
      var was := s.slots[idx].value;
      var conn := was.(sendOff := was.sendOff + result, wire := was.wire + sent);
      if conn.sendOff < |conn.sendBuf| then Submit(SetConn(s, idx, conn), Send(idx, conn.sendBuf[conn.sendOff..]))
      else
        var s1 := s.(finished := s.finished + [(conn.sendBuf, conn.wire)]);
        if conn.state == FileSending
        then Submit(SetConn(s1, idx, conn.(fileFd := -1, state := FileClosing)), FileClose(idx))
        else Submit(SetConn(s1, idx, Reset(conn)), Recv(idx, RECV_BUF))
  }

  function OnFileOpen(c: World, s: Server, idx: nat, result: int): Server {
    if !Live(s, idx) then s
    else
      var conn := s.slots[idx].value;
      if result < 0 then SendReply(s, idx, conn, SendingReply, c.notFound)
      else Submit(SetConn(s, idx, conn.(fileFd := result, state := FileReading)), FileRead(idx))
  }

  function OnFileRead(c: World, s: Server, idx: nat, result: int, data: seq<Byte>): Server {
    if !Live(s, idx) then s
    else
      var conn := s.slots[idx].value;
      SendReply(s, idx, conn, FileSending, c.wrap(conn.recvd, if result <= 0 then [] else data))
  }

  function OnFileClose(s: Server, idx: nat): Server {
    if !Live(s, idx) then s else Submit(SetConn(s, idx, Reset(s.slots[idx].value)), Recv(idx, RECV_BUF))
  }

  function OnClose(s: Server, idx: nat): Server {
    if idx < |s.slots| then s.(slots := s.slots[idx := None], free := s.free + [idx]) else s
  }

  /** A partial send transmits a prefix of what was submitted. */
  function Sent(q: Cqe): seq<Byte> {
    if q.op.Send? && 0 <= q.result <= |q.op.data| then q.op.data[..q.result] else []
  }

  function Handle(c: World, s: Server, q: Cqe): Server {
    match q.op
    case Accept => OnAccept(s, q.result)
    case Recv(idx, _) => OnRecv(c, s, idx, q.result, q.data)
    case Send(idx, _) => OnSend(s, idx, q.result, Sent(q))
    case Close(idx) => OnClose(s, idx)
    case FileOpen(idx) => OnFileOpen(c, s, idx, q.result)
    case FileRead(idx) => OnFileRead(c, s, idx, q.result, q.data)
    case FileClose(idx) => OnFileClose(s, idx)
  }

  // ── Steps ──

  /** `Flush` is a successful flush; a poll also follows one that failed. */
  datatype Step = Complete(i: nat, result: int, data: seq<Byte>) | Flush | Poll | HandleOne

  /** What the kernel may report for an operation. */
  predicate ResultOk(q: Cqe) {
    && (q.op.Send? ==> q.result <= |q.op.data|)
    && (q.op.Recv? ==> q.result <= q.op.room)
    && (q.op.FileRead? ==> q.result <= FILE_BUF)
    && (q.result > 0 && (q.op.Recv? || q.op.FileRead?) ==> |q.data| == q.result)
  }

  predicate Enabled(s: Server, st: Step) {
    match st
    case Complete(i, result, data) => i < |s.flying| && ResultOk(Cqe(s.flying[i], result, data))
    case Flush => s.inbox == []
    case Poll => s.inbox == []
    case HandleOne => s.inbox != []
  }

  function Apply(c: World, s: Server, st: Step): Server
    requires Enabled(s, st)
  {
    match st
    case Complete(i, result, data) =>
      s.(flying := s.flying[..i] + s.flying[i + 1..], done := s.done + [Cqe(s.flying[i], result, data)])
    case Flush => s.(flying := s.flying + s.queued, queued := [])
    case Poll =>
      // the loop over the completions has already taken one more out of the ring when it notices the limit
      if |s.done| <= POLL_MAX then s.(inbox := s.done, done := [])
      else s.(inbox := s.done[..POLL_MAX], done := s.done[POLL_MAX + 1..], dropped := s.dropped + [s.done[POLL_MAX]])
    case HandleOne => Handle(c, s.(inbox := s.inbox[1..]), s.inbox[0])
  }

  /** Before the loop one accept is submitted; the free list hands out slot 0 first. */
  predicate Initial(s: Server) {
    && s == Server(s.slots, s.free, [], [Accept], [], [], [], [], [])
    && (forall i | 0 <= i < |s.slots| :: s.slots[i] == None)
    && |s.free| == |s.slots| && (forall i | 0 <= i < |s.free| :: s.free[i] == |s.slots| - 1 - i)
  }

  ghost predicate Runs(c: World, s: Server, steps: seq<Step>, t: Server)
    decreases |steps|
  {
    if steps == [] then t == s else Enabled(s, steps[0]) && Runs(c, Apply(c, s, steps[0]), steps[1..], t)
  }

  // ── Counting operations ──

  /** For the accept, None; otherwise the connection's index. */
  predicate For(op: Op, who: Option<nat>) {
    if op.Accept? then who == None else who == Some(op.idx)
  }

  function Ops(ops: seq<Op>, who: Option<nat>): nat {
    if ops == [] then 0 else One(For(ops[0], who)) + Ops(ops[1..], who)
  }

  function Cqes(qs: seq<Cqe>, who: Option<nat>): nat {
    if qs == [] then 0 else One(For(qs[0].op, who)) + Cqes(qs[1..], who)
  }

  /** Operations outstanding: submitted, in the kernel, completed or waiting to be handled. */
  function Outstanding(s: Server, who: Option<nat>): nat {
    Ops(s.flying, who) + Ops(s.queued, who) + Cqes(s.done, who) + Cqes(s.inbox, who)
  }

  /** Operations lost on the way. */
  function Lost(s: Server, who: Option<nat>): nat { Cqes(s.dropped, who) + Ops(s.rejected, who) }

  /** How many there should be. */
  function Due(s: Server, who: Option<nat>): nat {
    match who
    case None => 1
    case Some(idx) => One(Live(s, idx))
  }

  /** The operation is the one the connection's state calls for. */
  predicate Fits(op: Op, conn: Conn) {
    match op
    case Accept => true
    case Recv(_, room) => conn.state == Receiving && |conn.recvd| < RECV_BUF && room == RECV_BUF - |conn.recvd|
    case Send(_, data) =>
      && (conn.state == SendingReply || conn.state == FileSending) && conn.sendOff <= |conn.sendBuf|
      && data == conn.sendBuf[conn.sendOff..] && conn.wire == conn.sendBuf[..conn.sendOff]
    case Close(_) => conn.state == Closing
    case FileOpen(_) => conn.state == FileOpening
    case FileRead(_) => conn.state == FileReading
    case FileClose(_) => conn.state == FileClosing
  }

  predicate OpOk(slots: seq<Option<Conn>>, op: Op) {
    op.Accept? || (op.idx < |slots| && slots[op.idx].Some? && Fits(op, slots[op.idx].value))
  }

  predicate OpsOk(slots: seq<Option<Conn>>, ops: seq<Op>) { forall i | 0 <= i < |ops| :: OpOk(slots, ops[i]) }

  predicate CqesOk(slots: seq<Option<Conn>>, qs: seq<Cqe>) {
    forall i | 0 <= i < |qs| :: OpOk(slots, qs[i].op) && ResultOk(qs[i])
  }

  predicate AllFit(s: Server) {
    && OpsOk(s.slots, s.flying) && OpsOk(s.slots, s.queued) && OpsOk(s.slots, s.rejected)
    && CqesOk(s.slots, s.done) && CqesOk(s.slots, s.inbox) && CqesOk(s.slots, s.dropped)
  }

  /** Free list and live slots partition the slab. */
  predicate Partition(slots: seq<Option<Conn>>, free: seq<nat>) {
    && (forall i | 0 <= i < |free| :: free[i] < |slots| && slots[free[i]].None?)
    && (forall i, j | 0 <= i < j < |free| :: free[i] != free[j])
    && (forall i | 0 <= i < |slots| && slots[i].None? :: i in free)
  }

  /** Every completed reply went out exactly as it was built. */
  predicate AllSent(s: Server) { forall i | 0 <= i < |s.finished| :: s.finished[i].0 == s.finished[i].1 }

  /** What is due to a connection or the listener is outstanding or has been lost. */
  ghost predicate Inv(s: Server) {
    && Partition(s.slots, s.free) && AllFit(s) && AllSent(s)
    && forall who :: Outstanding(s, who) + Lost(s, who) == Due(s, who)
  }

  // ── The slab ──

  function Lives(slots: seq<Option<Conn>>): nat {
    if slots == [] then 0 else One(slots[0].Some?) + Lives(slots[1..])
  }

  class ConnSlab {
    var slots: seq<Option<Conn>>
    var free: seq<nat>

    ghost predicate Valid()
      reads this
    {
      Partition(slots, free)
    }

    constructor (max: nat)
      ensures Valid() && |slots| == max && |free| == max
      ensures forall i | 0 <= i < max :: slots[i] == None && free[i] == max - 1 - i
    {
      slots := seq(max, i => None);
      free := seq(max, i requires 0 <= i < max => max - 1 - i);
      new;
      forall i | 0 <= i < max ensures i in free {
        assert free[max - 1 - i] == i;
      }
    }

    /** Fails only when every slot is live; otherwise takes a free slot and touches no other. */
    method Alloc(fd: int) returns (r: Option<nat>)
      requires Valid()
      modifies this
      ensures Valid()
      ensures r.None? <==> forall i | 0 <= i < |old(slots)| :: old(slots)[i].Some?
      ensures r.None? ==> slots == old(slots) && free == old(free)
      ensures r.Some? ==> r.value < |old(slots)| && old(slots)[r.value].None?
      ensures r.Some? ==> slots == old(slots)[r.value := Some(NewConn(fd))]
      ensures r.Some? ==> slots[r.value].value.fd == fd && old(free) == free + [r.value]
    {
      if |free| == 0 {
        return None;
      }
      var idx := free[|free| - 1];
      ghost var was := free;
      free := free[..|free| - 1];
      slots := slots[idx := Some(NewConn(fd))];
      assert forall i | 0 <= i < |slots| && slots[i].None? :: i in was && i != idx;
      assert forall x | x in was && x != idx :: x in free;
      return Some(idx);
    }

    /** Giving a slot back keeps the slab sound if and only if the slot was live. */
    method Free(idx: nat)
      requires Valid() && idx < |slots|
      modifies this
      ensures slots == old(slots)[idx := None] && free == old(free) + [idx]
      ensures Valid() <==> old(slots)[idx].Some?
    {
      ghost var was := free;
      slots := slots[idx := None];
      free := free + [idx];
      assert free[|free| - 1] == idx;
      assert forall x | x in was :: x in free;
      if old(slots)[idx].None? {
        assert idx in was;
        ghost var i :| 0 <= i < |was| && was[i] == idx;
        assert free[i] == idx;
      }
    }

    /** The number of live connections is what the free list leaves over. */
    method Active() returns (n: nat)
      requires Valid()
      ensures n == Lives(slots) && n + |free| == |slots|
    {
      n := 0;
      var i := 0;
      while i < |slots|
        invariant i <= |slots| && n + Lives(slots[i..]) == Lives(slots)
      {
        assert slots[i..][1..] == slots[i + 1..];
        if slots[i].Some? {
          n := n + 1;
        }
        i := i + 1;
      }
      LivesAndFree(slots, free);
    }
  }

  lemma {:induction false} LivesAndFree(slots: seq<Option<Conn>>, free: seq<nat>)
    requires Partition(slots, free)
    ensures Lives(slots) + |free| == |slots|
    decreases |free|
  {
    if free == [] {
      AllLive(slots);
    } else {
      var n := |free| - 1;
      var idx := free[n];
      var t := slots[idx := Some(NewConn(0))];
      forall i | 0 <= i < |t| && t[i].None? ensures i in free[..n] {
        var k :| 0 <= k < |free| && free[k] == i;
        assert free[..n][k] == i;
      }
      LivesAndFree(t, free[..n]);
      LivesUpdate(slots, idx, Some(NewConn(0)));
    }
  }

  lemma {:induction false} AllLive(slots: seq<Option<Conn>>)
    requires forall i | 0 <= i < |slots| :: slots[i].Some?
    ensures Lives(slots) == |slots|
  {
    if slots != [] {
      AllLive(slots[1..]);
    }
  }

  lemma {:induction false} LivesUpdate(slots: seq<Option<Conn>>, i: nat, x: Option<Conn>)
    requires i < |slots|
    ensures Lives(slots[i := x]) + One(slots[i].Some?) == Lives(slots) + One(x.Some?)
  {
    if i == 0 {
      assert slots[0 := x][1..] == slots[1..];
    } else {
      LivesUpdate(slots[1..], i - 1, x);
      assert slots[i := x][1..] == slots[1..][i - 1 := x];
    }
  }
}
