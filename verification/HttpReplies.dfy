/** What the HTTP server answers, told from the completions alone: in every run the bytes a connection has received, its
    state and its reply follow from the operations that have completed on it. */
module HttpReplies {
  import opened Basics
  import opened HttpServer
  import opened HttpFacts

  /** What has completed on a connection since it was accepted or last went back to receiving: the pieces received, the
      result of opening the file, the bytes read from it, the number of bytes sent, and whether a receive or a send
      failed. */
  datatype Talk = Talk(received: seq<seq<Byte>>, fileRes: Option<int>, read: Option<seq<Byte>>, sent: nat, failed: bool)

  /** `talks` by slot; `replies` has the talk behind every reply that was sent completely. */
  datatype Notes = Notes(talks: seq<Talk>, replies: seq<Talk>)

  const Fresh: Talk := Talk([], None, None, 0, false)

  function Joined(pieces: seq<seq<Byte>>): seq<Byte> {
    if pieces == [] then [] else Joined(pieces[..|pieces| - 1]) + pieces[|pieces| - 1]
  }

  /** The reply that is called for: what the request asks for, that the file was not found, or the file. */
  function Called(c: World, k: Talk): Option<seq<Byte>> {
    match c.plan(Joined(k.received))
    case More => None
    case Reply(bytes) => Some(bytes)
    case Open =>
      if k.fileRes.None? then None
      else if k.fileRes.value < 0 then Some(c.notFound)
      else if k.read.None? then None
      else Some(c.wrap(Joined(k.received), k.read.value))
  }

  predicate Whole(c: World, k: Talk) { Called(c, k).Some? && k.sent > 0 && k.sent >= |Called(c, k).value| }

  /** The state a connection has to be in. */
  function Stage(c: World, k: Talk): ConnState {
    if k.failed then Closing
    else if k.received == [] then Receiving
    else
      match c.plan(Joined(k.received))
      case More => if |Joined(k.received)| >= RECV_BUF then Closing else Receiving
      case Reply(_) => SendingReply
      case Open =>
        if k.fileRes.None? then FileOpening
        else if k.fileRes.value < 0 then SendingReply
        else if k.read.None? then FileReading
        else if Whole(c, k) then FileClosing
        else FileSending
  }

  // ── Taking notes ──

  /** One more completion on the connection. */
  function Heard(k: Talk, q: Cqe): Talk {
    match q.op
    case Recv(_, _) => if q.result > 0 then k.(received := k.received + [q.data]) else k.(failed := true)
    case Send(_, _) => if q.result > 0 then k.(sent := k.sent + q.result) else k.(failed := true)
    case FileOpen(_) => k.(fileRes := Some(q.result))
    case FileRead(_) => k.(read := Some(if q.result > 0 then q.data else []))
    case FileClose(_) => Fresh
    case Close(_) => Fresh
    case Accept => k
  }

  /** After a complete reply without a file the connection starts afresh. */
  function Noted(c: World, k: Talk, q: Cqe): Talk {
    var k1 := Heard(k, q);
    if q.op.Send? && q.result > 0 && Whole(c, k1) && k1.read.None? then Fresh else k1
  }

  function Note(c: World, w: Notes, q: Cqe): Notes {
    if q.op.Accept? || q.op.idx >= |w.talks| then w
    else
      var k := w.talks[q.op.idx];
      Notes(w.talks[q.op.idx := Noted(c, k, q)],
            if q.op.Send? && q.result > 0 && Whole(c, Heard(k, q)) then w.replies + [Heard(k, q)] else w.replies)
  }

  /** The notes on the completions handled in a run. */
  function NotesOn(c: World, s: Server, steps: seq<Step>, w: Notes): Notes
    decreases |steps|
  {
    if steps == [] || !Enabled(s, steps[0]) then w
    else
      NotesOn(c, Apply(c, s, steps[0]), steps[1..], if steps[0].HandleOne? then Note(c, w, s.inbox[0]) else w)
  }

  function NoNotes(n: nat): Notes { Notes(seq(n, i => Fresh), []) }

  // ── The server agrees with the notes ──

  predicate Agrees(c: World, slot: Option<Conn>, k: Talk) {
    match slot
    case None => k == Fresh
    case Some(conn) =>
      && conn.recvd == Joined(k.received) && conn.state == Stage(c, k)
      && (conn.state == SendingReply || conn.state == FileSending ==>
            Called(c, k) == Some(conn.sendBuf) && conn.sendOff == k.sent)
      && (conn.state == FileReading ==> k.fileRes == Some(conn.fileFd))
      && (conn.state in {Receiving, FileOpening, FileReading} ==> k.sent == 0)
      && (conn.state in {Receiving, FileOpening, SendingReply} ==> k.read == None)
      && (conn.state == Receiving ==> k.fileRes == None)
  }

  predicate Matches(c: World, s: Server, w: Notes) {
    && |w.talks| == |s.slots| && |w.replies| == |s.finished|
    && (forall i | 0 <= i < |s.slots| :: Agrees(c, s.slots[i], w.talks[i]))
    && (forall i | 0 <= i < |s.finished| :: Called(c, w.replies[i]) == Some(s.finished[i].0))
  }

  lemma JoinedAdd(pieces: seq<seq<Byte>>, piece: seq<Byte>)
    ensures Joined(pieces + [piece]) == Joined(pieces) + piece
  {
    assert (pieces + [piece])[..|pieces|] == pieces;
  }

  /** Only slot idx changes, and agrees with the new notes; no reply is finished. */
  lemma OneSlot(c: World, s: Server, t: Server, w: Notes, idx: nat, k: Talk)
    requires Matches(c, s, w) && idx < |s.slots| == |t.slots| && t.slots == s.slots[idx := t.slots[idx]]
    requires Agrees(c, t.slots[idx], k) && t.finished == s.finished
    ensures Matches(c, t, w.(talks := w.talks[idx := k]))
  {
    hide Agrees, Called;
  }

  /** What a receive does to the connection. */
  lemma RecvSlot(c: World, s: Server, idx: nat, result: int, data: seq<Byte>)
    requires Live(s, idx)
    ensures var t := OnRecv(c, s, idx, result, data);
      && t.finished == s.finished && |t.slots| == |s.slots| && t.slots == s.slots[idx := t.slots[idx]]
      && t.slots[idx].Some?
      && var (was, conn) := (s.slots[idx].value, t.slots[idx].value);
         if result <= 0 then conn == was.(state := Closing)
         else
           && conn.recvd == was.recvd + data
           && match c.plan(conn.recvd)
              case More => conn.state == if |conn.recvd| >= RECV_BUF then Closing else was.state
              case Reply(bytes) => conn.state == SendingReply && conn.sendBuf == bytes && conn.sendOff == 0
              case Open => conn.state == FileOpening
  {
  }

  lemma RecvMatches(c: World, s: Server, w: Notes)
    requires Inv(s) && Matches(c, s, w) && s.inbox != [] && s.inbox[0].op.Recv?
    ensures Matches(c, Handle(c, Rest(s), s.inbox[0]), Note(c, w, s.inbox[0]))
  {
    var q, r := s.inbox[0], Rest(s);
    var idx := q.op.idx;
    AtHand(s, idx);
    assert Agrees(c, s.slots[idx], w.talks[idx]);
    RecvSlot(c, r, idx, q.result, q.data);
    JoinedAdd(w.talks[idx].received, q.data);
    hide Inv, Matches, Joined, OnRecv;
    OneSlot(c, s, Handle(c, r, q), w, idx, Noted(c, w.talks[idx], q));
  }

  /** What a send does to the connection. */
  lemma SendSlot(s: Server, idx: nat, result: int, sent: seq<Byte>)
    requires Live(s, idx)
    ensures var t := OnSend(s, idx, result, sent);
      && |t.slots| == |s.slots| && t.slots == s.slots[idx := t.slots[idx]] && t.slots[idx].Some?
      && var (was, conn) := (s.slots[idx].value, t.slots[idx].value);
         if result <= 0 then t.finished == s.finished && conn == was.(state := Closing)
         else if was.sendOff + result < |was.sendBuf| then
           t.finished == s.finished && conn == was.(sendOff := was.sendOff + result, wire := was.wire + sent)
         else
           && t.finished == s.finished + [(was.sendBuf, was.wire + sent)]
           && if was.state == FileSending then conn.state == FileClosing && conn.recvd == was.recvd
              else conn.state == Receiving && conn.recvd == []
  {
  }

  lemma SendAgrees(c: World, was: Conn, k: Talk, q: Cqe, conn: Conn)
    requires Agrees(c, Some(was), k) && q.op.Send? && was.state in {SendingReply, FileSending}
    requires conn.recvd == was.recvd && conn.sendBuf == was.sendBuf
    requires if q.result <= 0 then conn.state == Closing
             else && was.sendOff + q.result < |was.sendBuf|
                  && conn.state == was.state && conn.sendOff == was.sendOff + q.result
    ensures Agrees(c, Some(conn), Noted(c, k, q)) && (q.result > 0 ==> !Whole(c, Heard(k, q)))
  {
    hide Joined;
  }

  lemma DoneAgrees(c: World, was: Conn, k: Talk, q: Cqe, conn: Conn)
    requires Agrees(c, Some(was), k) && q.op.Send? && was.state in {SendingReply, FileSending}
    requires q.result > 0 && was.sendOff + q.result >= |was.sendBuf|
    requires if was.state == FileSending then conn.state == FileClosing && conn.recvd == was.recvd
             else conn.state == Receiving && conn.recvd == []
    ensures Agrees(c, Some(conn), Noted(c, k, q))
    ensures Whole(c, Heard(k, q)) && Called(c, Heard(k, q)) == Some(was.sendBuf)
  {
    assert Joined([]) == [];
    hide Joined;
  }

  lemma SendMatches(c: World, s: Server, w: Notes)
    requires Inv(s) && Matches(c, s, w) && s.inbox != [] && s.inbox[0].op.Send?
    ensures Matches(c, Handle(c, Rest(s), s.inbox[0]), Note(c, w, s.inbox[0]))
  {
    var q, r := s.inbox[0], Rest(s);
    var idx := q.op.idx;
    AtHand(s, idx);
    assert Agrees(c, s.slots[idx], w.talks[idx]);
    SendSlot(r, idx, q.result, Sent(q));
    var t, was, k := Handle(c, r, q), s.slots[idx].value, w.talks[idx];
    hide Inv, OnSend, Agrees, Called, Heard, Noted, Whole;
    if q.result <= 0 || was.sendOff + q.result < |was.sendBuf| {
      SendAgrees(c, was, k, q, t.slots[idx].value);
      hide Matches;
      OneSlot(c, s, t, w, idx, Noted(c, k, q));
    } else {
      DoneAgrees(c, was, k, q, t.slots[idx].value);
      var m := t.(finished := s.finished);
      OneSlot(c, s, m, w, idx, Noted(c, k, q));
    }
  }

  lemma FileMatches(c: World, s: Server, w: Notes)
    requires Inv(s) && Matches(c, s, w) && s.inbox != []
    requires s.inbox[0].op.FileOpen? || s.inbox[0].op.FileRead? || s.inbox[0].op.FileClose? || s.inbox[0].op.Close?
    ensures Matches(c, Handle(c, Rest(s), s.inbox[0]), Note(c, w, s.inbox[0]))
  {
    var q := s.inbox[0];
    var idx := q.op.idx;
    AtHand(s, idx);
    hide Inv;
    assert Agrees(c, s.slots[idx], w.talks[idx]);
    hide Matches;
    OneSlot(c, s, Handle(c, Rest(s), q), w, idx, Noted(c, w.talks[idx], q));
  }

  lemma AcceptMatches(c: World, s: Server, w: Notes)
    requires Inv(s) && Matches(c, s, w) && s.inbox != [] && s.inbox[0].op.Accept?
    ensures Matches(c, Handle(c, Rest(s), s.inbox[0]), w)
  {
    assert Partition(s.slots, s.free);
    hide Inv;
    if s.inbox[0].result >= 0 && s.free != [] {
      var idx := s.free[|s.free| - 1];
      assert Agrees(c, s.slots[idx], w.talks[idx]);
      hide Matches;
      OneSlot(c, s, Handle(c, Rest(s), s.inbox[0]), w, idx, Fresh);
      assert w.talks[idx := Fresh] == w.talks;
    }
  }

  lemma StepMatches(c: World, s: Server, st: Step, w: Notes)
    requires Inv(s) && Matches(c, s, w) && Enabled(s, st)
    ensures Matches(c, Apply(c, s, st), if st.HandleOne? then Note(c, w, s.inbox[0]) else w)
  {
    if st.HandleOne? {
      hide Inv, Matches, Handle, Note;
      match s.inbox[0].op
      case Accept => AcceptMatches(c, s, w);
      case Recv(_, _) => RecvMatches(c, s, w);
      case Send(_, _) => SendMatches(c, s, w);
      case _ => FileMatches(c, s, w);
    } else {
      hide Agrees, Called, Inv;
    }
  }

  lemma {:induction false} RunMatches(c: World, s: Server, steps: seq<Step>, t: Server, w: Notes)
    requires Inv(s) && Matches(c, s, w) && Runs(c, s, steps, t)
    ensures Matches(c, t, NotesOn(c, s, steps, w))
    decreases |steps|
  {
    if steps != [] {
      assert steps[0].HandleOne? ==> s.inbox != [];
      hide Inv, Matches, Apply, Enabled, Note;
      StepKeeps(c, s, steps[0]);
      StepMatches(c, s, steps[0], w);
      RunMatches(c, Apply(c, s, steps[0]), steps[1..], t, if steps[0].HandleOne? then Note(c, w, s.inbox[0]) else w);
    }
  }

  lemma RunAgrees(c: World, s0: Server, steps: seq<Step>, s: Server) returns (w: Notes)
    requires Initial(s0) && Runs(c, s0, steps, s)
    ensures w == NotesOn(c, s0, steps, NoNotes(|s0.slots|)) && Matches(c, s, w)
  {
    w := NotesOn(c, s0, steps, NoNotes(|s0.slots|));
    InitialInv(s0);
    assert Matches(c, s0, NoNotes(|s0.slots|));
    hide Inv, Matches, Initial, Runs;
    RunMatches(c, s0, steps, s, NoNotes(|s0.slots|));
  }

  /** In every run: what a connection has received is what its receives delivered since it was accepted or last started
      afresh, in order, and its state is the one these completions call for: it is closing if and only if a receive or a
      send failed or the request does not fit the buffer. */
  lemma ConnectionsFollowTheirTalks(c: World, s0: Server, steps: seq<Step>, s: Server, idx: nat)
    requires Initial(s0) && Runs(c, s0, steps, s) && Live(s, idx)
    ensures var w := NotesOn(c, s0, steps, NoNotes(|s0.slots|));
      && idx < |w.talks|
      && s.slots[idx].value.recvd == Joined(w.talks[idx].received)
      && s.slots[idx].value.state == Stage(c, w.talks[idx])
  {
    var w := RunAgrees(c, s0, steps, s);
    hide NotesOn, Runs;
    assert Agrees(c, s.slots[idx], w.talks[idx]);
  }

  /** In every run: every reply that was completed was transmitted exactly as called for by the request received, the
      result of opening the file and the bytes read from it. */
  lemma RepliesAreCalledFor(c: World, s0: Server, steps: seq<Step>, s: Server, i: nat)
    requires Initial(s0) && Runs(c, s0, steps, s) && i < |s.finished|
    ensures var w := NotesOn(c, s0, steps, NoNotes(|s0.slots|));
      && |w.replies| == |s.finished|
      && Called(c, w.replies[i]) == Some(s.finished[i].0) && s.finished[i].1 == s.finished[i].0
  {
    var w := RunAgrees(c, s0, steps, s);
    hide NotesOn, Runs, Called;
    RepliesSentExactly(c, s0, steps, s, i);
  }

  /** A connection keeps the descriptor that its accept returned: a step leaves it alone, or is the accept that brings
      it into a free slot. */
  lemma DescriptorsKept(c: World, s: Server, st: Step, idx: nat)
    requires Inv(s) && Enabled(s, st) && Live(Apply(c, s, st), idx)
    ensures idx < |s.slots|
    ensures var fd := Apply(c, s, st).slots[idx].value.fd;
      if Live(s, idx) then fd == s.slots[idx].value.fd
      else st.HandleOne? && s.inbox[0].op.Accept? && 0 <= fd == s.inbox[0].result
  {
    if st.HandleOne? {
      assert Partition(s.slots, s.free);
      hide Inv;
      if s.inbox[0].op.Recv? {
        RecvDescriptor(c, Rest(s), s.inbox[0].op.idx, s.inbox[0].result, s.inbox[0].data, idx);
        hide OnRecv;
      }
    }
  }

  lemma RecvDescriptor(c: World, s: Server, i: nat, result: int, data: seq<Byte>, idx: nat)
    requires Live(OnRecv(c, s, i, result, data), idx)
    ensures Live(s, idx) && OnRecv(c, s, i, result, data).slots[idx].value.fd == s.slots[idx].value.fd
  {
  }
}
