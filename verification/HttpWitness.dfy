/** A run in which a crowded poll loses the listener. */
module HttpWitness {
  import opened Basics
  import opened HttpServer
  import opened HttpFacts

  function Start(max: nat): Server {
    Server(seq(max, i => None), seq(max, i requires 0 <= i < max => max - 1 - i), [], [Accept], [], [], [], [], [])
  }

  function Recvs(n: nat): seq<Op> { seq(n, i requires 0 <= i < n => Recv(i, RECV_BUF)) }

  /** n connections accepted, each waiting for its request, and the listener waiting for the next one. */
  function Serving(n: nat, max: nat): Server
    requires n <= max
  {
    Server(seq(max, i requires 0 <= i < max => if i < n then Some(NewConn(0)) else None),
           seq(max - n, i requires 0 <= i < max - n => max - 1 - i), Recvs(n) + [Accept], [], [], [], [], [], [])
  }

  ghost predicate Reach(c: World, s: Server, t: Server) { exists steps :: Runs(c, s, steps, t) && Flushed(c, s, steps) }

  lemma {:induction false} RunsOn(c: World, s: Server, steps: seq<Step>, t: Server, st: Step)
    requires Runs(c, s, steps, t) && Flushed(c, s, steps) && Enabled(t, st) && (st == Poll ==> t.queued == [])
    ensures Runs(c, s, steps + [st], Apply(c, t, st)) && Flushed(c, s, steps + [st])
    decreases |steps|
  {
    hide Enabled, Apply;
    if steps == [] {
      assert ([] + [st])[1..] == [];
      assert Runs(c, Apply(c, t, st), [], Apply(c, t, st)) && Flushed(c, Apply(c, t, st), []);
    } else {
      RunsOn(c, Apply(c, s, steps[0]), steps[1..], t, st);
      assert (steps + [st])[1..] == steps[1..] + [st];
    }
  }

  lemma ReachOn(c: World, s: Server, m: Server, st: Step, t: Server)
    requires Reach(c, s, m) && Enabled(m, st) && (st == Poll ==> m.queued == []) && Apply(c, m, st) == t
    ensures Reach(c, s, t)
  {
    hide Enabled, Apply;
    var steps :| Runs(c, s, steps, m) && Flushed(c, s, steps);
    RunsOn(c, s, steps, m, st);
  }

  /** One more connection is accepted. */
  lemma AcceptsOne(c: World, s: Server, n: nat, max: nat)
    requires n < max && Reach(c, s, Serving(n, max))
    ensures Reach(c, s, Serving(n + 1, max))
  {
    hide Reach;
    var a, q := Serving(n, max), Cqe(Accept, 0, []);
    var b := a.(flying := Recvs(n), done := [q]);
    assert a.flying[..n] + a.flying[n + 1..] == Recvs(n);
    ReachOn(c, s, a, Complete(n, 0, []), b);
    var d := b.(done := [], inbox := [q]);
    ReachOn(c, s, b, Poll, d);
    var e := Accepted(n, max);
    HandlesAccept(c, n, max);
    ReachOn(c, s, d, HandleOne, e);
    assert Recvs(n) + [Recv(n, RECV_BUF), Accept] == Recvs(n + 1) + [Accept];
    ReachOn(c, s, e, Flush, Serving(n + 1, max));
  }

  /** The state after the handler has taken the connection. */
  function Accepted(n: nat, max: nat): Server
    requires n < max
  {
    Serving(n + 1, max).(flying := Recvs(n), queued := [Recv(n, RECV_BUF), Accept])
  }

  lemma HandlesAccept(c: World, n: nat, max: nat)
    requires n < max
    ensures var d := Serving(n, max).(flying := Recvs(n), inbox := [Cqe(Accept, 0, [])]);
      Enabled(d, HandleOne) && Apply(c, d, HandleOne) == Accepted(n, max)
  {
    var a, b := Serving(n, max), Serving(n + 1, max);
    assert a.free[|a.free| - 1] == n && a.free[..|a.free| - 1] == b.free;
    assert a.slots[n := Some(NewConn(0))] == b.slots;
    assert [] + [Recv(n, RECV_BUF)] == [Recv(n, RECV_BUF)];
    assert [Recv(n, RECV_BUF)] + [Accept] == [Recv(n, RECV_BUF), Accept];
  }

  lemma {:induction false} ReachesServing(c: World, n: nat, max: nat)
    requires n <= max
    ensures Initial(Start(max)) && Reach(c, Start(max), Serving(n, max))
  {
    if n == 0 {
      var s := Start(max);
      assert Runs(c, s, [], s) && Flushed(c, s, []);
      assert [] + [Accept] == Recvs(0) + [Accept];
      ReachOn(c, s, s, Flush, Serving(0, max));
    } else {
      ReachesServing(c, n - 1, max);
      AcceptsOne(c, Start(max), n - 1, max);
    }
  }

  /** The first k operations have completed: end of file for connections, an error for the listener. */
  function Completed(n: nat, max: nat, k: nat): Server
    requires n <= max && k <= n + 1
  {
    var ops := Recvs(n) + [Accept];
    Serving(n, max).(flying := ops[k..], done := seq(k, i requires 0 <= i < k => Cqe(ops[i], 0, [])))
  }

  lemma {:induction false} ReachesCompleted(c: World, n: nat, max: nat, k: nat)
    requires n <= max && k <= n + 1
    ensures Reach(c, Start(max), Completed(n, max, k))
    decreases k
  {
    if k == 0 {
      ReachesServing(c, n, max);
      assert Completed(n, max, 0) == Serving(n, max);
    } else {
      ReachesCompleted(c, n, max, k - 1);
      hide Reach;
      var m, t := Completed(n, max, k - 1), Completed(n, max, k);
      assert m.flying[..0] + m.flying[1..] == t.flying;
      assert m.done + [Cqe(m.flying[0], 0, [])] == t.done;
      ReachOn(c, Start(max), m, Complete(0, 0, []), t);
    }
  }

  /** With 128 connections whose operations are all ready together with the accept, the poll takes the accept's
      completion out of the ring without returning it: no accept is outstanding any more, and the server, which
      submits one only when one completes, takes no further connection. */
  lemma ListenerIsLost(c: World, max: nat)
    requires max >= POLL_MAX
    ensures exists t :: Reach(c, Start(max), t) && Outstanding(t, None) == 0 && t.dropped == [Cqe(Accept, 0, [])]
  {
    var n := POLL_MAX;
    ReachesCompleted(c, n, max, n + 1);
    var m := Completed(n, max, n + 1);
    var t := Apply(c, m, Poll);
    ReachOn(c, Start(max), m, Poll, t);
    hide Reach;
    assert t.dropped == [Cqe(Accept, 0, [])];
    NoAccept(t.inbox);
    assert t.flying == [] && t.queued == [] && t.done == [];
  }

  lemma {:induction false} NoAccept(qs: seq<Cqe>)
    requires forall i | 0 <= i < |qs| :: qs[i].op.Recv?
    ensures Cqes(qs, None) == 0
  {
    if qs != [] {
      NoAccept(qs[1..]);
    }
  }
}
