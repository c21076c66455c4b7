/** The submit ring under every interleaving of its producers and its consumer.

    Loads, the compare-exchange, the entry write and the consumer's loads, reads and head store are separate steps.
    Positions are unbounded here; SubmitRing relates them to the wrapping counters. */
module SubmitSteps {
  import opened Words
  import RingSlots

  type Item = nat

  /** A slot remembers for which position it was written; -1 if never. */
  datatype Cell = Cell(pos: int, item: Item)

  datatype Producer =
    | Rest
    | Start(item: Item)
    | SawTail(item: Item, t: nat)
    | SawBoth(item: Item, t: nat, h: nat)
    | Claimed(item: Item, t: nat)
    | Refused

  datatype Consumer = Away | Reading(h: nat, n: nat, got: seq<Cell>)

  /** `claims` logs who claimed each position so far, `written` the positions whose entry has been written, and
      `taken` what the consumer has returned. */
  datatype State = State(size: nat, head: nat, tail: nat, slots: seq<Cell>, producers: seq<Producer>,
    consumer: Consumer,
                         claims: seq<(nat, Item)>, written: set<nat>, taken: seq<Cell>)

  datatype Step =
    | Begin(p: nat, item: Item) | LoadTail(p: nat) | LoadHead(p: nat) | Swap(p: nat,
      weak: bool) | Write(p: nat) | Return(p: nat)
    | Open(max: nat) | Read | Publish

  predicate Enabled(s: State, st: Step) {
    s.size > 0 && |s.slots| == s.size &&
    match st
    case Begin(p, _) => p < |s.producers| && s.producers[p].Rest?
    case LoadTail(p) => p < |s.producers| && s.producers[p].Start?
    case LoadHead(p) => p < |s.producers| && s.producers[p].SawTail?
    case Swap(p, _) => p < |s.producers| && s.producers[p].SawBoth?
    case Write(p) => p < |s.producers| && s.producers[p].Claimed?
    case Return(p) => p < |s.producers| && s.producers[p].Refused?
    case Open(_) => s.consumer == Away && s.head <= s.tail
    case Read => s.consumer.Reading? && |s.consumer.got| < s.consumer.n
    case Publish => s.consumer.Reading? && |s.consumer.got| == s.consumer.n
  }

  function Put(s: State, p: nat, x: Producer): State
    requires p < |s.producers|
  {
    s.(producers := s.producers[p := x])
  }

  /** The unsigned test `tail - head >= size`: a head that has overtaken the loaded tail wraps to a huge distance. */
  predicate LooksFull(t: nat, h: nat, size: nat) { h > t || t - h >= size }

  function Place(s: State, pos: nat): (i: nat)
    requires s.size > 0
    ensures i < s.size
  {
    Rem(pos, s.size)
  }

  function Apply(s: State, st: Step): State
    requires Enabled(s, st)
  {
    match st
    case Begin(p, item) => Put(s, p, Start(item))
    case LoadTail(p) => Put(s, p, SawTail(s.producers[p].item, s.tail))
    case LoadHead(p) =>
      var x := s.producers[p];
      Put(s, p, if LooksFull(x.t, s.head, s.size) then Refused else SawBoth(x.item, x.t, s.head))
    case Swap(p, weak) =>
      var x := s.producers[p];
      if weak || s.tail != x.t then Put(s, p, Start(x.item))
      else Put(s, p, Claimed(x.item, x.t)).(tail := s.tail + 1, claims := s.claims + [(p, x.item)])
    case Write(p) =>
      var x := s.producers[p];
      Put(s, p, Rest).(slots := s.slots[Place(s, x.t) := Cell(x.t, x.item)], written := s.written + {x.t})
    case Return(p) => Put(s, p, Rest)
    case Open(max) =>
      var n := if s.tail - s.head < max then s.tail - s.head else max;
      s.(consumer := Reading(s.head, n, []))
    case Read =>
      var c := s.consumer;
      s.(consumer := c.(got := c.got + [s.slots[Place(s, c.h + |c.got|)]]))
    case Publish => s.(head := s.consumer.h + s.consumer.n, taken := s.taken + s.consumer.got, consumer := Away)
  }

  predicate Initial(s: State) {
    && s.size > 0 && |s.slots| == s.size && s.head == 0 && s.tail == 0 && s.consumer == Away
    && s.claims == [] && s.written == {} && s.taken == []
    && (forall i | 0 <= i < |s.slots| :: s.slots[i].pos == -1)
    && (forall p | 0 <= p < |s.producers| :: s.producers[p] == Rest)
  }

  ghost predicate Runs(s: State, steps: seq<Step>, t: State)
    decreases |steps|
  {
    if steps == [] then t == s else Enabled(s, steps[0]) && Runs(Apply(s, steps[0]), steps[1..], t)
  }

  /** The consumer reads a position whose claimant has not written it yet. */
  predicate ReadsUnwritten(s: State, st: Step) {
    st == Read && s.consumer.Reading? && s.consumer.h + |s.consumer.got| !in s.written
  }

  ghost predicate Patient(s: State, steps: seq<Step>)
    decreases |steps|
  {
    steps == [] || (Enabled(s, steps[0]) && !ReadsUnwritten(s, steps[0]) && Patient(Apply(s, steps[0]), steps[1..]))
  }

  // ── Claims and occupancy, for every interleaving ──

  predicate ProducerOk(s: State, p: nat)
    requires p < |s.producers|
  {
    match s.producers[p]
    case SawTail(_, t) => t <= s.tail
    case SawBoth(_, t, h) => h <= t <= s.tail && h <= s.head && t - h < s.size
    case Claimed(item, t) => t < s.tail && t < |s.claims| && s.claims[t] == (p, item) && t !in s.written
    case _ => true
  }

  predicate ConsumerOk(s: State) {
    s.consumer.Reading? ==>
      s.consumer.h == s.head && |s.consumer.got| <= s.consumer.n && s.head + s.consumer.n <= s.tail
  }

  /** Every claimed position not yet written is still in the hands of its claimant. */
  predicate ClaimsOk(s: State) {
    && |s.claims| == s.tail
    && (forall t | t in s.written :: 0 <= t < s.tail)
    && forall t: nat | t < s.tail && t !in s.written ::
         s.claims[t].0 < |s.producers| && s.producers[s.claims[t].0] == Claimed(s.claims[t].1, t)
  }

  predicate Base(s: State) {
    && s.size > 0 && |s.slots| == s.size && s.head <= s.tail <= s.head + s.size
    && (forall p | 0 <= p < |s.producers| :: ProducerOk(s, p))
    && ConsumerOk(s) && ClaimsOk(s)
  }

  /** Steps of a producer that leave the ring alone. */
  lemma LocalKeeps(s: State, p: nat, x: Producer)
    requires Base(s) && p < |s.producers| && !s.producers[p].Claimed? && !x.Claimed?
    requires ProducerOk(Put(s, p, x), p)
    ensures Base(Put(s, p, x))
  {
    var t := Put(s, p, x);
    forall q | 0 <= q < |t.producers| ensures ProducerOk(t, q) {
      assert q != p ==> t.producers[q] == s.producers[q] && ProducerOk(s, q);
    }
  }

  lemma SwapKeeps(s: State, p: nat)
    requires Base(s) && Enabled(s, Swap(p, false)) && s.tail == s.producers[p].t
    ensures Base(Apply(s, Swap(p, false)))
  {
    var t := Apply(s, Swap(p, false));
    assert ProducerOk(s, p);
    forall q | 0 <= q < |t.producers| ensures ProducerOk(t, q) {
      assert q != p ==> t.producers[q] == s.producers[q] && ProducerOk(s, q);
    }
    forall k: nat | k < t.tail && k !in t.written
      ensures t.claims[k].0 < |t.producers| && t.producers[t.claims[k].0] == Claimed(t.claims[k].1, k)
    {
      if k < s.tail {
        assert t.claims[k] == s.claims[k];
      }
    }
  }

  lemma WriteKeeps(s: State, p: nat)
    requires Base(s) && Enabled(s, Write(p))
    ensures Base(Apply(s, Write(p)))
  {
    var t := Apply(s, Write(p));
    assert ProducerOk(s, p);
    forall q | 0 <= q < |t.producers| ensures ProducerOk(t, q) {
      assert q != p ==> t.producers[q] == s.producers[q] && ProducerOk(s, q);
    }
  }

  lemma ConsumerKeeps(s: State, st: Step)
    requires Base(s) && Enabled(s, st) && (st.Open? || st.Read? || st.Publish?)
    ensures Base(Apply(s, st))
  {
    var t := Apply(s, st);
    forall q | 0 <= q < |t.producers| ensures ProducerOk(t, q) {
      assert ProducerOk(s, q);
    }
  }

  lemma StepKeepsBase(s: State, st: Step)
    requires Base(s) && Enabled(s, st)
    ensures Base(Apply(s, st))
  {
    match st
    case Begin(p, item) => LocalKeeps(s, p, Start(item));
    case LoadTail(p) => LocalKeeps(s, p, SawTail(s.producers[p].item, s.tail));
    case LoadHead(p) =>
      assert ProducerOk(s, p);
      var x := s.producers[p];
      LocalKeeps(s, p, if LooksFull(x.t, s.head, s.size) then Refused else SawBoth(x.item, x.t, s.head));
    case Swap(p, weak) =>
      if weak || s.tail != s.producers[p].t {
        LocalKeeps(s, p, Start(s.producers[p].item));
      } else {
        SwapKeeps(s, p);
      }
    case Write(p) => WriteKeeps(s, p);
    case Return(p) => LocalKeeps(s, p, Rest);
    case Open(_) => ConsumerKeeps(s, st);
    case Read => ConsumerKeeps(s, st);
    case Publish => ConsumerKeeps(s, st);
  }

  lemma {:induction false} RunKeepsBase(s: State, steps: seq<Step>, t: State)
    requires Base(s) && Runs(s, steps, t)
    ensures Base(t)
    decreases |steps|
  {
    hide Base;
    if steps != [] {
      StepKeepsBase(s, steps[0]);
      RunKeepsBase(Apply(s, steps[0]), steps[1..], t);
    }
  }

  ghost predicate Reached(s: State) { exists s0, steps :: Initial(s0) && Runs(s0, steps, s) }

  lemma ReachedBase(s: State)
    requires Reached(s)
    ensures Base(s)
  {
    var s0, steps :| Initial(s0) && Runs(s0, steps, s);
    RunKeepsBase(s0, steps, s);
  }

  /** In every interleaving the ring never holds more than its size, every claimed position has exactly one claimant,
      and no position that is still unwritten has been given to two producers. */
  lemma ClaimsAreUnique(s: State, p: nat, q: nat)
    requires Reached(s) && p < |s.producers| && q < |s.producers|
    ensures s.head <= s.tail <= s.head + s.size && |s.claims| == s.tail
    ensures s.producers[p].Claimed? ==> s.producers[p].t < s.tail
    ensures s.producers[p].Claimed? ==> s.claims[s.producers[p].t] == (p, s.producers[p].item)
    ensures s.producers[p].Claimed? && s.producers[q].Claimed? && p != q ==> s.producers[p].t != s.producers[q].t
  {
    ReachedBase(s);
    assert ProducerOk(s, p) && ProducerOk(s, q);
  }

  // ── Contents, for patient consumers ──

  /** Every position the consumer has passed has been written, slots carry the entries of their latest writers, and what
      was read is what was claimed. */
  predicate Faithful(s: State)
    requires Base(s)
  {
    && (forall t: nat | t < s.head :: t in s.written)
    && (forall t: nat | s.head <= t < s.tail && t in s.written :: s.slots[Place(s, t)] == Cell(t, s.claims[t].1))
    && (forall i | 0 <= i < |s.slots| :: s.slots[i].pos >= 0 ==> s.slots[i].pos in s.written)
    && |s.taken| == s.head && Own(s, s.taken, 0)
    && (s.consumer.Reading? ==> Own(s, s.consumer.got, s.head))
    && (s.consumer.Reading? ==> forall t: nat | s.head <= t < s.head + |s.consumer.got| :: t in s.written)
  }

  /** The cells are the entries claimed for the positions from `from` on. */
  predicate Own(s: State, cells: seq<Cell>, from: nat) {
    from + |cells| <= |s.claims| && forall i | 0 <= i < |cells| :: cells[i] == Cell(from + i, s.claims[from + i].1)
  }

  lemma PlacesDiffer(s: State, a: nat, b: nat)
    requires s.size > 0 && a < b < a + s.size
    ensures Place(s, a) != Place(s, b)
  {
    RingSlots.PlacesDiffer(0, a, b, s.size);
    hide Rem;
  }

  lemma WriteKeepsFaithful(s: State, p: nat)
    requires Base(s) && Faithful(s) && Enabled(s, Write(p)) && Base(Apply(s, Write(p)))
    ensures Faithful(Apply(s, Write(p)))
  {
    hide Rem;
    var x, t := s.producers[p], Apply(s, Write(p));
    assert ProducerOk(s, p);
    forall k: nat | t.head <= k < t.tail && k in t.written ensures t.slots[Place(t, k)] == Cell(k, t.claims[k].1) {
      if k < x.t {
        PlacesDiffer(s, k, x.t);
      } else if x.t < k {
        PlacesDiffer(s, x.t, k);
      }
    }
  }

  lemma ReadKeepsFaithful(s: State)
    requires Base(s) && Faithful(s) && Enabled(s, Read) && !ReadsUnwritten(s, Read) && Base(Apply(s, Read))
    ensures Faithful(Apply(s, Read))
  {
    hide Rem;
    var c, t := s.consumer, Apply(s, Read);
    var k := c.h + |c.got|;
    assert s.slots[Place(s, k)] == Cell(k, s.claims[k].1);
    assert t.consumer.got[|c.got|] == Cell(k, s.claims[k].1);
  }

  lemma PublishKeepsFaithful(s: State)
    requires Base(s) && Faithful(s) && Enabled(s, Publish) && Base(Apply(s, Publish))
    ensures Faithful(Apply(s, Publish))
  {
    var c, t := s.consumer, Apply(s, Publish);
    forall k: nat | k < t.head ensures k in t.written {
      if k >= s.head {
        assert k < s.head + |c.got|;
      }
    }
    forall i | 0 <= i < |t.taken| ensures t.taken[i] == Cell(i, t.claims[i].1) {
      if i >= |s.taken| {
        assert t.taken[i] == c.got[i - s.head];
      }
    }
  }

  lemma ClaimKeepsFaithful(s: State, p: nat)
    requires Base(s) && Faithful(s) && Enabled(s, Swap(p, false)) && s.tail == s.producers[p].t &&
      Base(Apply(s, Swap(p, false)))
    ensures Faithful(Apply(s, Swap(p, false)))
  {
    hide Rem;
    var t := Apply(s, Swap(p, false));
    assert forall k: nat | k < s.tail :: t.claims[k] == s.claims[k];
  }

  /** Steps that change neither slots, claims nor head, and read nothing. */
  lemma QuietKeepsFaithful(s: State, t: State)
    requires Base(s) && Faithful(s) && Base(t)
    requires t == s.(producers := t.producers, consumer := t.consumer)
    requires t.consumer == s.consumer || (t.consumer.Reading? && t.consumer.got == [])
    ensures Faithful(t)
  {
    hide Rem;
    assert Own(t, t.taken, 0);
    forall k: nat | t.head <= k < t.tail && k in t.written ensures t.slots[Place(t, k)] == Cell(k, t.claims[k].1) {
      assert Place(t, k) == Place(s, k);
    }
  }

  lemma StepKeepsFaithful(s: State, st: Step)
    requires Base(s) && Faithful(s) && Enabled(s, st) && !ReadsUnwritten(s, st)
    ensures Base(Apply(s, st)) && Faithful(Apply(s, st))
  {
    StepKeepsBase(s, st);
    if st.Write? {
      WriteKeepsFaithful(s, st.p);
    } else if st == Read {
      ReadKeepsFaithful(s);
    } else if st == Publish {
      PublishKeepsFaithful(s);
    } else if st.Swap? && !st.weak && s.tail == s.producers[st.p].t {
      assert Apply(s, st) == Apply(s, Swap(st.p, false));
      ClaimKeepsFaithful(s, st.p);
    } else {
      QuietKeepsFaithful(s, Apply(s, st));
    }
  }

  lemma {:induction false} RunKeepsFaithful(s: State, steps: seq<Step>, t: State)
    requires Base(s) && Faithful(s) && Runs(s, steps, t) && Patient(s, steps)
    ensures Base(t) && Faithful(t)
    decreases |steps|
  {
    hide Base, Faithful;
    if steps != [] {
      StepKeepsFaithful(s, steps[0]);
      RunKeepsFaithful(Apply(s, steps[0]), steps[1..], t);
    }
  }

  /** If the consumer never reads a position before its claimant has written it, then everything ever dequeued is, in
      order and without gap, what the claimants of positions 0, 1, 2, ... pushed. */
  lemma DequeuesWhatWasClaimed(s0: State, steps: seq<Step>, s: State)
    requires Initial(s0) && Runs(s0, steps, s) && Patient(s0, steps)
    ensures |s.taken| == s.head <= |s.claims|
    ensures forall i | 0 <= i < |s.taken| :: s.taken[i].item == s.claims[i].1
  {
    RunKeepsFaithful(s0, steps, s);
  }

  /** A dequeue takes what is claimed, from the oldest on, unless that is more than it asked for. */
  lemma DequeueTakesAvailable(s: State, max: nat)
    requires Enabled(s, Open(max))
    ensures var t := Apply(s, Open(max));
      && t.consumer.Reading? && t.consumer.h == s.head && t.consumer.got == []
      && t.consumer.n <= max && (t.consumer.n < max ==> s.head + t.consumer.n == s.tail)
  {
  }

  /** The step, if it is a read, returns what the claimant of the position pushed. */
  predicate ReadsOwn(s: State, st: Step) {
    st == Read && s.consumer.Reading? && s.size > 0 && |s.slots| == s.size ==>
      var pos := s.consumer.h + |s.consumer.got|;
      pos < |s.claims| && s.slots[Place(s, pos)] == Cell(pos, s.claims[pos].1)
  }

  ghost predicate AlwaysReadsOwn(s: State, steps: seq<Step>)
    decreases |steps|
  {
    steps == [] || (Enabled(s, steps[0]) && ReadsOwn(s, steps[0]) && AlwaysReadsOwn(Apply(s, steps[0]), steps[1..]))
  }

  /** A read returns its claimant's own entry if and only if that entry has been written. */
  lemma ReadsOwnIffWritten(s: State, st: Step)
    requires Base(s) && Faithful(s) && Enabled(s, st)
    ensures ReadsOwn(s, st) <==> !ReadsUnwritten(s, st)
  {
    if st == Read {
      var pos := s.consumer.h + |s.consumer.got|;
      assert pos in s.written ==> s.slots[Place(s, pos)] == Cell(pos, s.claims[pos].1);
    }
  }

  lemma {:induction false} OwnIffPatient(s: State, steps: seq<Step>, t: State)
    requires Base(s) && Faithful(s) && Runs(s, steps, t)
    ensures AlwaysReadsOwn(s, steps) <==> Patient(s, steps)
    decreases |steps|
  {
    hide Base, Faithful, Enabled, Apply, ReadsOwn, ReadsUnwritten;
    if steps != [] {
      ReadsOwnIffWritten(s, steps[0]);
      if !ReadsUnwritten(s, steps[0]) {
        StepKeepsFaithful(s, steps[0]);
        OwnIffPatient(Apply(s, steps[0]), steps[1..], t);
      }
    }
  }

  /** In every run from the start, all reads return what the claimants of their positions pushed if and only if the
      consumer never reads a position before its claimant has written it. */
  lemma AlwaysReadsOwnIffPatient(s0: State, steps: seq<Step>, s: State)
    requires Initial(s0) && Runs(s0, steps, s)
    ensures AlwaysReadsOwn(s0, steps) <==> Patient(s0, steps)
  {
    assert Base(s0) && Faithful(s0);
    hide Base, Faithful, Initial, Runs;
    OwnIffPatient(s0, steps, s);
  }

  // ── What the split steps allow ──

  /** A producer is refused if and only if the consumer has passed the tail it loaded, or that tail is still current and
      the ring is full. */
  lemma RefusedIff(s: State, p: nat)
    requires Reached(s) && Enabled(s, LoadHead(p))
    ensures Apply(s, LoadHead(p)).producers[p] == Refused <==>
      s.head > s.producers[p].t || (s.producers[p].t == s.tail && s.tail == s.head + s.size)
  {
    ReachedBase(s);
    assert ProducerOk(s, p);
  }

  lemma {:induction false} RunsOn(s: State, steps: seq<Step>, t: State, st: Step)
    requires Runs(s, steps, t) && Enabled(t, st)
    ensures Runs(s, steps + [st], Apply(t, st))
    decreases |steps|
  {
    hide Enabled, Apply;
    if steps == [] {
      assert ([] + [st])[1..] == [];
      assert Runs(Apply(t, st), [], Apply(t, st));
    } else {
      RunsOn(Apply(s, steps[0]), steps[1..], t, st);
      assert (steps + [st])[1..] == steps[1..] + [st];
    }
  }

  lemma ReachedOn(s: State, st: Step, t: State)
    requires Reached(s) && Enabled(s, st) && Apply(s, st) == t
    ensures Reached(t)
  {
    hide Enabled, Apply;
    var s0, steps :| Initial(s0) && Runs(s0, steps, s);
    RunsOn(s0, steps, s, st);
  }

  lemma ReachedFirst(s: State)
    requires Initial(s)
    ensures Reached(s)
  {
    assert Runs(s, [], s);
  }

  /** A ring of one slot in which producer 1 has claimed position 0 while producer 0 has only loaded the tail. */
  function Contended(): State {
    State(1, 0, 1, [Cell(-1, 0)], [SawTail(10, 0), Claimed(11, 0)], Away, [(1, 11)], {}, [])
  }

  lemma ContendedReached()
    ensures Reached(Contended())
  {
    var s := State(1, 0, 0, [Cell(-1, 0)], [Rest, Rest], Away, [], {}, []);
    ReachedFirst(s);
    hide Reached;
    ReachedOn(s, Begin(0, 10), s.(producers := [Start(10), Rest]));
    ReachedOn(s.(producers := [Start(10), Rest]), LoadTail(0), s.(producers := [SawTail(10, 0), Rest]));
    ContendedClaim(s);
  }

  lemma ContendedClaim(s: State)
    requires s == State(1, 0, 0, [Cell(-1, 0)], [Rest, Rest], Away, [], {}, [])
    requires Reached(s.(producers := [SawTail(10, 0), Rest]))
    ensures Reached(Contended())
  {
    hide Reached;
    var x := SawTail(10, 0);
    ReachedOn(s.(producers := [x, Rest]), Begin(1, 11), s.(producers := [x, Start(11)]));
    ReachedOn(s.(producers := [x, Start(11)]), LoadTail(1), s.(producers := [x, SawTail(11, 0)]));
    ReachedOn(s.(producers := [x, SawTail(11, 0)]), LoadHead(1), s.(producers := [x, SawBoth(11, 0, 0)]));
    ReachedOn(s.(producers := [x, SawBoth(11, 0, 0)]), Swap(1, false), Contended());
  }

  lemma OnlyPlace()
    ensures Rem(0, 1) == 0
  {
  }

  /** The claim that makes a position readable comes before its entry is written, so an impatient consumer dequeues a
      slot nobody has written. */
  lemma ImpatientConsumerReadsNothing()
    ensures exists s :: Reached(s) && s.claims == [(1, 11)] && s.taken == [Cell(-1, 0)]
  {
    ContendedReached();
    hide Reached;
    OnlyPlace();
    var s := Contended();
    var r := s.(consumer := Reading(0, 1, []));
    ReachedOn(s, Open(1), r);
    var got := r.(consumer := Reading(0, 1, [Cell(-1, 0)]));
    assert r.consumer.got + [Cell(-1, 0)] == got.consumer.got;
    ReachedOn(r, Read, got);
    var t := s.(head := 1, taken := [Cell(-1, 0)]);
    assert s.taken + [Cell(-1, 0)] == t.taken;
    ReachedOn(got, Publish, t);
  }

  /** A producer that is overtaken between its two loads is refused although the ring is empty. */
  lemma OvertakenProducerIsRefused()
    ensures exists s ::
      Reached(s) && s.head == s.tail && Enabled(s, LoadHead(0)) && Apply(s, LoadHead(0)).producers[0] == Refused
  {
    ContendedReached();
    hide Reached;
    OnlyPlace();
    var c := Cell(0, 11);
    var s := Contended().(producers := [SawTail(10, 0), Rest], slots := [c], written := {0});
    ReachedOn(Contended(), Write(1), s);
    var r := s.(consumer := Reading(0, 1, []));
    ReachedOn(s, Open(1), r);
    assert r.consumer.got + [c] == [c];
    ReachedOn(r, Read, r.(consumer := Reading(0, 1, [c])));
    var t := s.(head := 1, taken := [c]);
    assert s.taken + [c] == t.taken;
    ReachedOn(r.(consumer := Reading(0, 1, [c])), Publish, t);
  }
}
