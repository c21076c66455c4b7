/** Sending a whole buffer through partial sends, each of which parks the calling GVThread. */
module SendAll {
  import opened Basics

  const EINTR: int := 4

  /** Still going, or returned a value. */
  datatype Outcome = Running | Returned(value: int)

  predicate Retry(n: int) { n == -EAGAIN || n == -EINTR }

  /** The bytes transmitted are always a prefix of the buffer, in order and without repetition.  A non-negative
      return means all of them; a negative one is the first answer that is neither EAGAIN nor EINTR; and the call is
      still going only while bytes are left. */
  method WrSendAll(buf: seq<Byte>, answers: seq<int>) returns (r: Outcome, wire: seq<Byte>, used: nat)
    ensures used <= |answers| && wire <= buf
    ensures r.Returned? && r.value >= 0 ==> r.value == |buf| && wire == buf
    ensures r.Returned? && r.value < 0 ==> used > 0 && answers[used - 1] == r.value && !Retry(r.value) && |wire| < |buf|
    ensures r.Running? ==> used == |answers| && |wire| < |buf|
    ensures forall i | 0 <= i < used :: answers[i] < 0 && !Retry(answers[i]) ==>
      i == used - 1 && r == Returned(answers[i])
  {
    var rest := buf;
    var total := 0;
    wire, used := [], 0;
    while rest != []
      invariant wire + rest == buf && total == |wire| && used <= |answers|
      invariant forall i | 0 <= i < used :: answers[i] < 0 ==> Retry(answers[i])
      decreases |answers| - used
    {
      if used == |answers| {
        return Running, wire, used;
      }
      // the kernel never accepts more than it is offered
      var n := if answers[used] <= |rest| then answers[used] else |rest|;
      used := used + 1;
      if n < 0 {
        if n == -EAGAIN || n == -EINTR {
          continue;
        }
        return Returned(n), wire, used;
      }
      total := total + n;
      wire := wire + rest[..n];
      rest := rest[n..];
    }
    return Returned(total), wire, used;
  }
}
