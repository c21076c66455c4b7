/** Finding the end of a request's header: CRLF CRLF, the empty line of section 2.1 of RFC 9112. */
module HeaderScan {
  import opened Basics

  const CR: Byte := 13
  const LF: Byte := 10
  const SPACE: Byte := 32
  const SLASH: Byte := 47
  const END: seq<Byte> := [CR, LF, CR, LF]
  const GET: seq<Byte> := [71, 69, 84, 32]

  /** The last k bytes before position i are the first k bytes of the end marker. */
  predicate Ends(s: seq<Byte>, i: int, k: nat)
    requires k <= 4
  {
    k <= i <= |s| && s[i - k..i] == END[..k]
  }

  /** i is the first position at which the header is complete. */
  predicate FirstEnd(s: seq<Byte>, i: int) {
    Ends(s, i, 4) && forall j | 0 <= j < i :: !Ends(s, j, 4)
  }

  predicate NoEnd(s: seq<Byte>) { forall j | 0 <= j <= |s| :: !Ends(s, j, 4) }

  lemma FirstEndUnique(s: seq<Byte>, i: int, j: int)
    requires FirstEnd(s, i) && FirstEnd(s, j)
    ensures i == j
  {
  }

  /** The scanner's memory: the longest proper prefix of the end marker that the bytes so far end with. */
  predicate Remembers(s: seq<Byte>, i: int, k: int) {
    && 0 <= k < 4 && Ends(s, i, k)
    && (k < 1 ==> !Ends(s, i, 1)) && (k < 2 ==> !Ends(s, i, 2)) && (k < 3 ==> !Ends(s, i, 3))
  }

  lemma EndsGrows(s: seq<Byte>, i: int, k: nat)
    requires 0 <= i < |s| && k < 4
    ensures Ends(s, i + 1, k + 1) <==> Ends(s, i, k) && s[i] == END[k]
  {
    if k <= i {
      assert s[i - k..i + 1] == s[i - k..i] + [s[i]];
      assert END[..k + 1] == END[..k] + [END[k]];
    }
  }

  /** Why four states are enough: the next state from the longest remembered prefix and the next byte. */
  lemma NextState(s: seq<Byte>, i: int, k: int)
    requires 0 <= i < |s| && Remembers(s, i, k)
    ensures s[i] == END[k] && k < 3 ==> Remembers(s, i + 1, k + 1)
    ensures s[i] != END[k] ==> Remembers(s, i + 1, if s[i] == CR then 1 else 0)
    ensures Ends(s, i + 1, 4) <==> k == 3 && s[i] == LF
  {
    assert Ends(s, i + 1, 0);
    OneMore(s, i);
    LastBytes(s, i, k);
    hide Ends;
    if k == 0 || k == 2 {
      assert END[k] == CR;
    } else {
      assert END[k] == LF;
    }
  }

  lemma OneMore(s: seq<Byte>, i: int)
    requires 0 <= i < |s|
    ensures Ends(s, i + 1, 1) <==> s[i] == CR
    ensures Ends(s, i + 1, 2) <==> Ends(s, i, 1) && s[i] == LF
    ensures Ends(s, i + 1, 3) <==> Ends(s, i, 2) && s[i] == CR
    ensures Ends(s, i + 1, 4) <==> Ends(s, i, 3) && s[i] == LF
  {
    assert Ends(s, i, 0);
    EndsGrows(s, i, 0);
    EndsGrows(s, i, 1);
    EndsGrows(s, i, 2);
    EndsGrows(s, i, 3);
    hide Ends;
  }

  /** The remembered prefix also decides which shorter prefixes the bytes end with. */
  lemma LastBytes(s: seq<Byte>, i: int, k: int)
    requires Remembers(s, i, k)
    ensures Ends(s, i, 1) <==> k == 1 || k == 3
    ensures Ends(s, i, 2) <==> k == 2
    ensures Ends(s, i, 3) <==> k == 3
  {
    if k > 0 {
      assert s[i - 1] == s[i - k..i][k - 1] == END[k - 1];
    }
    if i >= 1 && i <= |s| {
      assert s[i - 1..i] == [s[i - 1]];
      assert END[..1] == [CR];
    }
    if 2 <= i <= |s| {
      assert s[i - 2..i][1] == s[i - 1];
      assert END[..2][1] == LF;
    }
    if 3 <= i <= |s| {
      assert s[i - 3..i][2] == s[i - 1];
      assert END[..3][2] == CR;
    }
  }

  /** The byte-at-a-time reader: consumes exactly up to the first header end, or everything if there is none. */
  method ReadUntilHeaderEnd(stream: seq<Byte>) returns (found: bool, consumed: nat)
    ensures found ==> FirstEnd(stream, consumed)
    ensures !found ==> NoEnd(stream) && consumed == |stream|
  {
    var consecutive := 0;
    consumed := 0;
    while consumed < |stream|
      invariant consumed <= |stream| && Remembers(stream, consumed, consecutive)
      invariant forall j | 0 <= j <= consumed :: !Ends(stream, j, 4)
    {
      var b := stream[consumed];
      NextState(stream, consumed, consecutive);
      hide Remembers, Ends;
      consumed := consumed + 1;
      if consecutive == 0 && b == CR {
        consecutive := 1;
      } else if consecutive == 1 && b == LF {
        consecutive := 2;
      } else if consecutive == 2 && b == CR {
        consecutive := 3;
      } else if consecutive == 3 && b == LF {
        return true, consumed;
      } else {
        consecutive := 0;
        if b == CR {
          consecutive := 1;
        }
      }
    }
    return false, consumed;
  }

  /** The search over four-byte windows. */
  method FindHeaderEnd(data: seq<Byte>) returns (r: Option<nat>)
    ensures r.Some? ==> FirstEnd(data, r.value + 4)
    ensures r.None? ==> NoEnd(data)
  {
    var i := 0;
    while i + 4 <= |data|
      invariant i <= |data| && forall j | 0 <= j < i + 4 :: !Ends(data, j, 4)
    {
      if data[i..i + 4] == END {
        return Some(i);
      }
      i := i + 1;
    }
    return None;
  }

  /** Both programs stop at the same byte of every stream. */
  method SameHeaderEnd(stream: seq<Byte>) returns (go: Option<nat>, rust: Option<nat>)
    ensures go == rust
    ensures go.Some? <==> !NoEnd(stream)
    ensures go.Some? ==> FirstEnd(stream, go.value)
  {
    var found, consumed := ReadUntilHeaderEnd(stream);
    var window := FindHeaderEnd(stream);
    go := if found then Some(consumed) else None;
    rust := if window.Some? then Some(window.value + 4) else None;
    if found && window.Some? {
      FirstEndUnique(stream, consumed, window.value + 4);
    }
    assert found ==> Ends(stream, consumed, 4);
  }

  /** Where the path of a request line ends: at the first space after the method, or one byte on if there is none. */
  predicate PathEnd(data: seq<Byte>, e: nat)
    requires |data| >= 5
  {
    && 4 <= e <= |data|
    && if SPACE in data[4..] then e < |data| && data[e] == SPACE && SPACE !in data[4..e] else e == 5
  }

  method ParseRequest(data: seq<Byte>) returns (r: Option<(nat, seq<Byte>)>)
    ensures r.None? <==> NoEnd(data)
    ensures r.Some? ==> FirstEnd(data, r.value.0)
    ensures r.Some? && (|data| < 14 || data[..4] != GET) ==> r.value.1 == [SLASH]
    ensures r.Some? && |data| >= 14 && data[..4] == GET ==>
      exists e: nat :: PathEnd(data, e) && r.value.1 == data[4..e]
  {
    var end := FindHeaderEnd(data);
    if end.None? {
      return None;
    }
    var headerEnd := end.value + 4;
    assert Ends(data, headerEnd, 4);
    if |data| < 14 || data[..4] != GET {
      return Some((headerEnd, [SLASH]));
    }
    var i := 4;
    while i < |data| && data[i] != SPACE
      invariant 4 <= i <= |data| && SPACE !in data[4..i]
    {
      assert data[4..i + 1] == data[4..i] + [data[i]];
      i := i + 1;
    }
    var e: nat := if i < |data| then i else 5;
    assert PathEnd(data, e) by {
      if i < |data| {
        assert data[4..][i - 4] == SPACE;
      } else {
        assert data[4..] == data[4..i];
      }
    }
    return Some((headerEnd, data[4..e]));
  }
}
