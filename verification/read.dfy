/** Reading the tail of a conversation: newest first from the table, then turned round in place. */
module Read {
  import opened Model

  function Clamp(v: int, fallback: int, max: int): (r: int)
    ensures v <= 0 ==> r == fallback
    ensures 0 < v ==> r == (if v < max then v else max)
  {
    if v <= 0 then fallback else if v > max then max else v
  }

  /** Ways in which the query can fail. */
  datatype Fault = NoFault | QueryFails | ScanFails(row: nat) | IterationFails

  ghost predicate Chronological(s: seq<StoredMessage>) {
    forall i, j :: 0 <= i < j < |s| ==> Before(s[i], s[j])
  }

  ghost predicate NewestFirst(s: seq<StoredMessage>) {
    forall i, j :: 0 <= i < j < |s| ==> Before(s[j], s[i])
  }

  /** `s` holds `n` messages of the set, or all when there are fewer, and none left out is newer than one held. */
  ghost predicate IsTailOf(s: seq<StoredMessage>, ms: set<StoredMessage>, n: nat) {
    && |s| == (if n < |ms| then n else |ms|)
    && (forall m :: m in s ==> m in ms)
    && (forall m, x :: m in s && x in ms && x !in s ==> Before(x, m))
  }

  /** Stands for the query's ORDER BY created_at DESC, id DESC LIMIT. */
  method SelectNewest(ms: set<StoredMessage>, limit: nat) returns (rows: seq<StoredMessage>)
    requires forall a, b :: a in ms && b in ms && a.id == b.id ==> a == b
    ensures NewestFirst(rows) && IsTailOf(rows, ms, limit)
  {
    rows := [];
    var rest := ms;
    while rest != {} && |rows| < limit
      invariant rest <= ms && |rows| <= limit && |rows| + |rest| == |ms|
      invariant forall m :: m in ms <==> m in rest || m in rows
      invariant forall m :: m in rows ==> m !in rest
      invariant NewestFirst(rows)
      invariant forall m, x :: m in rows && x in rest ==> Before(x, m)
      decreases rest
    {
      var m := Newest(rest);
      rows := rows + [m];
      rest := rest - {m};
    }
  }

  method Newest(ms: set<StoredMessage>) returns (m: StoredMessage)
    requires ms != {}
    requires forall a, b :: a in ms && b in ms && a.id == b.id ==> a == b
    ensures IsNewest(m, ms)
  {
    m :| m in ms;
    var rest := ms - {m};
    while rest != {}
      invariant rest <= ms && IsNewest(m, ms - rest)
      decreases rest
    {
      var x :| x in rest;
      assert m.id != x.id;
      assert ms - (rest - {x}) == (ms - rest) + {x};
      rest := rest - {x};
      if Before(m, x) {
        m := x;
      }
    }
    assert ms - rest == ms;
  }

  /** Lists the newest messages of a conversation, oldest first. */
  method ListMessagesByConversation(table: MessageTable, conversation: Uuid, limit: int, fault: Fault)
    returns (r: Result<array<StoredMessage>, Fault>)
    ensures r.Ok? ==> fresh(r.value) && Chronological(r.value[..])
                      && IsTailOf(r.value[..], OfConversation(table, conversation), Clamp(limit, 50, 500))
    ensures fault == NoFault ==> r.Ok?
    ensures r.Err? ==> r.error == fault
  {
    var n := Clamp(limit, 50, 500);
    if fault == QueryFails {
      return Err(fault);
    }
    var rows := SelectNewest(OfConversation(table, conversation), n);
    if rows == [] {
      if fault == IterationFails {
        return Err(fault);
      }
      var none := new StoredMessage[0];
      return Ok(none);
    }
    var out := new StoredMessage[|rows|](_ => rows[0]);
    var k := 0;
    while k < |rows|
      invariant 0 <= k <= |rows| && out[..k] == rows[..k]
    {
      if fault == ScanFails(k) {
        return Err(fault);
      }
      out[k] := rows[k];
      k := k + 1;
    }
    if fault == IterationFails {
      return Err(fault);
    }
    assert out[..] == rows;
    Reverse(out);
    assert forall m :: m in out[..] <==> m in rows;
    return Ok(out);
  }

  /** Turns an array round in place with two indices that meet in the middle. */
  method Reverse<T>(a: array<T>)
    modifies a
    ensures forall i :: 0 <= i < a.Length ==> a[i] == old(a[a.Length - 1 - i])
    ensures forall x :: x in a[..] <==> x in old(a[..])
  {
    var i, j := 0, a.Length - 1;
    while i < j
      invariant 0 <= i <= j + 1 <= a.Length && i + j == a.Length - 1
      invariant forall k :: 0 <= k < i || j < k < a.Length ==> a[k] == old(a[a.Length - 1 - k])
      invariant forall k :: i <= k <= j ==> a[k] == old(a[k])
    {
      a[i], a[j] := a[j], a[i];
      i, j := i + 1, j - 1;
    }
    forall x | x in old(a[..]) ensures x in a[..] {
      var p :| 0 <= p < a.Length && old(a[p]) == x;
      assert a[a.Length - 1 - p] == x;
    }
  }

  /** Whatever the limit, the last message listed is the newest of the conversation. */
  lemma LastListedIsNewest(s: seq<StoredMessage>, ms: set<StoredMessage>, n: nat)
    requires Chronological(s) && IsTailOf(s, ms, n) && n > 0
    ensures s == [] <==> ms == {}
    ensures s != [] ==> IsNewest(s[|s| - 1], ms)
  {
    if s != [] {
      var last := s[|s| - 1];
      assert last in s;
      forall x | x in ms && x != last ensures Before(x, last) {
        if x in s {
          var i :| 0 <= i < |s| && s[i] == x;
        }
      }
    }
  }

  /** The list is determined: one set of messages and one limit have one chronological tail. */
  lemma {:induction false} TailIsUnique(s: seq<StoredMessage>, t: seq<StoredMessage>, ms: set<StoredMessage>, n: nat)
    requires Chronological(s) && IsTailOf(s, ms, n)
    requires Chronological(t) && IsTailOf(t, ms, n)
    ensures s == t
  {
    if n > 0 && ms != {} {
      LastListedIsNewest(s, ms, n);
      LastListedIsNewest(t, ms, n);
      var last := s[|s| - 1];
      assert t[|t| - 1] == last;
      var s', t' := s[..|s| - 1], t[..|t| - 1];
      TailWithoutLast(s, ms, n);
      TailWithoutLast(t, ms, n);
      TailIsUnique(s', t', ms - {last}, n - 1);
      assert s == s' + [last] && t == t' + [last];
    }
  }

  lemma TailWithoutLast(s: seq<StoredMessage>, ms: set<StoredMessage>, n: nat)
    requires Chronological(s) && IsTailOf(s, ms, n) && s != [] && n > 0
    ensures var shorter := s[..|s| - 1];
            Chronological(shorter) && IsTailOf(shorter, ms - {s[|s| - 1]}, n - 1)
  {
    var last, shorter := s[|s| - 1], s[..|s| - 1];
    assert s == shorter + [last];
    assert last in s;
    assert forall i :: 0 <= i < |shorter| ==> Before(shorter[i], last);
    assert forall x :: x in s <==> x in shorter || x == last;
  }
}
