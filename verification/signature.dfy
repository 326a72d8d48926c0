/** The text a Twilio signature is computed over: keys in order, under each key its values in order. */
module Signature {

  /** Byte order, the order of sort.Strings. */
  predicate AtMost(a: string, b: string) {
    a == "" || (b != "" && (a[0] < b[0] || (a[0] == b[0] && AtMost(a[1..], b[1..]))))
  }

  lemma {:induction false} Total(a: string, b: string)
    ensures AtMost(a, b) || AtMost(b, a)
  {
    if a != "" && b != "" {
      Total(a[1..], b[1..]);
    }
  }

  lemma {:induction false} Antisymmetric(a: string, b: string)
    requires AtMost(a, b) && AtMost(b, a)
    ensures a == b
  {
    if a != "" {
      Antisymmetric(a[1..], b[1..]);
      assert a == [a[0]] + a[1..] && b == [b[0]] + b[1..];
    }
  }

  lemma {:induction false} Transitive(a: string, b: string, c: string)
    requires AtMost(a, b) && AtMost(b, c)
    ensures AtMost(a, c)
  {
    if a != "" && a[0] == b[0] == c[0] {
      Transitive(a[1..], b[1..], c[1..]);
    }
  }

  ghost predicate Sorted(s: seq<string>) {
    forall i, j :: 0 <= i < j < |s| ==> AtMost(s[i], s[j])
  }

  ghost predicate IsLeast(x: string, ms: multiset<string>) {
    x in ms && forall y :: y in ms ==> AtMost(x, y)
  }

  lemma {:induction false} LeastExists(ms: multiset<string>)
    requires ms != multiset{}
    ensures exists x :: IsLeast(x, ms)
    decreases |ms|
  {
    var x :| x in ms;
    var rest := ms - multiset{x};
    Total(x, x);
    if rest != multiset{} {
      LeastExists(rest);
      var y :| IsLeast(y, rest);
      Total(x, y);
      var least := if AtMost(x, y) then x else y;
      forall z | z in ms ensures AtMost(least, z) {
        if z != x {
          assert z in rest;
          Transitive(least, y, z);
        }
      }
      assert IsLeast(least, ms);
    } else {
      assert ms == multiset{x};
      assert IsLeast(x, ms);
    }
  }

  /** The elements of a multiset in ascending order. */
  ghost function Ascending(ms: multiset<string>): seq<string>
    decreases |ms|
  {
    if ms == multiset{} then [] else
    LeastExists(ms);
    var x :| IsLeast(x, ms);
    [x] + Ascending(ms - multiset{x})
  }

  lemma {:induction false} AscendingHasTheElements(ms: multiset<string>)
    ensures multiset(Ascending(ms)) == ms
    decreases |ms|
  {
    if ms != multiset{} {
      LeastExists(ms);
      var x :| IsLeast(x, ms) && Ascending(ms) == [x] + Ascending(ms - multiset{x});
      AscendingHasTheElements(ms - multiset{x});
    }
  }

  lemma LeastFirstIsSorted(x: string, rest: seq<string>)
    requires Sorted(rest) && forall y :: y in rest ==> AtMost(x, y)
    ensures Sorted([x] + rest)
  {
    var s := [x] + rest;
    forall i, j | 0 <= i < j < |s| ensures AtMost(s[i], s[j]) {
      assert s[j] == rest[j - 1];
      if i > 0 {
        assert s[i] == rest[i - 1];
      }
    }
  }

  lemma {:induction false} AscendingIsSorted(ms: multiset<string>)
    ensures Sorted(Ascending(ms))
    decreases |ms|
  {
    if ms != multiset{} {
      LeastExists(ms);
      var x :| IsLeast(x, ms) && Ascending(ms) == [x] + Ascending(ms - multiset{x});
      var rest := Ascending(ms - multiset{x});
      AscendingIsSorted(ms - multiset{x});
      AscendingHasTheElements(ms - multiset{x});
      forall y | y in rest ensures AtMost(x, y) {
        assert y in multiset(rest);
      }
      LeastFirstIsSorted(x, rest);
    }
  }

  lemma SortedHeadIsLeast(s: seq<string>, y: string)
    requires Sorted(s) && y in s
    ensures AtMost(s[0], y)
  {
    var i :| 0 <= i < |s| && s[i] == y;
    if i == 0 {
      Total(y, y);
    }
  }

  lemma SameHead(s: seq<string>, t: seq<string>)
    requires Sorted(s) && Sorted(t) && multiset(s) == multiset(t) && s != []
    ensures t != [] && s[0] == t[0]
  {
    assert s[0] in multiset(s);
    assert t != [] && t[0] in multiset(t);
    SortedHeadIsLeast(s, t[0]);
    SortedHeadIsLeast(t, s[0]);
    Antisymmetric(s[0], t[0]);
  }

  lemma TailMultiset(s: seq<string>)
    requires s != []
    ensures multiset(s[1..]) == multiset(s) - multiset{s[0]}
  {
    assert s == [s[0]] + s[1..];
  }

  /** A sorted permutation is unique. */
  lemma {:induction false} SortedPermutationIsUnique(s: seq<string>, t: seq<string>)
    requires Sorted(s) && Sorted(t) && multiset(s) == multiset(t)
    ensures s == t
  {
    if s == [] {
      assert |multiset(t)| == 0;
    } else {
      SameHead(s, t);
      TailMultiset(s);
      TailMultiset(t);
      SortedPermutationIsUnique(s[1..], t[1..]);
      assert s == [s[0]] + s[1..] && t == [t[0]] + t[1..];
    }
  }

  /** Stands for sort.Strings: whatever the algorithm, the array ends as its ascending arrangement. */
  method SortStrings(a: array<string>)
    modifies a
    ensures a[..] == Ascending(multiset(old(a[..])))
  {
    var i := 0;
    while i < a.Length
      invariant 0 <= i <= a.Length
      invariant Sorted(a[..i])
      invariant multiset(a[..]) == multiset(old(a[..]))
    {
      SinkInto(a, i);
      i := i + 1;
    }
    assert a[..i] == a[..];
    AscendingHasTheElements(multiset(old(a[..])));
    AscendingIsSorted(multiset(old(a[..])));
    SortedPermutationIsUnique(a[..], Ascending(multiset(old(a[..]))));
  }

  /** The first n + 1 are sorted but for the one at j, which may be too small for those below it. */
  ghost predicate SortedBut(s: seq<string>, n: nat, j: nat)
    requires n < |s|
  {
    forall p, q :: 0 <= p < q <= n && q != j ==> AtMost(s[p], s[q])
  }

  lemma {:induction false} PrefixIsSortedBut(s: seq<string>, n: nat)
    requires n < |s| && Sorted(s[..n])
    ensures SortedBut(s, n, n)
  {
    hide AtMost;
    forall p, q | 0 <= p < q < n ensures AtMost(s[p], s[q]) {
      assert s[..n][p] == s[p] && s[..n][q] == s[q];
    }
  }

  function Swapped(s: seq<string>, j: nat): seq<string>
    requires 0 < j < |s|
  {
    s[j - 1 := s[j]][j := s[j - 1]]
  }

  lemma {:induction false} SwapSinks(s: seq<string>, n: nat, j: nat)
    requires 0 < j <= n < |s| && SortedBut(s, n, j) && !AtMost(s[j - 1], s[j])
    ensures SortedBut(Swapped(s, j), n, j - 1)
  {
    hide AtMost;
    Total(s[j - 1], s[j]);
  }

  lemma {:induction false} SwapPermutes(s: seq<string>, j: nat)
    requires 0 < j < |s|
    ensures multiset(Swapped(s, j)) == multiset(s)
  {
  }

  lemma {:induction false} SunkIsSorted(s: seq<string>, n: nat, j: nat)
    requires j <= n < |s| && SortedBut(s, n, j) && (j > 0 ==> AtMost(s[j - 1], s[j]))
    ensures Sorted(s[..n + 1])
  {
    hide AtMost;
    forall p | 0 <= p < j ensures AtMost(s[p], s[j]) {
      if p < j - 1 {
        Transitive(s[p], s[j - 1], s[j]);
      }
    }
  }

  /** Moves a[n] down to its place in the sorted prefix below it. */
  method SinkInto(a: array<string>, n: nat)
    requires n < a.Length && Sorted(a[..n])
    modifies a
    ensures Sorted(a[..n + 1])
    ensures multiset(a[..]) == multiset(old(a[..]))
  {
    hide AtMost, SortedBut, Sorted;
    assert SortedBut(a[..], n, n) by {
      PrefixIsSortedBut(a[..], n);
    }
    var j := n;
    while j > 0 && !AtMost(a[j - 1], a[j])
      invariant 0 <= j <= n && SortedBut(a[..], n, j)
      invariant multiset(a[..]) == multiset(old(a[..]))
    {
      ghost var was := a[..];
      SwapSinks(was, n, j);
      SwapPermutes(was, j);
      a[j - 1], a[j] := a[j], a[j - 1];
      assert a[..] == Swapped(was, j);
      j := j - 1;
    }
    SunkIsSorted(a[..], n, j);
  }

  function PairsOf(key: string, values: seq<string>): string {
    if values == [] then "" else PairsOf(key, values[..|values| - 1]) + (key + values[|values| - 1])
  }

  ghost function PairsOfAll(keys: seq<string>, values: map<string, multiset<string>>): string
    requires forall k :: k in keys ==> k in values
  {
    if keys == [] then "" else
    var n := |keys| - 1;
    PairsOfAll(keys[..n], values) + PairsOf(keys[n], Ascending(values[keys[n]]))
  }

  /** What a form is to its signature: per key the multiset of its values. */
  ghost function ValuesByKey(form: map<string, seq<string>>): map<string, multiset<string>> {
    map k | k in form :: multiset(form[k])
  }

  ghost function Payload(baseURL: string, values: map<string, multiset<string>>): string {
    var keys := Ascending(multiset(values.Keys));
    AscendingHasTheElements(multiset(values.Keys));
    assert forall k :: k in keys ==> k in multiset(keys);
    baseURL + PairsOfAll(keys, values)
  }

  lemma Reassociate(x: string, y: string, z: string)
    ensures (x + y) + z == x + (y + z)
  {
  }

  method CopyOf(values: seq<string>) returns (a: array<string>)
    ensures fresh(a) && a[..] == values
  {
    a := new string[|values|](j requires 0 <= j < |values| => values[j]);
  }

  lemma OneMorePair(payload: string, k: string, values: seq<string>, j: nat)
    requires j < |values|
    ensures payload + PairsOf(k, values[..j + 1]) == (payload + PairsOf(k, values[..j])) + (k + values[j])
  {
    assert values[..j + 1][..j] == values[..j];
    Reassociate(payload, PairsOf(k, values[..j]), k + values[j]);
  }

  /** One key's share of the payload: a copy of its values is sorted, the form is left alone. */
  method AppendPairs(payload: string, k: string, values: seq<string>) returns (longer: string)
    ensures longer == payload + PairsOf(k, Ascending(multiset(values)))
  {
    hide Ascending;
    var vals := CopyOf(values);
    SortStrings(vals);
    ghost var sorted := vals[..];
    longer := payload;
    for j := 0 to vals.Length
      invariant vals[..] == sorted
      invariant longer == payload + PairsOf(k, sorted[..j])
    {
      OneMorePair(payload, k, sorted, j);
      longer := longer + (k + vals[j]);
    }
    assert sorted[..vals.Length] == sorted;
  }

  method AppendAllPairs(baseURL: string, keys: array<string>, form: map<string, seq<string>>) returns (payload: string)
    requires forall k :: k in keys[..] ==> k in form
    ensures payload == baseURL + PairsOfAll(keys[..], ValuesByKey(form))
  {
    ghost var ordered := keys[..];
    payload := baseURL;
    for i := 0 to keys.Length
      invariant payload == baseURL + PairsOfAll(ordered[..i], ValuesByKey(form))
    {
      assert keys[i] in ordered;
      assert ordered[..i + 1][..i] == ordered[..i];
      Reassociate(baseURL, PairsOfAll(ordered[..i], ValuesByKey(form)),
                  PairsOf(keys[i], Ascending(multiset(form[keys[i]]))));
      payload := AppendPairs(payload, keys[i], form[keys[i]]);
    }
    assert ordered[..keys.Length] == ordered;
  }

  /** `mac` stands for the Base64 text of the HMAC-SHA1 of its second argument under its first. */
  method ComputeSignature(mac: (string, string) -> string, authToken: string, baseURL: string,
                          form: map<string, seq<string>>)
    returns (signature: string)
    ensures signature == mac(authToken, Payload(baseURL, ValuesByKey(form)))
  {
    var keys := CollectKeys(form);
    SortStrings(keys);
    assert ValuesByKey(form).Keys == form.Keys;
    AscendingHasTheElements(multiset(form.Keys));
    assert forall k :: k in keys[..] ==> k in multiset(keys[..]);
    var payload := AppendAllPairs(baseURL, keys, form);
    signature := mac(authToken, payload);
  }

  lemma OneKeyFewer(keys: set<string>, rest: set<string>, k: string)
    requires k in rest && rest <= keys
    ensures multiset(keys - (rest - {k})) == multiset(keys - rest) + multiset{k}
  {
    assert keys - (rest - {k}) == (keys - rest) + {k};
  }

  /** The keys of a map in whatever order iteration yields them. */
  method CollectKeys(form: map<string, seq<string>>) returns (keys: array<string>)
    ensures fresh(keys)
    ensures multiset(keys[..]) == multiset(form.Keys)
  {
    var found: seq<string> := [];
    var rest := form.Keys;
    while rest != {}
      invariant rest <= form.Keys
      invariant multiset(found) == multiset(form.Keys - rest)
      decreases rest
    {
      var k :| k in rest;
      OneKeyFewer(form.Keys, rest, k);
      found := found + [k];
      rest := rest - {k};
    }
    assert form.Keys - rest == form.Keys;
    keys := CopyOf(found);
  }

  /** Reordering the values under any key changes nothing. */
  lemma ValueOrderIsIrrelevant(baseURL: string, form: map<string, seq<string>>, other: map<string, seq<string>>)
    requires form.Keys == other.Keys
    requires forall k :: k in form ==> multiset(form[k]) == multiset(other[k])
    ensures Payload(baseURL, ValuesByKey(form)) == Payload(baseURL, ValuesByKey(other))
  {
    assert ValuesByKey(form) == ValuesByKey(other);
  }

  /** Any two ways to arrange keys and values in ascending order spell the same text. */
  lemma AnyArrangementGivesThePayload(baseURL: string, form: map<string, seq<string>>, keys: seq<string>)
    requires Sorted(keys) && multiset(keys) == multiset(form.Keys)
    requires forall k :: k in keys ==> k in form
    ensures baseURL + PairsOfAll(keys, ValuesByKey(form)) == Payload(baseURL, ValuesByKey(form))
  {
    assert ValuesByKey(form).Keys == form.Keys;
    AscendingHasTheElements(multiset(form.Keys));
    AscendingIsSorted(multiset(form.Keys));
    SortedPermutationIsUnique(keys, Ascending(multiset(form.Keys)));
  }
}
