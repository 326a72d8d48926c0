/** The few operations on strings that the modelled code uses, with Go's meaning. */
module Text {

  /** Unicode white space, the set that strings.TrimSpace removes. */
  predicate IsSpace(c: char) {
    || '\t' <= c <= '\r'
    || c == ' '
    || c == '\U{0085}'
    || c == '\U{00A0}'
    || c == '\U{1680}'
    || '\U{2000}' <= c <= '\U{200A}'
    || c == '\U{2028}'
    || c == '\U{2029}'
    || c == '\U{202F}'
    || c == '\U{205F}'
    || c == '\U{3000}'
  }

  /** A string that trimming leaves alone. */
  predicate Trimmed(s: string) {
    s != "" ==> !IsSpace(s[0]) && !IsSpace(s[|s| - 1])
  }

  /** The first index from i on that holds no white space. */
  function SkipSpace(s: string, i: nat): (k: nat)
    requires i <= |s|
    ensures i <= k <= |s|
    ensures k < |s| ==> !IsSpace(s[k])
    ensures forall j :: i <= j < k ==> IsSpace(s[j])
    decreases |s| - i
  {
    if i < |s| && IsSpace(s[i]) then SkipSpace(s, i + 1) else i
  }

  /** The end of s[i..n] without its trailing white space. */
  function DropSpace(s: string, i: nat, n: nat): (k: nat)
    requires i <= n <= |s|
    ensures i <= k <= n
    ensures k > i ==> !IsSpace(s[k - 1])
    ensures forall j :: k <= j < n ==> IsSpace(s[j])
    decreases n
  {
    if n > i && IsSpace(s[n - 1]) then DropSpace(s, i, n - 1) else n
  }

  function TrimSpace(s: string): (r: string)
    ensures Trimmed(r)
    ensures Trimmed(s) ==> r == s
  {
    var start := SkipSpace(s, 0);
    s[start..DropSpace(s, start, |s|)]
  }

  predicate Blank(s: string) {
    TrimSpace(s) == ""
  }

  /** Lower case as far as the comparisons with ASCII literals can see it: besides A-Z, the two
      letters outside ASCII whose lower case is an ASCII letter. */
  function LowerChar(c: char): char {
    if 'A' <= c <= 'Z' then (c as int + 32) as char
    else if c == '\U{0130}' then 'i'
    else if c == '\U{212A}' then 'k'
    else c
  }

  function ToLower(s: string): (r: string)
    ensures |r| == |s|
  {
    seq(|s|, i requires 0 <= i < |s| => LowerChar(s[i]))
  }

  predicate HasPrefix(s: string, prefix: string) {
    prefix <= s
  }

  predicate Contains(s: string, part: string) {
    part <= s || (s != "" && Contains(s[1..], part))
  }

  // ---- Strings as bytes ----

  newtype Byte = n: int | 0 <= n < 0x100

  /** UTF-8, the form in which Go keeps text and counts its length: section 3 of RFC 3629. */
  function EncodeChar(c: char): (bytes: seq<Byte>)
    ensures 1 <= |bytes| <= 4
    ensures |bytes| == 1 <==> c < '\U{0080}'
  {
    var n := c as int;
    if n < 0x80 then [n as Byte]
    else if n < 0x800 then [(0xC0 + n / 0x40) as Byte, Continuation(n)]
    else if n < 0x10000 then [(0xE0 + n / 0x1000) as Byte, Continuation(n / 0x40), Continuation(n)]
    else [(0xF0 + n / 0x40000) as Byte, Continuation(n / 0x1000), Continuation(n / 0x40), Continuation(n)]
  }

  function Continuation(n: nat): Byte {
    (0x80 + n % 0x40) as Byte
  }

  function Encode(s: string): (bytes: seq<Byte>)
    ensures |bytes| >= |s|
    ensures s == "" <==> bytes == []
  {
    if s == "" then [] else Encode(s[..|s| - 1]) + EncodeChar(s[|s| - 1])
  }

  /** The bytes of the first k characters are a prefix of all bytes. */
  lemma {:induction false} EncodesPrefixes(s: string, k: nat)
    requires k <= |s|
    ensures Encode(s[..k]) <= Encode(s)
  {
    if k < |s| {
      EncodesPrefixes(s[..|s| - 1], k);
      assert s[..|s| - 1][..k] == s[..k];
    } else {
      assert s[..k] == s;
    }
  }

  /** A byte that does not start a character. */
  predicate IsContinuation(b: Byte) {
    0x80 <= b < 0xC0
  }

  lemma {:induction false} OnlyFirstByteStarts(c: char, i: nat)
    requires i < |EncodeChar(c)|
    ensures IsContinuation(EncodeChar(c)[i]) <==> i > 0
  {
  }

  /** A place in the bytes is one between characters exactly when the byte there starts a character. */
  lemma {:induction false} CharactersMeetAtStarts(s: string, p: nat)
    requires p < |Encode(s)|
    ensures !IsContinuation(Encode(s)[p]) <==> exists k :: 0 <= k <= |s| && |Encode(s[..k])| == p
  {
    hide EncodeChar, IsContinuation;
    var n := |s| - 1;
    var before, c := Encode(s[..n]), s[n];
    assert forall k :: 0 <= k <= n ==> s[..n][..k] == s[..k];
    assert s[..n + 1] == s;
    if p < |before| {
      CharactersMeetAtStarts(s[..n], p);
      if k :| 0 <= k <= |s| && |Encode(s[..k])| == p {
        assert k <= n && |Encode(s[..n][..k])| == p;
      }
      if k :| 0 <= k <= n && |Encode(s[..n][..k])| == p {
        assert |Encode(s[..k])| == p;
      }
    } else {
      OnlyFirstByteStarts(c, p - |before|);
      assert Encode(s)[p] == EncodeChar(c)[p - |before|];
      if p == |before| {
        assert |Encode(s[..n])| == p;
      }
      forall k | 0 <= k <= |s| && |Encode(s[..k])| == p ensures p == |before| {
        if k <= n {
          EncodesPrefixes(s[..n], k);
          assert Encode(s[..n][..k]) <= before;
        }
      }
    }
  }

  /** Text in ASCII has as many bytes as characters. */
  lemma {:induction false} AsciiIsOneByteEach(s: string)
    requires forall i :: 0 <= i < |s| ==> s[i] < '\U{0080}'
    ensures |Encode(s)| == |s|
  {
    if s != "" {
      AsciiIsOneByteEach(s[..|s| - 1]);
    }
  }

  /** Two strings that agree are cut at the same place by a separator neither head contains. */
  lemma FirstSeparatorIsUnique(a: string, b: string, x: string, y: string, sep: char)
    requires sep !in a && sep !in b
    requires a + [sep] + x == b + [sep] + y
    ensures a == b && x == y
  {
    var s, t := a + [sep] + x, b + [sep] + y;
    assert s[|a|] == sep && t[|b|] == sep;
    assert forall i :: 0 <= i < |b| ==> t[i] == b[i];
    assert forall i :: 0 <= i < |a| ==> s[i] == a[i];
    assert a == s[..|a|] && b == t[..|b|];
    assert x == s[|a| + 1..] && y == t[|b| + 1..];
  }
}
