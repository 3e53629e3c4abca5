/** Byte-string helpers of the Go standard library that the runtime relies on. One `char`
    stands for one byte; white space is ASCII white space. */
module Text {

  predicate IsSpace(c: char) {
    c == ' ' || c == '\t' || c == '\n' || c == '\r' || c == '\U{0B}' || c == '\U{0C}'
  }

  predicate HasPrefix(s: string, prefix: string) {
    prefix <= s
  }

  predicate HasSuffix(s: string, suffix: string) {
    |suffix| <= |s| && s[|s| - |suffix|..] == suffix
  }

  predicate OccursAt(s: string, sub: string, i: nat) {
    i + |sub| <= |s| && s[i..i + |sub|] == sub
  }

  predicate Contains(s: string, sub: string) {
    exists i | 0 <= i <= |s| :: OccursAt(s, sub, i)
  }

  lemma ContainsMiddle(before: string, sub: string, after: string)
    ensures Contains(before + sub + after, sub)
  {
    var s := before + sub + after;
    assert OccursAt(s, sub, |before|);
  }

  function TrimLeft(s: string): (t: string)
    ensures |t| <= |s|
  {
    if s != "" && IsSpace(s[0]) then TrimLeft(s[1..]) else s
  }

  function TrimRight(s: string): (t: string)
    ensures |t| <= |s|
  {
    if s != "" && IsSpace(s[|s| - 1]) then TrimRight(s[..|s| - 1]) else s
  }

  function TrimSpace(s: string): string {
    TrimRight(TrimLeft(s))
  }

  lemma {:induction false} TrimLeftSkips(c: char, s: string)
    requires IsSpace(c)
    ensures TrimLeft([c] + s) == TrimLeft(s)
  {
    assert ([c] + s)[1..] == s;
  }

  lemma {:induction false} TrimRightSkips(s: string, c: char)
    requires IsSpace(c)
    ensures TrimRight(s + [c]) == TrimRight(s)
  {
    assert (s + [c])[..|s|] == s;
  }

  lemma TrimLeftStops(s: string)
    requires s != "" && !IsSpace(s[0])
    ensures TrimLeft(s) == s
  {
  }

  lemma TrimRightStops(s: string)
    requires s != "" && !IsSpace(s[|s| - 1])
    ensures TrimRight(s) == s
  {
  }

  lemma {:induction false} TrimInner(c: char, inner: string, d: char)
    requires IsSpace(c) && IsSpace(d)
    requires inner != "" && !IsSpace(inner[0]) && !IsSpace(inner[|inner| - 1])
    ensures TrimSpace([c] + inner + [d]) == inner
  {
    var tail := inner + [d];
    assert [c] + inner + [d] == [c] + tail;
    TrimLeftSkips(c, tail);
    TrimLeftStops(tail);
    TrimRightSkips(inner, d);
    TrimRightStops(inner);
  }

  function Decimal(n: nat): (s: string)
    ensures s != "" && forall c | c in s :: '0' <= c <= '9'
  {
    if n < 10 then [('0' as int + n) as char]
    else Decimal(n / 10) + [('0' as int + n % 10) as char]
  }

  /** Words separated by runs of white space, as strings.Fields returns them. */
  function Fields(s: string, word: string): seq<string> {
    if s == "" then (if word == "" then [] else [word])
    else if IsSpace(s[0]) then (if word == "" then [] else [word]) + Fields(s[1..], "")
    else Fields(s[1..], word + [s[0]])
  }

  function Join(words: seq<string>, sep: string): string {
    if words == [] then ""
    else if |words| == 1 then words[0]
    else words[0] + sep + Join(words[1..], sep)
  }

  /** Parts between slashes, as strings.Split returns them. */
  function Split(s: string): (parts: seq<string>)
    ensures |parts| >= 1
  {
    if s == "" then [""]
    else
      var rest := Split(s[1..]);
      if s[0] == '/' then [""] + rest else [[s[0]] + rest[0]] + rest[1..]
  }

  // ---------------------------------------------------------------- UTF-8

  function Byte(c: char): int { c as int }

  predicate IsContinuation(c: char) {
    0x80 <= Byte(c) <= 0xBF
  }

  /** Length of the UTF-8 sequence `s` starts with, or 0 when it starts with none. */
  function RuneLength(s: string): (n: nat)
    ensures n <= |s| && n <= 4
  {
    if s == "" then 0
    else
      var b := Byte(s[0]);
      if b < 0x80 then 1
      else if 0xC2 <= b <= 0xDF then
        if |s| >= 2 && IsContinuation(s[1]) then 2 else 0
      else if 0xE0 <= b <= 0xEF then
        if |s| >= 3 && IsContinuation(s[1]) && IsContinuation(s[2])
           && (b == 0xE0 ==> Byte(s[1]) >= 0xA0) && (b == 0xED ==> Byte(s[1]) <= 0x9F)
        then 3 else 0
      else if 0xF0 <= b <= 0xF4 then
        if |s| >= 4 && IsContinuation(s[1]) && IsContinuation(s[2]) && IsContinuation(s[3])
           && (b == 0xF0 ==> Byte(s[1]) >= 0x90) && (b == 0xF4 ==> Byte(s[1]) <= 0x8F)
        then 4 else 0
      else 0
  }

  predicate ValidUtf8(s: string) {
    s == "" || (RuneLength(s) > 0 && ValidUtf8(s[RuneLength(s)..]))
  }

  lemma {:induction false} ValidConcat(a: string, b: string)
    requires ValidUtf8(a) && ValidUtf8(b)
    ensures ValidUtf8(a + b)
    decreases |a|
  {
    if a == "" {
      assert a + b == b;
    } else {
      var n := RuneLength(a);
      assert RuneLength(a + b) == n;
      assert (a + b)[n..] == a[n..] + b;
      ValidConcat(a[n..], b);
    }
  }

  predicate Ascii(s: string) {
    forall c | c in s :: Byte(c) < 0x80
  }

  lemma AsciiConcat(a: string, b: string)
    requires Ascii(a) && Ascii(b)
    ensures Ascii(a + b)
  {
  }

  lemma {:induction false} AsciiValid(s: string)
    requires Ascii(s)
    ensures ValidUtf8(s)
  {
    if s != "" {
      assert s[0] in s;
      AsciiValid(s[1..]);
    }
  }

  // ---------------------------------------------------------------- what is valid

  /** A Unicode scalar value. */
  predicate Scalar(r: int) {
    0 <= r < 0xD800 || 0xE000 <= r < 0x110000
  }

  /** Its UTF-8 encoding. */
  function Encoded(r: int): (s: string)
    requires Scalar(r)
    ensures 1 <= |s| <= 4
  {
    if r < 0x80 then [r as char]
    else if r < 0x800 then [(0xC0 + r / 64) as char, (0x80 + r % 64) as char]
    else if r < 0x1_0000 then [(0xE0 + r / 4096) as char, (0x80 + r / 64 % 64) as char, (0x80 + r % 64) as char]
    else [(0xF0 + r / 262144) as char, (0x80 + r / 4096 % 64) as char, (0x80 + r / 64 % 64) as char,
      (0x80 + r % 64) as char]
  }

  function EncodedAll(rs: seq<int>): string
    requires forall r | r in rs :: Scalar(r)
  {
    if rs == [] then "" else Encoded(rs[0]) + EncodedAll(rs[1..])
  }

  ghost predicate Encodes(s: string, rs: seq<int>) {
    (forall r | r in rs :: Scalar(r)) && EncodedAll(rs) == s
  }

  /** The scalar value a string starts with. */
  function FirstRune(s: string): int
    requires RuneLength(s) > 0
  {
    var n := RuneLength(s);
    if n == 1 then Byte(s[0])
    else if n == 2 then (Byte(s[0]) - 0xC0) * 64 + (Byte(s[1]) - 0x80)
    else if n == 3 then (Byte(s[0]) - 0xE0) * 4096 + (Byte(s[1]) - 0x80) * 64 + (Byte(s[2]) - 0x80)
    else (Byte(s[0]) - 0xF0) * 262144 + (Byte(s[1]) - 0x80) * 4096 + (Byte(s[2]) - 0x80) * 64 + (Byte(s[3]) - 0x80)
  }

  lemma {:induction false} SixBits(a: nat, b: nat, c: nat, d: nat)
    requires b < 64 && c < 64 && d < 64
    ensures var r := a * 262144 + b * 4096 + c * 64 + d;
      r / 262144 == a && r / 4096 % 64 == b && r / 64 % 64 == c && r % 64 == d && r / 4096 == a * 64 + b
  {
    var r := a * 262144 + b * 4096 + c * 64 + d;
    assert r / 64 == a * 4096 + b * 64 + c;
    assert r / 4096 == a * 64 + b;
  }

  /** What the bytes of a long sequence carry. */
  lemma {:induction false} LongRune(s: string, r: int)
    requires RuneLength(s) == 4 && r == FirstRune(s)
    ensures Scalar(r) && r >= 0x1_0000 && Encoded(r) == s[..4]
  {
    SixBits(Byte(s[0]) - 0xF0, Byte(s[1]) - 0x80, Byte(s[2]) - 0x80, Byte(s[3]) - 0x80);
    assert s[..4] == [s[0], s[1], s[2], s[3]];
  }

  lemma {:induction false} MiddleRune(s: string, r: int)
    requires RuneLength(s) == 3 && r == FirstRune(s)
    ensures Scalar(r) && 0x800 <= r < 0x1_0000 && Encoded(r) == s[..3]
  {
    SixBits(0, Byte(s[0]) - 0xE0, Byte(s[1]) - 0x80, Byte(s[2]) - 0x80);
    assert s[..3] == [s[0], s[1], s[2]];
  }

  lemma {:induction false} RuneDecoded(s: string)
    requires RuneLength(s) > 0
    ensures Scalar(FirstRune(s)) && Encoded(FirstRune(s)) == s[..RuneLength(s)]
  {
    var n := RuneLength(s);
    if n == 4 {
      LongRune(s, FirstRune(s));
    } else if n == 3 {
      MiddleRune(s, FirstRune(s));
    } else if n == 2 {
      SixBits(0, 0, Byte(s[0]) - 0xC0, Byte(s[1]) - 0x80);
      assert s[..2] == [s[0], s[1]];
    } else {
      assert s[..1] == [s[0]];
    }
  }

  lemma {:induction false} RuneEncoded(r: int, rest: string)
    requires Scalar(r)
    ensures RuneLength(Encoded(r) + rest) == |Encoded(r)|
  {
  }

  /** A byte string is valid exactly when it encodes some scalar values. */
  lemma {:induction false} ValidExactly(s: string)
    ensures ValidUtf8(s) <==> exists rs :: Encodes(s, rs)
  {
    if ValidUtf8(s) { var _ := ValidEncodes(s); }
    if exists rs :: Encodes(s, rs) {
      var rs :| Encodes(s, rs);
      EncodedValid(rs);
    }
  }

  lemma {:induction false} ValidEncodes(s: string) returns (rs: seq<int>)
    requires ValidUtf8(s)
    ensures Encodes(s, rs)
    decreases |s|
  {
    if s == "" { return []; }
    RuneDecoded(s);
    var n := RuneLength(s);
    var rest := ValidEncodes(s[n..]);
    rs := [FirstRune(s)] + rest;
    assert rs[1..] == rest && s == s[..n] + s[n..];
  }

  lemma {:induction false} EncodedValid(rs: seq<int>)
    requires forall r | r in rs :: Scalar(r)
    ensures ValidUtf8(EncodedAll(rs))
  {
    if rs != [] {
      var head, rest := Encoded(rs[0]), EncodedAll(rs[1..]);
      RuneEncoded(rs[0], rest);
      EncodedValid(rs[1..]);
      assert (head + rest)[|head|..] == rest;
    }
  }

  /** Longest valid prefix of at most `maxBytes` bytes; the value itself when it fits. */
  function ValidPrefix(value: string, maxBytes: nat): (p: string)
    ensures |value| > maxBytes ==> |p| <= maxBytes && p <= value && ValidUtf8(p)
    ensures |value| <= maxBytes ==> p == value
  {
    if |value| <= maxBytes then value
    else LongestValid(value, maxBytes)
  }

  function LongestValid(value: string, maxBytes: nat): (p: string)
    requires maxBytes <= |value|
    ensures |p| <= maxBytes && p <= value && ValidUtf8(p)
    ensures forall k :: |p| < k <= maxBytes ==> !ValidUtf8(value[..k])
  {
    if maxBytes == 0 || ValidUtf8(value[..maxBytes]) then value[..maxBytes]
    else LongestValid(value, maxBytes - 1)
  }

  /** Longest valid suffix of at most `maxBytes` bytes; the value itself when it fits. */
  function ValidSuffix(value: string, maxBytes: nat): (t: string)
    ensures |value| > maxBytes ==> |t| <= maxBytes && ValidUtf8(t)
    ensures |value| <= maxBytes ==> t == value
  {
    if |value| <= maxBytes then value
    else FirstValid(value, |value| - maxBytes)
  }

  function FirstValid(value: string, start: nat): (t: string)
    requires start <= |value|
    ensures |t| <= |value| - start && ValidUtf8(t)
    decreases |value| - start
  {
    if start == |value| || ValidUtf8(value[start..]) then value[start..]
    else FirstValid(value, start + 1)
  }
}
