/** UTF-8 as Go's `unicode/utf8` sees it. A byte string is a `string`; a character over 255,
    which no Go byte can be, behaves like a byte that never belongs to a valid encoding. */
module Utf8 {
  import opened Sequences

  /** The encoding of U+FFFD, which stands in for every byte that is not part of a valid rune. */
  const REPLACEMENT: string := "\U{EF}\U{BF}\U{BD}"

  predicate Continuation(c: char) {
    0x80 <= c as int <= 0xBF
  }

  /** The second byte of a three or four byte rune: no overlong forms, no surrogates, nothing over U+10FFFF. */
  predicate SecondByte(first: char, c: char) {
    var lo := if first as int == 0xE0 then 0xA0 else if first as int == 0xF0 then 0x90 else 0x80;
    var hi := if first as int == 0xED then 0x9F else if first as int == 0xF4 then 0x8F else 0xBF;
    lo <= c as int <= hi
  }

  /** The number of bytes of the rune at the head of `s`, or 0 when `s` does not start with a valid rune. */
  function RuneSize(s: string): (n: nat)
    ensures n <= 4 && n <= |s|
    ensures n == 1 <==> s != "" && s[0] as int < 0x80
    ensures n > 1 ==> forall i :: 0 <= i < n ==> 0x80 <= s[i] as int
  {
    if s == "" then 0
    else
      var b := s[0] as int;
      if b < 0x80 then 1
      else if 0xC2 <= b <= 0xDF then
        if |s| >= 2 && Continuation(s[1]) then 2 else 0
      else if 0xE0 <= b <= 0xEF then
        if |s| >= 3 && SecondByte(s[0], s[1]) && Continuation(s[2]) then 3 else 0
      else if 0xF0 <= b <= 0xF4 then
        if |s| >= 4 && SecondByte(s[0], s[1]) && Continuation(s[2]) && Continuation(s[3]) then 4 else 0
      else 0
  }

  predicate Valid(s: string) {
    s == "" || (RuneSize(s) > 0 && Valid(s[RuneSize(s)..]))
  }

  /** Replaces every byte that is not part of a valid rune, as both the JSON encoder and decoder do. */
  function Sanitize(s: string): string {
    if s == "" then ""
    else if RuneSize(s) == 0 then REPLACEMENT + Sanitize(s[1..])
    else s[..RuneSize(s)] + Sanitize(s[RuneSize(s)..])
  }

  /** The UTF-8 encoding of code point `r`; surrogate halves encode as U+FFFD. */
  function EncodeRune(r: nat): string
    requires r < 0x110000
  {
    if r < 0x80 then [r as char]
    else if r < 0x800 then [(0xC0 + r / 64) as char, (0x80 + r % 64) as char]
    else if 0xD800 <= r < 0xE000 then REPLACEMENT
    else if r < 0x10000 then
      [(0xE0 + r / 4096) as char, (0x80 + r / 64 % 64) as char, (0x80 + r % 64) as char]
    else
      [(0xF0 + r / 262144) as char, (0x80 + r / 4096 % 64) as char,
       (0x80 + r / 64 % 64) as char, (0x80 + r % 64) as char]
  }

  /** A rune is recognised from its own bytes alone, whatever follows it. */
  lemma RuneSizeLocal(s: string, t: string)
    requires RuneSize(s) > 0
    ensures RuneSize(s[..RuneSize(s)] + t) == RuneSize(s)
  {
    var n := RuneSize(s);
    var u := s[..n] + t;
    assert forall i :: 0 <= i < n ==> u[i] == s[i];
  }

  /** Sanitizing never shortens, and keeps the length only of valid text. */
  lemma {:induction false} SanitizeLength(s: string)
    ensures |Sanitize(s)| >= |s|
    ensures |Sanitize(s)| == |s| <==> Valid(s)
    ensures Valid(s) ==> Sanitize(s) == s
  {
    hide RuneSize;
    if s != "" {
      if RuneSize(s) == 0 {
        SanitizeLength(s[1..]);
      } else {
        SanitizeLength(s[RuneSize(s)..]);
      }
    }
  }

  lemma {:induction false} SanitizeIdentity(s: string)
    ensures Sanitize(s) == s <==> Valid(s)
  {
    SanitizeLength(s);
  }

  // ------------------------------------------------------- what the bytes stand for

  /** A code point that UTF-8 can encode: all but the surrogates. */
  predicate Scalar(r: int) {
    0 <= r < 0xD800 || 0xE000 <= r < 0x110000
  }

  /** The number that the bytes of one rune spell, as section 3 of RFC 3629 lays out its bits. */
  function Spelled(e: string): int {
    if |e| == 1 then e[0] as int
    else if |e| == 2 then (e[0] as int - 0xC0) * 64 + (e[1] as int - 0x80)
    else if |e| == 3 then (e[0] as int - 0xE0) * 4096 + (e[1] as int - 0x80) * 64 + (e[2] as int - 0x80)
    else if |e| == 4 then
      (e[0] as int - 0xF0) * 262144 + (e[1] as int - 0x80) * 4096 + (e[2] as int - 0x80) * 64 + (e[3] as int - 0x80)
    else -1
  }

  /** The fewest bytes that hold `r`. */
  function Width(r: nat): nat {
    if r <= 0x7F then 1 else if r <= 0x7FF then 2 else if r <= 0xFFFF then 3 else 4
  }

  /** `e` is the encoding of `r`: no more bytes than needed, all after the first in the range of continuations, and
      together they spell `r`. */
  predicate Encodes(e: string, r: nat) {
    && Scalar(r) && |e| == Width(r) && Spelled(e) == r
    && forall i :: 1 <= i < |e| ==> 0x80 <= e[i] as int <= 0xBF
  }

  /** Every code point has one encoding, and `EncodeRune` finds it. */
  lemma EncodeRuneEncodes(r: nat, e: string)
    requires Scalar(r)
    ensures Encodes(e, r) <==> e == EncodeRune(r)
  {
    EncodeRuneSpells(r);
    hide EncodeRune;
    if Encodes(e, r) {
      SpelledOnce(e, EncodeRune(r), r);
    }
  }

  lemma EncodeRuneSpells(r: nat)
    requires Scalar(r)
    ensures Encodes(EncodeRune(r), r)
  {
    var high := r / 64;
    assert r == 64 * high + r % 64;
    assert r >= 0x800 ==> high == 64 * (high / 64) + high % 64;
    assert high / 64 == r / 4096;
    assert r >= 0x10000 ==> r / 4096 == 64 * (r / 4096 / 64) + r / 4096 % 64;
    assert r / 4096 / 64 == r / 262144;
  }

  lemma DigitsOnce(a: int, b: int, c: int, d: int)
    requires 64 * a + b == 64 * c + d && 0 <= b < 64 && 0 <= d < 64
    ensures a == c && b == d
  {
  }

  lemma SpelledOnce(e: string, f: string, r: nat)
    requires Encodes(e, r) && Encodes(f, r)
    ensures e == f
  {
    var n := |e|;
    if n == 2 {
      DigitsOnce(e[0] as int - 0xC0, e[1] as int - 0x80, f[0] as int - 0xC0, f[1] as int - 0x80);
    } else if n == 3 {
      var a, b := 64 * (e[0] as int - 0xE0) + (e[1] as int - 0x80), 64 * (f[0] as int - 0xE0) + (f[1] as int - 0x80);
      DigitsOnce(a, e[2] as int - 0x80, b, f[2] as int - 0x80);
      DigitsOnce(e[0] as int - 0xE0, e[1] as int - 0x80, f[0] as int - 0xE0, f[1] as int - 0x80);
    } else if n == 4 {
      var a, b := 64 * (e[0] as int - 0xF0) + (e[1] as int - 0x80), 64 * (f[0] as int - 0xF0) + (f[1] as int - 0x80);
      DigitsOnce(64 * a + (e[2] as int - 0x80), e[3] as int - 0x80, 64 * b + (f[2] as int - 0x80), f[3] as int - 0x80);
      DigitsOnce(a, e[2] as int - 0x80, b, f[2] as int - 0x80);
      DigitsOnce(e[0] as int - 0xF0, e[1] as int - 0x80, f[0] as int - 0xF0, f[1] as int - 0x80);
    }
  }

  /** What is recognised as a rune is exactly the encoding of a code point. */
  lemma RuneIsEncoding(e: string)
    ensures e != "" && RuneSize(e) == |e| <==> exists r :: Encodes(e, r)
  {
    if e != "" && RuneSize(e) == |e| {
      RuneSpells(e);
      assert Encodes(e, Spelled(e));
    }
    if r: nat :| Encodes(e, r) {
      EncodingIsRune(e, r);
    }
  }

  lemma RuneSpells(e: string)
    requires e != "" && RuneSize(e) == |e|
    ensures Spelled(e) >= 0 && Encodes(e, Spelled(e))
  {
  }

  lemma EncodingIsRune(e: string, r: nat)
    requires Encodes(e, r)
    ensures e != "" && RuneSize(e) == |e|
  {
  }

  /** The text that spells these code points. */
  function Encoding(rs: seq<nat>): string
    requires forall i :: 0 <= i < |rs| ==> Scalar(rs[i])
  {
    if rs == [] then ""
    else
      assert Scalar(rs[0]);
      EncodeRune(rs[0]) + Encoding(rs[1..])
  }

  ghost predicate Spells(s: string, rs: seq<nat>) {
    (forall i :: 0 <= i < |rs| ==> Scalar(rs[i])) && s == Encoding(rs)
  }

  /** Valid text is exactly what spells some code points. */
  lemma {:induction false} ValidIffSpells(s: string)
    ensures Valid(s) <==> exists rs :: Spells(s, rs)
  {
    if Valid(s) {
      var rs := CodePoints(s);
    }
    if rs :| Spells(s, rs) {
      EncodingValid(rs);
    }
  }

  /** The code point at the head of `s`. */
  function HeadRune(s: string): (r: nat)
    requires RuneSize(s) > 0
    ensures Scalar(r) && Encodes(s[..RuneSize(s)], r) && s[..RuneSize(s)] == EncodeRune(r)
  {
    var e := s[..RuneSize(s)];
    RuneSizeLocal(s, "");
    assert e + "" == e;
    RuneSpells(e);
    EncodeRuneEncodes(Spelled(e), e);
    Spelled(e)
  }

  lemma {:induction false} CodePoints(s: string) returns (rs: seq<nat>)
    requires Valid(s)
    ensures Spells(s, rs)
  {
    hide RuneSize, EncodeRune, Scalar, HeadRune, Encodes;
    rs := [];
    if s != "" {
      var n := RuneSize(s);
      var rest := CodePoints(s[n..]);
      assert s == s[..n] + s[n..];
      rs := [HeadRune(s)] + rest;
      assert rs[1..] == rest;
    }
  }

  lemma {:induction false} EncodingValid(rs: seq<nat>)
    requires forall i :: 0 <= i < |rs| ==> Scalar(rs[i])
    ensures Valid(Encoding(rs))
  {
    if rs != [] {
      var e := EncodeRune(rs[0]);
      EncodeRuneEncodes(rs[0], e);
      EncodingIsRune(e, rs[0]);
      EncodingValid(rs[1..]);
      assert e[..|e|] == e;
      RuneSizeLocal(e, Encoding(rs[1..]));
      assert Encoding(rs)[|e|..] == Encoding(rs[1..]);
    }
  }

  lemma RuneStarts(t: string)
    ensures RuneSize(t) > 0 <==> exists r: nat, e :: Encodes(e, r) && e <= t
  {
    hide Encodes, EncodeRune, RuneSize;
    if RuneSize(t) > 0 {
      var r := HeadRune(t);
      assert Encodes(t[..RuneSize(t)], r) && t[..RuneSize(t)] <= t;
    }
    if r: nat, e :| Encodes(e, r) && e <= t {
      EncodingIsRune(e, r);
      RuneSizeLocal(e, t[|e|..]);
      assert e[..|e|] == e && e + t[|e|..] == t;
    }
  }

  /** A rune at the head of a text is kept. */
  lemma SanitizeHead(head: string, t: string)
    requires head != "" && RuneSize(head) == |head|
    ensures Sanitize(head + t) == head + Sanitize(t)
  {
    hide RuneSize;
    assert head[..|head|] == head;
    RuneSizeLocal(head, t);
    assert (head + t)[..|head|] == head && (head + t)[|head|..] == t;
  }

  lemma {:induction false} SanitizeConcat(s: string, t: string)
    requires Valid(s)
    ensures Sanitize(s + t) == s + Sanitize(t)
  {
    if s == "" {
      assert s + t == t;
    } else {
      hide RuneSize, Sanitize;
      var head, tail := s[..RuneSize(s)], s[RuneSize(s)..];
      RuneSizeLocal(s, "");
      assert head + "" == head && s == head + tail;
      Regroup(head, tail, t);
      Regroup(head, tail, Sanitize(t));
      SanitizeConcat(tail, t);
      SanitizeHead(head, tail + t);
    }
  }

  /** What sanitizing does: valid text stays, and the first byte at which no encoding starts becomes U+FFFD. */
  lemma SanitizeFirstBad(s: string, t: string)
    requires Valid(s) && t != "" && forall r: nat, e :: Encodes(e, r) ==> !(e <= t)
    ensures Sanitize(s + t) == s + ("\U{EF}\U{BF}\U{BD}" + Sanitize(t[1..]))
  {
    RuneStarts(t);
    SanitizeConcat(s, t);
  }
}
