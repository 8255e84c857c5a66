/** What the JSON text of a request means, read off RFC 8259 without the decoder, and the proof that the decoder
    accepts exactly these texts and gives them this meaning. */
module JsonGrammar {
  import opened Options
  import opened Sequences
  import opened Utf8
  import opened Json
  import opened JsonTheorems

  // ------------------------------------------------------- string literals

  /** One piece of a literal's contents (section 7 of RFC 8259). */
  datatype Piece =
    | Rune(r: nat)                                          // a code point as it is, in UTF-8
    | Bad(b: char)                                          // a byte that belongs to none
    | Short(c: char)                                        // an escape of one letter
    | Unit(h: string, u: nat)                               // \uXXXX, not of a surrogate
    | Pair(h1: string, u1: nat, h2: string, u2: nat)        // the escapes of a surrogate pair
    | Lone(h: string, u: nat)                               // the escape of a surrogate without its other half

  /** The value of a hexadecimal digit of either case, or -1. */
  function Digit(c: char): int {
    var n := c as int;
    if 0x30 <= n <= 0x39 then n - 0x30
    else if 0x41 <= n <= 0x46 then n - 0x41 + 10
    else if 0x61 <= n <= 0x66 then n - 0x61 + 10
    else -1
  }

  /** Four hexadecimal digits that spell `u`. */
  predicate Hex4(h: string, u: nat) {
    && |h| == 4 && (forall i :: 0 <= i < 4 ==> Digit(h[i]) >= 0)
    && u == 0x1000 * Digit(h[0]) + 0x100 * Digit(h[1]) + 0x10 * Digit(h[2]) + Digit(h[3])
  }

  function Encoded(r: nat): string {
    if Scalar(r) then EncodeRune(r) else ""
  }

  function Text(p: Piece): string {
    match p
    case Rune(r) => Encoded(r)
    case Bad(b) => [b]
    case Short(c) => ['\\', c]
    case Unit(h, _) => "\\u" + h
    case Pair(h1, _, h2, _) => "\\u" + h1 + ("\\u" + h2)
    case Lone(h, _) => "\\u" + h
  }

  /** The code point that a piece stands for. */
  function Meaning(p: Piece): nat {
    match p
    case Rune(r) => r
    case Short(c) =>
      if c == 'b' then 0x08
      else if c == 't' then 0x09
      else if c == 'n' then 0x0A
      else if c == 'f' then 0x0C
      else if c == 'r' then 0x0D
      else c as nat
    case Unit(_, u) => u
    case Pair(_, u1, _, u2) =>
      if u1 >= 0xD800 && u2 >= 0xDC00 then 0x10000 + (u1 - 0xD800) * 0x400 + (u2 - 0xDC00) else 0
    case Bad(_) => 0xFFFD
    case Lone(_, _) => 0xFFFD
  }

  /** The escape of a low surrogate opens `t`. */
  ghost predicate LowNext(t: string) {
    exists h, u :: Hex4(h, u) && 0xDC00 <= u <= 0xDFFF && "\\u" + h <= t
  }

  /** `p` is a piece when `t` follows it. */
  ghost predicate PieceOf(p: Piece, t: string) {
    match p
    case Rune(r) => Scalar(r) && r >= 0x20 && r != 0x22 && r != 0x5C
    case Bad(b) => b as int >= 0x80 && forall r: nat, e :: Encodes(e, r) ==> !(e <= [b] + t)
    case Short(c) => c in "\"\\/bfnrt"
    case Unit(h, u) => Hex4(h, u) && !(0xD800 <= u <= 0xDFFF)
    case Pair(h1, u1, h2, u2) => Hex4(h1, u1) && Hex4(h2, u2) && 0xD800 <= u1 <= 0xDBFF && 0xDC00 <= u2 <= 0xDFFF
    case Lone(h, u) => Hex4(h, u) && 0xD800 <= u <= 0xDFFF && !(u <= 0xDBFF && LowNext(t))
  }

  function Texts(ps: seq<Piece>): string {
    if ps == [] then "" else Text(ps[0]) + Texts(ps[1..])
  }

  ghost predicate Literal(ps: seq<Piece>) {
    ps == [] || (PieceOf(ps[0], Texts(ps[1..])) && Literal(ps[1..]))
  }

  function Meanings(ps: seq<Piece>): (rs: seq<nat>)
    ensures |rs| == |ps|
  {
    if ps == [] then [] else [Meaning(ps[0])] + Meanings(ps[1..])
  }

  /** The UTF-8 text of a literal. */
  function Value(ps: seq<Piece>): string {
    if ps == [] then "" else Encoded(Meaning(ps[0])) + Value(ps[1..])
  }

  lemma DigitValue(c: char)
    ensures HexValue(c) == if Digit(c) >= 0 then Some(Digit(c)) else None
    ensures Digit(c) < 16
  {
  }

  lemma HexEscape(h: string, t: string)
    requires |h| == 4
    ensures ("\\u" + h + t)[6..] == t
    ensures forall u: nat :: UnicodeEscape("\\u" + h + t) == Some(u) <==> Hex4(h, u)
  {
    hide HexValue, Digit;
    var s := "\\u" + h + t;
    assert s[0] == '\\' && s[1] == 'u' && s[2] == h[0] && s[3] == h[1] && s[4] == h[2] && s[5] == h[3];
    DigitValue(h[0]);
    DigitValue(h[1]);
    DigitValue(h[2]);
    DigitValue(h[3]);
  }

  lemma EscapeShape(s: string)
    requires UnicodeEscape(s).Some?
    ensures s == "\\u" + s[2..6] + s[6..] && Hex4(s[2..6], UnicodeEscape(s).value)
  {
    HexEscape(s[2..6], s[6..]);
    hide UnicodeEscape, Hex4;
    assert s[..2] == "\\u" && s == s[..2] + s[2..6] + s[6..];
  }

  lemma PieceMeaning(p: Piece, t: string)
    requires PieceOf(p, t)
    ensures Scalar(Meaning(p))
  {
  }

  // ------------------------------------------------------- the decoder reads a piece

  lemma RunePiece(r: nat)
    requires PieceOf(Rune(r), "")
    ensures var e := EncodeRune(r); e != "" && RuneSize(e) == |e| && e[0] >= ' ' && e[0] != '\"' && e[0] != '\\'
    ensures |EncodeRune(r)| > 1 ==> forall i :: 0 <= i < |EncodeRune(r)| ==> 0x80 <= EncodeRune(r)[i] as int
  {
    EncodeRuneEncodes(r, EncodeRune(r));
    EncodingIsRune(EncodeRune(r), r);
  }

  lemma UnquoteBad(b: char, t: string)
    requires PieceOf(Bad(b), t)
    ensures Unquote([b] + t) == Prepend(REPLACEMENT, Unquote(t))
  {
    var s := [b] + t;
    RuneStarts(s);
    assert s[0] == b && s[1..] == t;
  }

  lemma ShortMeaning(c: char)
    ensures c in "\"\\/bfnrt" <==> SimpleEscape(c).Some?
    ensures SimpleEscape(c).Some? ==>
              Scalar(Meaning(Short(c))) && EncodeRune(Meaning(Short(c))) == [SimpleEscape(c).value]
  {
  }

  lemma UnquoteSurrogates(s: string, u: nat, v: nat)
    requires UnicodeEscape(s) == Some(u) && UnicodeEscape(s[6..]) == Some(v)
    requires 0xD800 <= u <= 0xDBFF && 0xDC00 <= v <= 0xDFFF
    ensures |s| >= 12
    ensures Unquote(s) == Prepend(EncodeRune(0x10000 + (u - 0xD800) * 0x400 + (v - 0xDC00)), Unquote(s[12..]))
  {
    hide EncodeRune, RuneSize, Prepend;
  }

  lemma UnquotePair(h1: string, u1: nat, h2: string, u2: nat, t: string)
    requires PieceOf(Pair(h1, u1, h2, u2), t)
    ensures Unquote(Text(Pair(h1, u1, h2, u2)) + t) == Prepend(Encoded(Meaning(Pair(h1, u1, h2, u2))), Unquote(t))
  {
    hide Unquote, UnicodeEscape, EncodeRune, Digit, Prepend;
    var low := "\\u" + h2;
    var rest := low + t;
    var s := "\\u" + h1 + rest;
    Regroup("\\u" + h1, low, t);
    HexEscape(h1, rest);
    HexEscape(h2, t);
    UnquoteSurrogates(s, u1, u2);
    assert s[12..] == s[6..][6..];
  }

  lemma UnquoteLone(h: string, u: nat, t: string)
    requires PieceOf(Lone(h, u), t)
    ensures Unquote("\\u" + h + t) == Prepend(REPLACEMENT, Unquote(t))
  {
    hide UnicodeEscape, EncodeRune, RuneSize, Digit;
    HexEscape(h, t);
    LowSeen(t);
  }

  lemma LowSeen(t: string)
    ensures LowNext(t) <==> UnicodeEscape(t).Some? && 0xDC00 <= UnicodeEscape(t).value < 0xE000
  {
    if UnicodeEscape(t).Some? {
      EscapeShape(t);
    }
    hide UnicodeEscape, Hex4;
    if h, u :| Hex4(h, u) && 0xDC00 <= u <= 0xDFFF && "\\u" + h <= t {
      LowOpens(h, u, t);
    }
  }

  lemma LowOpens(h: string, u: nat, t: string)
    requires Hex4(h, u) && "\\u" + h <= t
    ensures UnicodeEscape(t) == Some(u)
  {
    hide UnicodeEscape;
    HexEscape(h, t[6..]);
    assert t == "\\u" + h + t[6..];
  }

  lemma UnquotePiece(p: Piece, t: string)
    requires PieceOf(p, t)
    ensures Unquote(Text(p) + t) == Prepend(Encoded(Meaning(p)), Unquote(t))
  {
    hide Unquote, UnicodeEscape, EncodeRune, RuneSize, SimpleEscape, Digit, LowNext, Prepend;
    match p
    case Rune(r) =>
      RunePiece(r);
      UnquoteBytes(EncodeRune(r), t);
    case Bad(b) =>
      UnquoteBad(b, t);
      ReplacementEncodes();
    case Short(c) =>
      ShortMeaning(c);
      UnquoteSimple(c, t);
    case Unit(h, u) =>
      HexEscape(h, t);
      UnquoteUnicode("\\u" + h + t, u);
    case Pair(h1, u1, h2, u2) => UnquotePair(h1, u1, h2, u2, t);
    case Lone(h, u) =>
      UnquoteLone(h, u, t);
      ReplacementEncodes();
  }

  lemma ReplacementEncodes()
    ensures EncodeRune(0xFFFD) == REPLACEMENT
  {
  }

  lemma {:induction false} UnquoteLiteral(ps: seq<Piece>)
    requires Literal(ps)
    ensures Unquote(Texts(ps)) == Some(Value(ps))
  {
    hide PieceOf, Text, Meaning, EncodeRune, RuneSize, UnicodeEscape;
    if ps != [] {
      UnquotePiece(ps[0], Texts(ps[1..]));
      UnquoteLiteral(ps[1..]);
    }
  }

  // ------------------------------------------------------- and reads nothing else

  /** The piece that the decoder takes off the front of `s`. */
  lemma FirstPiece(s: string) returns (p: Piece)
    requires s != "" && Unquote(s).Some?
    ensures Text(p) <= s && Text(p) != "" && PieceOf(p, s[|Text(p)|..]) && Unquote(s[|Text(p)|..]).Some?
  {
    if s[0] == '\\' {
      p := FirstEscape(s);
    } else if RuneSize(s) > 0 {
      var r := HeadRune(s);
      var e := s[..RuneSize(s)];
      hide RuneSize, EncodeRune;
      p := Rune(r);
      assert e[0] == s[0] && Text(p) == e;
      AsciiPiece(e, r);
    } else {
      p := Bad(s[0]);
      NoRune(s);
      assert [s[0]] + s[1..] == s;
    }
  }

  lemma AsciiPiece(e: string, r: nat)
    requires Encodes(e, r) && e[0] >= ' ' && e[0] != '\"' && e[0] != '\\'
    ensures r >= 0x20 && r != 0x22 && r != 0x5C
  {
  }

  lemma NoRune(s: string)
    requires s != "" && RuneSize(s) == 0
    ensures s[0] as int >= 0x80 && forall r: nat, e :: Encodes(e, r) ==> !(e <= s)
  {
    RuneStarts(s);
  }

  lemma FirstEscape(s: string) returns (p: Piece)
    requires s != "" && s[0] == '\\' && Unquote(s).Some?
    ensures Text(p) <= s && Text(p) != "" && PieceOf(p, s[|Text(p)|..]) && Unquote(s[|Text(p)|..]).Some?
  {
    hide EncodeRune, RuneSize, HexValue, SimpleEscape, Digit;
    var u := UnicodeEscape(s);
    if u.None? {
      ShortMeaning(s[1]);
      p := Short(s[1]);
    } else {
      EscapeShape(s);
      var h, rest := s[2..6], s[6..];
      hide UnicodeEscape;
      if !Surrogate(u.value) {
        p := Unit(h, u.value);
      } else {
        LowSeen(rest);
        var v := UnicodeEscape(rest);
        if u.value < 0xDC00 && v.Some? && 0xDC00 <= v.value < 0xE000 {
          EscapeShape(rest);
          p := Pair(h, u.value, rest[2..6], v.value);
          assert Text(p) == s[..12] && rest[6..] == s[12..];
        } else {
          p := Lone(h, u.value);
        }
      }
    }
  }

  lemma {:induction false} LiteralOf(s: string) returns (ps: seq<Piece>)
    requires Unquote(s).Some?
    ensures Literal(ps) && Texts(ps) == s
    decreases |s|
  {
    hide Unquote, PieceOf, Text;
    ps := [];
    if s != "" {
      var p := FirstPiece(s);
      var rest := s[|Text(p)|..];
      var more := LiteralOf(rest);
      assert s == Text(p) + rest;
      ps := [p] + more;
      assert ps[1..] == more;
    }
  }

  /** The literals that the decoder reads, and the text it makes of each: exactly those of the grammar. */
  lemma UnquoteIffLiteral(s: string, v: string)
    ensures Unquote(s) == Some(v) <==> exists ps :: Literal(ps) && Texts(ps) == s && Value(ps) == v
  {
    hide Unquote, Literal, Texts, Value;
    if Unquote(s) == Some(v) {
      var ps := LiteralOf(s);
      UnquoteLiteral(ps);
    }
    if ps :| Literal(ps) && Texts(ps) == s && Value(ps) == v {
      UnquoteLiteral(ps);
    }
  }

  /** That text spells the code points that the pieces stand for. */
  lemma {:induction false} ValueSpells(ps: seq<Piece>)
    requires Literal(ps)
    ensures Spells(Value(ps), Meanings(ps))
  {
    hide PieceOf, Meaning, EncodeRune, Text, Scalar;
    if ps != [] {
      PieceMeaning(ps[0], Texts(ps[1..]));
      ValueSpells(ps[1..]);
      assert Meanings(ps)[1..] == Meanings(ps[1..]);
    }
  }

  // ------------------------------------------------------- where a literal ends

  lemma RuneEnds(r: nat, u: string)
    requires PieceOf(Rune(r), "")
    ensures LiteralEnd(EncodeRune(r) + u) == Shift(|EncodeRune(r)|, LiteralEnd(u))
  {
    RunePiece(r);
    hide LiteralEnd, EncodeRune, RuneSize;
    var e := EncodeRune(r);
    if |e| == 1 {
      assert e == [e[0]];
      LiteralEndByte(e[0], u);
    } else {
      LiteralEndBytes(e, u);
    }
  }

  lemma UnitEnds(h: string, v: nat, u: string)
    requires Hex4(h, v)
    ensures LiteralEnd("\\u" + h + u) == Shift(6, LiteralEnd(u))
  {
    hide LiteralEnd, UnicodeEscape, Digit;
    HexEscape(h, u);
    LiteralEndUnicode("\\u" + h + u);
  }

  lemma PairEnds(h1: string, u1: nat, h2: string, u2: nat, u: string)
    requires Hex4(h1, u1) && Hex4(h2, u2)
    ensures LiteralEnd("\\u" + h1 + ("\\u" + h2) + u) == Shift(12, LiteralEnd(u))
  {
    var rest := "\\u" + h2 + u;
    assert "\\u" + h1 + ("\\u" + h2) + u == "\\u" + h1 + rest;
    hide LiteralEnd, Hex4;
    UnitEnds(h1, u1, rest);
    UnitEnds(h2, u2, u);
  }

  lemma PieceEnds(p: Piece, t: string, u: string)
    requires PieceOf(p, t)
    ensures LiteralEnd(Text(p) + u) == Shift(|Text(p)|, LiteralEnd(u))
  {
    hide LiteralEnd, EncodeRune, Encodes, SimpleEscape, Digit, LowNext, Shift;
    match p
    case Rune(r) => RuneEnds(r, u);
    case Bad(b) => LiteralEndByte(b, u);
    case Short(c) =>
      ShortMeaning(c);
      LiteralEndSimple(c, u);
    case Unit(h, v) => UnitEnds(h, v, u);
    case Pair(h1, u1, h2, u2) => PairEnds(h1, u1, h2, u2, u);
    case Lone(h, v) => UnitEnds(h, v, u);
  }

  lemma {:induction false} LiteralEnds(ps: seq<Piece>, u: string)
    requires Literal(ps)
    ensures LiteralEnd(Texts(ps) + u) == Shift(|Texts(ps)|, LiteralEnd(u))
  {
    hide PieceOf, Text, LiteralEnd;
    if ps == [] {
      assert Texts(ps) + u == u;
    } else {
      Regroup(Text(ps[0]), Texts(ps[1..]), u);
      PieceEnds(ps[0], Texts(ps[1..]), Texts(ps[1..]) + u);
      LiteralEnds(ps[1..], u);
    }
  }

  function Quoted(ps: seq<Piece>): string {
    "\"" + Texts(ps) + "\""
  }

  lemma ParseQuoted(ps: seq<Piece>, t: string)
    requires Literal(ps)
    ensures ParseString(Quoted(ps) + t) == Parsed(Value(ps), t)
  {
    hide Unquote, Literal, Texts, Value;
    var whole := Quoted(ps) + t;
    assert whole[1..] == Texts(ps) + ("\"" + t);
    LiteralEnds(ps, "\"" + t);
    assert LiteralEnd("\"" + t) == Some(0);
    assert whole[1..][..|Texts(ps)|] == Texts(ps);
    assert whole[1..][|Texts(ps)| + 1..] == t;
    UnquoteLiteral(ps);
  }

  lemma QuotedShape(s: string, n: nat)
    requires s != "" && s[0] == '\"' && n < |s[1..]| && s[1..][n] == '\"'
    ensures s == "\"" + s[1..][..n] + "\"" + s[1..][n + 1..]
  {
    var x := s[1..];
    var a, b := x[..n], x[n + 1..];
    assert s == "\"" + x && x == a + ("\"" + b);
    Regroup("\"", a, "\"" + b);
    Regroup("\"" + a, "\"", b);
  }

  lemma QuotedOf(s: string) returns (ps: seq<Piece>)
    requires ParseString(s).Parsed?
    ensures Literal(ps) && s == Quoted(ps) + ParseString(s).rest && ParseString(s).value == Value(ps)
  {
    hide Unquote, Literal, Texts, Value;
    var n := LiteralEnd(s[1..]).value;
    QuotedShape(s, n);
    ps := LiteralOf(s[1..][..n]);
    UnquoteLiteral(ps);
  }

  // ------------------------------------------------------- objects

  /** White space (section 2). */
  predicate Blank(w: string) {
    forall i :: 0 <= i < |w| ==> w[i] in " \t\n\r"
  }

  /** A member, with the white space around its four tokens. */
  datatype Field = Field(before: string, key: seq<Piece>, beforeColon: string, afterColon: string, value: seq<Piece>,
      after: string)

  /** A member from its key on. */
  function FieldBody(f: Field): string {
    Quoted(f.key) + (f.beforeColon + (":" + (f.afterColon + (Quoted(f.value) + f.after))))
  }

  ghost predicate FieldOk(f: Field) {
    && Blank(f.before) && Blank(f.beforeColon) && Blank(f.afterColon) && Blank(f.after)
    && Literal(f.key) && Literal(f.value)
  }

  ghost predicate FieldsOk(fs: seq<Field>) {
    forall i :: 0 <= i < |fs| ==> FieldOk(fs[i])
  }

  function FieldsText(fs: seq<Field>): string
    requires fs != []
  {
    fs[0].before + (FieldBody(fs[0]) + (if |fs| == 1 then "" else "," + FieldsText(fs[1..])))
  }

  /** An object whose members are all strings; `inside` is the white space of one that has none. */
  datatype Document = Document(before: string, inside: string, fields: seq<Field>, after: string)

  function DocumentText(d: Document): string {
    d.before + ("{" + ((if d.fields == [] then d.inside else FieldsText(d.fields)) + ("}" + d.after)))
  }

  ghost predicate DocumentOk(d: Document) {
    Blank(d.before) && Blank(d.inside) && Blank(d.after) && FieldsOk(d.fields)
  }

  /** The code point `r` is the letter `c` in either case; the long s counts as an s and the Kelvin sign as a k. */
  predicate SameLetter(r: nat, c: char) {
    || r == c as int
    || ('a' <= c <= 'z' && r == c as int - 32)
    || ('A' <= c <= 'Z' && r == c as int + 32)
    || (c in "sS" && r == 0x17F)
    || (c in "kK" && r == 0x212A)
  }

  predicate Names(key: seq<nat>, name: string) {
    |key| == |name| && forall i :: 0 <= i < |key| ==> SameLetter(key[i], name[i])
  }

  /** The value of the last member of that name, or nothing. */
  function FieldOf(fs: seq<Field>, name: string): string {
    if fs == [] then ""
    else
      var last := fs[|fs| - 1];
      if Names(Meanings(last.key), name) then Value(last.value) else FieldOf(fs[..|fs| - 1], name)
  }

  function Meant(fs: seq<Field>): Request {
    Request(FieldOf(fs, "Data"), FieldOf(fs, "ClientID"), FieldOf(fs, "ServerID"))
  }

  // ------------------------------------------------------- names

  predicate Letters(name: string) {
    forall i :: 0 <= i < |name| ==> 'a' <= name[i] <= 'z' || 'A' <= name[i] <= 'Z'
  }

  function Upper(c: char): char {
    if 'a' <= c <= 'z' then (c as int - 32) as char else c
  }

  function FoldedRune(r: nat): string {
    if 0x61 <= r <= 0x7A then [(r - 32) as char]
    else if r == 0x17F then "S"
    else if r == 0x212A then "K"
    else Encoded(r)
  }

  lemma FoldStep(c: char, t: string)
    requires c as int >= 0x80 && !("\U{C5}\U{BF}" <= [c] + t) && !("\U{E2}\U{84}\U{AA}" <= [c] + t)
    ensures Fold([c] + t) == [c] + Fold(t)
  {
    assert ([c] + t)[0] == c && ([c] + t)[1..] == t;
  }

  lemma {:induction false} FoldContinuations(c: string, t: string)
    requires forall i :: 0 <= i < |c| ==> 0x80 <= c[i] as int <= 0xBF
    ensures Fold(c + t) == c + Fold(t)
  {
    hide Fold;
    if c == "" {
      assert c + t == t;
    } else {
      var rest := c[1..] + t;
      assert c == [c[0]] + c[1..] && ([c[0]] + rest)[0] == c[0];
      Regroup([c[0]], c[1..], t);
      FoldStep(c[0], rest);
      FoldContinuations(c[1..], t);
      Regroup([c[0]], c[1..], Fold(t));
    }
  }

  lemma NoFold(e: string, r: nat, t: string)
    requires Encodes(e, r) && |e| > 1 && r != 0x17F && r != 0x212A
    ensures var s := e + t; s[0] as int >= 0x80 && !("\U{C5}\U{BF}" <= s) && !("\U{E2}\U{84}\U{AA}" <= s)
  {
    hide Fold;
    EncodingIsRune(e, r);
    var s := e + t;
    assert s[0] == e[0] && s[1] == e[1] && (|e| > 2 ==> s[2] == e[2]);
  }

  /** A rune of several bytes that folds to nothing else. */
  lemma FoldBytes(e: string, r: nat, t: string)
    requires Encodes(e, r) && |e| > 1 && r != 0x17F && r != 0x212A
    ensures Fold(e + t) == e + Fold(t)
  {
    hide Fold;
    NoFold(e, r, t);
    FoldContinuations(e[1..], t);
    hide Encodes;
    assert e == [e[0]] + e[1..];
    Regroup([e[0]], e[1..], t);
    FoldStep(e[0], e[1..] + t);
    Regroup([e[0]], e[1..], Fold(t));
  }

  lemma FoldRune(r: nat, t: string)
    requires Scalar(r)
    ensures Fold(EncodeRune(r) + t) == FoldedRune(r) + Fold(t)
  {
    var e := EncodeRune(r);
    var s := e + t;
    EncodeRuneEncodes(r, e);
    if |e| == 1 {
      assert s[0] == e[0] && s[1..] == t;
    } else if r == 0x17F {
      assert e == "\U{C5}\U{BF}" && s[2..] == t && e <= s;
    } else if r == 0x212A {
      assert e == "\U{E2}\U{84}\U{AA}" && s[3..] == t && e <= s;
    } else {
      hide Fold, EncodeRune;
      FoldBytes(e, r, t);
    }
  }

  lemma LetterFolds(r: nat, c: char)
    requires Scalar(r) && Letters([c])
    ensures FoldedRune(r) != "" && (FoldedRune(r)[0] == Upper(c) <==> SameLetter(r, c))
    ensures FoldedRune(r)[0] == Upper(c) ==> |FoldedRune(r)| == 1
  {
    assert [c][0] == c;
    EncodeRuneEncodes(r, EncodeRune(r));
    EncodingIsRune(EncodeRune(r), r);
    hide EncodeRune;
  }

  lemma {:induction false} FoldLetters(name: string)
    requires Letters(name)
    ensures |Fold(name)| == |name| && forall i :: 0 <= i < |name| ==> Fold(name)[i] == Upper(name[i])
  {
    if name != "" {
      FoldLetters(name[1..]);
    }
  }

  /** Names are matched as the code points of a key say. */
  lemma {:induction false} FoldMatches(rs: seq<nat>, name: string)
    requires Letters(name) && forall i :: 0 <= i < |rs| ==> Scalar(rs[i])
    ensures Fold(Encoding(rs)) == Fold(name) <==> Names(rs, name)
  {
    FoldLetters(name);
    if rs == [] {
      assert Fold("") == "";
    } else {
      var e, rest := FoldedRune(rs[0]), Fold(Encoding(rs[1..]));
      assert Scalar(rs[0]);
      FoldRune(rs[0], Encoding(rs[1..]));
      assert Fold(Encoding(rs)) == e + rest;
      hide FoldedRune, Scalar, EncodeRune, SameLetter;
      if name == "" {
        FoldedNonEmpty(rs[0]);
      } else {
        LetterFolds(rs[0], name[0]);
        FoldMatches(rs[1..], name[1..]);
        FoldLetters(name[1..]);
        NamesSplit(rs, name);
        assert Fold(name) == [Upper(name[0])] + Fold(name[1..]);
        assert (e + rest)[0] == e[0] && (e + rest)[|e|..] == rest;
      }
    }
  }

  lemma FoldedNonEmpty(r: nat)
    requires Scalar(r)
    ensures FoldedRune(r) != ""
  {
  }

  lemma NamesSplit(rs: seq<nat>, name: string)
    requires rs != [] && name != ""
    ensures Names(rs, name) <==> SameLetter(rs[0], name[0]) && Names(rs[1..], name[1..])
  {
    hide SameLetter;
    if SameLetter(rs[0], name[0]) && Names(rs[1..], name[1..]) {
      forall i | 0 <= i < |rs|
        ensures SameLetter(rs[i], name[i])
      {
        if i > 0 {
          assert rs[i] == rs[1..][i - 1] && name[i] == name[1..][i - 1];
        }
      }
    }
  }

  // ------------------------------------------------------- the decoder reads a member

  lemma {:induction false} SkipBlank(w: string, t: string)
    requires Blank(w) && (t == "" || !IsSpace(t[0]))
    ensures SkipSpace(w + t) == t
  {
    if w == "" {
      assert w + t == t;
    } else {
      assert (w + t)[0] == w[0] && (w + t)[1..] == w[1..] + t;
      SkipBlank(w[1..], t);
    }
  }

  lemma {:induction false} BlankOf(s: string) returns (w: string)
    ensures Blank(w) && s == w + SkipSpace(s)
    ensures SkipSpace(s) == "" || !IsSpace(SkipSpace(s)[0])
  {
    w := "";
    if s != "" && IsSpace(s[0]) {
      var more := BlankOf(s[1..]);
      assert s == [s[0]] + (more + SkipSpace(s[1..]));
      w := [s[0]] + more;
    }
  }

  lemma ParseField(f: Field, t: string)
    requires FieldOk(f) && t != "" && !IsSpace(t[0])
    ensures ParseMember(FieldBody(f) + t) == Parsed((Value(f.key), Value(f.value)), t)
  {
    hide Literal, Blank, Value, Quoted, ParseString, SkipSpace;
    var s4 := f.after + t;
    var s3 := Quoted(f.value) + s4;
    var s2 := f.afterColon + s3;
    var s1 := f.beforeColon + (":" + s2);
    FieldBodyShape(f, t);
    ParseQuoted(f.key, s1);
    SkipBlank(f.beforeColon, ":" + s2);
    QuotedOpens(f.value, s4);
    SkipBlank(f.afterColon, s3);
    ParseQuoted(f.value, s4);
    SkipBlank(f.after, t);
    assert (":" + s2)[1..] == s2;
  }

  lemma QuotedOpens(ps: seq<Piece>, t: string)
    ensures Quoted(ps) + t != "" && (Quoted(ps) + t)[0] == '\"'
  {
  }

  lemma FieldBodyShape(f: Field, t: string)
    ensures FieldBody(f) + t
         == Quoted(f.key) + (f.beforeColon + (":" + (f.afterColon + (Quoted(f.value) + (f.after + t)))))
  {
    hide Quoted;
    var k, v := Quoted(f.key), Quoted(f.value);
    Regroup(v, f.after, t);
    Regroup(f.afterColon, v + f.after, t);
    Regroup(":", f.afterColon + (v + f.after), t);
    Regroup(f.beforeColon, ":" + (f.afterColon + (v + f.after)), t);
    Regroup(k, f.beforeColon + (":" + (f.afterColon + (v + f.after))), t);
  }

  lemma FieldFrom(s: string) returns (f: Field)
    requires ParseMember(s).Parsed?
    ensures FieldOk(f) && f.before == "" && s == FieldBody(f) + ParseMember(s).rest
    ensures ParseMember(s).value == (Value(f.key), Value(f.value))
  {
    hide Literal, Value, Quoted, ParseString, SkipSpace;
    var key := QuotedOf(s);
    var s1 := ParseString(s).rest;
    var w1 := BlankOf(s1);
    var s2 := SkipSpace(s1)[1..];
    var w2 := BlankOf(s2);
    var s3 := SkipSpace(s2);
    var value := QuotedOf(s3);
    var s4 := ParseString(s3).rest;
    var w3 := BlankOf(s4);
    f := Field("", key, w1, w2, value, w3);
    assert SkipSpace(s1) == ":" + s2;
    FieldBodyShape(f, SkipSpace(s4));
  }

  // ------------------------------------------------------- and an object

  /** The members assigned in their order. */
  function Assigned(fs: seq<Field>, r: Request): Request {
    if fs == [] then r else Assigned(fs[1..], Assign(r, Value(fs[0].key), Value(fs[0].value)))
  }

  lemma FieldsShape(fs: seq<Field>, t: string)
    requires fs != []
    ensures FieldsText(fs) + ("}" + t)
         == fs[0].before + (FieldBody(fs[0]) +
                            (if |fs| == 1 then "}" + t else "," + (FieldsText(fs[1..]) + ("}" + t))))
  {
    hide FieldBody;
    var more := if |fs| == 1 then "" else "," + FieldsText(fs[1..]);
    var u := "}" + t;
    Regroup(fs[0].before, FieldBody(fs[0]) + more, u);
    Regroup(FieldBody(fs[0]), more, u);
    if |fs| == 1 {
      assert more + u == u;
    } else {
      Regroup(",", FieldsText(fs[1..]), u);
    }
  }

  lemma BodyOpens(f: Field, t: string)
    ensures FieldBody(f) + t != "" && !IsSpace((FieldBody(f) + t)[0]) && (FieldBody(f) + t)[0] != '}'
  {
  }

  lemma {:induction false} ParseFields(fs: seq<Field>, t: string, r: Request)
    requires fs != [] && FieldsOk(fs)
    ensures var s := SkipSpace(FieldsText(fs) + ("}" + t));
            s != "" && s[0] != '}' && ParseMembers(s, r) == Parsed(Assigned(fs, r), t)
    decreases |fs|
  {
    hide FieldBody, ParseMember, Assign, Value, SkipSpace, Literal, Blank;
    var tail := if |fs| == 1 then "}" + t else "," + (FieldsText(fs[1..]) + ("}" + t));
    FieldsShape(fs, t);
    BodyOpens(fs[0], tail);
    SkipBlank(fs[0].before, FieldBody(fs[0]) + tail);
    ParseField(fs[0], tail);
    if |fs| == 1 {
      assert tail[1..] == t;
    } else {
      assert tail[1..] == FieldsText(fs[1..]) + ("}" + t);
      ParseFields(fs[1..], t, Assign(r, Value(fs[0].key), Value(fs[0].value)));
    }
  }

  lemma {:induction false} FieldsFrom(s: string, r: Request) returns (fs: seq<Field>)
    requires ParseMembers(s, r).Parsed?
    ensures fs != [] && FieldsOk(fs) && fs[0].before == ""
    ensures s == FieldsText(fs) + ("}" + ParseMembers(s, r).rest) && ParseMembers(s, r).value == Assigned(fs, r)
    decreases |s|
  {
    hide FieldBody, ParseMember, Assign, Value, SkipSpace, Literal, Blank;
    var f := FieldFrom(s);
    var rest, t := ParseMember(s).rest, ParseMembers(s, r).rest;
    if rest[0] == '}' {
      fs := [f];
      assert rest == "}" + t;
    } else {
      SkipSpaceShrinks(rest[1..]);
      var w := BlankOf(rest[1..]);
      var more := FieldsFrom(SkipSpace(rest[1..]), Assign(r, Value(f.key), Value(f.value)));
      var next := more[0 := more[0].(before := w)];
      BlankBefore(more, w);
      fs := [f] + next;
      assert fs[1..] == next;
      assert rest == "," + rest[1..];
      Regroup(w, FieldsText(more), "}" + t);
    }
    FieldsShape(fs, t);
    assert "" + (FieldBody(f) + rest) == FieldBody(f) + rest;
  }

  lemma BlankBefore(fs: seq<Field>, w: string)
    requires fs != [] && FieldsOk(fs) && fs[0].before == "" && Blank(w)
    ensures var gs := fs[0 := fs[0].(before := w)];
            && FieldsOk(gs) && FieldsText(gs) == w + FieldsText(fs)
            && forall r :: Assigned(gs, r) == Assigned(fs, r)
  {
    hide FieldBody, Literal, Blank;
    var gs := fs[0 := fs[0].(before := w)];
    assert gs[1..] == fs[1..];
    BodySame(fs[0], w);
    forall r
      ensures Assigned(gs, r) == Assigned(fs, r)
    {
    }
  }

  lemma BodySame(f: Field, w: string)
    ensures FieldBody(f.(before := w)) == FieldBody(f)
  {
  }

  // ------------------------------------------------------- what its fields mean

  lemma {:induction false} AssignedLast(fs: seq<Field>, f: Field, r: Request)
    ensures Assigned(fs + [f], r) == Assign(Assigned(fs, r), Value(f.key), Value(f.value))
    decreases |fs|
  {
    hide Assign, Value;
    if fs == [] {
      assert ([f] + [])[1..] == [] && fs + [f] == [f];
    } else {
      assert (fs + [f])[1..] == fs[1..] + [f];
      AssignedLast(fs[1..], f, Assign(r, Value(fs[0].key), Value(fs[0].value)));
    }
  }

  lemma AssignNamed(r: Request, key: seq<Piece>, v: string)
    requires Literal(key)
    ensures Assign(r, Value(key), v)
         == Request(if Names(Meanings(key), "Data") then v else r.data,
                    if Names(Meanings(key), "ClientID") then v else r.clientId,
                    if Names(Meanings(key), "ServerID") then v else r.serverId)
  {
    hide Literal, Value, Names, Encoding, Fold;
    NamesDiffer();
    ValueSpells(key);
    FoldMatches(Meanings(key), "Data");
    FoldMatches(Meanings(key), "ClientID");
    FoldMatches(Meanings(key), "ServerID");
  }

  lemma {:induction false} AssignedMeant(fs: seq<Field>)
    requires FieldsOk(fs)
    ensures Assigned(fs, Request("", "", "")) == Meant(fs)
    decreases |fs|
  {
    hide Assign, Value, Names, Literal, Blank;
    if fs != [] {
      var n := |fs| - 1;
      AssignedMeant(fs[..n]);
      AssignedLast(fs[..n], fs[n], Request("", "", ""));
      assert fs == fs[..n] + [fs[n]];
      AssignNamed(Meant(fs[..n]), fs[n].key, Value(fs[n].value));
    }
  }

  // ------------------------------------------------------- whole texts

  lemma DocumentDecodes(d: Document)
    requires DocumentOk(d)
    ensures Decode(DocumentText(d)) == Some(Meant(d.fields))
  {
    hide FieldsText, ParseMembers, SkipSpace, FieldOk, Blank;
    var t := "}" + d.after;
    var body := (if d.fields == [] then d.inside else FieldsText(d.fields)) + t;
    SkipBlank(d.before, "{" + body);
    assert ("{" + body)[1..] == body;
    assert t[1..] == d.after;
    assert d.after + "" == d.after;
    SkipBlank(d.after, "");
    if d.fields == [] {
      SkipBlank(d.inside, t);
    } else {
      ParseFields(d.fields, d.after, Request("", "", ""));
      AssignedMeant(d.fields);
    }
  }

  lemma DocumentOf(s: string) returns (d: Document)
    requires Decode(s).Some?
    ensures DocumentOk(d) && DocumentText(d) == s
  {
    hide FieldsText, ParseMembers, SkipSpace, FieldsOk, Blank;
    var before := BlankOf(s);
    var s1 := SkipSpace(s)[1..];
    var inside := BlankOf(s1);
    var body := SkipSpace(s1);
    var after := BlankOf(ParseObject(s).rest);
    assert SkipSpace(s) == "{" + s1 && after + "" == after;
    var fs := [];
    if body != "" && body[0] == '}' {
      assert body == "}" + after;
      NoFields();
    } else {
      var more := FieldsFrom(body, Request("", "", ""));
      BlankBefore(more, inside);
      fs := more[0 := more[0].(before := inside)];
      Regroup(inside, FieldsText(more), "}" + after);
    }
    d := Document(before, inside, fs, after);
  }

  lemma NoFields()
    ensures FieldsOk([])
  {
  }

  /** The texts that decode, and what they decode to: exactly the objects of the grammar whose members are all
      strings, with the value of the last member of each name. */
  lemma DecodeIffDocument(s: string, r: Request)
    ensures Decode(s) == Some(r) <==> exists d :: DocumentOk(d) && DocumentText(d) == s && Meant(d.fields) == r
  {
    hide Decode, DocumentOk, DocumentText, Meant;
    if Decode(s) == Some(r) {
      var d := DocumentOf(s);
      DocumentDecodes(d);
    }
    if d :| DocumentOk(d) && DocumentText(d) == s && Meant(d.fields) == r {
      DocumentDecodes(d);
    }
  }
}
