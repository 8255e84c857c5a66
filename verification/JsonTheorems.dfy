/** The printer and the decoder undo each other, and no strict prefix of a printed object decodes. */
module JsonTheorems {
  import opened Options
  import opened Sequences
  import opened Utf8
  import opened Json

  // ------------------------------------------------------- what the escaper emits

  predicate Printable(s: string) {
    forall i :: 0 <= i < |s| ==> s[i] >= ' '
  }

  /** U+2028 or U+2029, which end a line in JavaScript. */
  predicate SeparatorAt(s: string, i: nat) {
    && i + 3 <= |s| && s[i] == '\U{E2}' && s[i + 1] == '\U{80}'
    && (s[i + 2] == '\U{A8}' || s[i + 2] == '\U{A9}')
  }

  /** What the printer never emits in a text: the characters of HTML and the line separators. */
  predicate HtmlSafe(s: string) {
    forall i :: 0 <= i < |s| ==> s[i] !in "<>&" && !SeparatorAt(s, i)
  }

  lemma EscapeRunePrintable(r: string)
    requires r != "" && RuneSize(r) == |r|
    ensures Printable(EscapeRune(r))
    ensures 1 <= |EscapeRune(r)| <= 6 * |r|
  {
  }

  /** A line separator starts only where a rune does, so only runes have to be looked at. */
  lemma EscapeRuneSafe(r: string, t: string)
    requires r != "" && RuneSize(r) == |r| && HtmlSafe(t)
    ensures HtmlSafe(EscapeRune(r) + t)
  {
    var e := EscapeRune(r);
    var s := e + t;
    forall i | 0 <= i < |s|
      ensures s[i] !in "<>&" && !SeparatorAt(s, i)
    {
      if i >= |e| {
        SeparatorWithin(e, t, i);
      } else {
        SeparatorAtHead(r, t, i);
      }
    }
  }

  lemma SeparatorWithin(e: string, t: string, i: nat)
    requires |e| <= i < |e + t|
    ensures (e + t)[i] == t[i - |e|] && (SeparatorAt(e + t, i) ==> SeparatorAt(t, i - |e|))
  {
  }

  lemma SeparatorAtHead(r: string, t: string, i: nat)
    requires r != "" && RuneSize(r) == |r| && i < |EscapeRune(r)|
    ensures (EscapeRune(r) + t)[i] !in "<>&" && !SeparatorAt(EscapeRune(r) + t, i)
  {
    var e := EscapeRune(r);
    assert (e + t)[i] == e[i];
    if |r| == 1 || e != r {
      AsciiEscape(r);
      hide EscapeRune;
    } else {
      assert e == r;
    }
  }

  lemma AsciiEscape(r: string)
    requires r != "" && RuneSize(r) == |r| && (|r| == 1 || EscapeRune(r) != r)
    ensures forall i :: 0 <= i < |EscapeRune(r)| ==> EscapeRune(r)[i] as int < 0x80 && EscapeRune(r)[i] !in "<>&"
  {
    if |r| == 1 {
      HexDigitAscii(r[0] as int / 16);
      HexDigitAscii(r[0] as int % 16);
      hide HexDigit;
    }
  }

  lemma HexDigitAscii(d: nat)
    ensures d < 16 ==> HexDigit(d) as int < 0x80 && HexDigit(d) !in "<>&"
  {
  }

  /** No raw control character, so no raw newline, is ever printed, nor anything that HTML or JavaScript would
      take for its own; each byte grows at most sixfold. */
  lemma {:induction false} EscapePrintable(s: string)
    ensures Printable(Escape(s)) && HtmlSafe(Escape(s))
    ensures |Escape(s)| <= 6 * |s|
  {
    hide HtmlSafe, Printable;
    if s == "" {
      EmptySafe();
    } else if RuneSize(s) == 0 {
      EscapePrintable(s[1..]);
      UfffdSafe(Escape(s[1..]));
    } else {
      var n := RuneSize(s);
      RuneSizeLocal(s, "");
      assert s[..n] + "" == s[..n];
      EscapeRunePrintable(s[..n]);
      EscapePrintable(s[n..]);
      EscapeRuneSafe(s[..n], Escape(s[n..]));
      PrintableConcat(EscapeRune(s[..n]), Escape(s[n..]));
    }
  }

  lemma EmptySafe()
    ensures Printable("") && HtmlSafe("")
  {
  }

  lemma PrintableConcat(s: string, t: string)
    requires Printable(s) && Printable(t)
    ensures Printable(s + t)
  {
  }

  lemma UfffdSafe(t: string)
    requires Printable(t) && HtmlSafe(t)
    ensures Printable("\\ufffd" + t) && HtmlSafe("\\ufffd" + t)
  {
    var s := "\\ufffd" + t;
    forall i | 0 <= i < |s|
      ensures s[i] !in "<>&" && !SeparatorAt(s, i)
    {
      if i >= 6 {
        SeparatorWithin("\\ufffd", t, i);
      }
    }
  }

  /** Text that needs no escape: valid, and without control characters, quotes, backslashes, the characters of HTML
      and the line separators. */
  predicate Unescaped(s: string) {
    Valid(s) && HtmlSafe(s) && forall i :: 0 <= i < |s| ==> s[i] as int >= 0x20 && s[i] !in "\"\\"
  }

  lemma EscapeRuneSame(r: string)
    requires r != "" && RuneSize(r) == |r|
    ensures |EscapeRune(r)| >= |r|
    ensures |EscapeRune(r)| == |r| <==> Unescaped(r)
    ensures Unescaped(r) ==> EscapeRune(r) == r
  {
    assert r[..|r|] == r;
    ValidRune(r);
    if |r| > 1 && HtmlSafe(r) {
      assert !SeparatorAt(r, 0);
    }
  }

  lemma UnescapedSplit(s: string, n: nat)
    requires n == RuneSize(s) > 0
    ensures Unescaped(s) <==> Unescaped(s[..n]) && Unescaped(s[n..])
  {
    var head, tail := s[..n], s[n..];
    RuneSizeLocal(s, "");
    assert head + "" == head && s == head + tail;
    ValidRune(s);
    HtmlSafeSplit(head, tail);
    hide RuneSize, HtmlSafe;
    assert forall i :: 0 <= i < |tail| ==> tail[i] == s[n + i];
    assert forall i :: n <= i < |s| ==> s[i] == tail[i - n];
  }

  lemma HtmlSafeSplit(r: string, t: string)
    requires r != "" && RuneSize(r) == |r|
    ensures HtmlSafe(r + t) <==> HtmlSafe(r) && HtmlSafe(t)
  {
    var s := r + t;
    forall i | 0 <= i < |t|
      ensures SeparatorAt(t, i) <==> SeparatorAt(s, |r| + i)
      ensures t[i] == s[|r| + i]
    {
    }
    forall i | 0 <= i < |r|
      ensures SeparatorAt(r, i) <==> SeparatorAt(s, i)
      ensures r[i] == s[i]
    {
    }
    if HtmlSafe(r) && HtmlSafe(t) {
      forall i | 0 <= i < |s|
        ensures s[i] !in "<>&" && !SeparatorAt(s, i)
      {
        if i >= |r| {
          SeparatorWithin(r, t, i);
        }
      }
    }
  }

  /** It is exactly the text that the escaper does not make longer. */
  lemma {:induction false} EscapeLength(s: string)
    ensures |Escape(s)| >= |s|
    ensures |Escape(s)| == |s| <==> Unescaped(s)
    ensures Unescaped(s) ==> Escape(s) == s
  {
    if s == "" {
      EmptySafe();
    } else if RuneSize(s) == 0 {
      EscapeLength(s[1..]);
    } else {
      var n := RuneSize(s);
      hide RuneSize, Unescaped, EscapeRune;
      var head := s[..n];
      assert Escape(s) == EscapeHead(s) + Escape(s[n..]) && s == head + s[n..];
      EscapeLength(s[n..]);
      UnescapedSplit(s, n);
      EscapeRuneSame(head);
    }
  }

  /** And exactly the text that the escaper leaves as it is. */
  lemma EscapeIdentity(s: string)
    ensures Escape(s) == s <==> Unescaped(s)
  {
    EscapeLength(s);
  }

  /** Text the escaper leaves alone. */
  predicate Plain(s: string) {
    forall i :: 0 <= i < |s| ==> ('a' <= s[i] <= 'z' || 'A' <= s[i] <= 'Z')
  }

  lemma {:induction false} EscapePlain(s: string)
    requires Plain(s)
    ensures Escape(s) == s && Sanitize(s) == s
  {
    if s != "" {
      EscapePlain(s[1..]);
      assert EscapeRune(s[..1]) == s[..1];
    }
  }

  lemma ObjectPrintable(a: string, b: string, c: string)
    requires Printable(a) && Printable(b) && Printable(c)
    ensures Printable(Object(a, b, c))
    ensures |Object(a, b, c)| == 4 + |a| + |b| + |c|
    ensures Object(a, b, c)[0] == '{' && Object(a, b, c)[|Object(a, b, c)| - 1] == '}'
  {
  }

  lemma MemberPrintable(key: string, value: string)
    requires Plain(key)
    ensures Printable(Member(key, value))
    ensures |Member(key, value)| == |key| + |Escape(value)| + 5
  {
    EscapePrintable(value);
  }

  lemma KeysPlain()
    ensures Plain(DATA) && Plain(CLIENT_ID) && Plain(SERVER_ID)
    ensures |DATA| == 4 && |CLIENT_ID| == 8 && |SERVER_ID| == 8
  {
  }

  /** The printed object is one line of 39 fixed bytes around the three escaped fields. */
  lemma PrintPrintable(r: Request)
    ensures Printable(Print(r))
    ensures |Print(r)| == 39 + |Escape(r.data)| + |Escape(r.clientId)| + |Escape(r.serverId)|
    ensures Print(r)[0] == '{' && Print(r)[|Print(r)| - 1] == '}'
  {
    hide Object, Member, Printable, Plain, Escape;
    KeysPlain();
    var a, b, c := Member(DATA, r.data), Member(CLIENT_ID, r.clientId), Member(SERVER_ID, r.serverId);
    MemberPrintable(DATA, r.data);
    MemberPrintable(CLIENT_ID, r.clientId);
    MemberPrintable(SERVER_ID, r.serverId);
    ObjectPrintable(a, b, c);
  }

  // ------------------------------------------------------- string literals

  lemma HexDigitValue(d: nat)
    requires d < 16
    ensures HexValue(HexDigit(d)) == Some(d)
  {
  }

  lemma Ufffd(t: string)
    ensures UnicodeEscape("\\ufffd" + t) == Some(0xFFFD)
    ensures ("\\ufffd" + t)[6..] == t
  {
    var s := "\\ufffd" + t;
    assert s[0] == '\\' && s[1] == 'u' && s[2] == 'f' && s[3] == 'f' && s[4] == 'f' && s[5] == 'd';
  }

  lemma ControlEscape(c: char, t: string)
    requires c as int < 0x80
    ensures var s := ['\\', 'u', '0', '0', HexDigit(c as int / 16), HexDigit(c as int % 16)] + t;
            UnicodeEscape(s) == Some(c as int) && s[6..] == t
  {
    HexDigitValue(c as int / 16);
    HexDigitValue(c as int % 16);
  }

  lemma LineSeparator(d: char, t: string)
    requires d == '8' || d == '9'
    ensures UnicodeEscape("\\u202" + [d] + t) == Some(0x2020 + (d as int - '0' as int))
    ensures ("\\u202" + [d] + t)[6..] == t
    ensures EncodeRune(0x2020 + (d as int - '0' as int)) == ['\U{E2}', '\U{80}',
        (0xA0 + (d as int - '0' as int)) as char]
  {
    var s := "\\u202" + [d] + t;
    assert s[0] == '\\' && s[1] == 'u' && s[2] == '2' && s[3] == '0' && s[4] == '2' && s[5] == d;
  }

  lemma UnquoteUnicode(s: string, u: nat)
    requires UnicodeEscape(s) == Some(u) && !Surrogate(u)
    ensures Unquote(s) == Prepend(EncodeRune(u), Unquote(s[6..]))
  {
  }

  lemma UnquoteSimple(c: char, t: string)
    requires SimpleEscape(c).Some?
    ensures Unquote(['\\', c] + t) == Prepend([SimpleEscape(c).value], Unquote(t))
  {
    hide RuneSize, EncodeRune, HexValue, Prepend;
    var s := ['\\', c] + t;
    assert s[0] == '\\' && s[1] == c && s[2..] == t;
    assert UnicodeEscape(s).None?;
  }

  lemma UnquoteBytes(r: string, t: string)
    requires r != "" && RuneSize(r) == |r| && r[0] >= ' ' && r[0] != '\"' && r[0] != '\\'
    ensures Unquote(r + t) == Prepend(r, Unquote(t))
  {
    RuneSizeLocal(r, t);
    assert r[..|r|] == r;
    assert (r + t)[..|r|] == r && (r + t)[|r|..] == t && (r + t)[0] == r[0];
  }

  lemma AsciiRune(c: char)
    requires c as int < 0x80
    ensures EncodeRune(c as int) == [c] && !Surrogate(c as int) && RuneSize([c]) == 1
  {
  }

  lemma UnquoteAscii(c: char, t: string)
    requires c as int < 0x80
    ensures RuneSize([c]) == 1 && Unquote(EscapeRune([c]) + t) == Prepend([c], Unquote(t))
  {
    hide Unquote, UnicodeEscape, EncodeRune, Prepend;
    AsciiRune(c);
    var e := EscapeRune([c]);
    if |e| == 2 {
      assert e == ['\\', e[1]];
      UnquoteSimple(e[1], t);
    } else if |e| == 6 {
      ControlEscape(c, t);
      UnquoteUnicode(e + t, c as int);
    } else {
      UnquoteBytes([c], t);
    }
  }

  /** One escaped rune is read back as that rune, whatever comes next. */
  lemma UnquoteRune(r: string, t: string)
    requires r != "" && RuneSize(r) == |r|
    ensures Unquote(EscapeRune(r) + t) == Prepend(r, Unquote(t))
  {
    if |r| == 1 {
      assert r == [r[0]];
      UnquoteAscii(r[0], t);
    } else if r == "\U{E2}\U{80}\U{A8}" {
      LineSeparator('8', t);
      UnquoteUnicode("\\u2028" + t, 0x2028);
    } else if r == "\U{E2}\U{80}\U{A9}" {
      LineSeparator('9', t);
      UnquoteUnicode("\\u2029" + t, 0x2029);
    } else {
      UnquoteBytes(r, t);
    }
  }

  lemma {:induction false} UnquoteEscape(s: string)
    ensures Unquote(Escape(s)) == Some(Sanitize(s))
  {
    if s != "" {
      var n := RuneSize(s);
      if n == 0 {
        UnquoteEscape(s[1..]);
        Ufffd(Escape(s[1..]));
        assert EncodeRune(0xFFFD) == REPLACEMENT;
      } else {
        UnquoteEscape(s[n..]);
        RuneSizeLocal(s, "");
        assert s[..n] + "" == s[..n];
        UnquoteRune(s[..n], Escape(s[n..]));
      }
    }
  }

  /** The literal scanner steps over one escaped rune without seeing a closing quote in it. */
  lemma LiteralEndRune(r: string, t: string)
    requires r != "" && RuneSize(r) == |r|
    ensures LiteralEnd(EscapeRune(r) + t) == Shift(|EscapeRune(r)|, LiteralEnd(t))
  {
    var e := EscapeRune(r);
    var s := e + t;
    if |r| == 1 {
      var c := r[0];
      if |e| == 2 {
        LiteralEndSimple(e[1], t);
        assert s == ['\\', e[1]] + t;
      } else if |e| == 6 {
        ControlEscape(c, t);
        LiteralEndUnicode(s);
      } else {
        LiteralEndByte(c, t);
        assert s == [c] + t;
      }
    } else if e == "\\u2028" {
      LineSeparator('8', t);
      LiteralEndUnicode(s);
    } else if e == "\\u2029" {
      LineSeparator('9', t);
      LiteralEndUnicode(s);
    } else {
      LiteralEndBytes(r, t);
    }
  }

  function Shift(k: nat, n: Option<nat>): Option<nat> {
    match n
    case Some(m) => Some(k + m)
    case None => None
  }

  lemma LiteralEndSimple(c: char, t: string)
    requires SimpleEscape(c).Some?
    ensures LiteralEnd(['\\', c] + t) == Shift(2, LiteralEnd(t))
  {
    var s := ['\\', c] + t;
    assert s[0] == '\\' && s[1] == c && s[2..] == t;
  }

  lemma LiteralEndUnicode(s: string)
    requires UnicodeEscape(s).Some?
    ensures LiteralEnd(s) == Shift(6, LiteralEnd(s[6..]))
  {
  }

  lemma {:induction false} LiteralEndBytes(r: string, t: string)
    requires forall i :: 0 <= i < |r| ==> 0x80 <= r[i] as int
    ensures LiteralEnd(r + t) == Shift(|r|, LiteralEnd(t))
  {
    hide LiteralEnd;
    if r == "" {
      assert r + t == t;
    } else {
      LiteralEndBytes(r[1..], t);
      assert r + t == [r[0]] + (r[1..] + t);
      LiteralEndByte(r[0], r[1..] + t);
    }
  }

  lemma LiteralEndByte(c: char, t: string)
    requires c >= ' ' && c != '\"' && c != '\\'
    ensures LiteralEnd([c] + t) == Shift(1, LiteralEnd(t))
  {
    var s := [c] + t;
    assert s[0] == c && s[1..] == t;
  }

  lemma LiteralEndUfffd(t: string)
    ensures LiteralEnd("\\ufffd" + t) == Shift(6, LiteralEnd(t))
  {
    Ufffd(t);
    LiteralEndUnicode("\\ufffd" + t);
  }

  /** The printed form of the valid rune at the head of `s`. */
  function EscapeHead(s: string): string
    requires RuneSize(s) > 0
    ensures Escape(s) == EscapeHead(s) + Escape(s[RuneSize(s)..])
    ensures RuneSize(s[..RuneSize(s)]) == RuneSize(s)
    ensures EscapeHead(s) == EscapeRune(s[..RuneSize(s)])
  {
    RuneSizeLocal(s, "");
    assert s[..RuneSize(s)] + "" == s[..RuneSize(s)];
    EscapeRune(s[..RuneSize(s)])
  }

  /** The printed form of the rune, or of the bad byte, at the head of `s`, and its size in `s`. */
  function FirstEscaped(s: string): (e: (string, nat))
    requires s != ""
    ensures 0 < e.1 <= |s| && Escape(s) == e.0 + Escape(s[e.1..])
  {
    if RuneSize(s) == 0 then ("\\ufffd", 1) else (EscapeHead(s), RuneSize(s))
  }

  lemma LiteralEndFirst(s: string, rest: string)
    requires s != ""
    ensures LiteralEnd(FirstEscaped(s).0 + rest) == Shift(|FirstEscaped(s).0|, LiteralEnd(rest))
  {
    hide LiteralEnd, EscapeRune, Escape;
    if RuneSize(s) == 0 {
      LiteralEndUfffd(rest);
    } else {
      LiteralEndRune(s[..RuneSize(s)], rest);
    }
  }

  lemma {:induction false} LiteralEndEscape(s: string, tail: string)
    requires tail != "" && tail[0] == '\"'
    ensures LiteralEnd(Escape(s) + tail) == Some(|Escape(s)|)
    decreases |s|
  {
    if s == "" {
      assert Escape(s) + tail == tail;
    } else {
      hide LiteralEnd, FirstEscaped, Escape;
      var (e, k) := FirstEscaped(s);
      LiteralEndEscape(s[k..], tail);
      Regroup(e, Escape(s[k..]), tail);
      LiteralEndFirst(s, Escape(s[k..]) + tail);
    }
  }

  lemma ParseQuote(s: string, t: string)
    ensures ParseString(Quote(s) + t) == Parsed(Sanitize(s), t)
  {
    var whole := Quote(s) + t;
    assert whole[1..] == Escape(s) + ("\"" + t);
    LiteralEndEscape(s, "\"" + t);
    assert whole[1..][..|Escape(s)|] == Escape(s);
    assert whole[1..][|Escape(s)| + 1..] == t;
    UnquoteEscape(s);
  }

  // ------------------------------------------------------- the object

  lemma ParsePlainKey(key: string, t: string)
    requires Plain(key)
    ensures ParseString("\"" + key + "\"" + t) == Parsed(key, t)
  {
    EscapePlain(key);
    ParseQuote(key, t);
  }

  lemma ConcatMember(key: string, value: string, t: string)
    ensures Member(key, value) + t == "\"" + key + "\"" + (":" + (Quote(value) + t))
  {
    assert Member(key, value) == "\"" + key + "\"" + (":" + Quote(value));
  }

  lemma ParseMemberPrinted(key: string, value: string, t: string)
    requires Plain(key) && t != "" && !IsSpace(t[0])
    ensures ParseMember(Member(key, value) + t) == Parsed((key, Sanitize(value)), t)
  {
    var after := Quote(value) + t;
    var colon := ":" + after;
    ConcatMember(key, value, t);
    ParsePlainKey(key, colon);
    assert colon[0] == ':' && SkipSpace(colon) == colon;
    assert colon[1..] == after;
    assert after[0] == '\"' && SkipSpace(after) == after;
    ParseQuote(value, t);
  }

  /** A member followed by a comma and more members. */
  lemma ParseMembersComma(key: string, value: string, more: string, r: Request)
    requires Plain(key) && more != "" && !IsSpace(more[0])
    ensures ParseMembers(Member(key, value) + ("," + more), r) == ParseMembers(more, Assign(r, key, Sanitize(value)))
  {
    ParseMemberPrinted(key, value, "," + more);
    assert ("," + more)[1..] == more && SkipSpace(more) == more;
  }

  lemma ParseMembersLast(key: string, value: string, t: string, r: Request)
    requires Plain(key)
    ensures ParseMembers(Member(key, value) + ("}" + t), r) == Parsed(Assign(r, key, Sanitize(value)), t)
  {
    ParseMemberPrinted(key, value, "}" + t);
    assert ("}" + t)[1..] == t;
  }

  lemma ConcatObject(a: string, b: string, c: string, t: string)
    ensures Object(a, b, c) + t == "{" + (a + ("," + (b + ("," + (c + ("}" + t))))))
  {
    assert c + "}" + t == c + ("}" + t);
    assert "{" + a + "," + b + "," + c + "}" + t == "{" + a + "," + b + "," + (c + ("}" + t));
    var u := c + ("}" + t);
    assert "{" + a + "," + b + "," + u == "{" + a + "," + (b + ("," + u));
    var v := b + ("," + u);
    assert "{" + a + "," + v == "{" + (a + ("," + v));
  }

  lemma ParseOpen(body: string)
    requires body != "" && body[0] == '\"'
    ensures ParseObject("{" + body) == ParseMembers(body, Request("", "", ""))
  {
    hide ParseMembers;
    assert ("{" + body)[1..] == body;
  }

  /** The text after the opening brace, and the request it builds up, for three plain keys. */
  lemma ParseThree(k1: string, v1: string, k2: string, v2: string, k3: string, v3: string, t: string, r: Request)
    requires Plain(k1) && Plain(k2) && Plain(k3)
    ensures ParseMembers(Member(k1, v1) + ("," + (Member(k2, v2) + ("," + (Member(k3, v3) + ("}" + t))))), r)
         == Parsed(Assign(Assign(Assign(r, k1, Sanitize(v1)), k2, Sanitize(v2)), k3, Sanitize(v3)), t)
  {
    var s2 := Member(k3, v3) + ("}" + t);
    var s1 := Member(k2, v2) + ("," + s2);
    assert s1[0] == '\"' && s2[0] == '\"';
    var r1 := Assign(r, k1, Sanitize(v1));
    ParseMembersComma(k1, v1, s1, r);
    ParseMembersComma(k2, v2, s2, r1);
    ParseMembersLast(k3, v3, t, Assign(r1, k2, Sanitize(v2)));
  }

  lemma AssignAll(r: Request, d: string, c: string, s: string)
    ensures Assign(Assign(Assign(r, DATA, d), CLIENT_ID, c), SERVER_ID, s) == Request(d, c, s)
  {
    NamesDiffer();
    hide Fold;
  }

  lemma NamesDiffer()
    ensures Fold(DATA) != Fold(CLIENT_ID) && Fold(CLIENT_ID) != Fold(SERVER_ID) && Fold(SERVER_ID) != Fold(DATA)
  {
    assert Fold(DATA)[0] == 'D' && Fold(CLIENT_ID)[0] == 'C' && Fold(SERVER_ID)[0] == 'S';
  }

  lemma MemberOpens(key: string, value: string, t: string)
    ensures Member(key, value) + t != "" && (Member(key, value) + t)[0] == '\"'
  {
  }

  lemma ParsePrint(r: Request, t: string)
    ensures ParseObject(Print(r) + t) == Parsed(r.Clean(), t)
  {
    hide Object, Member, ParseObject, ParseMembers, Assign, Sanitize, Plain;
    KeysPlain();
    var a, b, c := Member(DATA, r.data), Member(CLIENT_ID, r.clientId), Member(SERVER_ID, r.serverId);
    ConcatObject(a, b, c, t);
    var body := a + ("," + (b + ("," + (c + ("}" + t)))));
    MemberOpens(DATA, r.data, "," + (b + ("," + (c + ("}" + t)))));
    ParseOpen(body);
    ParseThree(DATA, r.data, CLIENT_ID, r.clientId, SERVER_ID, r.serverId, t, Request("", "", ""));
    AssignAll(Request("", "", ""), Sanitize(r.data), Sanitize(r.clientId), Sanitize(r.serverId));
  }

  /** Marshal then unmarshal gives the request back, with invalid bytes replaced. */
  lemma RoundTrip(r: Request)
    ensures Decode(Print(r)) == Some(r.Clean())
    ensures r.Clean() == r <==> r.IsValid()
  {
    ParsePrint(r, "");
    assert Print(r) + "" == Print(r);
    SanitizeIdentity(r.data);
    SanitizeIdentity(r.clientId);
    SanitizeIdentity(r.serverId);
  }

  // ------------------------------------------------------- decoded text is valid

  lemma {:induction false} ValidConcat(s: string, t: string)
    requires Valid(s) && Valid(t)
    ensures Valid(s + t)
  {
    hide RuneSize;
    if s == "" {
      assert s + t == t;
    } else {
      var n := RuneSize(s);
      RuneSizeLocal(s, s[n..] + t);
      assert s[..n] + (s[n..] + t) == s + t;
      ValidConcat(s[n..], t);
      assert (s + t)[n..] == s[n..] + t;
    }
  }

  lemma ValidRune(s: string)
    requires RuneSize(s) > 0
    ensures Valid(s[..RuneSize(s)])
  {
    RuneSizeLocal(s, "");
    assert s[..RuneSize(s)] + "" == s[..RuneSize(s)];
  }

  lemma ValidEncoding(r: nat)
    requires r < 0x110000
    ensures Valid(EncodeRune(r))
  {
    hide RuneSize, EncodeRune, Encodes;
    if Scalar(r) {
      EncodeRuneEncodes(r, EncodeRune(r));
      EncodingIsRune(EncodeRune(r), r);
      ValidRune(EncodeRune(r));
    } else {
      SurrogateHalf(r);
      ReplacementValid();
    }
  }

  lemma SurrogateHalf(r: nat)
    requires r < 0x110000 && !Scalar(r)
    ensures EncodeRune(r) == REPLACEMENT
  {
  }

  lemma PrependValid(head: string, tail: Option<string>)
    requires Valid(head) && (tail.Some? ==> Valid(tail.value))
    ensures Prepend(head, tail).Some? ==> Valid(Prepend(head, tail).value)
  {
    if tail.Some? {
      ValidConcat(head, tail.value);
    }
  }

  /** Whatever escapes and bytes a literal holds, the text it stands for is valid UTF-8. */
  lemma {:induction false} UnquotedValid(s: string)
    requires Unquote(s).Some?
    ensures Valid(Unquote(s).value)
    decreases |s|
  {
    hide Valid, EncodeRune;
    if s == "" {
      EmptyValid();
    } else if s[0] == '\\' {
      UnquotedEscapeValid(s);
    } else {
      var n := RuneSize(s);
      if n == 0 {
        UnquotedValid(s[1..]);
        ReplacementValid();
        PrependValid(REPLACEMENT, Unquote(s[1..]));
      } else {
        UnquotedValid(s[n..]);
        ValidRune(s);
        PrependValid(s[..n], Unquote(s[n..]));
      }
    }
  }

  lemma EmptyValid()
    ensures Valid("")
  {
  }

  lemma ReplacementValid()
    ensures Valid(REPLACEMENT)
  {
    assert RuneSize(REPLACEMENT) == 3 && REPLACEMENT[3..] == "";
  }

  lemma SimpleValid(c: char)
    requires SimpleEscape(c).Some?
    ensures Valid([SimpleEscape(c).value])
  {
    var e := [SimpleEscape(c).value];
    assert RuneSize(e) == 1 && e[1..] == "";
  }

  lemma {:induction false} UnquotedEscapeValid(s: string)
    requires Unquote(s).Some? && s != "" && s[0] == '\\'
    ensures Valid(Unquote(s).value)
    decreases |s|, 0
  {
    hide Valid, EncodeRune;
    var u := UnicodeEscape(s);
    if u.None? {
      SimpleValid(s[1]);
      UnquotedValid(s[2..]);
      PrependValid([SimpleEscape(s[1]).value], Unquote(s[2..]));
    } else if !Surrogate(u.value) {
      ValidEncoding(u.value);
      UnquotedValid(s[6..]);
      PrependValid(EncodeRune(u.value), Unquote(s[6..]));
    } else {
      var v := UnicodeEscape(s[6..]);
      if v.Some? && u.value < 0xDC00 <= v.value < 0xE000 {
        var r := 0x10000 + (u.value - 0xD800) * 1024 + (v.value - 0xDC00);
        ValidEncoding(r);
        UnquotedValid(s[12..]);
        PrependValid(EncodeRune(r), Unquote(s[12..]));
      } else {
        ReplacementValid();
        UnquotedValid(s[6..]);
        PrependValid(REPLACEMENT, Unquote(s[6..]));
      }
    }
  }

  lemma ParsedStringValid(s: string)
    requires ParseString(s).Parsed?
    ensures Valid(ParseString(s).value)
  {
    UnquotedValid(s[1..][..LiteralEnd(s[1..]).value]);
  }

  lemma {:induction false} ParsedMembersValid(s: string, r: Request)
    requires r.IsValid() && ParseMembers(s, r).Parsed?
    ensures ParseMembers(s, r).value.IsValid()
    decreases |s|
  {
    hide Valid, ParseString, Fold;
    ParsedMemberValid(s);
    var m := ParseMember(s);
    if m.rest[0] == ',' {
      SkipSpaceShrinks(m.rest[1..]);
      ParsedMembersValid(SkipSpace(m.rest[1..]), Assign(r, m.value.0, m.value.1));
    }
  }

  lemma ParsedMemberValid(s: string)
    requires ParseMember(s).Parsed?
    ensures Valid(ParseMember(s).value.1)
  {
    hide Valid, ParseString;
    ParsedStringValid(SkipSpace(SkipSpace(ParseString(s).rest)[1..]));
  }

  /** Every request that comes out of the decoder is valid text, so the next printer passes it on unaltered. */
  lemma DecodedIsValid(s: string)
    requires Decode(s).Some?
    ensures Decode(s).value.IsValid() && Decode(s).value.Clean() == Decode(s).value
  {
    var r := Decode(s).value;
    EmptyValid();
    var body := SkipSpace(SkipSpace(s)[1..]);
    if body == "" || body[0] != '}' {
      ParsedMembersValid(body, Request("", "", ""));
    }
    SanitizeIdentity(r.data);
    SanitizeIdentity(r.clientId);
    SanitizeIdentity(r.serverId);
  }

  // ------------------------------------------------------- parsing only looks at what it consumes

  lemma {:induction false} LiteralEndExtends(p: string, q: string)
    requires LiteralEnd(p).Some?
    ensures LiteralEnd(p + q) == LiteralEnd(p)
  {
    if p[0] != '\"' {
      var k := PieceSize(p);
      assert PieceSize(p + q) == k;
      assert (p + q)[k..] == p[k..] + q;
      LiteralEndExtends(p[k..], q);
    }
  }

  lemma {:induction false} SkipSpaceExtends(p: string, q: string)
    requires SkipSpace(p) != ""
    ensures SkipSpace(p + q) == SkipSpace(p) + q
  {
    if IsSpace(p[0]) {
      assert (p + q)[1..] == p[1..] + q;
      SkipSpaceExtends(p[1..], q);
    }
  }

  lemma ParseStringExtends(p: string, q: string)
    requires ParseString(p).Parsed?
    ensures ParseString(p + q) == Parsed(ParseString(p).value, ParseString(p).rest + q)
  {
    hide LiteralEnd, Unquote;
    var n := LiteralEnd(p[1..]).value;
    assert (p + q)[1..] == p[1..] + q && (p + q)[0] == p[0];
    LiteralEndExtends(p[1..], q);
    SliceExtends(p[1..], q, n);
  }

  lemma SliceExtends(x: string, q: string, n: nat)
    requires n < |x|
    ensures (x + q)[..n] == x[..n] && (x + q)[n + 1..] == x[n + 1..] + q
  {
  }

  lemma ParseMemberExtends(p: string, q: string)
    requires ParseMember(p).Parsed? && ParseMember(p).rest != ""
    ensures ParseMember(p + q) == Parsed(ParseMember(p).value, ParseMember(p).rest + q)
  {
    ParseStringExtends(p, q);
    var afterKey := ParseString(p).rest;
    SkipSpaceExtends(afterKey, q);
    var colon := SkipSpace(afterKey);
    assert (colon + q)[1..] == colon[1..] + q;
    SkipSpaceExtends(colon[1..], q);
    ParseStringExtends(SkipSpace(colon[1..]), q);
    SkipSpaceExtends(ParseString(SkipSpace(colon[1..])).rest, q);
  }

  lemma {:induction false} ParseMembersExtends(p: string, q: string, r: Request)
    requires ParseMembers(p, r).Parsed?
    ensures ParseMembers(p + q, r) == Parsed(ParseMembers(p, r).value, ParseMembers(p, r).rest + q)
    decreases |p|
  {
    hide ParseMember, SkipSpace, Assign;
    ParseMemberExtends(p, q);
    var m := ParseMember(p);
    assert (m.rest + q)[1..] == m.rest[1..] + q;
    if m.rest[0] == ',' {
      SkipSpaceShrinks(m.rest[1..]);
      SkipSpaceExtends(m.rest[1..], q);
      ParseMembersExtends(SkipSpace(m.rest[1..]), q, Assign(r, m.value.0, m.value.1));
    }
  }

  /** An object that parses still parses, to the same value, when more bytes follow it. */
  lemma ParseObjectExtends(p: string, q: string)
    requires ParseObject(p).Parsed?
    ensures ParseObject(p + q) == Parsed(ParseObject(p).value, ParseObject(p).rest + q)
  {
    SkipSpaceExtends(p, q);
    var open := SkipSpace(p);
    assert (open + q)[1..] == open[1..] + q;
    SkipSpaceExtends(open[1..], q);
    var body := SkipSpace(open[1..]);
    if body[0] == '}' {
      assert (body + q)[1..] == body[1..] + q;
    } else {
      ParseMembersExtends(body, q, Request("", "", ""));
    }
  }

  /** Cutting a printed object anywhere leaves text that does not decode, so no altered request can come of it. */
  lemma PrefixRejected(r: Request, k: nat)
    requires k < |Print(r)|
    ensures Decode(Print(r)[..k]).None?
  {
    hide Print, ParseObject, Request.Clean;
    var p, q := Print(r)[..k], Print(r)[k..];
    if ParseObject(p).Parsed? {
      ParseObjectExtends(p, q);
      assert p + q == Print(r) == Print(r) + "";
      ParsePrint(r, "");
      assert false;
    }
  }
}
