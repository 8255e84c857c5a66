/** One event read back, whole or cut short. */
module EventTheorems {
  import opened Options
  import opened Sequences
  import opened Utf8
  import opened Json
  import opened JsonTheorems
  import opened Events

  lemma HeaderShape()
    ensures |TITLE| == 17 && Printable(TITLE)
    ensures |FIELD| == 6 && FIELD[0] == '\n' && Printable(FIELD[1..])
    ensures |BLANK| == 2 && BLANK[0] == '\n' && BLANK[1] == '\n'
  {
  }

  lemma OnlyLineFeed(title: string, field: string, rest: string)
    requires Printable(title) && Printable(rest)
    requires field != "" && field[0] == '\n' && Printable(field[1..])
    ensures forall i :: 0 <= i < |title + field + rest| ==> ((title + field + rest)[i] == '\n' <==> i == |title|)
  {
    assert field == [field[0]] + field[1..];
  }

  /** A line feed occurs in an event's lines only at the start of its Data field. */
  lemma LinesShape(r: Request)
    ensures |Lines(r)| == 24 + |Print(r)|
    ensures forall i :: 0 <= i < |Lines(r)| ==> (Lines(r)[i] == '\n' <==> i == 17)
    ensures Lines(r)[17..23] == FIELD && Lines(r)[23..] == " " + Print(r)
  {
    HeaderShape();
    PrintPrintable(r);
    var rest := " " + Print(r);
    assert Printable(rest);
    assert Lines(r) == TITLE + FIELD + rest;
    OnlyLineFeed(TITLE, FIELD, rest);
  }

  /** The blank line that ends an event is the first one in the stream from that event on. */
  lemma FirstBlank(r: Request, t: string)
    ensures Index(Marshal(r) + t, BLANK) == Some(|Lines(r)|)
    ensures |Marshal(r)| == |Lines(r)| + 2
  {
    HeaderShape();
    LinesShape(r);
    var s := Marshal(r) + t;
    var n := |Lines(r)|;
    assert forall i :: 0 <= i < n ==> s[i] == Lines(r)[i];
    assert s[n..n + 2] == BLANK;
    assert OccursAt(s, BLANK, n);
    forall j: nat | j < n
      ensures !OccursAt(s, BLANK, j)
    {
      assert s[j..j + 2][0] == s[j] && s[j..j + 2][1] == s[j + 1];
      assert s[j] == '\n' ==> j == 17 && s[j + 1] != '\n';
    }
  }

  lemma NoBlankInCut(r: Request, k: nat)
    requires k < |Marshal(r)|
    ensures Index(Marshal(r)[..k], BLANK) == None
  {
    FirstBlank(r, "");
    assert Marshal(r) + "" == Marshal(r);
    var p := Marshal(r)[..k];
    forall j: nat
      ensures !OccursAt(p, BLANK, j)
    {
      if OccursAt(p, BLANK, j) {
        assert p[j..j + 2] == Marshal(r)[j..j + 2];
        assert OccursAt(Marshal(r), BLANK, j);
      }
    }
  }

  // ------------------------------------------------------- trimming

  lemma TrimLeftSpace(p: string)
    requires p == "" || p[0] == '{'
    ensures TrimLeft(" " + p) == p
  {
    var s := " " + p;
    assert s[..1] == " " && s[1..] == p;
    if p != "" {
      assert p[..1] == "{";
    }
  }

  lemma NoSpaceSuffix(p: string, n: nat)
    requires 0 < n <= |p| && p[|p| - 1] == '}'
    ensures !SpaceRune(p[|p| - n..])
  {
    assert p[|p| - n..][n - 1] == '}';
  }

  lemma NoSpaceAtEnd(p: string)
    requires p != "" && p[|p| - 1] == '}'
    ensures TrimRight(p) == p
  {
    hide SpaceRune;
    NoSpaceSuffix(p, 1);
    if |p| >= 2 {
      NoSpaceSuffix(p, 2);
    }
    if |p| >= 3 {
      NoSpaceSuffix(p, 3);
    }
  }

  lemma TrimLineFeed(p: string)
    ensures TrimRight(p + "\n") == TrimRight(p)
  {
    var s := p + "\n";
    assert s[|s| - 1..] == "\n" && s[..|s| - 1] == p;
  }

  lemma TrimLines(p: string, tail: string)
    requires p != "" && p[|p| - 1] == '}'
    requires tail == "" || tail == "\n" || tail == BLANK
    ensures TrimRight(p + tail) == p
  {
    hide TrimRight;
    NoSpaceAtEnd(p);
    if tail == "" {
      assert p + tail == p;
    } else if tail == "\n" {
      TrimLineFeed(p);
    } else {
      TrimLineFeed(p);
      TrimLineFeed(p + "\n");
      assert p + tail == p + "\n" + "\n";
    }
  }

  lemma TrimPrint(r: Request, tail: string)
    requires tail == "" || tail == "\n" || tail == BLANK
    ensures TrimSpace(" " + Print(r) + tail) == Print(r)
  {
    PrintPrintable(r);
    var p := Print(r);
    assert " " + p + tail == " " + (p + tail);
    assert (p + tail)[0] == '{';
    TrimLeftSpace(p + tail);
    TrimLines(p, tail);
  }

  /** What is trimmed off a cut object leaves a strict prefix of the printed object. */
  lemma TrimCut(r: Request, k: nat)
    requires k < |Print(r)|
    ensures exists m: nat :: m <= k && TrimSpace(" " + Print(r)[..k]) == Print(r)[..m]
  {
    PrintPrintable(r);
    var p := Print(r)[..k];
    TrimLeftSpace(p);
    var t := TrimRight(p);
    assert t == p[..|t|] == Print(r)[..|t|];
  }

  // ------------------------------------------------------- the field is found first at its place

  lemma FieldFound(r: Request, s: string)
    requires |s| >= 23 && s[..23] == Lines(r)[..23]
    ensures Index(s, FIELD) == Some(17)
  {
    HeaderShape();
    LinesShape(r);
    assert forall i :: 0 <= i < 23 ==> s[i] == s[..23][i] == Lines(r)[i];
    assert s[17..23] == Lines(r)[17..23];
    assert OccursAt(s, FIELD, 17);
    forall j: nat | j < 17
      ensures !OccursAt(s, FIELD, j)
    {
      assert s[j..j + 6][0] == s[j];
    }
  }

  lemma FieldMissing(r: Request, k: nat)
    requires k < 23
    ensures |Lines(r)| >= 23 && Index(Lines(r)[..k], FIELD) == None
  {
    HeaderShape();
    LinesShape(r);
    var p := Lines(r)[..k];
    forall j: nat
      ensures !OccursAt(p, FIELD, j)
    {
      if j + 6 <= |p| {
        assert p[j..j + 6][0] == p[j] == Lines(r)[j];
      }
    }
  }

  /** A whole event reads back, and losing any part of its final blank line is harmless. */
  lemma UnmarshalWhole(r: Request, tail: string)
    requires tail == "" || tail == "\n" || tail == BLANK
    ensures Unmarshal(Lines(r) + tail) == Got(r.Clean())
  {
    HeaderShape();
    LinesShape(r);
    var s := Lines(r) + tail;
    assert s[..23] == Lines(r)[..23];
    FieldFound(r, s);
    assert s[23..] == " " + Print(r) + tail;
    TrimPrint(r, tail);
    RoundTrip(r);
  }

  lemma DecodeCut(r: Request, k: nat)
    requires k < |Print(r)|
    ensures Decode(TrimSpace(" " + Print(r)[..k])).None?
  {
    TrimCut(r, k);
    var m: nat :| m <= k && TrimSpace(" " + Print(r)[..k]) == Print(r)[..m];
    PrefixRejected(r, m);
  }

  lemma DecodeEmpty(s: string)
    requires s == ""
    ensures Decode(TrimSpace(s)).None?
  {
    assert TrimLeft(s) == s;
    assert TrimRight(s) == s;
  }

  lemma DataCut(r: Request, k: nat)
    requires k < 1 + |Print(r)|
    ensures Decode(TrimSpace((" " + Print(r))[..k])).None?
  {
    hide Print, Decode, TrimSpace;
    if k == 0 {
      DecodeEmpty((" " + Print(r))[..k]);
    } else {
      assert (" " + Print(r))[..k] == " " + Print(r)[..k - 1];
      DecodeCut(r, k - 1);
    }
  }

  /** An event cut before its closing brace is an error, never another request. */
  lemma UnmarshalCut(r: Request, k: nat)
    requires k < |Lines(r)|
    ensures Unmarshal(Lines(r)[..k]).Failed?
  {
    HeaderShape();
    LinesShape(r);
    var p := Lines(r)[..k];
    if k < 23 {
      FieldMissing(r, k);
    } else {
      assert p[..23] == Lines(r)[..23];
      FieldFound(r, p);
      assert p[17 + 6..] == (" " + Print(r))[..k - 23];
      DataCut(r, k - 23);
    }
  }

  /** The exact length of an event: 65 fixed bytes around the three escaped fields. */
  lemma EventLength(r: Request)
    ensures |Marshal(r)| == 65 + |Escape(r.data)| + |Escape(r.clientId)| + |Escape(r.serverId)|
    ensures |Marshal(r)| <= 65 + 6 * (|r.data| + |r.clientId| + |r.serverId|)
  {
    FirstBlank(r, "");
    LinesShape(r);
    PrintPrintable(r);
    EscapePrintable(r.data);
    EscapePrintable(r.clientId);
    EscapePrintable(r.serverId);
  }

  // ------------------------------------------------------- the bytes on the wire

  /** The object of three fields, and the event around it, in the clear. */
  function ObjectText(d: string, c: string, s: string): string {
    "{\"Data\":\"" + d + "\",\"ClientID\":\"" + c + "\",\"ServerID\":\"" + s + "\"}"
  }

  function EventText(d: string, c: string, s: string): string {
    "event: connection\nData: " + ObjectText(d, c, s) + "\n\n"
  }

  lemma Spread(head: string, open: string, text: string, quote: string, tail: string)
    ensures head + (open + (text + quote)) + tail == (head + open) + text + (quote + tail)
  {
  }

  /** The fixed bytes between the fields put together. */
  lemma ObjectSpread(k1: string, d: string, k2: string, c: string, k3: string, s: string, quote: string)
    ensures Object(k1 + (d + quote), k2 + (c + quote), k3 + (s + quote))
         == ("{" + k1) + d + (quote + "," + k2) + c + (quote + "," + k3) + s + (quote + "}")
  {
    var head := ("{" + k1) + d;
    Spread("{", k1, d, quote, ",");
    Regroup(head, quote + ",", k2);
    var next := head + (quote + "," + k2) + c;
    Spread(head + (quote + ","), k2, c, quote, ",");
    Regroup(next, quote + ",", k3);
    Spread(next + (quote + ","), k3, s, quote, "}");
  }

  lemma PrintText(r: Request)
    ensures Print(r) == ObjectText(Escape(r.data), Escape(r.clientId), Escape(r.serverId))
  {
    hide Escape, Member, Object;
    MemberText("Data", r.data);
    MemberText("ClientID", r.clientId);
    MemberText("ServerID", r.serverId);
    ObjectSpread("\"Data\":\"", Escape(r.data), "\"ClientID\":\"", Escape(r.clientId), "\"ServerID\":\"",
      Escape(r.serverId), "\"");
    FixedBytes();
  }

  lemma FixedBytes()
    ensures "{" + "\"Data\":\"" == "{\"Data\":\"" && "\"" + "," + "\"ClientID\":\"" == "\",\"ClientID\":\""
    ensures "\"" + "," + "\"ServerID\":\"" == "\",\"ServerID\":\"" && "\"" + "}" == "\"}"
    ensures "\"" + "Data" + "\":\"" == "\"Data\":\"" && "\"" + "ClientID" + "\":\"" == "\"ClientID\":\""
    ensures "\"" + "ServerID" + "\":\"" == "\"ServerID\":\""
  {
  }

  lemma MemberText(key: string, value: string)
    ensures Member(key, value) == ("\"" + key + "\":\"") + (Escape(value) + "\"")
  {
    hide Escape;
    assert "\"" + key + "\":" + ("\"" + Escape(value) + "\"") == ("\"" + key + "\":\"") + (Escape(value) + "\"");
  }

  /** The bytes of an event; in the clear exactly where the fields need no escape. */
  lemma MarshalText(r: Request)
    ensures Marshal(r) == EventText(Escape(r.data), Escape(r.clientId), Escape(r.serverId))
    ensures Unescaped(r.data) && Unescaped(r.clientId) && Unescaped(r.serverId)
        ==> Marshal(r) == EventText(r.data, r.clientId, r.serverId)
  {
    hide Escape, Unescaped, Print, ObjectText;
    PrintText(r);
    assert TITLE + FIELD + " " == "event: connection\nData: ";
    EscapeIdentity(r.data);
    EscapeIdentity(r.clientId);
    EscapeIdentity(r.serverId);
  }

  // ------------------------------------------------------- any event, not only a printed one

  /** White space as Unicode defines it (property White_Space). */
  predicate White(r: nat) {
    || 0x09 <= r <= 0x0D || r == 0x20 || r == 0x85 || r == 0xA0 || r == 0x1680 || 0x2000 <= r <= 0x200A
    || r == 0x2028 || r == 0x2029 || r == 0x202F || r == 0x205F || r == 0x3000
  }

  lemma SpaceRuneWhite(e: string, r: nat)
    requires Encodes(e, r)
    ensures SpaceRune(e) <==> White(r)
  {
  }

  predicate AllWhite(w: seq<nat>) {
    forall i :: 0 <= i < |w| ==> White(w[i])
  }

  /** Text that starts and ends with visible ASCII characters. */
  predicate Bounded(x: string) {
    x != "" && '!' <= x[0] <= '~' && '!' <= x[|x| - 1] <= '~'
  }

  lemma {:induction false} TrimLeftWhite(w: seq<nat>, x: string)
    requires AllWhite(w) && x != "" && '!' <= x[0] <= '~'
    ensures TrimLeft(Encoding(w) + x) == x
  {
    if w == [] {
      assert Encoding(w) + x == x;
    } else {
      var e, rest := EncodeRune(w[0]), Encoding(w[1..]) + x;
      EncodeRuneEncodes(w[0], e);
      EncodingIsRune(e, w[0]);
      SpaceRuneWhite(e, w[0]);
      hide EncodeRune, Encodes, SpaceRune, RuneSize;
      Regroup(e, Encoding(w[1..]), x);
      assert e[..|e|] == e;
      RuneSizeLocal(e, rest);
      assert (e + rest)[..|e|] == e && (e + rest)[|e|..] == rest;
      TrimLeftWhite(w[1..], x);
    }
  }

  /** The space that ends a text is its last rune. */
  lemma SpaceSuffixWhite(s: string, e: string, r: nat)
    requires Encodes(e, r) && White(r)
    ensures SpaceSuffix(s + e) == |e| && (s + e)[..|s|] == s
  {
    SpaceRuneWhite(e, r);
    var t := s + e;
    assert t[|t| - |e|..] == e;
    assert t[|t| - 1..] == [e[|e| - 1]];
    if |e| == 3 {
      assert t[|t| - 2..] == [e[1], e[2]];
    }
  }

  lemma VisibleNoSpace(s: string, k: nat)
    requires 0 < k <= |s| && '!' <= s[|s| - 1] <= '~'
    ensures !SpaceRune(s[|s| - k..])
  {
    var r := s[|s| - k..];
    assert r[k - 1] == s[|s| - 1];
  }

  lemma VisibleEnd(s: string)
    requires s != "" && '!' <= s[|s| - 1] <= '~'
    ensures SpaceSuffix(s) == 0
  {
    hide SpaceRune;
    VisibleNoSpace(s, 1);
    if |s| >= 2 {
      VisibleNoSpace(s, 2);
    }
    if |s| >= 3 {
      VisibleNoSpace(s, 3);
    }
  }

  lemma {:induction false} EncodingAppend(rs: seq<nat>, r: nat)
    requires Scalar(r) && forall i :: 0 <= i < |rs| ==> Scalar(rs[i])
    ensures Encoding(rs + [r]) == Encoding(rs) + EncodeRune(r)
    decreases |rs|
  {
    hide EncodeRune;
    if rs == [] {
      assert ([r] + [])[1..] == [] && rs + [r] == [r];
    } else {
      assert (rs + [r])[1..] == rs[1..] + [r];
      EncodingAppend(rs[1..], r);
    }
  }

  lemma {:induction false} TrimRightWhite(x: string, w: seq<nat>)
    requires AllWhite(w) && x != "" && '!' <= x[|x| - 1] <= '~'
    ensures TrimRight(x + Encoding(w)) == x
    decreases |w|
  {
    if w == [] {
      assert x + Encoding(w) == x;
      VisibleEnd(x);
    } else {
      var n := |w| - 1;
      var e, before := EncodeRune(w[n]), Encoding(w[..n]);
      EncodingAppend(w[..n], w[n]);
      assert w == w[..n] + [w[n]];
      EncodeRuneEncodes(w[n], e);
      hide EncodeRune, Encodes, SpaceSuffix;
      Regroup(x, before, e);
      SpaceSuffixWhite(x + before, e, w[n]);
      TrimRightWhite(x, w[..n]);
    }
  }

  /** An event whose first Data field holds `x` between any white space is read as `x` decodes; an event without such
      a field is an error. */
  lemma UnmarshalField(head: string, before: seq<nat>, x: string, after: seq<nat>)
    requires AllWhite(before) && AllWhite(after) && Bounded(x)
    requires forall j: nat :: j < |head| ==> !OccursAt(head + "\nData:", "\nData:", j)
    ensures Unmarshal(head + "\nData:" + (Encoding(before) + x + Encoding(after)))
            == match Decode(x)
               case Some(r) => Got(r)
               case None => Received.Failed(BadJson)
  {
    hide Decode, TrimLeft, TrimRight, Encoding;
    var body := Encoding(before) + x + Encoding(after);
    var event := head + "\nData:" + body;
    assert event[|head|..|head| + 6] == "\nData:";
    assert OccursAt(event, "\nData:", |head|);
    forall j: nat | j < |head|
      ensures !OccursAt(event, "\nData:", j)
    {
      EarlierOccurs(head + "\nData:", body, j);
    }
    assert Index(event, FIELD) == Some(|head|);
    assert event[|head| + 6..] == body;
    var padded := x + Encoding(after);
    Regroup(Encoding(before), x, Encoding(after));
    assert padded[0] == x[0];
    TrimLeftWhite(before, padded);
    TrimRightWhite(x, after);
  }

  lemma EarlierOccurs(s: string, t: string, j: nat)
    requires j + 6 <= |s|
    ensures OccursAt(s + t, "\nData:", j) <==> OccursAt(s, "\nData:", j)
  {
    assert (s + t)[j..j + 6] == s[j..j + 6];
  }

  /** The error of an event without a Data field is its own. */
  lemma UnmarshalNoField(event: string)
    ensures Unmarshal(event) == Received.Failed(NoDataField) <==> forall j: nat :: !OccursAt(event, "\nData:", j)
  {
    hide Decode, TrimSpace;
    if j: nat :| OccursAt(event, "\nData:", j) {
      assert Index(event, FIELD).Some?;
    }
  }
}
