/** The part of Go's `encoding/json` that carries a request: the string escaper with HTML escaping on,
    the printed three-string object, and a decoder for objects whose members are all strings. */
module Json {
  import opened Options
  import opened Utf8

  /** `api.ConnectionRequest`: the message a client's dial puts on a server's event stream. */
  datatype Request = Request(data: string, clientId: string, serverId: string) {
    /** What survives a trip through JSON: each field with its invalid bytes replaced. */
    function Clean(): Request {
      Request(Sanitize(data), Sanitize(clientId), Sanitize(serverId))
    }

    predicate IsValid() {
      Valid(data) && Valid(clientId) && Valid(serverId)
    }
  }

  // The member names of the printed object.
  const DATA := "Data"
  const CLIENT_ID := "ClientID"
  const SERVER_ID := "ServerID"

  // ---------------------------------------------------------------- printing

  function HexDigit(d: nat): char
    requires d < 16
  {
    "0123456789abcdef"[d]
  }

  /** The printed form of one valid rune. */
  function EscapeRune(r: string): (e: string)
    requires r != "" && RuneSize(r) == |r|
  {
    if |r| == 1 then
      var c := r[0];
      if c == '\"' || c == '\\' then ['\\', c]
      else if c == '\U{8}' then "\\b"
      else if c == '\U{C}' then "\\f"
      else if c == '\n' then "\\n"
      else if c == '\r' then "\\r"
      else if c == '\t' then "\\t"
      else if c < ' ' || c == '<' || c == '>' || c == '&' then
        ['\\', 'u', '0', '0', HexDigit(c as int / 16), HexDigit(c as int % 16)]
      else [c]
    else if r == "\U{E2}\U{80}\U{A8}" then "\\u2028"
    else if r == "\U{E2}\U{80}\U{A9}" then "\\u2029"
    else r
  }

  function Escape(s: string): string {
    if s == "" then ""
    else
      var n := RuneSize(s);
      if n == 0 then "\\ufffd" + Escape(s[1..])
      else
        RuneSizeLocal(s, "");
        assert s[..n] + "" == s[..n];
        EscapeRune(s[..n]) + Escape(s[n..])
  }

  function Quote(s: string): string {
    "\"" + Escape(s) + "\""
  }

  /** A member; the encoder keeps its key ready quoted, so only the value goes through the escaper. */
  function Member(key: string, value: string): string {
    "\"" + key + "\":" + Quote(value)
  }

  function Object(a: string, b: string, c: string): string {
    "{" + a + "," + b + "," + c + "}"
  }

  /** `json.Marshal` of a request. */
  function Print(r: Request): string {
    Object(Member(DATA, r.data), Member(CLIENT_ID, r.clientId), Member(SERVER_ID, r.serverId))
  }

  // ---------------------------------------------------------------- decoding

  predicate IsSpace(c: char) {
    c == ' ' || c == '\t' || c == '\r' || c == '\n'
  }

  function SkipSpace(s: string): string {
    if s != "" && IsSpace(s[0]) then SkipSpace(s[1..]) else s
  }

  function HexValue(c: char): Option<nat> {
    if '0' <= c <= '9' then Some(c as int - '0' as int)
    else if 'a' <= c <= 'f' then Some(c as int - 'a' as int + 10)
    else if 'A' <= c <= 'F' then Some(c as int - 'A' as int + 10)
    else None
  }

  /** The code unit of a `\uXXXX` escape at the head of `s`. */
  function UnicodeEscape(s: string): (u: Option<nat>)
    ensures u.Some? ==> |s| >= 6 && u.value < 0x10000
  {
    if |s| < 6 || s[0] != '\\' || s[1] != 'u' then None
    else
      match (HexValue(s[2]), HexValue(s[3]), HexValue(s[4]), HexValue(s[5]))
      case (Some(a), Some(b), Some(c), Some(d)) =>
        if a < 16 && b < 16 && c < 16 && d < 16 then Some(4096 * a + 256 * b + 16 * c + d) else None
      case _ => None
  }

  /** What the one-letter escape `\c` stands for. */
  function SimpleEscape(c: char): Option<char> {
    if c == '\"' || c == '\\' || c == '/' then Some(c)
    else if c == 'b' then Some('\U{8}')
    else if c == 'f' then Some('\U{C}')
    else if c == 'n' then Some('\n')
    else if c == 'r' then Some('\r')
    else if c == 't' then Some('\t')
    else None
  }

  /** Length of the literal piece the scanner accepts at the head of `s`: one byte or one escape; 0 when it rejects. */
  function PieceSize(s: string): (n: nat)
    ensures n <= |s|
  {
    if s == "" || s[0] < ' ' then 0
    else if s[0] != '\\' then 1
    else if |s| >= 2 && SimpleEscape(s[1]).Some? then 2
    else if UnicodeEscape(s).Some? then 6
    else 0
  }

  /** Index of the quote that closes the string literal whose opening quote precedes `s`. */
  function LiteralEnd(s: string): (n: Option<nat>)
    ensures n.Some? ==> n.value < |s| && s[n.value] == '\"'
  {
    if s == "" then None
    else if s[0] == '\"' then Some(0)
    else
      var k := PieceSize(s);
      if k == 0 then None
      else match LiteralEnd(s[k..])
        case Some(m) => Some(k + m)
        case None => None
  }

  predicate Surrogate(u: nat) {
    0xD800 <= u < 0xE000
  }

  function Prepend(head: string, tail: Option<string>): Option<string> {
    match tail
    case Some(t) => Some(head + t)
    case None => None
  }

  /** The text a literal's contents stand for, coerced to valid UTF-8. */
  function Unquote(s: string): Option<string>
    decreases |s|
  {
    if s == "" then Some("")
    else if s[0] == '\"' || s[0] < ' ' then None
    else if s[0] == '\\' then
      match UnicodeEscape(s)
      case Some(u) =>
        if Surrogate(u) then
          match UnicodeEscape(s[6..])
          case Some(v) =>
            if u < 0xDC00 <= v < 0xE000 then
              Prepend(EncodeRune(0x10000 + (u - 0xD800) * 1024 + (v - 0xDC00)), Unquote(s[12..]))
            else Prepend(REPLACEMENT, Unquote(s[6..]))
          case None => Prepend(REPLACEMENT, Unquote(s[6..]))
        else Prepend(EncodeRune(u), Unquote(s[6..]))
      case None =>
        if |s| < 2 then None
        else match SimpleEscape(s[1])
          case Some(c) => Prepend([c], Unquote(s[2..]))
          case None => None
    else
      var n := RuneSize(s);
      if n == 0 then Prepend(REPLACEMENT, Unquote(s[1..])) else Prepend(s[..n], Unquote(s[n..]))
  }

  datatype Parsed<T> = Failed | Parsed(value: T, rest: string)

  function ParseString(s: string): (p: Parsed<string>)
    ensures p.Parsed? ==> |p.rest| < |s|
  {
    if s == "" || s[0] != '\"' then Failed
    else match LiteralEnd(s[1..])
      case None => Failed
      case Some(n) =>
        match Unquote(s[1..][..n])
        case None => Failed
        case Some(text) => Parsed(text, s[1..][n + 1..])
  }

  /** `foldName`: names are matched without regard to case. Besides the ASCII letters, the long s and the Kelvin
      sign fold to one; what else folds never comes to equal the name of a member. */
  function Fold(name: string): string {
    if name == "" then ""
    else if 'a' <= name[0] <= 'z' then [(name[0] as int - 32) as char] + Fold(name[1..])
    else if "\U{C5}\U{BF}" <= name then "S" + Fold(name[2..])
    else if "\U{E2}\U{84}\U{AA}" <= name then "K" + Fold(name[3..])
    else [name[0]] + Fold(name[1..])
  }

  function Assign(r: Request, key: string, value: string): Request {
    if Fold(key) == Fold(DATA) then r.(data := value)
    else if Fold(key) == Fold(CLIENT_ID) then r.(clientId := value)
    else if Fold(key) == Fold(SERVER_ID) then r.(serverId := value)
    else r
  }

  lemma SkipSpaceShrinks(s: string)
    ensures |SkipSpace(s)| <= |s|
  {
  }

  /** One `"key" : "value"` pair; the rest starts at the next token. */
  function ParseMember(s: string): (p: Parsed<(string, string)>)
    ensures p.Parsed? ==> |p.rest| < |s|
  {
    match ParseString(s)
    case Failed => Failed
    case Parsed(key, afterKey) =>
      var colon := SkipSpace(afterKey);
      SkipSpaceShrinks(afterKey);
      if colon == "" || colon[0] != ':' then Failed
      else
        SkipSpaceShrinks(colon[1..]);
        match ParseString(SkipSpace(colon[1..]))
        case Failed => Failed
        case Parsed(value, afterValue) =>
          SkipSpaceShrinks(afterValue);
          Parsed((key, value), SkipSpace(afterValue))
  }

  /** The members of an object up to and including its closing brace. */
  function ParseMembers(s: string, r: Request): Parsed<Request>
    decreases |s|
  {
    match ParseMember(s)
    case Failed => Failed
    case Parsed((key, value), rest) =>
      if rest == "" then Failed
      else if rest[0] == '}' then Parsed(Assign(r, key, value), rest[1..])
      else if rest[0] == ',' then
        SkipSpaceShrinks(rest[1..]);
        ParseMembers(SkipSpace(rest[1..]), Assign(r, key, value))
      else Failed
  }

  function ParseObject(s: string): Parsed<Request> {
    var open := SkipSpace(s);
    if open == "" || open[0] != '{' then Failed
    else
      var body := SkipSpace(open[1..]);
      if body != "" && body[0] == '}' then Parsed(Request("", "", ""), body[1..])
      else ParseMembers(body, Request("", "", ""))
  }

  /** `json.Unmarshal` into an empty request. */
  function Decode(s: string): Option<Request> {
    match ParseObject(s)
    case Failed => None
    case Parsed(r, rest) => if SkipSpace(rest) == "" then Some(r) else None
  }
}
