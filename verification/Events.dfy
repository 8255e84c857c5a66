/** The event that carries one request over a server's registration stream, and its reader's view of it. */
module Events {
  import opened Options
  import opened Utf8
  import opened Json

  const TITLE := "event: connection"
  const FIELD := "\nData:"
  const BLANK := "\n\n"

  /** An event up to, and without, the blank line that ends it. */
  function Lines(r: Request): string {
    TITLE + FIELD + " " + Print(r)
  }

  /** `MarshalToSSEEvent`. */
  function Marshal(r: Request): string {
    Lines(r) + BLANK
  }

  predicate OccursAt(s: string, pattern: string, i: nat) {
    i + |pattern| <= |s| && s[i..i + |pattern|] == pattern
  }

  /** `bytes.Index` and `strings.Index`: where `pattern` first occurs. */
  function Index(s: string, pattern: string): (i: Option<nat>)
    ensures i.Some? ==> OccursAt(s, pattern, i.value) && forall j: nat :: j < i.value ==> !OccursAt(s, pattern, j)
    ensures i.None? ==> forall j: nat :: !OccursAt(s, pattern, j)
  {
    if |s| < |pattern| then None
    else if s[..|pattern|] == pattern then
      assert s[0..0 + |pattern|] == s[..|pattern|];
      Some(0)
    else
      assert s != "";
      assert forall j: nat :: j > 0 && OccursAt(s, pattern, j) ==> OccursAt(s[1..], pattern, j - 1) by {
        forall j: nat | j > 0 && OccursAt(s, pattern, j)
          ensures OccursAt(s[1..], pattern, j - 1)
        {
          assert s[1..][j - 1..j - 1 + |pattern|] == s[j..j + |pattern|];
        }
      }
      assert !OccursAt(s, pattern, 0) by {
        assert s[0..0 + |pattern|] == s[..|pattern|];
      }
      match Index(s[1..], pattern)
      case Some(i) =>
        assert s[1..][i..i + |pattern|] == s[i + 1..i + 1 + |pattern|];
        Some(i + 1)
      case None => None
  }

  /** `unicode.IsSpace` on the encoding of one rune. */
  predicate SpaceRune(r: string) {
    if |r| == 1 then '\t' <= r[0] <= '\r' || r[0] == ' '
    else if |r| == 2 then r[0] == '\U{C2}' && (r[1] == '\U{85}' || r[1] == '\U{A0}')
    else if |r| == 3 then
      || (r[0] == '\U{E1}' && r[1] == '\U{9A}' && r[2] == '\U{80}')
      || (r[0] == '\U{E2}' && r[1] == '\U{80}' && ('\U{80}' <= r[2] <= '\U{8A}' || r[2] == '\U{A8}'
          || r[2] == '\U{A9}' || r[2] == '\U{AF}'))
      || (r[0] == '\U{E2}' && r[1] == '\U{81}' && r[2] == '\U{9F}')
      || (r[0] == '\U{E3}' && r[1] == '\U{80}' && r[2] == '\U{80}')
    else false
  }

  function TrimLeft(s: string): string {
    var n := RuneSize(s);
    if n > 0 && SpaceRune(s[..n]) then TrimLeft(s[n..]) else s
  }

  /** Length of the space that ends `s`, or 0. */
  function SpaceSuffix(s: string): (n: nat)
    ensures n <= |s|
    ensures n > 0 ==> SpaceRune(s[|s| - n..])
  {
    if |s| >= 1 && SpaceRune(s[|s| - 1..]) then 1
    else if |s| >= 2 && SpaceRune(s[|s| - 2..]) then 2
    else if |s| >= 3 && SpaceRune(s[|s| - 3..]) then 3
    else 0
  }

  function TrimRight(s: string): (t: string)
    ensures |t| <= |s| && t == s[..|t|]
  {
    if SpaceSuffix(s) > 0 then TrimRight(s[..|s| - SpaceSuffix(s)]) else s
  }

  /** `strings.TrimSpace`. */
  function TrimSpace(s: string): string {
    TrimRight(TrimLeft(s))
  }

  /** Why reading an event can end. `Eof`, `Canceled` and `Broken` come from the connection. */
  datatype ReadError = Eof | Canceled | Broken | TooLong | NoDataField | BadJson

  datatype Received = Got(request: Request) | Failed(error: ReadError)

  /** `UnmarshalFromSSEEvent`. */
  function Unmarshal(event: string): Received {
    match Index(event, FIELD)
    case None => Received.Failed(NoDataField)
    case Some(i) =>
      match Decode(TrimSpace(event[i + |FIELD|..]))
      case None => Received.Failed(BadJson)
      case Some(r) => Got(r)
  }
}
