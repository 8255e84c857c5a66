/** Routing messages, optionally sealed to a relay key, and the relay's trial opening over a keyring that
    may be replaced while it serves. Sealed boxes are symbolic: only their own key opens them, and the
    bytes of a box are never a JSON text. */
module Routing {
  import opened Options
  import opened Json
  import opened JsonTheorems

  /** A relay key pair, by identity: equal keys are the same public and private halves. */
  type Key = nat

  datatype Blob = Plain(text: string) | Sealed(to: Key, text: string)

  datatype Decoded = Ok(request: Request) | NotOpened | NotJson

  /** `EncodeRouting`: sealed when the sender was given the relay's public key. */
  function EncodeRouting(r: Request, relayPub: Option<Key>): Blob {
    match relayPub
    case Some(key) => Sealed(key, Print(r))
    case None => Plain(Print(r))
  }

  /** `box.OpenAnonymous`. */
  function OpenAnonymous(blob: Blob, key: Key): Option<string> {
    if blob.Sealed? && blob.to == key then Some(blob.text) else None
  }

  function Unmarshal(text: string): Decoded {
    match Decode(text)
    case Some(r) => Ok(r)
    case None => NotJson
  }

  /** `json.Unmarshal` on the bytes of a message as they arrived. */
  function UnmarshalBlob(blob: Blob): Decoded {
    match blob
    case Plain(text) => Unmarshal(text)
    case Sealed(_, _) => NotJson
  }

  /** What trial opening is for: the message's own key is somewhere in the ring. */
  predicate Openable(blob: Blob, ring: seq<Key>) {
    blob.Sealed? && blob.to in ring
  }

  /** `OpenRouting`: tries the keys in ring order and stops at the first that opens. */
  method OpenRouting(blob: Blob, ring: seq<Key>) returns (d: Decoded)
    ensures d == if Openable(blob, ring) then Unmarshal(blob.text) else NotOpened
  {
    for i := 0 to |ring|
      invariant !Openable(blob, ring[..i])
    {
      var plain := OpenAnonymous(blob, ring[i]);
      if plain.Some? {
        return Unmarshal(plain.value);
      }
    }
    assert ring[..|ring|] == ring;
    return NotOpened;
  }

  /** The message a relay with this keyring reads out of `blob`. */
  function Opened(blob: Blob, ring: seq<Key>): Decoded {
    if Openable(blob, ring) then Unmarshal(blob.text) else UnmarshalBlob(blob)
  }

  /** The relay's routing state: the keyring behind an atomic pointer, unset until the first replacement. */
  class RelayData {
    var routingKeys: Option<seq<Key>>

    constructor ()
      ensures routingKeys == None
    {
      routingKeys := None;
    }

    function Ring(): seq<Key>
      reads this
    {
      if routingKeys.Some? then routingKeys.value else []
    }

    method SetRoutingKeys(ring: seq<Key>)
      modifies this
      ensures Ring() == ring
    {
      routingKeys := Some(ring);
    }

    /** Opens a sealed message with the current keyring, and takes anything else for plaintext JSON. */
    method DecodeRouting(body: Blob) returns (d: Decoded)
      ensures d == Opened(body, Ring())
    {
      if routingKeys.Some? && |routingKeys.value| > 0 {
        d := OpenRouting(body, routingKeys.value);
        if d.Ok? {
          return;
        }
      }
      d := UnmarshalBlob(body);
    }
  }

  /** What happens at a serving relay: a replacement of the keyring, or a message to decode. */
  datatype Event = Replace(ring: seq<Key>) | Receive(blob: Blob)

  /** What each event yields at a relay that starts with keyring `ring`. */
  function Serve(ring: seq<Key>, events: seq<Event>): (ds: seq<Option<Decoded>>)
    ensures |ds| == |events|
    decreases |events|
  {
    if events == [] then []
    else match events[0]
      case Replace(next) => [None] + Serve(next, events[1..])
      case Receive(blob) => [Some(Opened(blob, ring))] + Serve(ring, events[1..])
  }

  /** The last keyring set by `events`, or `ring` if they set none. */
  function LastRing(ring: seq<Key>, events: seq<Event>): seq<Key>
    decreases |events|
  {
    if events == [] then ring
    else match events[|events| - 1]
      case Replace(next) => next
      case Receive(_) => LastRing(ring, events[..|events| - 1])
  }

  lemma {:induction false} LastRingStep(ring: seq<Key>, events: seq<Event>)
    requires events != []
    ensures LastRing(ring, events) == LastRing(if events[0].Replace? then events[0].ring else ring, events[1..])
    decreases |events|
  {
    var n := |events| - 1;
    if n > 0 && events[n].Receive? {
      LastRingStep(ring, events[..n]);
      assert events[1..][..n - 1] == events[..n][1..];
    }
  }

  lemma {:induction false} ServeAt(ring: seq<Key>, events: seq<Event>, i: nat)
    requires i < |events| && events[i].Receive?
    ensures Serve(ring, events)[i] == Some(Opened(events[i].blob, LastRing(ring, events[..i])))
    decreases i
  {
    if i > 0 {
      var next := if events[0].Replace? then events[0].ring else ring;
      ServeAt(next, events[1..], i - 1);
      LastRingStep(ring, events[..i]);
      assert events[..i][1..] == events[1..][..i - 1];
    }
  }

  /** Over any run of keyring replacements and messages, an encoded message decodes to what was encoded
      exactly when it was sent in the clear or its key is in the ring last set before it, at whatever
      position; a message sealed to a retired key is refused. */
  lemma {:induction false} DecodeAcrossRotation(events: seq<Event>, i: nat, r: Request, relayPub: Option<Key>)
    requires i < |events| && events[i] == Receive(EncodeRouting(r, relayPub))
    ensures Serve([], events)[i]
         == Some(if relayPub.None? || relayPub.value in LastRing([], events[..i]) then Ok(r.Clean()) else NotJson)
    ensures r.IsValid() ==> r.Clean() == r
  {
    ServeAt([], events, i);
    RoundTrip(r);
  }
}
