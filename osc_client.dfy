/**
 * The OSC client: an endpoint (host, port) owning a UDP transport that is
 * rebuilt whenever either field changes, and `send_osc`, which applies the
 * Resolume range gate, sends unmapped values verbatim and never lets a
 * transport error reach its caller.
 *
 * The pythonosc transport is abstract: it is represented by the endpoint it
 * was built for, and what it does with a message is an input of the send
 * (the network decides, not the client). Everything the client hands to the
 * transport or reports is recorded in a ghost log.
 */
module OscClient {

  datatype Option<T> = None | Some(value: T)

  /** The argument of an OSC message: verbatim values are integers, mapped ones floats. */
  datatype Arg = IntArg(i: int) | FloatArg(x: real)

  datatype Message = Message(address: string, arg: Arg)

  /** The destination a UDP client was built for. */
  datatype Endpoint = Endpoint(host: string, port: int)

  /** What the transport did with a message handed to it. */
  datatype TransportOutcome = Delivered | OsError | OtherError

  /** The two `except` branches of `send_osc`. */
  datatype ErrorKind = SocketError | UnexpectedError

  /** One observable effect of the client: a datagram sent, or an error line printed. */
  datatype Delivery =
    | Sent(to: Endpoint, msg: Message)
    | Reported(kind: ErrorKind, host: string, port: int, address: string)

  const ResolumeLow: int := 20
  const ResolumeHigh: int := 500
  const ResolumeSpan: real := 480.0

  /** The Resolume range gate: only values strictly inside (20, 500) are mapped and sent. */
  predicate InResolumeRange(value: int) {
    ResolumeLow < value < ResolumeHigh
  }

  /** The normalised Resolume parameter `(value - 20) / 480`, exact (a real, not a float). */
  function ResolumeValue(value: int): (r: real)
    requires InResolumeRange(value)
    ensures 0.0 < r < 1.0
  {
    (value - ResolumeLow) as real / ResolumeSpan
  }

  /** The inverse of the normalisation: the tempo a Resolume parameter stands for. */
  function ResolumeTempo(r: real): real {
    r * ResolumeSpan + ResolumeLow as real
  }

  /**
   * The message `send_osc` hands to the transport, if any. With the Resolume
   * mapping a message exists exactly for values inside the gate and carries
   * the normalised value; without it the value goes out verbatim.
   */
  function Outgoing(address: string, value: int, mapToResolume: bool): (m: Option<Message>)
    ensures mapToResolume ==> (m.Some? <==> ResolumeLow < value < ResolumeHigh)
    ensures mapToResolume && m.Some? ==>
      m.value.address == address && m.value.arg.FloatArg? &&
      0.0 < m.value.arg.x < 1.0 && ResolumeTempo(m.value.arg.x) == value as real
    ensures !mapToResolume ==> m == Some(Message(address, IntArg(value)))
  {
    if mapToResolume then
      if InResolumeRange(value) then Some(Message(address, FloatArg(ResolumeValue(value)))) else None
    else
      Some(Message(address, IntArg(value)))
  }

  /** What one message handed to the transport turns into, for each transport outcome. */
  function Handled(to: Endpoint, m: Message, outcome: TransportOutcome): (r: Delivery)
    ensures r.Sent? <==> outcome == Delivered
    ensures r.Sent? ==> r.to == to && r.msg == m
    ensures r.Reported? ==> r.host == to.host && r.port == to.port && r.address == m.address
    ensures r.Reported? ==> (r.kind == SocketError <==> outcome == OsError)
  {
    match outcome
    case Delivered => Sent(to, m)
    case OsError => Reported(SocketError, to.host, to.port, m.address)
    case OtherError => Reported(UnexpectedError, to.host, to.port, m.address)
  }

  /** Python's `str.replace(" ", "")`: every space character removed, the rest kept in order. */
  function RemoveSpaces(s: string): (r: string)
    ensures ' ' !in r
    ensures |r| <= |s|
    ensures forall c :: c != ' ' ==> multiset(r)[c] == multiset(s)[c]
  {
    if s == [] then []
    else
      assert s == [s[0]] + s[1..];
      if s[0] == ' ' then RemoveSpaces(s[1..]) else [s[0]] + RemoveSpaces(s[1..])
  }

  class OSCClient {
    var ip: string
    var port: int
    /** The pythonosc `SimpleUDPClient`, represented by the endpoint it was built for. */
    var transport: Endpoint
    ghost var log: seq<Delivery>

    /** The transport always targets the current (ip, port) pair. */
    ghost predicate Valid()
      reads this
    {
      transport == Endpoint(ip, port)
    }

    constructor (ip0: string, port0: int)
      ensures Valid()
      ensures ip == RemoveSpaces(ip0) && port == port0
      ensures log == []
    {
      var host := RemoveSpaces(ip0);
      ip := host;
      port := port0;
      transport := Endpoint(host, port0);
      log := [];
    }

    /** The `ip` setter: stores its argument as given (no space removal) and rebuilds the transport. */
    method SetIp(newIp: string)
      modifies this`ip, this`transport
      ensures Valid()
      ensures ip == newIp && port == old(port)
    {
      ip := newIp;
      transport := Endpoint(ip, port);
    }

    /** The `port` setter: stores its argument and rebuilds the transport. */
    method SetPort(newPort: int)
      modifies this`port, this`transport
      ensures Valid()
      ensures port == newPort && ip == old(ip)
    {
      port := newPort;
      transport := Endpoint(ip, port);
    }

    /**
     * `send_osc`. Always returns normally: a transport failure is reported in
     * the log and swallowed. A value outside the gate is dropped silently.
     */
    method SendOsc(address: string, value: int, mapToResolume: bool, outcome: TransportOutcome)
      requires Valid()
      modifies this`log
      ensures Valid()
      ensures Outgoing(address, value, mapToResolume).None? ==> log == old(log)
      ensures Outgoing(address, value, mapToResolume).Some? ==>
        log == old(log) + [Handled(Endpoint(ip, port), Outgoing(address, value, mapToResolume).value, outcome)]
    {
      var msg: Option<Message> := None;
      if mapToResolume {
        if InResolumeRange(value) {
          msg := Some(Message(address, FloatArg(ResolumeValue(value))));
        }
      } else {
        msg := Some(Message(address, IntArg(value)));
      }
      if msg.Some? {
        match outcome {
          case Delivered =>
            log := log + [Sent(transport, msg.value)];
          case OsError =>
            log := log + [Reported(SocketError, ip, port, address)];
          case OtherError =>
            log := log + [Reported(UnexpectedError, ip, port, address)];
        }
      }
    }
  }

  /** Mapping and unmapping a gated value gives the value back. */
  lemma ResolumeRoundTrip(value: int)
    requires InResolumeRange(value)
    ensures ResolumeTempo(ResolumeValue(value)) == value as real
  {
  }

  /** The normalisation is strictly increasing across the gate. */
  lemma ResolumeValueIncreasing(a: int, b: int)
    requires InResolumeRange(a) && InResolumeRange(b) && a < b
    ensures ResolumeValue(a) < ResolumeValue(b)
  {
  }

  /** 260 BPM, the middle of the gate, maps to exactly one half. */
  lemma ResolumeMidpoint()
    ensures Outgoing("/bpm", 260, true) == Some(Message("/bpm", FloatArg(0.5)))
  {
  }

  /** Both bounds of the gate are excluded: 20 and 500 produce no message. */
  lemma ResolumeBoundsDropped(address: string)
    ensures Outgoing(address, 20, true) == None
    ensures Outgoing(address, 500, true) == None
    ensures Outgoing(address, 19, true) == None
  {
  }

  /** Removing spaces distributes over concatenation, so the order of the other characters is kept. */
  lemma {:induction false} RemoveSpacesAppend(a: string, b: string)
    ensures RemoveSpaces(a + b) == RemoveSpaces(a) + RemoveSpaces(b)
  {
    if a == [] {
      assert a + b == b;
    } else {
      assert (a + b)[0] == a[0] && (a + b)[1..] == a[1..] + b;
      RemoveSpacesAppend(a[1..], b);
    }
  }

  /** A host without spaces is kept exactly. */
  lemma {:induction false} RemoveSpacesKeepsClean(s: string)
    requires ' ' !in s
    ensures RemoveSpaces(s) == s
  {
    if s != [] {
      RemoveSpacesKeepsClean(s[1..]);
    }
  }

  /** Removing spaces twice is removing them once. */
  lemma RemoveSpacesIdempotent(s: string)
    ensures RemoveSpaces(RemoveSpaces(s)) == RemoveSpaces(s)
  {
    RemoveSpacesKeepsClean(RemoveSpaces(s));
  }
}
