/** The per-datagram decision of the Dynamic Authorization Server (RFC 5176):
    origin check, parsing, request-authenticator check, dispatch on the code,
    and the signed NAK that goes back to the sender. The event loop calls the
    receive handler once per readable event and the handler keeps nothing
    between calls, so a run of the server is a sequence of independent
    decisions (`Transcript`). */
module DasReceive {
  import opened Radius

  /** Capacity of the receive buffer: recvfrom cuts a longer datagram to it. */
  const MaxDatagram := 1500

  datatype Endpoint = Endpoint(addr: IPv4, port: bv16)

  /** What one recvfrom call delivers. */
  datatype Reception =
    | RecvFailed
    | Datagram(from: Endpoint, payload: seq<byte>)

  /** The answers of the RADIUS codec and of the allocator while one datagram
      is handled. `verifyDasReq` is true when the request authenticator
      matches the secret (section 2.3 of RFC 5176); `finishDasResp` is true
      when the Message-Authenticator (section 3.2 of RFC 3579) could be added
      to the reply, computed with the secret and the request header. */
  datatype Codec = Codec(
    parse: seq<byte> -> Option<Message>,
    verifyDasReq: (Message, seq<byte>) -> bool,
    replyAllocOk: bool,
    attrAddOk: bool,
    finishDasResp: (Message, seq<byte>, Header) -> bool)

  datatype Reply = Reply(code: byte, identifier: byte, attrs: seq<Attribute>, signedOk: bool)

  datatype DropReason =
    | RecvError
    | UnknownClient
    | ParseError
    | InvalidAuthenticator
    | UnexpectedCode(code: byte)
    | NoMemory

  /** The result of one call of the receive handler: a datagram dropped at
      some gate, or a reply handed to sendto for the given destination. */
  datatype Outcome =
    | Dropped(reason: DropReason)
    | Replied(reply: Reply, to: Endpoint)

  /** The bytes the parser sees: at most one receive buffer of the datagram. */
  function Truncate(payload: seq<byte>): (r: seq<byte>)
    ensures |r| <= MaxDatagram && r <= payload
    ensures |r| == MaxDatagram || r == payload
  {
    if |payload| <= MaxDatagram then payload else payload[..MaxDatagram]
  }

  /** The reply code for a request code: Disconnect-NAK for Disconnect-Request,
      CoA-NAK for CoA-Request, none for anything else. */
  function NakFor(code: byte): (r: Option<byte>)
    ensures r.Some? <==> IsDasRequest(code)
    ensures r.Some? ==> r.value as int == code as int + 2
  {
    if code == DisconnectRequest then Some(DisconnectNak)
    else if code == CoaRequest then Some(CoaNak)
    else None
  }

  /** The request a datagram parses to, whatever its origin. */
  function Parsed(rx: Reception, c: Codec): Option<Message>
  {
    if rx.RecvFailed? then None else c.parse(Truncate(rx.payload))
  }

  /** The datagram passes the three gates: it comes from the configured client
      address, it parses, and its request authenticator verifies. */
  predicate Admitted(clientAddr: IPv4, secret: seq<byte>, rx: Reception, c: Codec)
  {
    rx.Datagram? && rx.from.addr == clientAddr && Parsed(rx, c).Some?
    && c.verifyDasReq(Parsed(rx, c).value, secret)
  }

  /** The attributes a NAK carries before it is signed: Error-Cause
      "Unsupported Service", unless adding it failed (its result is not looked
      at). The Message-Authenticator that signing adds is not among them; the
      reply's `signedOk` stands for it. */
  function NakAttributes(addOk: bool): (attrs: seq<Attribute>)
    ensures addOk ==> ErrorCause(attrs) == Some(UnsupportedService) && |attrs| == 1
    ensures !addOk ==> attrs == []
  {
    if addOk then [Int32Attribute(AttrErrorCause, UnsupportedService)] else []
  }

  /** The reply message as it stands before it is signed. */
  function Unsigned(r: Reply): Message
  {
    Message(Header(r.code, r.identifier, []), r.attrs)
  }

  /** What the receive handler does with one datagram. */
  function Receive(clientAddr: IPv4, secret: seq<byte>, rx: Reception, c: Codec): (o: Outcome)
    // the gates, in order
    ensures rx.RecvFailed? ==> o == Dropped(RecvError)
    ensures rx.Datagram? && rx.from.addr != clientAddr ==> o == Dropped(UnknownClient)
    ensures rx.Datagram? && rx.from.addr == clientAddr && Parsed(rx, c).None? ==> o == Dropped(ParseError)
    ensures (rx.Datagram? && rx.from.addr == clientAddr && Parsed(rx, c).Some?
             && !c.verifyDasReq(Parsed(rx, c).value, secret)) ==> o == Dropped(InvalidAuthenticator)
    // dispatch on the code of an admitted request
    ensures Admitted(clientAddr, secret, rx, c) && !IsDasRequest(Parsed(rx, c).value.hdr.code)
            ==> o == Dropped(UnexpectedCode(Parsed(rx, c).value.hdr.code))
    ensures Admitted(clientAddr, secret, rx, c) && IsDasRequest(Parsed(rx, c).value.hdr.code)
            ==> (if c.replyAllocOk then o.Replied? else o == Dropped(NoMemory))
    // what a reply is, whether or not signing succeeded
    ensures o.Replied? ==>
              Admitted(clientAddr, secret, rx, c) && o.to == rx.from
              && var req := Parsed(rx, c).value;
                 IsDasRequest(req.hdr.code)
                 && o.reply.code as int == req.hdr.code as int + 2
                 && o.reply.identifier == req.hdr.identifier
                 && o.reply.attrs == NakAttributes(c.attrAddOk)
                 && o.reply.signedOk == c.finishDasResp(Unsigned(o.reply), secret, req.hdr)
  {
    match rx
    case RecvFailed => Dropped(RecvError)
    case Datagram(from, payload) =>
      if from.addr != clientAddr then Dropped(UnknownClient)
      else match c.parse(Truncate(payload))
        case None => Dropped(ParseError)
        case Some(req) =>
          if !c.verifyDasReq(req, secret) then Dropped(InvalidAuthenticator)
          else match NakFor(req.hdr.code)
            case None => Dropped(UnexpectedCode(req.hdr.code))
            case Some(nak) =>
              if !c.replyAllocOk then Dropped(NoMemory)
              else
                var r := Reply(nak, req.hdr.identifier, NakAttributes(c.attrAddOk), false);
                Replied(r.(signedOk := c.finishDasResp(Unsigned(r), secret, req.hdr)), from)
  }

  /** The source port plays no part in the decision: it only becomes the
      destination of the reply. */
  lemma PortIgnored(clientAddr: IPv4, secret: seq<byte>, addr: IPv4, p1: bv16, p2: bv16,
                    payload: seq<byte>, c: Codec)
    ensures var o1 := Receive(clientAddr, secret, Datagram(Endpoint(addr, p1), payload), c);
            var o2 := Receive(clientAddr, secret, Datagram(Endpoint(addr, p2), payload), c);
            o1.Replied? == o2.Replied?
            && (o1.Dropped? ==> o1 == o2)
            && (o1.Replied? ==> o1.reply == o2.reply && o1.to.port == p1 && o2.to.port == p2)
  {
  }

  /** One readable event of the server's socket. */
  datatype Event = Readable(rx: Reception, codec: Codec)

  /** The replies the server hands to sendto over a run of readable events,
      all with the same configured client address and secret. */
  function Transcript(clientAddr: IPv4, secret: seq<byte>, events: seq<Event>): (t: seq<Outcome>)
    ensures |t| <= |events|
    ensures forall i | 0 <= i < |t| :: t[i].Replied? && t[i].to.addr == clientAddr
  {
    if events == [] then []
    else
      var o := Receive(clientAddr, secret, events[0].rx, events[0].codec);
      (if o.Replied? then [o] else []) + Transcript(clientAddr, secret, events[1..])
  }

  /** What a run sends is what its two halves send, one after the other:
      each event's replies depend on that event alone. */
  lemma {:induction false} TranscriptConcat(clientAddr: IPv4, secret: seq<byte>, a: seq<Event>, b: seq<Event>)
    ensures Transcript(clientAddr, secret, a + b)
            == Transcript(clientAddr, secret, a) + Transcript(clientAddr, secret, b)
  {
    if a == [] {
      assert a + b == b;
    } else {
      assert (a + b)[1..] == a[1..] + b;
      TranscriptConcat(clientAddr, secret, a[1..], b);
    }
  }

  /** Every reply the handler gives for an event of the run is in the transcript. */
  lemma {:induction false} ReplySent(clientAddr: IPv4, secret: seq<byte>, events: seq<Event>, i: nat)
    requires i < |events|
    requires Receive(clientAddr, secret, events[i].rx, events[i].codec).Replied?
    ensures Receive(clientAddr, secret, events[i].rx, events[i].codec) in Transcript(clientAddr, secret, events)
  {
    if i > 0 {
      assert events[1..][i - 1] == events[i];
      ReplySent(clientAddr, secret, events[1..], i - 1);
    }
  }

  /** Everything in the transcript is the reply the handler gives for some
      event of the run. */
  lemma {:induction false} SentIsReply(clientAddr: IPv4, secret: seq<byte>, events: seq<Event>, o: Outcome)
    requires o in Transcript(clientAddr, secret, events)
    ensures exists i | 0 <= i < |events| :: o == Receive(clientAddr, secret, events[i].rx, events[i].codec)
  {
    var first := Receive(clientAddr, secret, events[0].rx, events[0].codec);
    if o != first || !first.Replied? {
      SentIsReply(clientAddr, secret, events[1..], o);
      var j :| 0 <= j < |events[1..]| && o == Receive(clientAddr, secret, events[1..][j].rx, events[1..][j].codec);
      assert events[1..][j] == events[j + 1];
    }
  }

  /** The events whose datagram passes the origin, parse and authenticator gates. */
  function AdmittedEvents(clientAddr: IPv4, secret: seq<byte>, events: seq<Event>): (r: seq<Event>)
    ensures |r| <= |events|
    ensures forall i | 0 <= i < |r| :: Admitted(clientAddr, secret, r[i].rx, r[i].codec)
    ensures forall e | e in r :: e in events
    ensures forall e | e in events && Admitted(clientAddr, secret, e.rx, e.codec) :: e in r
  {
    if events == [] then []
    else
      (if Admitted(clientAddr, secret, events[0].rx, events[0].codec) then [events[0]] else [])
      + AdmittedEvents(clientAddr, secret, events[1..])
  }

  /** Datagrams from other origins, unparsable ones and ones with a bad
      authenticator have no influence at all: removing them from a run leaves
      what the server sends unchanged. */
  lemma {:induction false} OnlyAdmittedMatter(clientAddr: IPv4, secret: seq<byte>, events: seq<Event>)
    ensures Transcript(clientAddr, secret, events)
            == Transcript(clientAddr, secret, AdmittedEvents(clientAddr, secret, events))
  {
    if events != [] {
      var e := events[0];
      var head := if Admitted(clientAddr, secret, e.rx, e.codec) then [e] else [];
      OnlyAdmittedMatter(clientAddr, secret, events[1..]);
      TranscriptConcat(clientAddr, secret, head, AdmittedEvents(clientAddr, secret, events[1..]));
      if head != [] {
        assert head[1..] == [];
      }
    }
  }

  /** A run in which no datagram is admitted sends nothing; in particular a
      run in which no datagram comes from the configured client. */
  lemma {:induction false} NothingAdmittedNothingSent(clientAddr: IPv4, secret: seq<byte>, events: seq<Event>)
    requires forall i | 0 <= i < |events| :: !Admitted(clientAddr, secret, events[i].rx, events[i].codec)
    ensures Transcript(clientAddr, secret, events) == []
  {
    if events != [] {
      NothingAdmittedNothingSent(clientAddr, secret, events[1..]);
    }
  }
}
