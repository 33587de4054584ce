/** The server context of the Dynamic Authorization Server and its life:
    radius_das_init acquires the context, the secret copy, a UDP socket and
    an event-loop registration; radius_das_deinit gives them back; and the
    receive callback, run on the live context, allocates and frees its
    messages. The operating system is a ghost ledger of what is live. */
module DasContext {
  import opened Radius
  import opened DasReceive

  /** A datagram handed to sendto on a descriptor. */
  datatype Transmission = Transmission(sock: int, reply: Reply, to: Endpoint)

  /** What the process holds: open descriptors, descriptors the event loop
      watches, live heap blocks, and every sendto call made so far. */
  class Os {
    ghost var openFds: set<int>
    ghost var watched: set<int>
    ghost var heap: set<object>
    ghost var outbox: seq<Transmission>

    ghost predicate Valid()
      reads this
    {
      watched <= openFds
    }

    /** A process with the descriptors `fds` already open (standard input is 0). */
    constructor Boot(fds: set<int>)
      ensures Valid() && openFds == fds && watched == {} && heap == {} && outbox == []
    {
      openFds, watched, heap, outbox := fds, {}, {}, [];
    }

    method Track(o: object)
      requires o !in heap
      modifies this
      ensures heap == old(heap) + {o}
      ensures openFds == old(openFds) && watched == old(watched) && outbox == old(outbox)
    {
      heap := heap + {o};
    }

    /** os_free: a no-op on null, otherwise the block must be live. */
    method Free(o: object?)
      requires o == null || o in heap
      modifies this
      ensures heap == if o == null then old(heap) else old(heap) - {o}
      ensures openFds == old(openFds) && watched == old(watched) && outbox == old(outbox)
    {
      if o != null {
        heap := heap - {o};
      }
    }

    /** socket(): `fd` is the kernel's answer, a free descriptor or -1. */
    method Socket(fd: int) returns (s: int)
      requires fd >= 0 ==> fd !in openFds
      modifies this
      ensures s == fd
      ensures openFds == old(openFds) + (if s >= 0 then {s} else {})
      ensures watched == old(watched) && heap == old(heap) && outbox == old(outbox)
    {
      s := fd;
      if s >= 0 {
        openFds := openFds + {s};
      }
    }

    /** close(): closing a descriptor that is not open changes nothing. */
    method Close(fd: int)
      modifies this
      ensures openFds == old(openFds) - {fd}
      ensures watched == old(watched) && heap == old(heap) && outbox == old(outbox)
    {
      openFds := openFds - {fd};
    }

    /** eloop_register_read_sock: `ok` is the event loop's answer; the result is
        non-zero on failure. */
    method RegisterRead(fd: int, ok: bool) returns (failed: bool)
      requires fd in openFds
      modifies this
      ensures failed == !ok
      ensures watched == old(watched) + (if ok then {fd} else {})
      ensures openFds == old(openFds) && heap == old(heap) && outbox == old(outbox)
    {
      failed := !ok;
      if ok {
        watched := watched + {fd};
      }
    }

    method UnregisterRead(fd: int)
      modifies this
      ensures watched == old(watched) - {fd}
      ensures openFds == old(openFds) && heap == old(heap) && outbox == old(outbox)
    {
      watched := watched - {fd};
    }

    method SendTo(fd: int, reply: Reply, to: Endpoint)
      modifies this
      ensures outbox == old(outbox) + [Transmission(fd, reply, to)]
      ensures openFds == old(openFds) && watched == old(watched) && heap == old(heap)
    {
      outbox := outbox + [Transmission(fd, reply, to)];
    }
  }

  /** A heap copy of the shared secret. */
  class Buffer {
    var bytes: seq<byte>

    constructor (b: seq<byte>)
      ensures bytes == b
    {
      bytes := b;
    }
  }

  /** A heap RADIUS message, as the codec allocates it. */
  class RadiusMsg {
    var msg: Message

    constructor (m: Message)
      ensures msg == m
    {
      msg := m;
    }
  }

  /** The configuration handed to radius_das_init; None stands for NULL. */
  datatype Conf = Conf(port: int, sharedSecret: Option<seq<byte>>, clientAddr: Option<IPv4>)

  /** The answers of the allocator, the kernel and the event loop during one
      initialisation: whether the context and the secret copy can be
      allocated, the descriptor socket() returns, whether bind() succeeds,
      and whether the registration succeeds. */
  datatype Kernel = Kernel(ctxAllocOk: bool, secretAllocOk: bool, socketFd: int,
                           bindOk: bool, registerOk: bool)

  /** The configuration checks of radius_das_init: only a zero port and NULL
      pointers are refused, so an empty secret passes. */
  predicate ConfOk(conf: Conf)
  {
    conf.port != 0 && conf.sharedSecret.Some? && conf.clientAddr.Some?
  }

  /** Every resource request made during initialisation succeeds. */
  predicate KernelOk(k: Kernel)
  {
    k.ctxAllocOk && k.secretAllocOk && k.socketFd >= 0 && k.bindOk && k.registerOk
  }

  /** radius_das_open_socket: a UDP socket bound to `port` on every local
      address, or -1 with nothing left open. */
  method OpenSocket(port: int, k: Kernel, os: Os) returns (s: int)
    requires k.socketFd >= 0 ==> k.socketFd !in os.openFds
    modifies os
    ensures s == if k.socketFd >= 0 && k.bindOk then k.socketFd else -1
    ensures os.openFds == old(os.openFds) + (if s >= 0 then {s} else {})
    ensures os.watched == old(os.watched) && os.heap == old(os.heap) && os.outbox == old(os.outbox)
  {
    s := os.Socket(k.socketFd);
    if s < 0 {
      return -1;
    }
    if !k.bindOk {
      os.Close(s);
      return -1;
    }
  }

  /** The parse step of the codec: a fresh message, or null. */
  method ParseMsg(c: Codec, bytes: seq<byte>, os: Os) returns (m: RadiusMsg?)
    modifies os
    ensures m == null <==> c.parse(bytes).None?
    ensures m != null ==> fresh(m) && m.msg == c.parse(bytes).value
    ensures os.heap == old(os.heap) + (if m == null then {} else {m})
    ensures os.openFds == old(os.openFds) && os.watched == old(os.watched) && os.outbox == old(os.outbox)
  {
    m := null;
    if c.parse(bytes).Some? {
      m := new RadiusMsg(c.parse(bytes).value);
      os.Track(m);
    }
  }

  /** radius_msg_new: an empty message with the given code and identifier,
      or null when `ok` says allocation fails. */
  method NewMsg(ok: bool, code: byte, identifier: byte, os: Os) returns (m: RadiusMsg?)
    modifies os
    ensures m == null <==> !ok
    ensures m != null ==> fresh(m) && m.msg == Message(Header(code, identifier, []), [])
    ensures os.heap == old(os.heap) + (if m == null then {} else {m})
    ensures os.openFds == old(os.openFds) && os.watched == old(os.watched) && os.outbox == old(os.outbox)
  {
    m := null;
    if ok {
      m := new RadiusMsg(Message(Header(code, identifier, []), []));
      os.Track(m);
    }
  }

  /** radius_msg_add_attr_int32: appends the attribute when `ok`. */
  method AddAttrInt32(m: RadiusMsg, ok: bool, kind: byte, v: u32)
    modifies m
    ensures m.msg.hdr == old(m.msg.hdr)
    ensures m.msg.attrs == old(m.msg.attrs) + (if ok then [Int32Attribute(kind, v)] else [])
  {
    if ok {
      m.msg := m.msg.(attrs := m.msg.attrs + [Int32Attribute(kind, v)]);
    }
  }

  /** The server context (struct radius_das_data). */
  class Das {
    var sock: int
    var sharedSecret: Buffer?
    var sharedSecretLen: nat
    var clientAddr: IPv4

    /** os_zalloc: every field is zero, so `sock` names descriptor 0. */
    constructor Zeroed()
      ensures sock == 0 && sharedSecret == null && sharedSecretLen == 0 && clientAddr == 0
    {
      sock, sharedSecret, sharedSecretLen, clientAddr := 0, null, 0, 0;
    }

    /** The context is fully set up: its blocks are live, its socket is open
        and watched by the event loop, and the length matches the copy. */
    ghost predicate Live(os: Os)
      reads this, sharedSecret, os
    {
      sharedSecret != null && this in os.heap && sharedSecret in os.heap
      && sock >= 0 && sock in os.openFds && sock in os.watched
      && sharedSecretLen == |sharedSecret.bytes|
    }

    function Secret(): seq<byte>
      reads this, sharedSecret
      requires sharedSecret != null
    {
      sharedSecret.bytes
    }

    /** The heap blocks owned by the context. */
    ghost function Blocks(): set<object>
      reads this
    {
      {this} + (if sharedSecret == null then {} else {sharedSecret})
    }

    /** radius_das_init, as written: the context keeps descriptor 0 from
        os_zalloc until a socket is opened. */
    static method Init(conf: Conf, k: Kernel, os: Os) returns (das: Das?)
      requires os.Valid()
      requires k.socketFd >= 0 ==> k.socketFd !in os.openFds
      modifies os
      ensures os.Valid() && os.outbox == old(os.outbox)
      ensures das != null <==> ConfOk(conf) && KernelOk(k)
      ensures das != null ==>
                fresh(das) && fresh(das.sharedSecret) && das.Live(os)
                && das.sock == k.socketFd && das.clientAddr == conf.clientAddr.value
                && das.Secret() == conf.sharedSecret.value
                && os.heap == old(os.heap) + das.Blocks()
                && os.openFds == old(os.openFds) + {das.sock}
                && os.watched == old(os.watched) + {das.sock}
      ensures das == null ==> os.heap == old(os.heap)
      // a bad configuration or a failed context allocation touches nothing
      ensures !(ConfOk(conf) && k.ctxAllocOk) ==> das == null && os.openFds == old(os.openFds) && os.watched == old(os.watched)
      // a failure after the secret is copied leaves nothing live
      ensures das == null && ConfOk(conf) && k.ctxAllocOk && k.secretAllocOk
              ==> os.openFds == old(os.openFds) && os.watched == old(os.watched)
      // a failed secret allocation unregisters and closes descriptor 0
      ensures ConfOk(conf) && k.ctxAllocOk && !k.secretAllocOk
              ==> os.openFds == old(os.openFds) - {0} && os.watched == old(os.watched) - {0}
    {
      if conf.port == 0 || conf.sharedSecret.None? || conf.clientAddr.None? {
        return null;
      }
      if !k.ctxAllocOk {
        return null;
      }
      das := new Das.Zeroed();
      os.Track(das);
      das.clientAddr := conf.clientAddr.value;
      var ok := das.Setup(conf, k, os);
      if !ok {
        das := null;
      }
    }

    /** radius_das_init with `sock` set to -1 before anything can fail, so
        that an early failure closes nothing. */
    static method InitCorrected(conf: Conf, k: Kernel, os: Os) returns (das: Das?)
      requires os.Valid()
      requires k.socketFd >= 0 ==> k.socketFd !in os.openFds
      modifies os
      ensures os.Valid() && os.outbox == old(os.outbox)
      ensures das != null <==> ConfOk(conf) && KernelOk(k)
      ensures das != null ==>
                fresh(das) && fresh(das.sharedSecret) && das.Live(os)
                && das.sock == k.socketFd && das.clientAddr == conf.clientAddr.value
                && das.Secret() == conf.sharedSecret.value
                && os.heap == old(os.heap) + das.Blocks()
                && os.openFds == old(os.openFds) + {das.sock}
                && os.watched == old(os.watched) + {das.sock}
      // every failure leaves the process as it was
      ensures das == null ==>
                os.heap == old(os.heap) && os.openFds == old(os.openFds) && os.watched == old(os.watched)
    {
      if conf.port == 0 || conf.sharedSecret.None? || conf.clientAddr.None? {
        return null;
      }
      if !k.ctxAllocOk {
        return null;
      }
      das := new Das.Zeroed();
      das.sock := -1;
      os.Track(das);
      das.clientAddr := conf.clientAddr.value;
      var ok := das.Setup(conf, k, os);
      if !ok {
        das := null;
      }
    }

    /** The rest of radius_das_init once the context exists: copy the
        secret, open the socket, register the callback, and on any failure
        tear down through Deinit. */
    method Setup(conf: Conf, k: Kernel, os: Os) returns (ok: bool)
      requires ConfOk(conf)
      requires os.Valid() && this in os.heap && sharedSecret == null
      requires k.socketFd >= 0 ==> k.socketFd !in os.openFds
      modifies this, os
      ensures os.Valid() && os.outbox == old(os.outbox)
      ensures clientAddr == old(clientAddr)
      ensures ok <==> k.secretAllocOk && k.socketFd >= 0 && k.bindOk && k.registerOk
      ensures ok ==>
                fresh(sharedSecret) && Live(os)
                && sock == k.socketFd && Secret() == conf.sharedSecret.value
                && os.heap == old(os.heap) + {sharedSecret}
                && os.openFds == old(os.openFds) + {sock}
                && os.watched == old(os.watched) + {sock}
      ensures !ok ==> os.heap == old(os.heap) - {this}
      ensures !ok && k.secretAllocOk ==> os.openFds == old(os.openFds) && os.watched == old(os.watched)
      // the secret allocation fails while `sock` still holds its initial value
      ensures !k.secretAllocOk ==>
                var gone := if old(sock) >= 0 then {old(sock)} else {};
                os.openFds == old(os.openFds) - gone && os.watched == old(os.watched) - gone
    {
      if !k.secretAllocOk {
        Deinit(this, os);
        return false;
      }
      sharedSecret := new Buffer(conf.sharedSecret.value);
      os.Track(sharedSecret);
      sharedSecretLen := |conf.sharedSecret.value|;

      sock := OpenSocket(conf.port, k, os);
      if sock < 0 {
        Deinit(this, os);
        return false;
      }

      var failed := os.RegisterRead(sock, k.registerOk);
      if failed {
        Deinit(this, os);
        return false;
      }
      return true;
    }

    /** radius_das_deinit: a no-op on null; otherwise unregisters and closes
        any descriptor `sock` names that is not negative, then frees the
        secret copy and the context. */
    static method Deinit(das: Das?, os: Os)
      requires das != null ==> das.Blocks() <= os.heap
      modifies os
      ensures das == null ==>
                os.heap == old(os.heap) && os.openFds == old(os.openFds) && os.watched == old(os.watched)
      ensures das != null ==> os.heap == old(os.heap) - das.Blocks()
      ensures das != null ==>
                var gone := if das.sock >= 0 then {das.sock} else {};
                os.openFds == old(os.openFds) - gone && os.watched == old(os.watched) - gone
      ensures os.outbox == old(os.outbox)
      ensures old(os.Valid()) ==> os.Valid()
    {
      if das == null {
        return;
      }
      if das.sock >= 0 {
        os.UnregisterRead(das.sock);
        os.Close(das.sock);
      }
      os.Free(das.sharedSecret);
      os.Free(das);
    }

    /** The switch on the request code: a Disconnect-NAK or CoA-NAK with the
        request's identifier and Error-Cause "Unsupported Service", or null
        for any other code or when the reply cannot be allocated. */
    static method Dispatch(hdr: Header, c: Codec, os: Os) returns (reply: RadiusMsg?)
      modifies os
      ensures reply != null <==> IsDasRequest(hdr.code) && c.replyAllocOk
      ensures reply != null ==>
                fresh(reply)
                && reply.msg == Message(Header(NakFor(hdr.code).value, hdr.identifier, []),
                                        NakAttributes(c.attrAddOk))
      ensures os.heap == old(os.heap) + (if reply == null then {} else {reply})
      ensures os.openFds == old(os.openFds) && os.watched == old(os.watched) && os.outbox == old(os.outbox)
    {
      reply := null;
      if hdr.code == DisconnectRequest {
        reply := NewMsg(c.replyAllocOk, DisconnectNak, hdr.identifier, os);
        if reply != null {
          AddAttrInt32(reply, c.attrAddOk, AttrErrorCause, UnsupportedService);
        }
      } else if hdr.code == CoaRequest {
        reply := NewMsg(c.replyAllocOk, CoaNak, hdr.identifier, os);
        if reply != null {
          // Unsupported Service
          AddAttrInt32(reply, c.attrAddOk, AttrErrorCause, UnsupportedService);
        }
      }
    }

    /** radius_das_receive on this context, which runs only once the context
        is live and registered: it decides as Receive does, sends
        the reply (if any) on the context's socket, and frees the request and
        the reply on every path. */
    method OnReadable(rx: Reception, c: Codec, os: Os) returns (o: Outcome)
      requires Live(os)
      modifies os
      ensures o == Receive(clientAddr, Secret(), rx, c)
      ensures os.heap == old(os.heap) && os.openFds == old(os.openFds) && os.watched == old(os.watched)
      ensures os.outbox == old(os.outbox) + (if o.Replied? then [Transmission(sock, o.reply, o.to)] else [])
    {
      if rx.RecvFailed? {
        return Dropped(RecvError);
      }
      if clientAddr != rx.from.addr {
        return Dropped(UnknownClient);
      }
      var msg := ParseMsg(c, Truncate(rx.payload), os);
      if msg == null {
        return Dropped(ParseError);
      }
      var reply: RadiusMsg? := null;
      var secret := sharedSecret.bytes;
      var req := msg.msg;
      assert Parsed(rx, c) == Some(req) && secret == Secret();
      if !c.verifyDasReq(req, secret) {
        o := Dropped(InvalidAuthenticator);
      } else {
        reply := Dispatch(req.hdr, c, os);
        if reply != null {
          var r := Reply(reply.msg.hdr.code, reply.msg.hdr.identifier, reply.msg.attrs, false);
          var signed := c.finishDasResp(reply.msg, secret, req.hdr);
          r := r.(signedOk := signed);
          os.SendTo(sock, r, rx.from);
          o := Replied(r, rx.from);
        } else if IsDasRequest(req.hdr.code) {
          o := Dropped(NoMemory);
        } else {
          o := Dropped(UnexpectedCode(req.hdr.code));
        }
      }
      os.Free(msg);
      os.Free(reply);
    }
  }

  /** Init, Deinit, Init again: the second context owns fresh blocks and only
      its own socket, and nothing of the first is left live. */
  method Reinit(conf: Conf, k1: Kernel, k2: Kernel, os: Os) returns (das1: Das?, das2: Das?)
    requires os.Valid() && ConfOk(conf) && KernelOk(k1)
    requires k1.socketFd !in os.openFds
    requires k2.socketFd >= 0 ==> k2.socketFd !in os.openFds
    modifies os
    ensures das1 != null && das2 != das1
    ensures das2 != null <==> KernelOk(k2)
    ensures das2 != null ==>
              fresh(das2) && das2.Live(os) && das1.Blocks() !! das2.Blocks()
              && os.heap == old(os.heap) + das2.Blocks()
              && os.openFds == old(os.openFds) + {das2.sock}
              && os.watched == old(os.watched) + {das2.sock}
    ensures das2 == null && k2.secretAllocOk ==>
              os.heap == old(os.heap) && os.openFds == old(os.openFds) && os.watched == old(os.watched)
  {
    das1 := Das.Init(conf, k1, os);
    Das.Deinit(das1, os);
    das2 := Das.Init(conf, k2, os);
  }

  /** With descriptor 0 open (standard input) and the secret allocation
      failing, radius_das_init as written closes descriptor 0. */
  method SecretAllocFailureClosesStdin() returns (os: Os, das: Das?)
    ensures das == null && 0 !in os.openFds
  {
    os := new Os.Boot({0});
    var conf := Conf(3799, Some([]), Some(0x0a00_0001));
    das := Das.Init(conf, Kernel(true, false, 3, true, true), os);
  }

  /** The same failure with the corrected initialisation leaves descriptor 0 open. */
  method SecretAllocFailureCorrected() returns (os: Os, das: Das?)
    ensures das == null && os.openFds == {0}
  {
    os := new Os.Boot({0});
    var conf := Conf(3799, Some([]), Some(0x0a00_0001));
    das := Das.InitCorrected(conf, Kernel(true, false, 3, true, true), os);
  }
}
