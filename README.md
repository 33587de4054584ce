# RADIUS Dynamic Authorization Server (RFC 5176) — a Dafny model

This project models the Dynamic Authorization Server (DAS) of
`src/radius/radius_das.c`: the server that takes unsolicited
Disconnect-Request and CoA-Request messages from one configured AAA client
over UDP and answers them.

- `radius.dfy` (module `Radius`): the request and NAK codes of section 2.3
  of RFC 5176 (40, 42, 43, 45), the Error-Cause attribute type 101 and its
  value 405 (section 3.5) "Unsupported Service", parsed messages, and the big-endian layout of a
  32-bit integer attribute.
- `das_receive.dfy` (module `DasReceive`): the receive handler as a total
  function `Receive` from one `recvfrom` result to an `Outcome`. The outcome
  is either a drop at a named gate or a reply handed to `sendto`. The gates
  come in the source's order: the IPv4 source address, parsing, the DAS
  request authenticator. Then comes the dispatch on the code. `Transcript`
  is what the server sends over a run of readable events on one context.
- `das_context.dfy` (module `DasContext`): the context `struct
  radius_das_data` as the class `Das`, with its fields `sock`,
  `sharedSecret`, `sharedSecretLen` and `clientAddr`. `Init`, `Setup` and
  `Deinit` follow `radius_das_init` and `radius_das_deinit` step by step.
  `OnReadable` is the receive callback run on a live context. The class `Os`
  is a ghost ledger of what the process holds: open descriptors, descriptors
  the event loop watches, live heap blocks, and `sendto` calls.

The RADIUS codec is represented by the `Codec` record. Its function fields
are parsing, request-authenticator verification and reply signing. Its
boolean fields are the allocation results of `radius_msg_new` and
`radius_msg_add_attr_int32`. The kernel's and the event loop's answers
during initialisation are the `Kernel` record.

In these places the model follows the code:
- an empty shared secret is accepted, because only a NULL secret is refused;
- a datagram longer than the 1500-byte buffer is cut to 1500 bytes, not
  rejected;
- a reply goes out even when signing fails;
- the result of adding Error-Cause is never checked, so a NAK can go out
  without that attribute when adding it fails.

## Model

| member | source | states |
|---|---|---|
| `Radius.U32Bytes` | src/radius/radius_das.c:94 | an integer attribute value is exactly four octets |
| `Radius.U32Value` | src/radius/radius_das.c:94 | a value decodes exactly when it is four octets long |
| `Radius.U32RoundTrip` | src/radius/radius_das.c:94 | decoding the four octets written for a 32-bit value gives the value back |
| `Radius.Int32Attribute` | src/radius/radius_das.c:94 | the attribute written for (type, value) has that type and decodes to that value |
| `DasReceive.Truncate` | src/radius/radius_das.c:33-51 | the parser sees a prefix of the datagram of at most 1500 bytes, and the whole datagram when it fits |
| `DasReceive.NakFor` | src/radius/radius_das.c:86-110 | only Disconnect-Request and CoA-Request get a reply code, and that code is the request's NAK (request code + 2: 42, 45) |
| `DasReceive.NakAttributes` | src/radius/radius_das.c:94 | before signing, a NAK carries exactly one attribute, Error-Cause 405, when adding it succeeds, and none otherwise |
| `DasReceive.Receive` | src/radius/radius_das.c:49-135 | a recvfrom failure, a foreign IPv4 source, a parse failure or a bad authenticator each drop the datagram with no reply, whatever the code; an admitted request with another code is dropped; an admitted Disconnect-Request or CoA-Request gets exactly one reply whenever the reply can be allocated, whether or not signing succeeds; every reply goes to the sender's address and port, copies the identifier, has the NAK code and the Error-Cause attributes, and its signing outcome is the signer's answer for the secret and the request header |
| `DasReceive.PortIgnored` | src/radius/radius_das.c:57-65 | the source port is never compared: two datagrams that differ only in it are dropped alike or get the same reply, each sent to its own port |
| `DasReceive.Transcript` | src/radius/radius_das.c:30-140 | over a run of readable events there are at most as many replies as events, and every reply goes to the configured client address |
| `DasReceive.ReplySent` | src/radius/radius_das.c:112-134 | every reply the handler gives for an event of the run is in the run's transcript |
| `DasReceive.SentIsReply` | src/radius/radius_das.c:112-134 | everything in the transcript is the reply the handler gives for some event of the run; with ReplySent, the transcript holds exactly the replies Receive gives for the run's events |
| `DasReceive.TranscriptConcat` | src/radius/radius_das.c:30-140 | a run sends what its two halves send, in order: each event's replies depend on that event alone (that the handler changes nothing in the context is OnReadable's frame, which modifies only the process ledger) |
| `DasReceive.AdmittedEvents` | src/radius/radius_das.c:62-82 | the events kept are exactly the ones of the run that pass the origin, parse and authenticator gates: every kept event is in the run and admitted, and every admitted event of the run is kept |
| `DasReceive.OnlyAdmittedMatter` | src/radius/radius_das.c:62-82 | removing every datagram that fails the origin, parse or authenticator gate from a run changes nothing that is sent |
| `DasReceive.NothingAdmittedNothingSent` | src/radius/radius_das.c:62-82 | a run with no admitted datagram, in particular one with nothing from the configured client, sends nothing |
| `DasContext.OpenSocket` | src/radius/radius_das.c:143-164 | the result is the new descriptor when socket and bind succeed, otherwise -1 with no descriptor left open |
| `DasContext.ParseMsg` | src/radius/radius_das.c:67-72 | a parsed request is a fresh live block holding the codec's message; a parse failure allocates nothing |
| `DasContext.NewMsg` | src/radius/radius_das.c:89-92 | a new reply has the given code and identifier and no attributes, or is null when allocation fails |
| `DasContext.AddAttrInt32` | src/radius/radius_das.c:94 | the attribute is appended when adding succeeds; the header never changes |
| `DasContext.Das.Zeroed` | src/radius/radius_das.c:176 | a zero-filled context: no secret, client address 0, socket field 0 |
| `DasContext.Das.Init` | src/radius/radius_das.c:167-207 | init succeeds exactly when the port is non-zero, the secret and client address are present, and every resource request succeeds; a live context holds a copy of the secret, the client address, and a socket that is open and registered; a bad configuration touches nothing; a failure after the secret is copied leaves nothing live; a failed secret allocation unregisters and closes descriptor 0 |
| `DasContext.Das.InitCorrected` | src/radius/radius_das.c:167-207 | with the socket field set to -1 first, every failure leaves heap, descriptors and registrations as they were |
| `DasContext.Das.Setup` | src/radius/radius_das.c:183-206 | the secret copy, socket and registration are acquired in order; any failure tears down through Deinit and frees the context |
| `DasContext.Das.Deinit` | src/radius/radius_das.c:210-222 | a no-op on null; otherwise unregisters and closes the descriptor in `sock` when it is not negative and frees the secret copy and the context |
| `DasContext.Das.Dispatch` | src/radius/radius_das.c:86-110 | a reply exists exactly for a Disconnect-Request or CoA-Request whose reply can be allocated; it is a fresh block with the request's NAK code, the request's identifier and the Error-Cause attributes; other codes allocate nothing |
| `DasContext.Das.OnReadable` | src/radius/radius_das.c:30-140 | on a live, registered context the callback decides as Receive does, makes exactly one sendto on the context's socket when it replies and none otherwise, and frees the request and the reply on every path |
| `DasContext.Reinit` | src/radius/radius_das.c:167-222 | init, deinit, init again: the second context owns fresh blocks and only its own socket, and nothing of the first stays live |
| `DasContext.SecretAllocFailureClosesStdin` | src/radius/radius_das.c:176-217 | with descriptor 0 open, a failed secret allocation makes init close descriptor 0 |
| `DasContext.SecretAllocFailureCorrected` | src/radius/radius_das.c:176-217 | with the corrected init the same failure leaves descriptor 0 open |

## Findings

| source | as written | input that shows it | evidently intended | confidence | as-written member | corrected member |
|---|---|---|---|---|---|---|
| src/radius/radius_das.c:176-217 | the context comes from a zero-filling allocation, so `sock` is 0 until the socket is opened; when the secret allocation fails, deinit sees `sock >= 0` and unregisters and closes descriptor 0, which this context never opened | valid configuration, context allocation succeeds, secret allocation fails (an empty secret where `malloc(0)` returns NULL is enough), descriptor 0 open | a failed init releases only what it acquired, so `sock` should be -1 before the first failure point | high; not executed | `DasContext.SecretAllocFailureClosesStdin` (on `DasContext.Das.Init`) | `DasContext.Das.InitCorrected`, with `DasContext.SecretAllocFailureCorrected` |

## Left out

- Sockets and datagram I/O: `socket`, `bind`, `recvfrom` and `sendto` are results passed in (`Kernel`, `Reception`) or entries in the `Os` ledger. The `sockaddr` unions and `inet_ntoa` formatting are not modelled.
- `sendto` failure: its result is only logged, so the model records the attempt and nothing depends on whether it worked.
- The RADIUS codec in `radius.c` is not part of this model. Parsing, DAS request-authenticator verification, response signing (MD5 and HMAC-MD5) and serialisation are the opaque function fields of `Codec`.
- The event loop itself is external. Its registration is the `watched` set of the ledger.
- Logging and message dumps (`wpa_printf`, `radius_msg_dump`, `wpa_debug_level`) have no effect on the outcome and are left out.
- The Message-Authenticator attribute that signing adds (section 3.2 of RFC 3579) is represented by the reply's `signedOk` flag. It is not in the reply's `attrs`, which hold the attributes before signing, and the recorded `sendto` calls carry those attributes.
- IPv6 is not modelled. The origin check compares only the IPv4 field, so addresses are IPv4 only.
- The port is an unbounded integer. `htons` truncation to 16 bits is not modelled, because only the zero check affects the outcome.
- Memory of the message bodies is not modelled. Only whether the request and reply blocks are live is tracked.
