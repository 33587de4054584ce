/** RADIUS values the Dynamic Authorization Server works with: the message
    codes of section 2.3 and the attribute of section 3.5 of RFC 5176, the framing of a parsed
    message, and the big-endian encoding of an integer attribute (section 5
    of RFC 2865). The wire codec itself is not part of this model. */
module Radius {

  datatype Option<+T> = None | Some(value: T)

  newtype byte = x: int | 0 <= x < 256

  /** Unsigned 32-bit value, the type of an "integer" RADIUS attribute. */
  newtype u32 = x: int | 0 <= x < 0x1_0000_0000

  /** An IPv4 address as the 32-bit s_addr field holds it. */
  type IPv4 = bv32

  const DisconnectRequest: byte := 40
  const DisconnectNak: byte := 42
  const CoaRequest: byte := 43
  const CoaNak: byte := 45

  const AttrErrorCause: byte := 101

  /** Error-Cause value "Unsupported Service" (section 3.5 of RFC 5176). */
  const UnsupportedService: u32 := 405

  /** A request code of the Dynamic Authorization extension. */
  predicate IsDasRequest(code: byte) {
    code == DisconnectRequest || code == CoaRequest
  }

  datatype Header = Header(code: byte, identifier: byte, authenticator: seq<byte>)
  datatype Attribute = Attribute(kind: byte, data: seq<byte>)
  datatype Message = Message(hdr: Header, attrs: seq<Attribute>)

  /** The four octets of `v`, most significant first. */
  function U32Bytes(v: u32): (r: seq<byte>)
    ensures |r| == 4
  {
    var n := v as int;
    [(n / 0x100_0000) as byte, (n / 0x1_0000 % 0x100) as byte,
     (n / 0x100 % 0x100) as byte, (n % 0x100) as byte]
  }

  /** The integer held by a four-octet attribute value; None for any other length. */
  function U32Value(s: seq<byte>): (r: Option<u32>)
    ensures r.Some? <==> |s| == 4
  {
    if |s| != 4 then None
    else Some((s[0] as int * 0x100_0000 + s[1] as int * 0x1_0000
               + s[2] as int * 0x100 + s[3] as int) as u32)
  }

  lemma U32RoundTrip(v: u32)
    ensures U32Value(U32Bytes(v)) == Some(v)
  {
  }

  /** An integer attribute as radius_msg_add_attr_int32 lays it out. */
  function Int32Attribute(kind: byte, v: u32): (a: Attribute)
    ensures a.kind == kind && U32Value(a.data) == Some(v)
  {
    U32RoundTrip(v);
    Attribute(kind, U32Bytes(v))
  }

  /** The value of the first Error-Cause attribute; None if there is none or it does not decode. */
  function ErrorCause(attrs: seq<Attribute>): Option<u32>
  {
    if attrs == [] then None
    else if attrs[0].kind == AttrErrorCause then U32Value(attrs[0].data)
    else ErrorCause(attrs[1..])
  }
}
