/** Values shared by every part of the model: results, IP addresses and their texts. */
module Basics {

  datatype Option<+T> = None | Some(value: T)

  /** The error a Go function returns. `NilPointer` stands for the panic of an unchecked
      dereference: it aborts the enclosing call exactly as the modelled errors do. */
  datatype Error =
    | CallFailed          // transport error or unexpected HTTP status
    | NilPointer
    | BadAddress          // netip.ParseAddr failed
    | UnknownServer
    | UnknownService
    | LabelNotWritten
    | TaskFailed
    | Cancelled
    | AddressNotFound
    | IncompleteInfo

  datatype Result<+T> = Ok(value: T) | Err(error: Error)

  datatype Family = IPv4 | IPv6

  /** A parsed address; every parsed address is of exactly one family. */
  datatype Addr = Addr(family: Family, bits: nat)

  /** A text that may denote an address: its canonical spelling, another spelling that
      parses to it, or no address at all. */
  datatype Text =
    | Canonical(addr: Addr)
    | Variant(addr: Addr, spelling: nat)
    | Garbage(code: nat)

  function TextOf(a: Addr): Text {
    Canonical(a)
  }

  function Parse(t: Text): Option<Addr> {
    match t
    case Canonical(a) => Some(a)
    case Variant(a, _) => Some(a)
    case Garbage(_) => None
  }

  /** The canonical texts of a sequence of addresses. */
  function Texts(addrs: seq<Addr>): (ts: seq<Text>)
    ensures |ts| == |addrs|
    ensures forall i :: 0 <= i < |addrs| ==> ts[i] == TextOf(addrs[i])
  {
    seq(|addrs|, i requires 0 <= i < |addrs| => TextOf(addrs[i]))
  }

  function OptionSeq<T>(o: Option<T>): seq<T> {
    if o.Some? then [o.value] else []
  }
}
