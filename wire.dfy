/**
 * The stream layer AppendResult is serialised through: a DataOutput that
 * accumulates written items and a DataInput that hands them back in order.
 * Bytes are abstracted to one token per written value, because the byte
 * layout of the integer encoding belongs to a utility outside this model.
 */
module Wire {

  /** Java's `int`: a signed 32-bit integer. */
  newtype int32 = x: int | -0x8000_0000 <= x < 0x8000_0000

  /** One item on the wire: a boolean written by writeBoolean, or an int written by the int writer. */
  datatype Token = WBool(b: bool) | WInt(i: int32)

  /**
   * Why a read failed. EndOfInput is Java's EOFException. UnexpectedToken has
   * no Java counterpart: it arises only because the wire is modelled as
   * tokens, where Java would misread the bytes instead.
   */
  datatype DecodeError =
    | EndOfInput                    // the stream ended before the item
    | UnexpectedToken(found: Token) // the next item is of the other kind

  datatype Result<T> = Ok(value: T) | Err(error: DecodeError)

  /** Reads a boolean from the front of `ts`, returning it with the tokens that follow. */
  function DecodeBoolean(ts: seq<Token>): (r: Result<(bool, seq<Token>)>)
    ensures r.Ok? <==> ts != [] && ts[0].WBool?
    ensures r.Ok? ==> ts == [WBool(r.value.0)] + r.value.1
    ensures r.Err? ==> (r.error == EndOfInput <==> ts == [])
  {
    if ts == [] then Err(EndOfInput)
    else match ts[0]
      case WBool(b) => Ok((b, ts[1..]))
      case WInt(_) => Err(UnexpectedToken(ts[0]))
  }

  /** Reads an int from the front of `ts`, returning it with the tokens that follow. */
  function DecodeInt(ts: seq<Token>): (r: Result<(int32, seq<Token>)>)
    ensures r.Ok? <==> ts != [] && ts[0].WInt?
    ensures r.Ok? ==> ts == [WInt(r.value.0)] + r.value.1
    ensures r.Err? ==> (r.error == EndOfInput <==> ts == [])
  {
    if ts == [] then Err(EndOfInput)
    else match ts[0]
      case WInt(i) => Ok((i, ts[1..]))
      case WBool(_) => Err(UnexpectedToken(ts[0]))
  }

  /** An output stream: everything written so far, in order. */
  class DataOutput {
    var written: seq<Token>

    constructor ()
      ensures written == []
    {
      written := [];
    }

    method WriteBoolean(b: bool)
      modifies this
      ensures written == old(written) + [WBool(b)]
    {
      written := written + [WBool(b)];
    }

    method WriteInt(i: int32)
      modifies this
      ensures written == old(written) + [WInt(i)]
    {
      written := written + [WInt(i)];
    }
  }

  /** An input stream: the tokens not yet consumed. A failed read consumes nothing. */
  class DataInput {
    var remaining: seq<Token>

    constructor (ts: seq<Token>)
      ensures remaining == ts
    {
      remaining := ts;
    }

    method ReadBoolean() returns (r: Result<bool>)
      modifies this
      ensures match DecodeBoolean(old(remaining))
        case Ok((b, rest)) => r == Ok(b) && remaining == rest
        case Err(e) => r == Err(e) && remaining == old(remaining)
    {
      match DecodeBoolean(remaining)
      case Ok((b, rest)) =>
        r := Ok(b);
        remaining := rest;
      case Err(e) =>
        r := Err(e);
    }

    method ReadInt() returns (r: Result<int32>)
      modifies this
      ensures match DecodeInt(old(remaining))
        case Ok((i, rest)) => r == Ok(i) && remaining == rest
        case Err(e) => r == Err(e) && remaining == old(remaining)
    {
      match DecodeInt(remaining)
      case Ok((i, rest)) =>
        r := Ok(i);
        remaining := rest;
      case Err(e) =>
        r := Err(e);
    }
  }
}
