/** The byte consumer of the go-fuzz-headers library, which the encoder
    drives. Its decoding algorithms are not part of this model: each
    operation is an injected function from the unconsumed bytes to either a
    failure or a value and the bytes that remain. `Valid` states the one
    property the encoder relies on: a successful call consumes a non-empty
    prefix and leaves the rest untouched. */
module FuzzConsumer {

  import opened Outcome
  import opened Text

  type int32 = x: int | -0x8000_0000 <= x < 0x8000_0000
  type int64 = x: int | -0x8000_0000_0000_0000 <= x < 0x8000_0000_0000_0000
  type uint16 = x: int | 0 <= x < 0x1_0000
  type uint32 = x: int | 0 <= x < 0x1_0000_0000
  type uint64 = x: int | 0 <= x < 0x1_0000_0000_0000_0000

  /** One function per consumer operation: on success, the value read and
      the bytes still unconsumed. */
  datatype Ops = Ops(
    getBytes: seq<byte> -> Option<(seq<byte>, seq<byte>)>,
    getString: seq<byte> -> Option<(seq<byte>, seq<byte>)>,
    getInt: seq<byte> -> Option<(int64, seq<byte>)>,
    getUint16: seq<byte> -> Option<(uint16, seq<byte>)>,
    getUint32: seq<byte> -> Option<(uint32, seq<byte>)>,
    getUint64: seq<byte> -> Option<(uint64, seq<byte>)>,
    getRune: seq<byte> -> Option<(seq<int32>, seq<byte>)>,
    getFloat32: seq<byte> -> Option<(bv32, seq<byte>)>,
    getFloat64: seq<byte> -> Option<(bv64, seq<byte>)>,
    getBool: seq<byte> -> Option<(bool, seq<byte>)>)

  /** `after` is what remains of `before` once a non-empty prefix is read. */
  predicate ProperSuffix(after: seq<byte>, before: seq<byte>) {
    |after| < |before| && after == before[|before| - |after|..]
  }

  /** Every successful operation consumes a non-empty prefix. */
  ghost predicate Valid(ops: Ops) {
    (forall b :: ops.getBytes(b).Some? ==> ProperSuffix(ops.getBytes(b).value.1, b)) &&
    (forall b :: ops.getString(b).Some? ==> ProperSuffix(ops.getString(b).value.1, b)) &&
    (forall b :: ops.getInt(b).Some? ==> ProperSuffix(ops.getInt(b).value.1, b)) &&
    (forall b :: ops.getUint16(b).Some? ==> ProperSuffix(ops.getUint16(b).value.1, b)) &&
    (forall b :: ops.getUint32(b).Some? ==> ProperSuffix(ops.getUint32(b).value.1, b)) &&
    (forall b :: ops.getUint64(b).Some? ==> ProperSuffix(ops.getUint64(b).value.1, b)) &&
    (forall b :: ops.getRune(b).Some? ==> ProperSuffix(ops.getRune(b).value.1, b)) &&
    (forall b :: ops.getFloat32(b).Some? ==> ProperSuffix(ops.getFloat32(b).value.1, b)) &&
    (forall b :: ops.getFloat64(b).Some? ==> ProperSuffix(ops.getFloat64(b).value.1, b)) &&
    (forall b :: ops.getBool(b).Some? ==> ProperSuffix(ops.getBool(b).value.1, b))
  }

  /** `fuzz.NewConsumer(testcase)` and the operations the encoder calls on it.
      A failed call leaves the unconsumed bytes as they were. */
  class Consumer {
    const ops: Ops
    var rest: seq<byte>

    constructor (ops: Ops, data: seq<byte>)
      ensures this.ops == ops && rest == data
    {
      this.ops := ops;
      rest := data;
    }


    method GetBytes() returns (r: Option<seq<byte>>)
      modifies this
      ensures match ops.getBytes(old(rest))
        case None => r == None && rest == old(rest)
        case Some((v, after)) => r == Some(v) && rest == after
    {
      match ops.getBytes(rest)
      case None => r := None;
      case Some((v, after)) => r := Some(v); rest := after;
    }


    method GetString() returns (r: Option<seq<byte>>)
      modifies this
      ensures match ops.getString(old(rest))
        case None => r == None && rest == old(rest)
        case Some((v, after)) => r == Some(v) && rest == after
    {
      match ops.getString(rest)
      case None => r := None;
      case Some((v, after)) => r := Some(v); rest := after;
    }


    method GetInt() returns (r: Option<int64>)
      modifies this
      ensures match ops.getInt(old(rest))
        case None => r == None && rest == old(rest)
        case Some((v, after)) => r == Some(v) && rest == after
    {
      match ops.getInt(rest)
      case None => r := None;
      case Some((v, after)) => r := Some(v); rest := after;
    }


    method GetUint16() returns (r: Option<uint16>)
      modifies this
      ensures match ops.getUint16(old(rest))
        case None => r == None && rest == old(rest)
        case Some((v, after)) => r == Some(v) && rest == after
    {
      match ops.getUint16(rest)
      case None => r := None;
      case Some((v, after)) => r := Some(v); rest := after;
    }


    method GetUint32() returns (r: Option<uint32>)
      modifies this
      ensures match ops.getUint32(old(rest))
        case None => r == None && rest == old(rest)
        case Some((v, after)) => r == Some(v) && rest == after
    {
      match ops.getUint32(rest)
      case None => r := None;
      case Some((v, after)) => r := Some(v); rest := after;
    }


    method GetUint64() returns (r: Option<uint64>)
      modifies this
      ensures match ops.getUint64(old(rest))
        case None => r == None && rest == old(rest)
        case Some((v, after)) => r == Some(v) && rest == after
    {
      match ops.getUint64(rest)
      case None => r := None;
      case Some((v, after)) => r := Some(v); rest := after;
    }


    method GetRune() returns (r: Option<seq<int32>>)
      modifies this
      ensures match ops.getRune(old(rest))
        case None => r == None && rest == old(rest)
        case Some((v, after)) => r == Some(v) && rest == after
    {
      match ops.getRune(rest)
      case None => r := None;
      case Some((v, after)) => r := Some(v); rest := after;
    }


    method GetFloat32() returns (r: Option<bv32>)
      modifies this
      ensures match ops.getFloat32(old(rest))
        case None => r == None && rest == old(rest)
        case Some((v, after)) => r == Some(v) && rest == after
    {
      match ops.getFloat32(rest)
      case None => r := None;
      case Some((v, after)) => r := Some(v); rest := after;
    }


    method GetFloat64() returns (r: Option<bv64>)
      modifies this
      ensures match ops.getFloat64(old(rest))
        case None => r == None && rest == old(rest)
        case Some((v, after)) => r == Some(v) && rest == after
    {
      match ops.getFloat64(rest)
      case None => r := None;
      case Some((v, after)) => r := Some(v); rest := after;
    }


    method GetBool() returns (r: Option<bool>)
      modifies this
      ensures match ops.getBool(old(rest))
        case None => r == None && rest == old(rest)
        case Some((v, after)) => r == Some(v) && rest == after
    {
      match ops.getBool(rest)
      case None => r := None;
      case Some((v, after)) => r := Some(v); rest := after;
    }

  }
}
