/**
 * The inbound message cursor the protocol handlers read from.
 *
 * A decoded message is an ordered list of typed, named variables (the
 * message template already applied); the cursor is an index into it.
 * Every read is checked: reading past the end, reading a variable of a
 * different type, or skipping to a name that does not follow the cursor
 * fails with a DecodeError and leaves the cursor where it was.
 */
module NetMessage {
  import opened Wrappers

  type byte = b: int | 0 <= b < 0x100
  type uint16 = n: int | 0 <= n < 0x1_0000
  type uint32 = n: int | 0 <= n < 0x1_0000_0000
  type uint64 = n: int | 0 <= n < 0x1_0000_0000_0000_0000

  /** A 128-bit RexUUID, as two 64-bit halves. */
  datatype UUID = UUID(hi: uint64, lo: uint64)

  /** Three 32-bit floats, kept as their IEEE-754 bit patterns. */
  datatype Vector3 = Vector3(x: uint32, y: uint32, z: uint32)

  /** The type tag of a variable; NetVarNone is what the cursor reports past the end. */
  datatype NetVariableType =
    | NetVarNone | NetVarU8 | NetVarU16 | NetVarU32 | NetVarU64
    | NetVarF32 | NetVarVector3 | NetVarUUID | NetVarBuffer

  datatype NetValue =
    | U8(b: byte)
    | U16(h: uint16)
    | U32(w: uint32)
    | U64(d: uint64)
    | F32(bits: uint32)
    | Vec3(v: Vector3)
    | Id(id: UUID)
    | Buffer(bytes: seq<byte>)

  datatype NetVariable = NetVariable(name: string, value: NetValue)

  datatype DecodeError =
    | EndOfMessage(at: nat)
    | WrongType(at: nat, expected: NetVariableType, found: NetVariableType)
    | NoSuchVariable(name: string)

  /** A value read at some position, with the position of the variable after it. */
  datatype Read<T> = Read(value: T, next: nat)

  function TypeOf(v: NetValue): NetVariableType {
    match v
    case U8(_) => NetVarU8
    case U16(_) => NetVarU16
    case U32(_) => NetVarU32
    case U64(_) => NetVarU64
    case F32(_) => NetVarF32
    case Vec3(_) => NetVarVector3
    case Id(_) => NetVarUUID
    case Buffer(_) => NetVarBuffer
  }

  /** The type of the variable at pos, or NetVarNone when nothing is left. */
  function NextVariableType(vars: seq<NetVariable>, pos: nat): (t: NetVariableType)
    ensures t == NetVarNone <==> pos >= |vars|
  {
    if pos < |vars| then TypeOf(vars[pos].value) else NetVarNone
  }

  /** The variable at pos, provided it has type t. */
  function VariableAt(vars: seq<NetVariable>, pos: nat, t: NetVariableType): (r: Result<Read<NetValue>, DecodeError>)
    ensures r.Ok? <==> pos < |vars| && TypeOf(vars[pos].value) == t
    ensures r.Ok? ==> r.value == Read(vars[pos].value, pos + 1)
  {
    if pos >= |vars| then Err(EndOfMessage(pos))
    else if TypeOf(vars[pos].value) != t then Err(WrongType(pos, t, TypeOf(vars[pos].value)))
    else Ok(Read(vars[pos].value, pos + 1))
  }

  function U8At(vars: seq<NetVariable>, pos: nat): Result<Read<byte>, DecodeError> {
    var r :- VariableAt(vars, pos, NetVarU8);
    Ok(Read(r.value.b, r.next))
  }

  function U32At(vars: seq<NetVariable>, pos: nat): Result<Read<uint32>, DecodeError> {
    var r :- VariableAt(vars, pos, NetVarU32);
    Ok(Read(r.value.w, r.next))
  }

  function U64At(vars: seq<NetVariable>, pos: nat): Result<Read<uint64>, DecodeError> {
    var r :- VariableAt(vars, pos, NetVarU64);
    Ok(Read(r.value.d, r.next))
  }

  function UUIDAt(vars: seq<NetVariable>, pos: nat): Result<Read<UUID>, DecodeError> {
    var r :- VariableAt(vars, pos, NetVarUUID);
    Ok(Read(r.value.id, r.next))
  }

  function Vector3At(vars: seq<NetVariable>, pos: nat): Result<Read<Vector3>, DecodeError> {
    var r :- VariableAt(vars, pos, NetVarVector3);
    Ok(Read(r.value.v, r.next))
  }

  function BufferAt(vars: seq<NetVariable>, pos: nat): Result<Read<seq<byte>>, DecodeError> {
    var r :- VariableAt(vars, pos, NetVarBuffer);
    Ok(Read(r.value.bytes, r.next))
  }

  /** A text variable is a buffer holding a NUL-terminated string. */
  function StringAt(vars: seq<NetVariable>, pos: nat): Result<Read<seq<byte>>, DecodeError> {
    var r :- BufferAt(vars, pos);
    Ok(Read(CString(r.value), r.next))
  }

  /** The bytes before the first NUL. */
  function CString(bytes: seq<byte>): (s: seq<byte>)
    ensures s <= bytes && 0 !in s
    ensures |s| < |bytes| ==> bytes[|s|] == 0
  {
    if bytes == [] || bytes[0] == 0 then [] else [bytes[0]] + CString(bytes[1..])
  }

  function SkipAt(vars: seq<NetVariable>, pos: nat): (r: Result<nat, DecodeError>)
    ensures r.Ok? <==> pos < |vars|
    ensures r.Ok? ==> r.value == pos + 1
  {
    if pos < |vars| then Ok(pos + 1) else Err(EndOfMessage(pos))
  }

  /** The first position at or after pos whose variable is called name. */
  function FindByName(vars: seq<NetVariable>, pos: nat, name: string): (r: Result<nat, DecodeError>)
    decreases |vars| - pos
    ensures r.Ok? ==> pos <= r.value < |vars| && vars[r.value].name == name
    ensures r.Ok? ==> forall j :: pos <= j < r.value ==> vars[j].name != name
    ensures r.Err? ==> forall j :: pos <= j < |vars| ==> vars[j].name != name
  {
    if pos >= |vars| then Err(NoSuchVariable(name))
    else if vars[pos].name == name then Ok(pos)
    else FindByName(vars, pos + 1, name)
  }

  /** What a typed read hands back to its caller. */
  function ValueOf<T>(r: Result<Read<T>, DecodeError>): Result<T, DecodeError> {
    match r
    case Ok(rd) => Ok(rd.value)
    case Err(e) => Err(e)
  }

  /** Where the cursor is after a read from pos: moved on if it succeeded, unchanged if not. */
  function PositionAfter<T>(r: Result<Read<T>, DecodeError>, pos: nat): nat {
    match r
    case Ok(rd) => rd.next
    case Err(_) => pos
  }

  /** The outcome of a skip, without the position it moved to. */
  function Discard<T>(r: Result<T, DecodeError>): Result<(), DecodeError> {
    match r
    case Ok(_) => Ok(())
    case Err(e) => Err(e)
  }

  /** memcpy(dst + at, src, |src|), shared by the prim-data and asset assembly code. */
  method MemCopy(dst: array<byte>, at: nat, src: seq<byte>)
    requires at + |src| <= dst.Length
    modifies dst
    ensures dst[..at] == old(dst[..at])
    ensures dst[at..at + |src|] == src
    ensures dst[at + |src|..] == old(dst[at + |src|..])
  {
    forall i | 0 <= i < |src| {
      dst[at + i] := src[i];
    }
  }

  /** The forward-only cursor over one message. */
  class NetInMessage {
    const variables: seq<NetVariable>
    var position: nat

    constructor (variables: seq<NetVariable>)
      ensures this.variables == variables && position == 0
    {
      this.variables := variables;
      position := 0;
    }

    method ResetReading()
      modifies this
      ensures position == 0
    {
      position := 0;
    }

    /** Peeks at the type of the next variable without consuming it. */
    function CheckNextVariableType(): (t: NetVariableType)
      reads this
      ensures t == NetVarNone <==> position >= |variables|
      ensures t != NetVarNone ==> t == TypeOf(variables[position].value)
    {
      NextVariableType(variables, position)
    }

    method SkipToNextVariable() returns (r: Result<(), DecodeError>)
      modifies this
      ensures r == Discard(SkipAt(variables, old(position)))
      ensures position == if r.Ok? then old(position) + 1 else old(position)
    {
      var skipped := SkipAt(variables, position);
      r := Discard(skipped);
      if skipped.Ok? {
        position := skipped.value;
      }
    }

    method SkipToFirstVariableByName(name: string) returns (r: Result<(), DecodeError>)
      modifies this
      ensures r == Discard(FindByName(variables, old(position), name))
      ensures position == if r.Ok? then FindByName(variables, old(position), name).value else old(position)
    {
      var found := FindByName(variables, position, name);
      r := Discard(found);
      if found.Ok? {
        position := found.value;
      }
    }

    method ReadU8() returns (r: Result<byte, DecodeError>)
      modifies this
      ensures r == ValueOf(U8At(variables, old(position)))
      ensures position == PositionAfter(U8At(variables, old(position)), old(position))
    {
      var rd := U8At(variables, position);
      r, position := ValueOf(rd), PositionAfter(rd, position);
    }

    method ReadU32() returns (r: Result<uint32, DecodeError>)
      modifies this
      ensures r == ValueOf(U32At(variables, old(position)))
      ensures position == PositionAfter(U32At(variables, old(position)), old(position))
    {
      var rd := U32At(variables, position);
      r, position := ValueOf(rd), PositionAfter(rd, position);
    }

    method ReadU64() returns (r: Result<uint64, DecodeError>)
      modifies this
      ensures r == ValueOf(U64At(variables, old(position)))
      ensures position == PositionAfter(U64At(variables, old(position)), old(position))
    {
      var rd := U64At(variables, position);
      r, position := ValueOf(rd), PositionAfter(rd, position);
    }

    method ReadUUID() returns (r: Result<UUID, DecodeError>)
      modifies this
      ensures r == ValueOf(UUIDAt(variables, old(position)))
      ensures position == PositionAfter(UUIDAt(variables, old(position)), old(position))
    {
      var rd := UUIDAt(variables, position);
      r, position := ValueOf(rd), PositionAfter(rd, position);
    }

    method ReadVector3() returns (r: Result<Vector3, DecodeError>)
      modifies this
      ensures r == ValueOf(Vector3At(variables, old(position)))
      ensures position == PositionAfter(Vector3At(variables, old(position)), old(position))
    {
      var rd := Vector3At(variables, position);
      r, position := ValueOf(rd), PositionAfter(rd, position);
    }

    method ReadBuffer() returns (r: Result<seq<byte>, DecodeError>)
      modifies this
      ensures r == ValueOf(BufferAt(variables, old(position)))
      ensures position == PositionAfter(BufferAt(variables, old(position)), old(position))
    {
      var rd := BufferAt(variables, position);
      r, position := ValueOf(rd), PositionAfter(rd, position);
    }

    method ReadString() returns (r: Result<seq<byte>, DecodeError>)
      modifies this
      ensures r == ValueOf(StringAt(variables, old(position)))
      ensures position == PositionAfter(StringAt(variables, old(position)), old(position))
    {
      var rd := StringAt(variables, position);
      r, position := ValueOf(rd), PositionAfter(rd, position);
    }
  }
}
