/**
  Types shared by the whole model: KNoT values and schemas, event flags, the thing's data
  items, and the parameters that stand for the KNoT protocol library and for the text
  format of settings files, neither of which is part of the repository.
*/
module KnotTypes {

  datatype Option<+T> = None | Some(value: T)

  // ---------- Error codes (returned negated, as in C) ----------

  const EIO := 5
  const ENOENT := 2
  const EINVAL := 22
  const ENOMSG := 42

  // ---------- KNoT value types ----------

  const INT := 1
  const FLOAT := 2
  const BOOL := 3
  const RAW := 4
  const INT64 := 5
  const UINT := 6
  const UINT64 := 7
  const VALUE_TYPE_MIN := INT
  const VALUE_TYPE_MAX := UINT64

  const TWO_8 := 0x100
  const TWO_32 := 0x1_0000_0000
  const TWO_64 := 0x1_0000_0000_0000_0000

  /** The eight bytes of a knot_value_type union, least significant byte first. */
  type Word64 = n: nat | n < TWO_64

  /** A union member together with its type: what one arm of the union reads. */
  datatype Scalar =
    | IntValue(i: int)
    | FloatBits(bits: nat)
    | BoolValue(b: bool)
    | Int64Value(i64: int)
    | UintValue(u: nat)
    | Uint64Value(u64: nat)

  function Signed(n: nat, modulus: nat): int {
    if 2 * n < modulus then n else n - modulus
  }

  function Unsigned(i: int, modulus: nat): (n: nat)
    requires 0 < modulus
  {
    i % modulus
  }

  /** The arm of the union that the value type selects; raw data has no scalar arm. */
  function Reading(valueType: int, v: Word64): Option<Scalar> {
    if valueType == INT then Some(IntValue(Signed(v % TWO_32, TWO_32)))
    else if valueType == FLOAT then Some(FloatBits(v % TWO_32))
    else if valueType == BOOL then Some(BoolValue(v % TWO_8 != 0))
    else if valueType == INT64 then Some(Int64Value(Signed(v, TWO_64)))
    else if valueType == UINT then Some(UintValue(v % TWO_32))
    else if valueType == UINT64 then Some(Uint64Value(v))
    else None
  }

  predicate HasArm(valueType: int) {
    valueType == INT || valueType == FLOAT || valueType == BOOL ||
    valueType == INT64 || valueType == UINT || valueType == UINT64
  }

  predicate InRange(s: Scalar) {
    match s
    case IntValue(i) => -0x8000_0000 <= i < 0x8000_0000
    case FloatBits(bits) => bits < TWO_32
    case BoolValue(_) => true
    case Int64Value(i) => -0x8000_0000_0000_0000 <= i < 0x8000_0000_0000_0000
    case UintValue(u) => u < TWO_32
    case Uint64Value(u) => u < TWO_64
  }

  function KindOf(s: Scalar): int {
    match s
    case IntValue(_) => INT
    case FloatBits(_) => FLOAT
    case BoolValue(_) => BOOL
    case Int64Value(_) => INT64
    case UintValue(_) => UINT
    case Uint64Value(_) => UINT64
  }

  /** A union whose selected arm holds the scalar and whose other bytes are zero. */
  function Stored(s: Scalar): Word64 {
    match s
    case IntValue(i) => Unsigned(i, TWO_32)
    case FloatBits(bits) => bits % TWO_32
    case BoolValue(b) => if b then 1 else 0
    case Int64Value(i) => Unsigned(i, TWO_64)
    case UintValue(u) => u % TWO_32
    case Uint64Value(u) => u % TWO_64
  }

  lemma ReadingOfStored(s: Scalar)
    requires InRange(s)
    ensures Reading(KindOf(s), Stored(s)) == Some(s)
  {
  }

  lemma ReadingInRange(valueType: int, v: Word64)
    requires HasArm(valueType)
    ensures Reading(valueType, v).Some?
    ensures InRange(Reading(valueType, v).value) && KindOf(Reading(valueType, v).value) == valueType
  {
  }

  lemma ReadingIffArm(valueType: int, v: Word64)
    ensures Reading(valueType, v).Some? <==> HasArm(valueType)
  {
  }

  // ---------- Schemas, events and data items ----------

  datatype Flag = TimeFlag | LowerFlag | UpperFlag | ChangeFlag | UnregisteredFlag

  datatype Schema = Schema(typeId: int, unit: int, valueType: int, name: string)

  datatype EventConfig = EventConfig(flags: set<Flag>, timeSec: nat, lower: Word64, upper: Word64)

  datatype ModbusSource = ModbusSource(regAddr: int, bitOffset: int, endianness: int)

  datatype DataItem = DataItem(
    sensorId: int,
    schema: Schema,
    event: EventConfig,
    currentVal: Word64,
    sentVal: Word64,
    source: ModbusSource)

  datatype ConfigMsg = ConfigMsg(sensorId: int, schema: Schema, event: EventConfig)

  // ---------- What the model does not see ----------

  /** The KNoT protocol library, the printing and parsing of values in settings files, and
      the lengths of the protocol's string buffers. */
  datatype Platform = Platform(
    schemaIsValid: (int, int, int) -> bool,
    eventIsValid: (set<Flag>, int, nat, Word64, Word64) -> bool,
    assignLimit: (int, Word64, Word64) -> Word64,
    floatLess: (nat, nat) -> bool,
    show: Scalar -> string,
    parse: (int, string) -> Option<Scalar>,
    tokenLen: nat,
    uuidLen: nat,
    dataNameLen: nat,
    deviceNameLen: nat)

  /** Everything the results assume of the platform. */
  ghost predicate Lawful(p: Platform) {
    && (forall s: Scalar :: InRange(s) && !s.FloatBits? ==> p.parse(KindOf(s), p.show(s)) == Some(s))
    && (forall k: int, t: string ::
          p.parse(k, t).Some? ==> InRange(p.parse(k, t).value) && KindOf(p.parse(k, t).value) == k)
    && (forall k: int, src: Word64, dst: Word64 ::
          HasArm(k) ==> Reading(k, p.assignLimit(k, src, dst)) == Reading(k, src))
    && (forall typeId: int, k: int, unit: int ::
          p.schemaIsValid(typeId, k, unit) ==> VALUE_TYPE_MIN <= k <= VALUE_TYPE_MAX)
    && (forall a: nat, b: nat :: p.floatLess(a, b) ==> !p.floatLess(b, a))
    && p.uuidLen >= 16 // a 64-bit id in hexadecimal fits its buffer
  }

  // ---------- One-shot timers of the event loop ----------

  /** Re-arming leaves a timer as it is when asked for zero seconds. */
  function Rearmed(armed: bool, seconds: nat): bool {
    armed || seconds > 0
  }

  // ---------- Sequences without repetition ----------

  predicate Distinct<T(==)>(s: seq<T>) {
    forall i, j :: 0 <= i < j < |s| ==> s[i] != s[j]
  }
}
