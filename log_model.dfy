/**
 * The data the log package works on: zapcore's levels, field kinds, fields
 * and entries, the error values carried by fields, and the failures the
 * Sentry core reports. It also fixes how zap's field constructors store a
 * value in a field, which is what decoding has to undo.
 */
module LogModel {
  import opened Optional

  /** The 64-bit integer slot of a zap field (an int64). */
  type Int64 = x: int | -0x8000_0000_0000_0000 <= x < 0x8000_0000_0000_0000

  /** A byte of a []byte payload. */
  type Byte = x: int | 0 <= x < 0x100

  /** Nanoseconds, as time.Duration counts them. */
  type Duration = Int64

  const Second: Duration := 1_000_000_000

  /** zapcore.Level is an int8; the seven named levels are -1 .. 5. */
  type Level = x: int | -128 <= x < 128

  const DebugLevel: Level := -1
  const InfoLevel: Level := 0
  const WarnLevel: Level := 1
  const ErrorLevel: Level := 2
  const DPanicLevel: Level := 3
  const PanicLevel: Level := 4
  const FatalLevel: Level := 5

  /** zapcore.FieldType: the closed enumeration of field kinds. */
  datatype FieldType =
    | UnknownType | ArrayMarshalerType | ObjectMarshalerType | BinaryType | BoolType
    | ByteStringType | Complex128Type | Complex64Type | DurationType | Float64Type
    | Float32Type | Int64Type | Int32Type | Int16Type | Int8Type | StringType | TimeType
    | TimeFullType | Uint64Type | Uint32Type | Uint16Type | Uint8Type | UintptrType
    | ReflectType | NamespaceType | StringerType | ErrorType | SkipType | InlineMarshalerType

  /**
   * An error value. `PanicWrapper` is the `*PanicWrapper` of sentry.go that
   * embeds another error; every other error is `PlainError` with its text.
   */
  datatype GoError = PlainError(text: string) | PanicWrapper(cause: GoError)
  {
    /** err.Error(): a PanicWrapper answers with the embedded error's text. */
    function Text(): string {
      match this
      case PlainError(t) => t
      case PanicWrapper(c) => c.Text()
    }
  }

  /**
   * The dynamic value held by a field's `Interface` slot. Only the dynamic
   * types fieldValueAsInterface asserts are distinguished; a Stringer is
   * represented by the text its String method returns.
   */
  datatype Payload =
    | NilInterface
    | ByteSlice(bytes: seq<Byte>)
    | Complex128(realBits: nat, imagBits: nat)
    | Complex64(realBits: nat, imagBits: nat)
    | TimeLocation(zone: string)
    | StringerObject(text: string)
    | ErrorObject(err: GoError)
    | OtherObject(description: string)

  /** zapcore.Field: key, kind, the 64-bit slot, the string slot and the Interface slot. */
  datatype Field = Field(key: string, ftype: FieldType, integer: Int64, str: string, iface: Payload)

  /** zapcore.Entry, reduced to what the Sentry core reads. */
  datatype Entry = Entry(level: Level, message: string)

  /** Why a Go panic unwinds out of the Sentry core. */
  datatype PanicReason =
    | WrongDynamicType(ftype: FieldType)   // a failed type assertion on Interface
    | LevelOutOfRange(level: Level)        // levelToSentryLevel's default branch

  /** What the Sentry core can fail with instead of completing. */
  datatype Failure =
    | UnknownFieldType(ftype: FieldType)   // "unknown field type: %v"
    | UnknownLevel(level: Level)           // "unknown level: %s"
    | Panicked(reason: PanicReason)

  datatype Result<+T> = Ok(value: T) | Err(failure: Failure)

  datatype Outcome = Done | Failed(failure: Failure)

  // ---------------------------------------------------------------------
  // How zap's field constructors store their value (zap.Bool, zap.Int32, ...).

  /** int64(u) for a uint64 u: the two's-complement reading of the same 64 bits. */
  function AsInt64(u: nat): (r: Int64)
    requires u < 0x1_0000_0000_0000_0000
    ensures r == u || r == u - 0x1_0000_0000_0000_0000
  {
    if u < 0x8000_0000_0000_0000 then u else u - 0x1_0000_0000_0000_0000
  }

  function ZapBool(key: string, b: bool): Field {
    Field(key, BoolType, if b then 1 else 0, "", NilInterface)
  }

  function ZapInt64(key: string, v: Int64): Field { Field(key, Int64Type, v, "", NilInterface) }

  function ZapInt32(key: string, v: int): Field
    requires -0x8000_0000 <= v < 0x8000_0000
  { Field(key, Int32Type, v, "", NilInterface) }

  function ZapInt16(key: string, v: int): Field
    requires -0x8000 <= v < 0x8000
  { Field(key, Int16Type, v, "", NilInterface) }

  function ZapInt8(key: string, v: int): Field
    requires -0x80 <= v < 0x80
  { Field(key, Int8Type, v, "", NilInterface) }

  function ZapUint64(key: string, v: nat): Field
    requires v < 0x1_0000_0000_0000_0000
  { Field(key, Uint64Type, AsInt64(v), "", NilInterface) }

  function ZapUint32(key: string, v: nat): Field
    requires v < 0x1_0000_0000
  { Field(key, Uint32Type, v, "", NilInterface) }

  function ZapUint16(key: string, v: nat): Field
    requires v < 0x1_0000
  { Field(key, Uint16Type, v, "", NilInterface) }

  function ZapUint8(key: string, v: nat): Field
    requires v < 0x100
  { Field(key, Uint8Type, v, "", NilInterface) }

  /** zap.Float64 stores int64(math.Float64bits(f)); `bits` is that bit pattern. */
  function ZapFloat64(key: string, bits: nat): Field
    requires bits < 0x1_0000_0000_0000_0000
  { Field(key, Float64Type, AsInt64(bits), "", NilInterface) }

  /** zap.Float32 stores int64(math.Float32bits(f)), a zero-extended 32-bit pattern. */
  function ZapFloat32(key: string, bits: nat): Field
    requires bits < 0x1_0000_0000
  { Field(key, Float32Type, bits, "", NilInterface) }

  function ZapString(key: string, s: string): Field { Field(key, StringType, 0, s, NilInterface) }

  function ZapDuration(key: string, d: Duration): Field { Field(key, DurationType, d, "", NilInterface) }

  /** zap.Skip(): a field with no key that encoders ignore. */
  function ZapSkip(): Field { Field("", SkipType, 0, "", NilInterface) }

  /** zap.NamedError: a nil error becomes zap.Skip(). */
  function ZapNamedError(key: string, err: Option<GoError>): Field {
    match err
    case None => ZapSkip()
    case Some(e) => Field(key, ErrorType, 0, "", ErrorObject(e))
  }
}
