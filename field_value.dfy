/**
 * fieldValueAsInterface (internal/log/sentry.go): turning a zap field back
 * into the dynamic value it carries, selected by the field's kind.
 */
module FieldValue {
  import opened Optional
  import opened LogModel

  /** The dynamic values decoding can produce, one variant per Go result type. */
  datatype Value =
    | BytesValue(bytes: seq<Byte>)
    | BoolValue(b: bool)
    | Complex128Value(realBits: nat, imagBits: nat)
    | Complex64Value(realBits: nat, imagBits: nat)
    | DurationValue(nanos: int)
    | Float64Value(bits: nat)                  // the IEEE-754 bit pattern, not a real
    | Float32Value(bits: nat)
    | Int64Value(i: int)
    | Int32Value(i: int)
    | Int16Value(i: int)
    | Int8Value(i: int)
    | StringValue(s: string)
    | TimeValue(unixNanos: int, zone: Option<string>)   // None: time.Unix's default zone
    | Uint64Value(u: nat)
    | Uint32Value(u: nat)
    | Uint16Value(u: nat)
    | Uint8Value(u: nat)
    | UintptrValue(u: nat)
    | StringerText(s: string)
    | ErrorValue(err: GoError)

  const Two8: nat := 0x100
  const Two16: nat := 0x1_0000
  const Two32: nat := 0x1_0000_0000
  const Two64: nat := 0x1_0000_0000_0000_0000

  /** The widths Go converts an int64 to. */
  datatype Width = W8 | W16 | W32 | W64

  function Modulus(w: Width): nat {
    match w
    case W8 => Two8
    case W16 => Two16
    case W32 => Two32
    case W64 => Two64
  }

  /** Euclidean remainder of a value just below zero: one modulus is added. */
  lemma ModOfSmallNegative(x: int, m: int)
    requires m > 0 && -m <= x < 0
    ensures x % m == x + m
  {
  }

  /** A multiple of a width's modulus stays one when the modulus is added. */
  lemma ShiftByModulus(a: int, w: Width)
    requires a % Modulus(w) == 0
    ensures (a + Modulus(w)) % Modulus(w) == 0
  {
    match w
    case W8 =>
    case W16 =>
    case W32 =>
    case W64 =>
  }

  /** uint8(x), uint16(x), uint32(x), uint64(x) of an int64 x: keep the low bits. */
  function Unsigned(x: int, w: Width): (r: nat)
    ensures r < Modulus(w)
    ensures (x - r) % Modulus(w) == 0
    ensures 0 <= x < Modulus(w) ==> r == x
    ensures x < 0 <= x + Modulus(w) ==> r == x + Modulus(w)
  {
    var m: int := Modulus(w);
    var r := x % m;
    assert x - r == m * (x / m);
    if x < 0 <= x + m then
      ModOfSmallNegative(x, m);
      r
    else r
  }

  /** The smallest value too large for the signed type of width w. */
  function Half(w: Width): int {
    match w
    case W8 => 0x80
    case W16 => 0x8000
    case W32 => 0x8000_0000
    case W64 => 0x8000_0000_0000_0000
  }

  /** int8(x), int16(x), int32(x) of an int64 x: keep the low bits, read as two's complement. */
  function Signed(x: int, w: Width): (r: int)
    ensures -Half(w) <= r < Half(w)
    ensures (x - r) % Modulus(w) == 0
    ensures -Half(w) <= x < Half(w) ==> r == x
  {
    var m := Modulus(w);
    assert m == 2 * Half(w);
    var u := Unsigned(x, w);
    if u >= Half(w) then
      ShiftByModulus(x - u, w);
      assert x - (u - m) == (x - u) + m;
      u - m
    else u
  }

  function WrongType(t: FieldType): Failure { Panicked(WrongDynamicType(t)) }

  /**
   * fieldValueAsInterface. A type assertion on the Interface slot that does
   * not hold panics in Go and is `Panicked(WrongDynamicType(kind))` here;
   * SkipType and every kind the switch does not list return the
   * "unknown field type" error.
   */
  function FieldValueAsInterface(f: Field): Result<Value> {
    match f.ftype
    case BinaryType =>
      if f.iface.ByteSlice? then Ok(BytesValue(f.iface.bytes)) else Err(WrongType(BinaryType))
    case BoolType => Ok(BoolValue(f.integer == 1))
    case ByteStringType =>
      if f.iface.ByteSlice? then Ok(BytesValue(f.iface.bytes)) else Err(WrongType(ByteStringType))
    case Complex128Type =>
      if f.iface.Complex128? then Ok(Complex128Value(f.iface.realBits, f.iface.imagBits))
      else Err(WrongType(Complex128Type))
    case Complex64Type =>
      if f.iface.Complex64? then Ok(Complex64Value(f.iface.realBits, f.iface.imagBits))
      else Err(WrongType(Complex64Type))
    case DurationType => Ok(DurationValue(f.integer))
    case Float64Type => Ok(Float64Value(Unsigned(f.integer, W64)))
    case Float32Type => Ok(Float32Value(Unsigned(f.integer, W32)))
    case Int64Type => Ok(Int64Value(f.integer))
    case Int32Type => Ok(Int32Value(Signed(f.integer, W32)))
    case Int16Type => Ok(Int16Value(Signed(f.integer, W16)))
    case Int8Type => Ok(Int8Value(Signed(f.integer, W8)))
    case StringType => Ok(StringValue(f.str))
    case TimeType =>
      if f.iface.NilInterface? then Ok(TimeValue(f.integer, None))
      else if f.iface.TimeLocation? then Ok(TimeValue(f.integer, Some(f.iface.zone)))
      else Err(WrongType(TimeType))
    case Uint64Type => Ok(Uint64Value(Unsigned(f.integer, W64)))
    case Uint32Type => Ok(Uint32Value(Unsigned(f.integer, W32)))
    case Uint16Type => Ok(Uint16Value(Unsigned(f.integer, W16)))
    case Uint8Type => Ok(Uint8Value(Unsigned(f.integer, W8)))
    case UintptrType => Ok(UintptrValue(Unsigned(f.integer, W64)))
    case StringerType =>
      if f.iface.StringerObject? then Ok(StringerText(f.iface.text)) else Err(WrongType(StringerType))
    case ErrorType =>
      if f.iface.ErrorObject? then Ok(ErrorValue(f.iface.err)) else Err(WrongType(ErrorType))
    case SkipType => Err(UnknownFieldType(SkipType))
    case _ => Err(UnknownFieldType(f.ftype))
  }

  /** The kinds the switch of fieldValueAsInterface lists with a result. */
  predicate IsDecodedKind(t: FieldType) {
    !(t.UnknownType? || t.ArrayMarshalerType? || t.ObjectMarshalerType? || t.TimeFullType?
      || t.ReflectType? || t.NamespaceType? || t.SkipType? || t.InlineMarshalerType?)
  }

  /** Decoding fails with "unknown field type" exactly for the kinds the switch does not list, Skip included. */
  lemma UnknownKindsFail(f: Field)
    ensures FieldValueAsInterface(f) == Err(UnknownFieldType(f.ftype)) <==> !IsDecodedKind(f.ftype)
    ensures FieldValueAsInterface(f).Err? && FieldValueAsInterface(f).failure.UnknownFieldType? ==> !IsDecodedKind(f.ftype)
  {
  }

  /** Kinds decoded from the slots alone never fail, whatever the Interface slot holds. */
  lemma SlotKindsDecode(f: Field)
    requires f.ftype in {BoolType, DurationType, Float64Type, Float32Type, Int64Type, Int32Type,
                         Int16Type, Int8Type, StringType, Uint64Type, Uint32Type, Uint16Type,
                         Uint8Type, UintptrType}
    ensures FieldValueAsInterface(f).Ok?
  {
  }

  /** A Skip field, such as zap.NamedError gives for a nil error, does not decode. */
  lemma NilErrorFieldFails(key: string)
    ensures FieldValueAsInterface(ZapNamedError(key, None)) == Err(UnknownFieldType(SkipType))
  {
  }

  lemma BoolRoundTrip(key: string, b: bool)
    ensures FieldValueAsInterface(ZapBool(key, b)) == Ok(BoolValue(b))
  {
  }

  /** Bool decodes as `Integer == 1`: any other slot value, 2 included, reads as false. */
  lemma BoolIsIntegerOne(f: Field)
    requires f.ftype == BoolType
    ensures FieldValueAsInterface(f) == Ok(BoolValue(f.integer == 1))
  {
  }

  /** Signed kinds round-trip every value of their width, and truncate any other slot value. */
  lemma SignedRoundTrips(key: string, v: int)
    ensures -0x8000_0000 <= v < 0x8000_0000 ==> FieldValueAsInterface(ZapInt32(key, v)) == Ok(Int32Value(v))
    ensures -0x8000 <= v < 0x8000 ==> FieldValueAsInterface(ZapInt16(key, v)) == Ok(Int16Value(v))
    ensures -0x80 <= v < 0x80 ==> FieldValueAsInterface(ZapInt8(key, v)) == Ok(Int8Value(v))
    ensures -0x8000_0000_0000_0000 <= v < 0x8000_0000_0000_0000 ==>
      FieldValueAsInterface(ZapInt64(key, v)) == Ok(Int64Value(v))
  {
  }

  lemma {:induction false} AsInt64Unsigned(u: nat)
    requires u < Two64
    ensures Unsigned(AsInt64(u), W64) == u
  {
    var x := AsInt64(u);
    if u >= 0x8000_0000_0000_0000 {
      assert x + Two64 == u;
      assert (x - u) % Two64 == 0;
    }
  }

  /** Unsigned kinds round-trip every value of their width; uint64 goes through int64 and back. */
  lemma UnsignedRoundTrips(key: string, v: nat)
    ensures v < Two64 ==> FieldValueAsInterface(ZapUint64(key, v)) == Ok(Uint64Value(v))
    ensures v < Two32 ==> FieldValueAsInterface(ZapUint32(key, v)) == Ok(Uint32Value(v))
    ensures v < Two16 ==> FieldValueAsInterface(ZapUint16(key, v)) == Ok(Uint16Value(v))
    ensures v < Two8 ==> FieldValueAsInterface(ZapUint8(key, v)) == Ok(Uint8Value(v))
  {
    if v < Two64 {
      AsInt64Unsigned(v);
    }
  }

  /**
   * Floats are decoded by reinterpreting the slot's bits, so every bit
   * pattern, NaN payloads and negative zero included, comes back identical.
   */
  lemma FloatBitsRoundTrip(key: string, bits: nat)
    ensures bits < Two64 ==> FieldValueAsInterface(ZapFloat64(key, bits)) == Ok(Float64Value(bits))
    ensures bits < Two32 ==> FieldValueAsInterface(ZapFloat32(key, bits)) == Ok(Float32Value(bits))
  {
    if bits < Two64 {
      AsInt64Unsigned(bits);
    }
  }

  lemma StringRoundTrip(key: string, s: string)
    ensures FieldValueAsInterface(ZapString(key, s)) == Ok(StringValue(s))
  {
  }

  lemma ErrorRoundTrip(key: string, e: GoError)
    ensures FieldValueAsInterface(ZapNamedError(key, Some(e))) == Ok(ErrorValue(e))
  {
  }

  /** Integer kinds truncate the slot to their width: the result is in range and agrees with the slot modulo 2^width. */
  lemma IntegerKindsTruncate(f: Field)
    ensures f.ftype == Int32Type ==> exists r ::
      (FieldValueAsInterface(f) == Ok(Int32Value(r)) && -0x8000_0000 <= r < 0x8000_0000 && (f.integer - r) % Two32 == 0)
    ensures f.ftype == Int8Type ==> exists r ::
      (FieldValueAsInterface(f) == Ok(Int8Value(r)) && -0x80 <= r < 0x80 && (f.integer - r) % Two8 == 0)
    ensures f.ftype == Uint16Type ==> exists r: nat ::
      (FieldValueAsInterface(f) == Ok(Uint16Value(r)) && r < Two16 && (f.integer - r) % Two16 == 0)
  {
    if f.ftype == Int32Type {
      var r := Signed(f.integer, W32);
      assert FieldValueAsInterface(f) == Ok(Int32Value(r));
    } else if f.ftype == Int8Type {
      var r := Signed(f.integer, W8);
      assert FieldValueAsInterface(f) == Ok(Int8Value(r));
    } else if f.ftype == Uint16Type {
      var r := Unsigned(f.integer, W16);
      assert FieldValueAsInterface(f) == Ok(Uint16Value(r));
    }
  }
}
