/**
 * The element types cuBLAS routines accept, and their codes in the C
 * enumeration `cublasDataType_t` (the real CUDA data types; the complex
 * ones have no case here).
 */
module CuBLAS {
  import opened Wrappers

  /** The raw-value type of the enumeration: an unsigned 32-bit integer. */
  newtype RawCode = x: int | 0 <= x < 0x1_0000_0000

  /** The C enumeration value, which carries nothing but its code. */
  datatype CublasDataType = CublasDataType(rawValue: RawCode)

  datatype DataType = Float | Double | Half | Int8 | UInt8 | Int32 | UInt32
  {
    /** The case's code in `cublasDataType_t`. */
    function RawValue(): (r: RawCode)
      ensures r <= 12
      ensures r == 0 <==> this == Float
      ensures r == 1 <==> this == Double
      ensures r == 2 <==> this == Half
      ensures r == 3 <==> this == Int8
      ensures r == 8 <==> this == UInt8
      ensures r == 10 <==> this == Int32
      ensures r == 12 <==> this == UInt32
    {
      match this
      case Float => 0
      case Double => 1
      case Half => 2
      case Int8 => 3
      case UInt8 => 8
      case Int32 => 10
      case UInt32 => 12
    }
  }

  /** The synthesised failable initializer `init?(rawValue:)`. */
  function FromRawValue(code: RawCode): (r: Option<DataType>)
    ensures r.Some? ==> r.value.RawValue() == code
    ensures r.None? ==> forall d: DataType :: d.RawValue() != code
  {
    if code == 0 then Some(Float)
    else if code == 1 then Some(Double)
    else if code == 2 then Some(Half)
    else if code == 3 then Some(Int8)
    else if code == 8 then Some(UInt8)
    else if code == 10 then Some(Int32)
    else if code == 12 then Some(UInt32)
    else None
  }

  /** `init?(_ dataType: cublasDataType_t)`: decodes the C value's code. */
  function FromCublasDataType(t: CublasDataType): (r: Option<DataType>)
    ensures r.Some? ==> CublasDataType(r.value.RawValue()) == t
    ensures r.None? ==> forall d: DataType :: CublasDataType(d.RawValue()) != t
  {
    FromRawValue(t.rawValue)
  }

  /** Distinct cases have distinct codes. */
  lemma RawValueInjective(a: DataType, b: DataType)
    ensures a.RawValue() == b.RawValue() ==> a == b
  {
  }

  /** Decoding a case's own code gives back that case. */
  lemma DecodeEncode(d: DataType)
    ensures FromRawValue(d.RawValue()) == Some(d)
    ensures FromCublasDataType(CublasDataType(d.RawValue())) == Some(d)
  {
  }

  /**
   * The complex CUDA types (codes 4, 5, 6, 7, 9, 11 and 13) and every code
   * above 12 are refused.
   */
  lemma ComplexTypesUnsupported(code: RawCode)
    requires code in {4, 5, 6, 7, 9, 11} || code >= 13
    ensures FromRawValue(code) == None
  {
  }

  /** The Swift element types that conform to `BLASDataProtocol`. */
  datatype HostScalar = SwiftFloat | SwiftDouble | SwiftInt8 | SwiftUInt8

  /** `blasDataType` of each conformance. */
  function BlasDataType(h: HostScalar): (d: DataType)
    ensures h == SwiftFloat <==> d == Float
    ensures h == SwiftDouble <==> d == Double
    ensures h == SwiftInt8 <==> d == Int8
    ensures h == SwiftUInt8 <==> d == UInt8
  {
    match h
    case SwiftFloat => Float
    case SwiftDouble => Double
    case SwiftInt8 => Int8
    case SwiftUInt8 => UInt8
  }

  /** `cType`: the C value carrying the conformance's code. */
  function CType(h: HostScalar): (t: CublasDataType)
    ensures t.rawValue == BlasDataType(h).RawValue()
    ensures FromCublasDataType(t) == Some(BlasDataType(h))
  {
    CublasDataType(BlasDataType(h).RawValue())
  }

  /** Two conformances share a C type only if they are the same Swift type. */
  lemma CTypeInjective(g: HostScalar, h: HostScalar)
    ensures CType(g) == CType(h) ==> g == h
  {
    RawValueInjective(BlasDataType(g), BlasDataType(h));
  }
}
