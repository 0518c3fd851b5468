/**
 * Pixel-transfer validation of the texture upload entry points
 * (`glTexImage1D`, `glTexImage2D`, `glTexImage3D`).
 *
 * The wrapper checks an upload with debug assertions before the native call:
 * whether the (internal format, data format, data type) triple is legal, and
 * whether the client buffer holds enough bytes for the image. Each entry point
 * is modelled as a function giving the outcome of those assertions in a debug
 * build: `Pass`, or the first assertion that fails. The native call itself is
 * not part of the model.
 */
module Texture {

  import opened Wrappers
  import opened Primitives

  /** Internal (storage) formats accepted by the upload calls. */
  datatype InnerFormat =
    // base formats
    | Red | RG | RGB | RGBA | DepthComponent | DepthStencil
    // texture and renderbuffer colour formats
    | RGBA32F | RGBA32I | RGBA32UI | RGBA16 | RGBA16F | RGBA16I | RGBA16UI
    | RGBA8 | RGBA8I | RGBA8UI | SRGB8Alpha8 | RGB10A2 | RGB10A2UI
    | R11FG11FB10F
    | RG32F | RG32I | RG32UI | RG16 | RG16F | RG16I | RG16UI | RG8 | RG8I | RG8UI
    // texture-only colour formats
    | RGBA16SNorm | RGBA8SNorm
    | RGB32F | RGB32I | RGB32UI
    | RGB16SNorm | RGB16F | RGB16I | RGB16UI | RGB16
    | RGB8SNorm | RGB8 | RGB8I | RGB8UI | SRGB8
    | RGB9E5
    | RG16SNorm | RG8SNorm
    | R16SNorm | R8SNorm
    // depth formats
    | DepthComponent32F | DepthComponent24 | DepthComponent16
    // combined depth+stencil formats
    | Depth32FStencil8 | Depth24Stencil8
    // compressed formats
    | CompressedRed | CompressedRG | CompressedRGB | CompressedRGBA

  /** Channel layout of the client's pixel data. */
  datatype DataFormat =
    | Red | Green | Blue | RG | RGB | RGBA | BGR | BGRA
    | RedInteger | GreenInteger | BlueInteger | RGInteger | RGBInteger | RGBAInteger
    | BGRInteger | BGRAInteger
    | DepthComponent | DepthStencil | StencilIndex

  /** Component encoding of the client's pixel data. */
  datatype DataType =
    | UnsignedByte | Byte
    | UnsignedShort | Short
    | UnsignedInt | Int
    | HalfFloat | Float
    | UnsignedByte_3_3_2 | UnsignedByte_2_3_3_Rev
    | UnsignedShort_5_6_5 | UnsignedShort_5_6_5_Rev
    | UnsignedShort_4_4_4_4 | UnsignedShort_4_4_4_4_Rev
    | UnsignedShort_5_5_5_1 | UnsignedShort_1_5_5_5_Rev
    | UnsignedInt_8_8_8_8 | UnsignedInt_8_8_8_8_Rev
    | UnsignedInt_10_10_10_2 | UnsignedInt_2_10_10_10_Rev

  // ---------------------------------------------------------------------------
  // Reference descriptions of the enumerations, taken from what each variant
  // names (the OpenGL pixel-format tables), not from the validator's match arms.

  /** Base internal format of every internal format. */
  datatype Base = BaseRed | BaseRG | BaseRGB | BaseRGBA | BaseDepth | BaseDepthStencil

  function BaseOf(f: InnerFormat): Base {
    match f
    case Red | R16SNorm | R8SNorm | CompressedRed => BaseRed
    case RG | RG32F | RG32I | RG32UI | RG16 | RG16F | RG16I | RG16UI | RG8 | RG8I | RG8UI
      | RG16SNorm | RG8SNorm | CompressedRG => BaseRG
    case RGB | R11FG11FB10F | RGB32F | RGB32I | RGB32UI | RGB16SNorm | RGB16F | RGB16I
      | RGB16UI | RGB16 | RGB8SNorm | RGB8 | RGB8I | RGB8UI | SRGB8 | RGB9E5
      | CompressedRGB => BaseRGB
    case RGBA | RGBA32F | RGBA32I | RGBA32UI | RGBA16 | RGBA16F | RGBA16I | RGBA16UI
      | RGBA8 | RGBA8I | RGBA8UI | SRGB8Alpha8 | RGB10A2 | RGB10A2UI | RGBA16SNorm
      | RGBA8SNorm | CompressedRGBA => BaseRGBA
    case DepthComponent | DepthComponent32F | DepthComponent24 | DepthComponent16 => BaseDepth
    case DepthStencil | Depth32FStencil8 | Depth24Stencil8 => BaseDepthStencil
  }

  /** Number of components one pixel of the data format carries. */
  function Channels(f: DataFormat): nat {
    match f
    case Red | Green | Blue | RedInteger | GreenInteger | BlueInteger => 1
    case RG | RGInteger => 2
    case RGB | BGR | RGBInteger | BGRInteger => 3
    case RGBA | BGRA | RGBAInteger | BGRAInteger => 4
    case DepthComponent | StencilIndex => 1
    case DepthStencil => 2
  }

  /** Bit widths of the fields a data type stores, most significant first:
      one entry for a scalar type, one per channel for a packed type. */
  function FieldBits(t: DataType): seq<nat> {
    match t
    case UnsignedByte | Byte => [8]
    case UnsignedShort | Short | HalfFloat => [16]
    case UnsignedInt | Int | Float => [32]
    case UnsignedByte_3_3_2 => [3, 3, 2]
    case UnsignedByte_2_3_3_Rev => [2, 3, 3]
    case UnsignedShort_5_6_5 | UnsignedShort_5_6_5_Rev => [5, 6, 5]
    case UnsignedShort_4_4_4_4 | UnsignedShort_4_4_4_4_Rev => [4, 4, 4, 4]
    case UnsignedShort_5_5_5_1 => [5, 5, 5, 1]
    case UnsignedShort_1_5_5_5_Rev => [1, 5, 5, 5]
    case UnsignedInt_8_8_8_8 | UnsignedInt_8_8_8_8_Rev => [8, 8, 8, 8]
    case UnsignedInt_10_10_10_2 => [10, 10, 10, 2]
    case UnsignedInt_2_10_10_10_Rev => [2, 10, 10, 10]
  }

  function Sum(s: seq<nat>): nat {
    if s == [] then 0 else s[0] + Sum(s[1..])
  }

  /** A packed type stores several channels in one machine word. */
  predicate IsPacked(t: DataType) {
    |FieldBits(t)| > 1
  }

  // ---------------------------------------------------------------------------
  // The validator

  /** Part one of the triple check: a packed type pairs only with a data format
      whose channels it packs (RGB for three fields; RGBA or BGRA for four). */
  predicate PackedCompatible(f: DataFormat, t: DataType)
    ensures PackedCompatible(f, t) <==>
      !IsPacked(t) || (|FieldBits(t)| == 3 && f.RGB?) || (|FieldBits(t)| == 4 && (f.RGBA? || f.BGRA?))
  {
    match t
    case UnsignedByte_3_3_2 | UnsignedByte_2_3_3_Rev
      | UnsignedShort_5_6_5 | UnsignedShort_5_6_5_Rev =>
      f.RGB?
    case UnsignedShort_4_4_4_4 | UnsignedShort_4_4_4_4_Rev
      | UnsignedShort_5_5_5_1 | UnsignedShort_1_5_5_5_Rev
      | UnsignedInt_8_8_8_8 | UnsignedInt_8_8_8_8_Rev
      | UnsignedInt_10_10_10_2 | UnsignedInt_2_10_10_10_Rev =>
      f.RGBA? || f.BGRA?
    case _ => true
  }

  /** Part two of the triple check: the depth-only internal formats take depth
      data, and every other internal format refuses depth data. */
  predicate DepthConsistent(i: InnerFormat, f: DataFormat)
    ensures DepthConsistent(i, f) <==> (BaseOf(i) == BaseDepth <==> f.DepthComponent?)
  {
    match i
    case DepthComponent | DepthComponent16 | DepthComponent24 | DepthComponent32F =>
      f.DepthComponent?
    case _ => !f.DepthComponent?
  }

  /** `util_datavalidation`: whether the triple is legal. In terms of the
      reference descriptions: a packed type needs a data format with one channel
      per field (RGB, or RGBA/BGRA), and the data is depth data exactly when the
      internal format is depth-only. */
  predicate DataValidation(i: InnerFormat, f: DataFormat, t: DataType)
    ensures DataValidation(i, f, t) <==>
      (!IsPacked(t) || (|FieldBits(t)| == 3 && f.RGB?) || (|FieldBits(t)| == 4 && (f.RGBA? || f.BGRA?))) &&
      (BaseOf(i) == BaseDepth <==> f.DepthComponent?)
  {
    PackedCompatible(f, t) && DepthConsistent(i, f)
  }

  /** `util_samplesize`: bytes one pixel of client data occupies, or `None`
      for a data format or data type the wrapper does not size. */
  function SampleSize(f: DataFormat, t: DataType): (r: Option<nat>)
    ensures r.Some? ==> r.value in {1, 2, 3, 4, 6, 8, 12, 16}
    ensures r.None? <==> !(f.Red? || f.RG? || f.RGB? || f.BGR? || f.RGBA? || f.BGRA? || f.DepthComponent?) || t.HalfFloat?
  {
    var stride: Option<nat> :=
      match f
      case Red => Some(1)
      case RG => Some(2)
      case RGB | BGR => Some(3)
      case RGBA | BGRA => Some(4)
      case DepthComponent => Some(1)
      case _ => None;
    if stride.None? then None
    else
      var s := stride.value;
      match t
      case Byte | UnsignedByte => Some(s * 1)
      case UnsignedByte_3_3_2 | UnsignedByte_2_3_3_Rev => Some(1)
      case Short | UnsignedShort => Some(s * 2)
      case UnsignedShort_5_6_5 | UnsignedShort_5_6_5_Rev
        | UnsignedShort_4_4_4_4 | UnsignedShort_4_4_4_4_Rev
        | UnsignedShort_5_5_5_1 | UnsignedShort_1_5_5_5_Rev => Some(2)
      case Int | UnsignedInt | Float => Some(s * 4)
      case UnsignedInt_8_8_8_8 | UnsignedInt_8_8_8_8_Rev
        | UnsignedInt_10_10_10_2 | UnsignedInt_2_10_10_10_Rev => Some(4)
      case _ => None
  }

  /** The buffer check, run only when data is supplied:
      `size.map(|x| texels * x <= bytes.len()).unwrap_or(false)`, so an unknown
      sample size never fits. */
  predicate BufferCheck(data: Option<seq<bv8>>, f: DataFormat, t: DataType, texels: nat) {
    match data
    case None => true
    case Some(bytes) =>
      match SampleSize(f, t)
      case None => false
      case Some(x) => texels * x <= |bytes|
  }

  // ---------------------------------------------------------------------------
  // Upload entry points

  datatype Target1D = Texture1D | ProxyTexture1D

  datatype Target2D =
    | Texture2D | Texture1DArray | TextureRectangle
    | TextureCubeMapPositiveX | TextureCubeMapNegativeX
    | TextureCubeMapPositiveY | TextureCubeMapNegativeY
    | TextureCubeMapPositiveZ | TextureCubeMapNegativeZ
    | ProxyTexture2D | ProxyTexture1DArray | ProxyTextureRectangle | ProxyTextureCubeMap

  datatype Target3D = Texture3D | Texture2DArray | ProxyTexture3D | ProxyTexture2DArray

  predicate IsRectangle(t: Target2D) {
    t.TextureRectangle? || t.ProxyTextureRectangle?
  }

  /** One of the six faces of a cube map (the proxy cube map is not a face). */
  predicate IsCubeFace(t: Target2D) {
    match t
    case TextureCubeMapPositiveX | TextureCubeMapNegativeX
      | TextureCubeMapPositiveY | TextureCubeMapNegativeY
      | TextureCubeMapPositiveZ | TextureCubeMapNegativeZ => true
    case _ => false
  }

  predicate IsDepthStencilInner(i: InnerFormat) {
    i.DepthStencil? || i.Depth24Stencil8? || i.Depth32FStencil8?
  }

  /** The debug assertions of the upload calls, named after what they check. */
  datatype Violation =
    | InvalidFormat
    | InvalidWidth
    | RectangleLevelNotZero
    | CubeFaceNotSquare
    | InvalidWidthAndHeight
    | StencilIndexData
    | DepthStencilDataRequired
    | InvalidWidthHeightAndDepth

  /** Debug-build outcome of an upload's prechecks: the native call is reached
      (`Pass`) or the first failing assertion stops it. */
  datatype Precheck = Pass | Fail(violation: Violation)

  /** `tex_image_1d` up to the native call. */
  function TexImage1D(target: Target1D, level: U16, inner: InnerFormat, width: nat,
                      f: DataFormat, t: DataType, data: Option<seq<bv8>>): (r: Precheck)
    ensures r.Pass? <==>
      DataValidation(inner, f, t) &&
      (data.Some? ==> SampleSize(f, t).Some? && width * SampleSize(f, t).value <= |data.value|)
    ensures r.Fail? ==> r.violation == if !DataValidation(inner, f, t) then InvalidFormat else InvalidWidth
  {
    if !DataValidation(inner, f, t) then Fail(InvalidFormat)
    else if !BufferCheck(data, f, t, width) then Fail(InvalidWidth)
    else Pass
  }

  /** `tex_image_2d` up to the native call. It does not validate the triple. */
  function TexImage2D(target: Target2D, level: U16, inner: InnerFormat, width: nat, height: nat,
                      f: DataFormat, t: DataType, data: Option<seq<bv8>>): (r: Precheck)
    ensures r.Pass? <==>
      (IsRectangle(target) ==> level == 0) &&
      (IsCubeFace(target) ==> width == height) &&
      (data.Some? ==> SampleSize(f, t).Some? && width * height * SampleSize(f, t).value <= |data.value|)
    ensures r.Fail? ==>
              r.violation == (if IsRectangle(target) && level != 0 then RectangleLevelNotZero
                              else if IsCubeFace(target) && width != height then CubeFaceNotSquare
                              else InvalidWidthAndHeight)
  {
    if IsRectangle(target) && level != 0 then Fail(RectangleLevelNotZero)
    else if IsCubeFace(target) && width != height then Fail(CubeFaceNotSquare)
    else if !BufferCheck(data, f, t, width * height) then Fail(InvalidWidthAndHeight)
    else Pass
  }

  /** `tex_image_3d` up to the native call. */
  function TexImage3D(target: Target3D, level: U16, inner: InnerFormat,
                      width: nat, height: nat, depth: nat,
                      f: DataFormat, t: DataType, data: Option<seq<bv8>>): (r: Precheck)
    ensures r.Pass? <==>
      !f.StencilIndex? &&
      (IsDepthStencilInner(inner) ==> f.DepthStencil?) &&
      (data.Some? ==> SampleSize(f, t).Some? &&
                      width * height * depth * SampleSize(f, t).value <= |data.value|)
    ensures r.Fail? ==>
              r.violation == (if f.StencilIndex? then StencilIndexData
                              else if IsDepthStencilInner(inner) && !f.DepthStencil? then DepthStencilDataRequired
                              else InvalidWidthHeightAndDepth)
  {
    if f.StencilIndex? then Fail(StencilIndexData)
    else if IsDepthStencilInner(inner) && !f.DepthStencil? then Fail(DepthStencilDataRequired)
    else if !BufferCheck(data, f, t, width * height * depth) then Fail(InvalidWidthHeightAndDepth)
    else Pass
  }

  // ---------------------------------------------------------------------------
  // Properties of the validator

  /** A three-field packed type passes the compatibility part with RGB data only. */
  lemma PackedThreeOnlyRgb(f: DataFormat, t: DataType)
    requires |FieldBits(t)| == 3
    ensures PackedCompatible(f, t) <==> f.RGB?
  {
  }

  /** A four-field packed type passes the compatibility part with RGBA or BGRA data only. */
  lemma PackedFourOnlyRgbaOrBgra(f: DataFormat, t: DataType)
    requires |FieldBits(t)| == 4
    ensures PackedCompatible(f, t) <==> f.RGBA? || f.BGRA?
  {
  }

  /** A scalar type is not constrained by the compatibility part. */
  lemma ScalarTypeUnconstrained(f: DataFormat, t: DataType)
    requires !IsPacked(t)
    ensures PackedCompatible(f, t)
  {
  }

  /** A packed type that passes has exactly one field per channel of the data format. */
  lemma PackedFieldsMatchChannels(f: DataFormat, t: DataType)
    requires IsPacked(t) && PackedCompatible(f, t)
    ensures Channels(f) == |FieldBits(t)|
  {
  }

  /** Depth-stencil internal formats are treated like colour formats by the
      depth part: they refuse depth data and accept everything else. */
  lemma DepthRule(i: InnerFormat, f: DataFormat)
    ensures BaseOf(i) == BaseDepthStencil ==> (DepthConsistent(i, f) <==> !f.DepthComponent?)
  {
  }

  /** A known sample size is the packed word's width in bytes for a packed type,
      and channels times component width in bytes for a scalar type. */
  lemma SampleSizeValue(f: DataFormat, t: DataType)
    requires SampleSize(f, t).Some?
    ensures SampleSize(f, t).value ==
      if IsPacked(t) then Sum(FieldBits(t)) / 8 else Channels(f) * (FieldBits(t)[0] / 8)
  {
  }

  /** A buffer that passes still passes with bytes appended. */
  lemma LargerBufferAccepted(bytes: seq<bv8>, extra: seq<bv8>, f: DataFormat, t: DataType, texels: nat)
    requires BufferCheck(Some(bytes), f, t, texels)
    ensures BufferCheck(Some(bytes + extra), f, t, texels)
  {
  }

  /** With a known sample size the check is exactly a lower bound on the length. */
  lemma BufferBound(bytes: seq<bv8>, f: DataFormat, t: DataType, texels: nat)
    requires SampleSize(f, t).Some?
    ensures BufferCheck(Some(bytes), f, t, texels) <==> texels * SampleSize(f, t).value <= |bytes|
  {
  }

  /** An unsized format/type pair fails the check whatever the buffer. */
  lemma UnknownSizeFails(bytes: seq<bv8>, f: DataFormat, t: DataType, texels: nat)
    requires SampleSize(f, t).None?
    ensures !BufferCheck(Some(bytes), f, t, texels)
  {
  }

  /** The 1D call never looks at its target or level. */
  lemma TexImage1DIgnoresTargetAndLevel(t1: Target1D, l1: U16, t2: Target1D, l2: U16, inner: InnerFormat,
                                        width: nat, f: DataFormat, t: DataType, data: Option<seq<bv8>>)
    ensures TexImage1D(t1, l1, inner, width, f, t, data) == TexImage1D(t2, l2, inner, width, f, t, data)
  {
  }

  /** The 2D call does not validate the triple: its outcome does not depend on the internal format. */
  lemma TexImage2DIgnoresInnerFormat(target: Target2D, level: U16, i1: InnerFormat, i2: InnerFormat,
                                     width: nat, height: nat, f: DataFormat, t: DataType,
                                     data: Option<seq<bv8>>)
    ensures TexImage2D(target, level, i1, width, height, f, t, data) ==
            TexImage2D(target, level, i2, width, height, f, t, data)
  {
  }

  /** A triple the 1D call refuses is accepted by the 2D call. */
  lemma TexImage2DAcceptsInvalidTriple()
    ensures TexImage1D(Texture1D, 0, InnerFormat.RGBA8, 1, DataFormat.DepthComponent, Float, None) == Fail(InvalidFormat)
    ensures TexImage2D(Texture2D, 0, InnerFormat.RGBA8, 1, 1, DataFormat.DepthComponent, Float, None) == Pass
  {
  }

  /** A 3D upload of supplied data into a depth-stencil internal format always
      fails: the data format must be DepthStencil, which has no sample size. */
  lemma DepthStencil3DWithDataFails(target: Target3D, level: U16, inner: InnerFormat,
                                    width: nat, height: nat, depth: nat,
                                    f: DataFormat, t: DataType, bytes: seq<bv8>)
    requires IsDepthStencilInner(inner)
    ensures TexImage3D(target, level, inner, width, height, depth, f, t, Some(bytes)).Fail?
  {
  }

  /** A 4 by 4 RGBA image of unsigned bytes needs at least 64 bytes. */
  lemma RgbaSquareNeeds64Bytes(bytes: seq<bv8>)
    ensures TexImage2D(Texture2D, 0, InnerFormat.RGBA8, 4, 4, DataFormat.RGBA, UnsignedByte, Some(bytes)).Pass?
            <==> |bytes| >= 64
  {
  }
}
