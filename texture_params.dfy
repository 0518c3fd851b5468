/**
 * Texture parameters: the four-slot blocks of the vector setters, and the
 * enumerations whose GL values the integer setters write (`value as i32`) and
 * the getters read back (`out as u32`, then a table from GL value to variant,
 * with `unreachable!()` for any other value).
 *
 * A getter's table is modelled as a decoder into `Option`: `None` stands for
 * the `unreachable!()` panic. The native get/set calls are not modelled; the
 * decoders take the integer the native getter wrote.
 */
module TextureParams {

  // Qualified, so that `None` here is the compare mode and not the empty Option.
  import W = Wrappers
  import opened Primitives
  import opened Padding

  // OpenGL enumerant values (from the GL 3.3 core headers).
  const GL_NONE: U32 := 0
  const GL_ZERO: U32 := 0
  const GL_ONE: U32 := 1
  const GL_NEVER: U32 := 0x0200
  const GL_LESS: U32 := 0x0201
  const GL_EQUAL: U32 := 0x0202
  const GL_LEQUAL: U32 := 0x0203
  const GL_GREATER: U32 := 0x0204
  const GL_NOTEQUAL: U32 := 0x0205
  const GL_GEQUAL: U32 := 0x0206
  const GL_ALWAYS: U32 := 0x0207
  const GL_RED: U32 := 0x1903
  const GL_GREEN: U32 := 0x1904
  const GL_BLUE: U32 := 0x1905
  const GL_ALPHA: U32 := 0x1906
  const GL_NEAREST: U32 := 0x2600
  const GL_LINEAR: U32 := 0x2601
  const GL_NEAREST_MIPMAP_NEAREST: U32 := 0x2700
  const GL_LINEAR_MIPMAP_NEAREST: U32 := 0x2701
  const GL_NEAREST_MIPMAP_LINEAR: U32 := 0x2702
  const GL_LINEAR_MIPMAP_LINEAR: U32 := 0x2703
  const GL_REPEAT: U32 := 0x2901
  const GL_CLAMP_TO_BORDER: U32 := 0x812D
  const GL_CLAMP_TO_EDGE: U32 := 0x812F
  const GL_MIRRORED_REPEAT: U32 := 0x8370
  const GL_COMPARE_REF_TO_TEXTURE: U32 := 0x884E

  // ---------------------------------------------------------------------------
  // Vector setters: tex_parameter_iv, _fv, _i_iv, _i_uiv

  /** The block `tex_parameter_iv` passes to `glTexParameteriv`. */
  method TexParameterIv(value: seq<I32>) returns (params: seq<I32>)
    ensures params == Padded(value, 0)
  {
    params := PadFour(value, 0);
  }

  /** The block `tex_parameter_fv` passes to `glTexParameterfv`. */
  method TexParameterFv(value: seq<F32Bits>) returns (params: seq<F32Bits>)
    ensures params == Padded(value, F32_ZERO)
  {
    params := PadFour(value, F32_ZERO);
  }

  /** The block `tex_parameter_i_iv` passes to `glTexParameterIiv`. */
  method TexParameterIIv(value: seq<I32>) returns (params: seq<I32>)
    ensures params == Padded(value, 0)
  {
    params := PadFour(value, 0);
  }

  /** The block `tex_parameter_i_uiv` passes to `glTexParameterIuiv`. */
  method TexParameterIUiv(value: seq<U32>) returns (params: seq<U32>)
    ensures params == Padded(value, 0)
  {
    params := PadFour(value, 0);
  }

  // ---------------------------------------------------------------------------
  // Base level: written as `value as i32`, read back as `out as u32`.

  /** `tex_parameter_base_level` writes `value as i32`: the same bit pattern. */
  function EncodeBaseLevel(value: U32): (r: I32)
    ensures AsU32(r) == value
  {
    AsI32(value)
  }

  /** `get_tex_parameter_base_level` returns `out as u32`: the same bit pattern. */
  function DecodeBaseLevel(out: I32): (r: U32)
    ensures AsI32(r) == out
  {
    AsU32(out)
  }

  /** Reading back a written base level gives the value written, and the other way round. */
  lemma BaseLevelRoundTrip(value: U32, out: I32)
    ensures DecodeBaseLevel(EncodeBaseLevel(value)) == value
    ensures EncodeBaseLevel(DecodeBaseLevel(out)) == out
  {
    CastRoundTrip(value, out);
  }

  // ---------------------------------------------------------------------------
  // Compare mode

  datatype CompareMode = None | CompareRefToTexture {
    /** The variant's discriminant, its GL value. */
    function Code(): U32 {
      match this
      case None => GL_NONE
      case CompareRefToTexture => GL_COMPARE_REF_TO_TEXTURE
    }
  }

  /** `tex_parameter_compare_mode` writes `value as i32`. */
  function EncodeCompareMode(m: CompareMode): (r: I32)
    ensures AsU32(r) == m.Code()
  {
    AsI32(m.Code())
  }

  /** The table of `get_tex_parameter_compare_mode`. */
  function DecodeCompareMode(out: I32): (r: W.Option<CompareMode>)
    ensures r.Some? ==> r.value.Code() == AsU32(out)
    ensures r.None? ==> forall m: CompareMode :: m.Code() != AsU32(out)
  {
    var u := AsU32(out);
    if u == GL_NONE then W.Some(CompareMode.None)
    else if u == GL_COMPARE_REF_TO_TEXTURE then W.Some(CompareRefToTexture)
    else W.None
  }

  /** Writing a variant and reading it back gives that variant; a value the
      table accepts is exactly what writing the decoded variant produces. */
  lemma CompareModeRoundTrip(m: CompareMode, out: I32)
    ensures DecodeCompareMode(EncodeCompareMode(m)) == W.Some(m)
    ensures DecodeCompareMode(out).Some? ==> EncodeCompareMode(DecodeCompareMode(out).value) == out
  {
    CastRoundTrip(m.Code(), out);
  }

  // ---------------------------------------------------------------------------
  // Compare function

  datatype CompareFunc = LEqual | GEqual | Less | Greater | Equal | NotEqual | Always | Never {
    function Code(): U32 {
      match this
      case LEqual => GL_LEQUAL
      case GEqual => GL_GEQUAL
      case Less => GL_LESS
      case Greater => GL_GREATER
      case Equal => GL_EQUAL
      case NotEqual => GL_NOTEQUAL
      case Always => GL_ALWAYS
      case Never => GL_NEVER
    }
  }

  /** `tex_parameter_compare_func` writes `value as i32`. */
  function EncodeCompareFunc(c: CompareFunc): (r: I32)
    ensures AsU32(r) == c.Code()
  {
    AsI32(c.Code())
  }

  /** The table of `get_tex_parameter_compare_func`. */
  function DecodeCompareFunc(out: I32): (r: W.Option<CompareFunc>)
    ensures r.Some? ==> r.value.Code() == AsU32(out)
    ensures r.None? ==> forall c: CompareFunc :: c.Code() != AsU32(out)
  {
    var u := AsU32(out);
    if u == GL_LEQUAL then W.Some(LEqual)
    else if u == GL_GEQUAL then W.Some(GEqual)
    else if u == GL_LESS then W.Some(Less)
    else if u == GL_GREATER then W.Some(Greater)
    else if u == GL_EQUAL then W.Some(Equal)
    else if u == GL_NOTEQUAL then W.Some(NotEqual)
    else if u == GL_ALWAYS then W.Some(Always)
    else if u == GL_NEVER then W.Some(Never)
    else W.None
  }

  /** Writing a variant and reading it back gives that variant; a value the
      table accepts is exactly what writing the decoded variant produces. */
  lemma CompareFuncRoundTrip(c: CompareFunc, out: I32)
    ensures DecodeCompareFunc(EncodeCompareFunc(c)) == W.Some(c)
    ensures DecodeCompareFunc(out).Some? ==> EncodeCompareFunc(DecodeCompareFunc(out).value) == out
  {
    CastRoundTrip(c.Code(), out);
  }

  // ---------------------------------------------------------------------------
  // Magnification and minification filters

  datatype MagFilter = Nearest | Linear {
    function Code(): U32 {
      match this
      case Nearest => GL_NEAREST
      case Linear => GL_LINEAR
    }
  }

  /** `tex_parameter_mag_filter` writes `value as i32`. */
  function EncodeMagFilter(m: MagFilter): (r: I32)
    ensures AsU32(r) == m.Code()
  {
    AsI32(m.Code())
  }

  /** The table of `get_tex_parameter_mag_filter`. */
  function DecodeMagFilter(out: I32): (r: W.Option<MagFilter>)
    ensures r.Some? ==> r.value.Code() == AsU32(out)
    ensures r.None? ==> forall m: MagFilter :: m.Code() != AsU32(out)
  {
    var u := AsU32(out);
    if u == GL_NEAREST then W.Some(MagFilter.Nearest)
    else if u == GL_LINEAR then W.Some(MagFilter.Linear)
    else W.None
  }

  /** Writing a variant and reading it back gives that variant; a value the
      table accepts is exactly what writing the decoded variant produces. */
  lemma MagFilterRoundTrip(m: MagFilter, out: I32)
    ensures DecodeMagFilter(EncodeMagFilter(m)) == W.Some(m)
    ensures DecodeMagFilter(out).Some? ==> EncodeMagFilter(DecodeMagFilter(out).value) == out
  {
    CastRoundTrip(m.Code(), out);
  }

  datatype MinFilter =
    | Nearest | Linear
    | NearestMipmapNearest | NearestMipmapLinear
    | LinearMipmapNearest | LinearMipmapLinear
  {
    function Code(): U32 {
      match this
      case Nearest => GL_NEAREST
      case Linear => GL_LINEAR
      case NearestMipmapNearest => GL_NEAREST_MIPMAP_NEAREST
      case NearestMipmapLinear => GL_NEAREST_MIPMAP_LINEAR
      case LinearMipmapNearest => GL_LINEAR_MIPMAP_NEAREST
      case LinearMipmapLinear => GL_LINEAR_MIPMAP_LINEAR
    }
  }

  /** `tex_parameter_min_filter` writes `value as i32`. */
  function EncodeMinFilter(m: MinFilter): (r: I32)
    ensures AsU32(r) == m.Code()
  {
    AsI32(m.Code())
  }

  /** The table of `get_tex_parameter_min_filter`. */
  function DecodeMinFilter(out: I32): (r: W.Option<MinFilter>)
    ensures r.Some? ==> r.value.Code() == AsU32(out)
    ensures r.None? ==> forall m: MinFilter :: m.Code() != AsU32(out)
  {
    var u := AsU32(out);
    if u == GL_NEAREST then W.Some(MinFilter.Nearest)
    else if u == GL_LINEAR then W.Some(MinFilter.Linear)
    else if u == GL_NEAREST_MIPMAP_NEAREST then W.Some(NearestMipmapNearest)
    else if u == GL_NEAREST_MIPMAP_LINEAR then W.Some(NearestMipmapLinear)
    else if u == GL_LINEAR_MIPMAP_NEAREST then W.Some(LinearMipmapNearest)
    else if u == GL_LINEAR_MIPMAP_LINEAR then W.Some(LinearMipmapLinear)
    else W.None
  }

  /** Writing a variant and reading it back gives that variant; a value the
      table accepts is exactly what writing the decoded variant produces. */
  lemma MinFilterRoundTrip(m: MinFilter, out: I32)
    ensures DecodeMinFilter(EncodeMinFilter(m)) == W.Some(m)
    ensures DecodeMinFilter(out).Some? ==> EncodeMinFilter(DecodeMinFilter(out).value) == out
  {
    CastRoundTrip(m.Code(), out);
  }

  // ---------------------------------------------------------------------------
  // Swizzle

  datatype Swizzle = Red | Green | Blue | Alpha | Zero | One {
    function Code(): U32 {
      match this
      case Red => GL_RED
      case Green => GL_GREEN
      case Blue => GL_BLUE
      case Alpha => GL_ALPHA
      case Zero => GL_ZERO
      case One => GL_ONE
    }
  }

  /** `tex_parameter_swizzle_r` (and `_g`, `_b`, `_a`) write `value as i32`. */
  function EncodeSwizzle(s: Swizzle): (r: I32)
    ensures AsU32(r) == s.Code()
  {
    AsI32(s.Code())
  }

  /** The table shared by `get_tex_parameter_swizzle_r`, `_g`, `_b` and `_a`. */
  function DecodeSwizzle(out: I32): (r: W.Option<Swizzle>)
    ensures r.Some? ==> r.value.Code() == AsU32(out)
    ensures r.None? ==> forall s: Swizzle :: s.Code() != AsU32(out)
  {
    var u := AsU32(out);
    if u == GL_RED then W.Some(Red)
    else if u == GL_GREEN then W.Some(Green)
    else if u == GL_BLUE then W.Some(Blue)
    else if u == GL_ALPHA then W.Some(Alpha)
    else if u == GL_ZERO then W.Some(Zero)
    else if u == GL_ONE then W.Some(One)
    else W.None
  }

  /** Writing a variant and reading it back gives that variant; a value the
      table accepts is exactly what writing the decoded variant produces. */
  lemma SwizzleRoundTrip(s: Swizzle, out: I32)
    ensures DecodeSwizzle(EncodeSwizzle(s)) == W.Some(s)
    ensures DecodeSwizzle(out).Some? ==> EncodeSwizzle(DecodeSwizzle(out).value) == out
  {
    CastRoundTrip(s.Code(), out);
  }

  /** `value.map(|v| v as i32)` of `tex_parameter_swizzle_rgba`. */
  function EncodeSwizzles(value: seq<Swizzle>): (r: seq<I32>)
    ensures |r| == |value|
    ensures forall k :: 0 <= k < |value| ==> r[k] == EncodeSwizzle(value[k])
  {
    if value == [] then [] else [EncodeSwizzle(value[0])] + EncodeSwizzles(value[1..])
  }

  /** `out.map(...)` of `get_tex_parameter_swizzle_rgba`: the single-swizzle
      table applied to every slot; any slot outside the table panics. */
  function DecodeSwizzles(out: seq<I32>): (r: W.Option<seq<Swizzle>>)
    ensures r.Some? <==> forall k :: 0 <= k < |out| ==> DecodeSwizzle(out[k]).Some?
    ensures r.Some? ==> |r.value| == |out| &&
                        forall k :: 0 <= k < |out| ==> DecodeSwizzle(out[k]) == W.Some(r.value[k])
  {
    if out == [] then W.Some([])
    else
      match DecodeSwizzle(out[0])
      case None => W.None
      case Some(s) =>
        match DecodeSwizzles(out[1..])
        case None => W.None
        case Some(rest) => W.Some([s] + rest)
  }

  /** Reading back a written RGBA swizzle gives the four swizzles written. */
  lemma {:induction false} SwizzlesRoundTrip(value: seq<Swizzle>)
    ensures DecodeSwizzles(EncodeSwizzles(value)) == W.Some(value)
  {
    var out := EncodeSwizzles(value);
    forall k | 0 <= k < |value|
      ensures DecodeSwizzle(out[k]) == W.Some(value[k])
    {
      SwizzleRoundTrip(value[k], out[k]);
    }
    var r := DecodeSwizzles(out);
    assert r.value == value;
  }

  // ---------------------------------------------------------------------------
  // Wrap modes

  datatype Wrap = ClampToEdge | ClampToBorder | Repeat | MirroredRepeat {
    function Code(): U32 {
      match this
      case ClampToEdge => GL_CLAMP_TO_EDGE
      case ClampToBorder => GL_CLAMP_TO_BORDER
      case Repeat => GL_REPEAT
      case MirroredRepeat => GL_MIRRORED_REPEAT
    }
  }

  /** `tex_parameter_wrap_s` (and `_t`, `_r`) write `value as i32`. */
  function EncodeWrap(w: Wrap): (r: I32)
    ensures AsU32(r) == w.Code()
  {
    AsI32(w.Code())
  }

  /** The table shared by `get_tex_parameter_wrap_s`, `_t` and `_r`. */
  function DecodeWrap(out: I32): (r: W.Option<Wrap>)
    ensures r.Some? ==> r.value.Code() == AsU32(out)
    ensures r.None? ==> forall w: Wrap :: w.Code() != AsU32(out)
  {
    var u := AsU32(out);
    if u == GL_CLAMP_TO_EDGE then W.Some(ClampToEdge)
    else if u == GL_CLAMP_TO_BORDER then W.Some(ClampToBorder)
    else if u == GL_REPEAT then W.Some(Repeat)
    else if u == GL_MIRRORED_REPEAT then W.Some(MirroredRepeat)
    else W.None
  }

  /** Writing a variant and reading it back gives that variant; a value the
      table accepts is exactly what writing the decoded variant produces. */
  lemma WrapRoundTrip(w: Wrap, out: I32)
    ensures DecodeWrap(EncodeWrap(w)) == W.Some(w)
    ensures DecodeWrap(out).Some? ==> EncodeWrap(DecodeWrap(out).value) == out
  {
    CastRoundTrip(w.Code(), out);
  }
}
