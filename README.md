# lykoi_gl pixel-transfer validation, parameter blocks and clear mask, in Dafny

lykoi_gl is a typed Rust wrapper over OpenGL. Nearly all of its functions pass
their arguments straight to one native call. This project models the few parts
that compute something before the call:

- **The texture upload prechecks** (`src/texture/mod.rs`). `util_datavalidation`
  decides whether an (internal format, data format, data type) triple is legal.
  It combines a packed-type compatibility table with a depth/non-depth rule.
  `util_samplesize` gives the bytes per pixel of client data, or `None`. The
  debug assertions of `tex_image_1d`, `tex_image_2d` and `tex_image_3d` are
  built from these two functions and from rules about targets. Module
  `Texture` has the three enumerations as datatypes. Each entry point is a
  function `TexImage1D`/`2D`/`3D` returning `Pass` or `Fail(v)`, where `v`
  names the first debug assertion that fails. That is what happens in a debug
  build before the native call.
- **The four-slot parameter blocks** of the `*_iv`, `*_fv`, `*_i_iv` and
  `*_i_uiv` setters (`src/texture/params.rs`, `src/sampler/params.rs`). Each
  setter zeroes a 4-element array and copies the first `min(4, len)` elements
  of the slice into it. `Padding.PadFour` is that loop over a Dafny array. It
  is proved against `Padding.Padded`, which is the copied prefix followed by
  zeros. Each setter is a method returning the block that would go to the
  native call.
- **The getter decode tables** (`src/texture/params.rs`). A getter reads an
  `i32` from the driver, casts it with `as u32`, and matches it against the
  enum's discriminants. Any other value hits `unreachable!()`. Each table is a
  decoder into `Option`, where `None` is the panic. Each setter writes
  `value as i32`, and each decoder is proved to invert that.
- **The clear mask** (`src/render.rs`). `clear` folds `|` over the listed
  `BufferBit` values, starting from 0, as a `bv32`.

These rules play the part of the packed-pixel rules (section 3.7.2, "Transfer of
Pixel Rectangles") and the texture image rules (section 3.8.3, "Texture Image
Specification") of the OpenGL 3.3 core profile specification. The model
follows the wrapper's code, not those sections.

`Texture` also has reference descriptions that are independent of the
validator's match arms:

- `BaseOf` gives the base internal format of each internal format.
- `Channels` gives the number of components of each data format.
- `FieldBits` gives the bit fields of each data type. For example,
  `UnsignedShort_5_6_5` has fields `[5, 6, 5]`, and a packed type is one with
  more than one field.

The lemmas state the validator's rules in terms of these descriptions.

Integers: `u16`, `i32` and `u32` are `newtype`s with their exact ranges. The
`as` casts between `i32` and `u32` are written out as two's-complement
reinterpretations (`Primitives.AsI32`, `Primitives.AsU32`). `usize` dimensions
and lengths are `nat`. An `f32` appears only as a copied value, so it is
modelled by its 32-bit pattern (`F32Bits`), and `0.0` is the all-zero pattern.

Where the code and a plain reading of the intended design differ, the model
follows the code:

- Only `tex_image_1d` calls `util_datavalidation`. `tex_image_2d` has a "todo:
  format checking" and never validates the triple. `tex_image_3d` has its own
  two depth-stencil checks. See `Texture.TexImage2DIgnoresInnerFormat` and
  `Texture.TexImage2DAcceptsInvalidTriple`.
- `util_samplesize` returns `None` for twelve data formats: `Green`, `Blue`,
  every `*Integer` format, `DepthStencil` and `StencilIndex`. It also returns
  `None` for the data type `HalfFloat`, even though that is a 16-bit scalar
  type. So any upload that supplies data in one of these layouts fails its
  buffer check.
- The depth rule has no case for the combined depth-stencil internal formats.
  They fall into the catch-all arm, so they accept every data format except
  `DepthComponent` (`Texture.DepthRule`).
- As a result, a 3D upload into a depth-stencil internal format that supplies
  data always fails: the format must be `DepthStencil`, which has no sample
  size (`Texture.DepthStencil3DWithDataFails`).
- The compatibility table pairs packed types only with `RGB`, `RGBA` and `BGRA`.
  It refuses the `_INTEGER` data formats with every packed type.

## Model

| member | source | states |
|---|---|---|
| `Texture.PackedThreeOnlyRgb` | src/texture/mod.rs:285-293 | a packed type with three fields (3_3_2, 2_3_3_Rev, 5_6_5, 5_6_5_Rev) passes the compatibility part iff the data format is RGB |
| `Texture.PackedFourOnlyRgbaOrBgra` | src/texture/mod.rs:294-306 | a packed type with four fields passes the compatibility part iff the data format is RGBA or BGRA |
| `Texture.ScalarTypeUnconstrained` | src/texture/mod.rs:307 | a scalar (non-packed) type passes the compatibility part with every data format |
| `Texture.PackedFieldsMatchChannels` | src/texture/mod.rs:285-306 | when a packed type passes, the data format has exactly one channel per packed field |
| `Texture.PackedCompatible` | src/texture/mod.rs:285-308 | the compatibility part holds iff the type is scalar, or it has three fields and the data is RGB, or four fields and the data is RGBA or BGRA |
| `Texture.DepthConsistent` | src/texture/mod.rs:310-323 | the depth part holds iff (the internal format's base is depth-only iff the data is DepthComponent) |
| `Texture.DepthRule` | src/texture/mod.rs:310-323 | depth-stencil internal formats refuse DepthComponent data and accept every other data format |
| `Texture.DataValidation` | src/texture/mod.rs:280-326 | `util_datavalidation` holds iff both parts hold, stated by field count and base format: a packed type needs RGB (three fields) or RGBA/BGRA (four fields) data, and the data is DepthComponent iff the internal format is depth-only |
| `Texture.SampleSize` | src/texture/mod.rs:328-375 | the result is `None` iff the data format is outside {Red, RG, RGB, BGR, RGBA, BGRA, DepthComponent} or the type is HalfFloat; a known size lies in {1,2,3,4,6,8,12,16} |
| `Texture.SampleSizeValue` | src/texture/mod.rs:345-374 | a known size is the packed word's width in bytes (the sum of its fields / 8) for a packed type, and channels × component bytes for a scalar type |
| `Texture.BufferCheck` | src/texture/mod.rs:398-404 | the buffer check of all three uploads; its rules are stated by `Texture.BufferBound`, `Texture.LargerBufferAccepted` and `Texture.UnknownSizeFails` |
| `Texture.BufferBound` | src/texture/mod.rs:398-404 | with a known sample size x, supplied data passes iff texels × x ≤ its length |
| `Texture.LargerBufferAccepted` | src/texture/mod.rs:400-403 | a buffer that passes still passes with bytes appended (the check is only a lower bound) |
| `Texture.UnknownSizeFails` | src/texture/mod.rs:401 | for every pair without a sample size (the twelve unsized data formats, and HalfFloat components), supplied data fails whatever its length |
| `Texture.TexImage1D` | src/texture/mod.rs:387-404 | the 1D upload reaches the native call iff the triple is valid and, when data is supplied, a sample size x exists with width × x ≤ its length; a failure names the triple check when the triple is invalid, and the width check otherwise |
| `Texture.TexImage1DIgnoresTargetAndLevel` | src/texture/mod.rs:387-404 | the 1D prechecks do not depend on the target or the level |
| `Texture.TexImage2D` | src/texture/mod.rs:454-499 | the 2D upload reaches the native call iff rectangle targets have level 0, the six cube faces are square, and supplied data holds width × height × x bytes; a failure names the first of these checks, in that order, that fails |
| `Texture.TexImage2DIgnoresInnerFormat` | src/texture/mod.rs:491 | the 2D prechecks do not depend on the internal format: the triple is not validated |
| `Texture.TexImage2DAcceptsInvalidTriple` | src/texture/mod.rs:491-499 | RGBA8 with DepthComponent data is refused by the 1D call and passes the 2D call |
| `Texture.RgbaSquareNeeds64Bytes` | src/texture/mod.rs:493-499 | a 4×4 RGBA/UnsignedByte 2D upload passes iff the buffer has at least 64 bytes |
| `Texture.TexImage3D` | src/texture/mod.rs:531-558 | the 3D upload reaches the native call iff the data is not StencilIndex, depth-stencil internal formats get DepthStencil data, and supplied data holds width × height × depth × x bytes; a failure names the first of these checks, in that order, that fails |
| `Texture.DepthStencil3DWithDataFails` | src/texture/mod.rs:542-558 | a 3D upload into a depth-stencil internal format with supplied data always fails |
| `Primitives.AsI32` | src/texture/params.rs:93 | `value as i32` keeps the 32-bit pattern and leaves values below 2^31 unchanged |
| `Primitives.AsU32` | src/texture/params.rs:103 | `out as u32` keeps the 32-bit pattern and leaves non-negative values unchanged |
| `Primitives.CastRoundTrip` | src/texture/params.rs:91-104 | the two casts are mutually inverse |
| `Padding.PadFour` | src/texture/params.rs:50-53 | the loop leaves exactly 4 slots, slot k is `value[k]` for k < len and zero otherwise, which is `Padded(value, zero)`; array and slice accesses stay in bounds |
| `Padding.PaddedAt` | src/texture/params.rs:50-52 | the block has 4 slots; slot k holds `value[k]` when k < len and zero otherwise |
| `Padding.PaddedIgnoresTail` | src/texture/params.rs:51 | elements past index 3 do not affect the block |
| `Padding.PaddedIdempotent` | src/texture/params.rs:50-53 | padding a block again changes nothing; a 4-element slice passes unchanged |
| `TextureParams.TexParameterIv` | src/texture/params.rs:49-57 | the block passed to `glTexParameteriv` is the slice padded with 0 |
| `TextureParams.TexParameterFv` | src/texture/params.rs:59-67 | the block passed to `glTexParameterfv` is the slice padded with 0.0 |
| `TextureParams.TexParameterIIv` | src/texture/params.rs:69-77 | the block passed to `glTexParameterIiv` is the slice padded with 0 |
| `TextureParams.TexParameterIUiv` | src/texture/params.rs:79-87 | the block passed to `glTexParameterIuiv` is the slice padded with 0 |
| `TextureParams.EncodeBaseLevel` | src/texture/params.rs:93 | the value written is the base level's own 32-bit pattern: reading it as unsigned gives the level back |
| `TextureParams.DecodeBaseLevel` | src/texture/params.rs:103 | the level returned is the driver's value's own 32-bit pattern: reading it as signed gives that value back |
| `TextureParams.BaseLevelRoundTrip` | src/texture/params.rs:91-104 | reading back a written base level gives the value written, and the other way round |
| `TextureParams.EncodeCompareMode` | src/texture/params.rs:158 | the value written reads back, as unsigned, as the GL value of the compare mode |
| `TextureParams.DecodeCompareMode` | src/texture/params.rs:162-173 | a decoded variant's GL value is the value read; `None` (the panic) exactly when no variant has that value |
| `TextureParams.CompareModeRoundTrip` | src/texture/params.rs:150-173 | decoding what the setter writes gives the variant back; a decodable value is what writing its variant produces |
| `TextureParams.EncodeCompareFunc` | src/texture/params.rs:191 | the value written reads back, as unsigned, as the GL value of the compare function |
| `TextureParams.DecodeCompareFunc` | src/texture/params.rs:195-212 | as for the compare mode, over the eight compare functions |
| `TextureParams.CompareFuncRoundTrip` | src/texture/params.rs:177-212 | decoding inverts the setter's encoding, both ways |
| `TextureParams.EncodeMagFilter` | src/texture/params.rs:272 | the value written reads back, as unsigned, as the GL value of the magnification filter |
| `TextureParams.DecodeMagFilter` | src/texture/params.rs:276-287 | as for the compare mode, over Nearest and Linear |
| `TextureParams.MagFilterRoundTrip` | src/texture/params.rs:264-287 | decoding inverts the setter's encoding, both ways |
| `TextureParams.EncodeMinFilter` | src/texture/params.rs:303 | the value written reads back, as unsigned, as the GL value of the minification filter |
| `TextureParams.DecodeMinFilter` | src/texture/params.rs:307-322 | as for the compare mode, over the six minification filters |
| `TextureParams.MinFilterRoundTrip` | src/texture/params.rs:291-322 | decoding inverts the setter's encoding, both ways |
| `TextureParams.EncodeSwizzle` | src/texture/params.rs:338 | the value written reads back, as unsigned, as the GL value of the swizzle (the same `as i32` is at lines 362, 386, 410) |
| `TextureParams.DecodeSwizzle` | src/texture/params.rs:342-357 | as for the compare mode, over the six swizzles (the table the R, G, B and A getters share) |
| `TextureParams.SwizzleRoundTrip` | src/texture/params.rs:326-357 | decoding inverts the setter's encoding, both ways |
| `TextureParams.EncodeSwizzles` | src/texture/params.rs:431-437 | the RGBA setter writes each swizzle's `as i32` value, slot for slot, into a new array |
| `TextureParams.DecodeSwizzles` | src/texture/params.rs:439-454 | the RGBA getter succeeds iff every slot decodes, and then slot k is the single-swizzle decode of slot k |
| `TextureParams.SwizzlesRoundTrip` | src/texture/params.rs:431-454 | reading back a written RGBA swizzle gives the swizzles written |
| `TextureParams.EncodeWrap` | src/texture/params.rs:469 | the value written reads back, as unsigned, as the GL value of the wrap mode (the same `as i32` is at lines 491, 513) |
| `TextureParams.DecodeWrap` | src/texture/params.rs:473-486 | as for the compare mode, over the four wrap modes (the table the S, T and R getters share) |
| `TextureParams.WrapRoundTrip` | src/texture/params.rs:459-486 | decoding inverts the setter's encoding, both ways |
| `SamplerParams.SamplerParameterIv` | src/sampler/params.rs:33-41 | the block passed to `glSamplerParameteriv` is the slice padded with 0 |
| `SamplerParams.SamplerParameterFv` | src/sampler/params.rs:43-51 | the block passed to `glSamplerParameterfv` is the slice padded with 0.0 |
| `SamplerParams.SamplerParameterIIv` | src/sampler/params.rs:53-61 | the block passed to `glSamplerParameterIiv` is the slice padded with 0 |
| `SamplerParams.SamplerParameterIUiv` | src/sampler/params.rs:63-71 | the block passed to `glSamplerParameterIuiv` is the slice padded with 0 |
| `Render.FoldOr` | src/render.rs:22-24 | folding from `acc` gives `acc` OR the reference mask of the set of listed buffers |
| `Render.FoldOrAppend` | src/render.rs:22-24 | folding over a concatenation is folding over the second part from the first part's result |
| `Render.ClearMask` | src/render.rs:21-24 | the clear mask is the OR of the GL bits of exactly the listed buffers |
| `Render.ClearMaskEmpty` | src/render.rs:22-24 | an empty list gives mask 0 |
| `Render.ClearMaskBits` | src/render.rs:11-24 | a buffer's bit is set iff the buffer is listed; no bit outside COLOR, STENCIL and DEPTH is ever set |
| `Render.ClearMaskSetOnly` | src/render.rs:22-24 | lists with the same buffers give the same mask, whatever their order or repetitions |
| `Render.ClearMaskAppend` | src/render.rs:22-24 | the mask of a concatenation is the OR of the two masks |

## Left out

- Native calls (`gl::TexImage1D/2D/3D`, `gl::TexParameter*`, `gl::SamplerParameter*`, `gl::GetTexParameter*`, `gl::Clear`): these are foreign calls. The model stops just before each one. A getter's decoder takes the integer the driver wrote as a parameter.
- Release builds: the prechecks are `debug_assert!`s and are compiled out there, so a release build always makes the native call. The model gives the debug-build outcome.
- `usize` overflow in `width * x`, `width * height * x` and `width * height * depth * x`: the product is computed only inside the `debug_assert!`, where an overflow panics instead of wrapping. The model uses unbounded `nat`s, so it reports such an upload as failing the buffer check rather than as an overflow panic. Either way the native call is not reached.
- The driver limits in the source's "todo" comments (maximum texture size, maximum array layers, maximum level): the source does not check them.
- The `u16` level and the `usize` dimensions are not range-checked against the `i32` casts made for the native call, because those casts belong to the call.
- `pixel_store_i` / `pixel_store_f`, `tex_parameter_i` / `_f`, `tex_parameter_border_color`, the float lod getters and setters, and the typed integer setters other than their `as i32` encodings: these are passthroughs with no logic.
- Handle lifetimes (`TextureObject`, `SamplerObject`, `gen_*` / `delete_*` and `Drop`), binding calls, and every other file of the crate: these are ownership plumbing or passthroughs.
- Floating-point values: an `f32` is modelled only as a copied 32-bit pattern. No floating-point arithmetic or comparison is modelled.
- `TextureParams.DecodeSwizzles`: the Rust `map` panics at the first slot outside the table. The model only says that some slot failed (`None`), not which one.
