/**
 * Sampler parameters: the four-slot blocks of the vector setters. The native
 * `glSamplerParameter*v` calls and the sampler handle are not modelled.
 */
module SamplerParams {

  import opened Primitives
  import opened Padding

  /** The block `sampler_parameter_iv` passes to `glSamplerParameteriv`. */
  method SamplerParameterIv(value: seq<I32>) returns (params: seq<I32>)
    ensures params == Padded(value, 0)
  {
    params := PadFour(value, 0);
  }

  /** The block `sampler_parameter_fv` passes to `glSamplerParameterfv`. */
  method SamplerParameterFv(value: seq<F32Bits>) returns (params: seq<F32Bits>)
    ensures params == Padded(value, F32_ZERO)
  {
    params := PadFour(value, F32_ZERO);
  }

  /** The block `sampler_parameter_i_iv` passes to `glSamplerParameterIiv`. */
  method SamplerParameterIIv(value: seq<I32>) returns (params: seq<I32>)
    ensures params == Padded(value, 0)
  {
    params := PadFour(value, 0);
  }

  /** The block `sampler_parameter_i_uiv` passes to `glSamplerParameterIuiv`. */
  method SamplerParameterIUiv(value: seq<U32>) returns (params: seq<U32>)
    ensures params == Padded(value, 0)
  {
    params := PadFour(value, 0);
  }
}
