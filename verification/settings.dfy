/** The tracing parameters the user sets in the interface (`traceUI->get*()`). */
module Settings {

  datatype SamplingMethod = NoSampling | Grid | Random | Jittered | Adaptive

  datatype Config = Config(
    depth: int,             // maximum recursion depth
    threshold: real,        // intensity pruning threshold
    softShadow: bool,
    diffuse: bool,          // distributed (glossy) reflection
    glossy: bool,           // distributed refraction
    overrideAtten: bool,
    attenConstant: real,
    attenLinear: real,
    attenQuadric: real,
    overrideAmbient: bool,
    ambient: real,
    sampling: SamplingMethod,
    subPixel: int)          // samples per axis, or the adaptive depth

  /** The interface's initial values. */
  const DefaultConfig: Config :=
    Config(0, 0.2, false, false, false, false, 0.0, 0.0, 1.0, false, 0.0, NoSampling, 2)
}
