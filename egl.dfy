/**
 * EGL framebuffer configurations: the bit depths a replay asks for, how a
 * requested configuration overrides the one loaded from the trace, and the
 * `fb_config` section the report gives for the configuration in use.
 */
module Egl {

  /** A field of -1 means "not specified". */
  const UNSET: int := -1

  datatype EglConfig = EglConfig(
    red: int, green: int, blue: int, alpha: int,
    depth: int, stencil: int,
    msaaSamples: int, msaaSampleBuffers: int)

  /** A configuration that specifies nothing. */
  const Unspecified: EglConfig := EglConfig(UNSET, UNSET, UNSET, UNSET, UNSET, UNSET, UNSET, UNSET)

  /** The low onscreen configuration offscreen replay uses: RGB565, no depth, stencil or MSAA. */
  const LowOnscreen: EglConfig := EglConfig(5, 6, 5, 0, 0, 0, 0, 0)

  function OverrideField(base: int, request: int): int {
    if request == UNSET then base else request
  }

  /** `base` with every field that `request` specifies replaced by `request`'s. */
  function Override(base: EglConfig, request: EglConfig): EglConfig {
    EglConfig(
      OverrideField(base.red, request.red), OverrideField(base.green, request.green),
      OverrideField(base.blue, request.blue), OverrideField(base.alpha, request.alpha),
      OverrideField(base.depth, request.depth), OverrideField(base.stencil, request.stencil),
      OverrideField(base.msaaSamples, request.msaaSamples),
      OverrideField(base.msaaSampleBuffers, request.msaaSampleBuffers))
  }

  /** A request that specifies every field replaces the base entirely. */
  lemma OverrideComplete(base: EglConfig, request: EglConfig)
    requires request.red != UNSET && request.green != UNSET && request.blue != UNSET && request.alpha != UNSET
    requires request.depth != UNSET && request.stencil != UNSET
    requires request.msaaSamples != UNSET && request.msaaSampleBuffers != UNSET
    ensures Override(base, request) == request
  {
  }

  /** The `fb_config` section of a report. */
  datatype FbConfig = FbConfig(
    msaaSamples: int, red: int, green: int, blue: int, alpha: int, depth: int, stencil: int)

  /**
   * The MSAA sample count reported for the configuration the window system
   * selected: its sample count when it has exactly one sample buffer and a
   * positive count, otherwise 0.
   */
  function ReportedMsaaSamples(selected: EglConfig): (n: int)
    ensures n >= 0
    ensures n != 0 ==> selected.msaaSampleBuffers == 1 && n == selected.msaaSamples
    ensures selected.msaaSampleBuffers == 1 && selected.msaaSamples > 0 ==> n == selected.msaaSamples
  {
    if selected.msaaSampleBuffers == 1 && selected.msaaSamples > 0 then selected.msaaSamples else 0
  }

  /**
   * The reported configuration: the offscreen configuration as configured
   * when replay is forced offscreen, otherwise the one the window system
   * selected, with the MSAA rule above.
   */
  function SelectFbConfig(forceOffscreen: bool, offscreen: EglConfig, selected: EglConfig): (r: FbConfig)
    ensures forceOffscreen ==> r.msaaSamples == offscreen.msaaSamples
    ensures !forceOffscreen ==> r.msaaSamples == ReportedMsaaSamples(selected)
    ensures var c := if forceOffscreen then offscreen else selected;
      r.red == c.red && r.green == c.green && r.blue == c.blue && r.alpha == c.alpha &&
      r.depth == c.depth && r.stencil == c.stencil
  {
    if forceOffscreen then
      FbConfig(offscreen.msaaSamples, offscreen.red, offscreen.green, offscreen.blue,
               offscreen.alpha, offscreen.depth, offscreen.stencil)
    else
      FbConfig(ReportedMsaaSamples(selected), selected.red, selected.green, selected.blue,
               selected.alpha, selected.depth, selected.stencil)
  }
}
