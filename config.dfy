/**
 * The replay parameters document, as the keys the trace executor looks up.
 * Every key is optional; a key that is absent is None. Parsing and
 * serialising the document itself is jsoncpp's work and is not modelled:
 * the record is what a successful parse yields.
 */
module JsonConfig {
  import opened Wrappers

  datatype Config = Config(
    threadId: Option<int>,
    overrideResolution: Option<bool>,
    overrideWidth: Option<int>,
    overrideHeight: Option<int>,
    overrideFailOnShaderError: Option<bool>,
    callStats: Option<bool>,
    width: Option<int>,
    height: Option<int>,
    colorBitsRed: Option<int>,
    colorBitsGreen: Option<int>,
    colorBitsBlue: Option<int>,
    colorBitsAlpha: Option<int>,
    depthBits: Option<int>,
    stencilBits: Option<int>,
    msaaSamples: Option<int>,
    forceSingleWindow: Option<bool>,
    offscreen: Option<bool>,
    skipWork: Option<int>,
    measurePerFrame: Option<bool>,
    frames: Option<string>,
    preload: Option<bool>,
    snapshotPrefix: Option<string>,
    snapshotUpload: Option<bool>,
    snapshotCallset: Option<string>,
    statelog: Option<bool>,
    drawlog: Option<bool>,
    debug: Option<bool>,
    storeProgramInformation: Option<bool>,
    removeUnusedVertexAttributes: Option<bool>,
    offscreenBigTiles: Option<bool>,
    offscreenSingleTile: Option<bool>,
    multithread: Option<bool>,
    insequence: Option<bool>,
    membudget: Option<int>,
    file: Option<string>)

  /** The document with no keys at all. */
  const NoKeys: Config := Config(
    None, None, None, None, None, None, None, None, None, None, None, None,
    None, None, None, None, None, None, None, None, None, None, None, None,
    None, None, None, None, None, None, None, None, None, None, None)
}
