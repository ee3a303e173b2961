/**
 * The replay options of the global retracer and the retracer state the
 * trace executor touches. OpenTraceFile fills the options from the trace
 * header; the trace executor then overrides them from the parameters
 * document, field by field, before replay begins.
 */
module Options {
  import opened Wrappers
  import opened Scan
  import opened Egl
  import opened JsonConfig

  /** Header version from which the window size of the trace header is authoritative. */
  const HEADER_VERSION_2: nat := 2
  /** Directory that the snapshot prefix "*" stands for (desktop and fbdev builds). */
  const SNAPSHOT_DIR: string := "/tmp/retracer-snaps/"

  /**
   * The window size after the `width`/`height` keys: the header's unless
   * both keys are given (not -1); from header version 2 on, a positive pair
   * that differs from the header's is ignored.
   */
  function WindowSize(headerVersion: nat, jsWidth: int, jsHeight: int, width: int, height: int): (r: (int, int))
    ensures r == (width, height) || r == (jsWidth, jsHeight)
    ensures r != (width, height) ==> jsWidth != -1 && jsHeight != -1
    ensures headerVersion >= HEADER_VERSION_2 && jsWidth > 0 && jsHeight > 0 ==> r == (width, height)
    ensures jsWidth != -1 && jsHeight != -1 && !(headerVersion >= HEADER_VERSION_2 && jsWidth > 0 && jsHeight > 0)
            ==> r == (jsWidth, jsHeight)
  {
    var reset := headerVersion >= HEADER_VERSION_2
                 && (jsWidth != width || jsHeight != height)
                 && (jsWidth > 0 && jsHeight > 0);
    var w := if reset then -1 else jsWidth;
    var h := if reset then -1 else jsHeight;
    if w != -1 && h != -1 then (w, h) else (width, height)
  }

  /** The framebuffer configuration the colour, depth, stencil and MSAA keys ask for. */
  function RequestedConfig(cfg: Config): (r: EglConfig)
    ensures r.msaaSampleBuffers == 0
    ensures cfg == NoKeys ==> r == Unspecified.(msaaSampleBuffers := 0)
  {
    EglConfig(
      cfg.colorBitsRed.GetOr(UNSET), cfg.colorBitsGreen.GetOr(UNSET),
      cfg.colorBitsBlue.GetOr(UNSET), cfg.colorBitsAlpha.GetOr(UNSET),
      cfg.depthBits.GetOr(UNSET), cfg.stencilBits.GetOr(UNSET),
      cfg.msaaSamples.GetOr(UNSET), 0)
  }

  /**
   * The request of a document without framebuffer keys specifies only the
   * sample-buffer count, so overriding with it sets that count to 0 and
   * keeps every other field.
   */
  lemma RequestWithoutKeys(base: EglConfig)
    ensures Override(base, RequestedConfig(NoKeys)) == base.(msaaSampleBuffers := 0)
  {
  }

  /** The snapshot prefix to use: "*" selects the fixed snapshot directory. */
  function SnapshotPrefix(configured: string): (prefix: string)
    ensures configured == "*" ==> prefix == SNAPSHOT_DIR
    ensures configured != "*" ==> prefix == configured
  {
    if configured == "*" then SNAPSHOT_DIR else configured
  }

  /** Why a session was aborted, one reason per `reportAndAbort` of initialisation. */
  datatype AbortReason =
    | JsonParseError
    | MissingFile
    | TraceOpenFailed
    | MissingThreadId
    | MissingResolution
    | InvalidFramesParameter
    | FrameRangeNotIncreasing
    | MemoryBudgetExceeded

  datatype Outcome = Continue | Abort(reason: AbortReason)

  /** The replay options; the retracer holds them by value. */
  datatype RetraceOptions = RetraceOptions(
    retraceTid: int,
    windowWidth: int,
    windowHeight: int,
    doOverrideResolution: bool,
    overrideResW: int,
    overrideResH: int,
    failOnShaderError: bool,
    callStats: bool,
    forceSingleWindow: bool,
    forceOffscreen: bool,
    skipWork: int,
    onscreenConfig: EglConfig,
    offscreenConfig: EglConfig,
    measurePerFrame: bool,
    beginMeasureFrame: nat,
    endMeasureFrame: nat,
    preload: bool,
    snapshotPrefix: string,
    uploadSnapshots: bool,
    snapshotCallSet: Option<string>,
    stateLogging: bool,
    debug: int,
    storeProgramInformation: bool,
    removeUnusedVertexAttributes: bool,
    onscrSampleW: int,
    onscrSampleH: int,
    onscrSampleNumX: int,
    onscrSampleNumY: int,
    multiThread: bool,
    forceInSequence: bool)

  /** The resolution override, and the shader-error and call-statistics keys that default to the current value. */
  function WithResolutionKeys(s: RetraceOptions, cfg: Config): RetraceOptions {
    s.(doOverrideResolution := cfg.overrideResolution.GetOr(false),
       overrideResW := cfg.overrideWidth.GetOr(-1),
       overrideResH := cfg.overrideHeight.GetOr(-1),
       failOnShaderError := cfg.overrideFailOnShaderError.GetOr(s.failOnShaderError),
       callStats := cfg.callStats.GetOr(s.callStats))
  }

  /** A configured thread id that is not negative replaces the header's. */
  function WithThreadId(s: RetraceOptions, threadId: int): RetraceOptions {
    s.(retraceTid := if threadId >= 0 then threadId else s.retraceTid)
  }

  function WithWindowSize(s: RetraceOptions, headerVersion: nat, cfg: Config): RetraceOptions {
    var size := WindowSize(headerVersion, cfg.width.GetOr(-1), cfg.height.GetOr(-1), s.windowWidth, s.windowHeight);
    s.(windowWidth := size.0, windowHeight := size.1)
  }

  /**
   * The window mode keys and the requested framebuffer configuration:
   * offscreen replay gets the request offscreen and a low configuration
   * onscreen; otherwise the request overrides the onscreen configuration.
   */
  function WithFramebufferKeys(s: RetraceOptions, cfg: Config): RetraceOptions {
    var offscreen := cfg.offscreen.GetOr(s.forceOffscreen);
    s.(forceSingleWindow := cfg.forceSingleWindow.GetOr(s.forceSingleWindow),
       forceOffscreen := offscreen,
       skipWork := cfg.skipWork.GetOr(s.skipWork),
       onscreenConfig := Override(s.onscreenConfig, if offscreen then LowOnscreen else RequestedConfig(cfg)),
       offscreenConfig := if offscreen then Override(s.offscreenConfig, RequestedConfig(cfg)) else s.offscreenConfig)
  }

  /** The measured frames a `frames` value selects, when it parses to an increasing range. */
  function WithFrameRange(s: RetraceOptions, cfg: Config): RetraceOptions {
    var range := if cfg.frames.Some? then ParseFrames(cfg.frames.value) else None;
    var increasing := range.Some? && range.value.0 < range.value.1;
    s.(measurePerFrame := cfg.measurePerFrame.GetOr(false),
       beginMeasureFrame := if increasing then range.value.0 else s.beginMeasureFrame,
       endMeasureFrame := if increasing then range.value.1 else s.endMeasureFrame)
  }

  /** The snapshot, logging and program-information keys. */
  function WithSnapshotAndLoggingKeys(s: RetraceOptions, cfg: Config): RetraceOptions {
    s.(preload := cfg.preload.GetOr(false),
       snapshotPrefix := SnapshotPrefix(cfg.snapshotPrefix.GetOr("")),
       uploadSnapshots := cfg.snapshotUpload.GetOr(false),
       snapshotCallSet := if cfg.snapshotCallset.Some? then cfg.snapshotCallset else s.snapshotCallSet,
       stateLogging := cfg.statelog.GetOr(false),
       debug := if cfg.debug.GetOr(false) then 1 else 0,
       storeProgramInformation := cfg.storeProgramInformation.GetOr(false),
       removeUnusedVertexAttributes := cfg.removeUnusedVertexAttributes.GetOr(false))
  }

  /** Offscreen tiling: four big tiles take precedence over a single tile. */
  function WithTiling(s: RetraceOptions, bigTiles: bool, singleTile: bool): RetraceOptions {
    s.(onscrSampleW := if bigTiles then s.onscrSampleW * 12 else if singleTile then s.onscrSampleW * 10 else s.onscrSampleW,
       onscrSampleH := if bigTiles then s.onscrSampleH * 12 else if singleTile then s.onscrSampleH * 10 else s.onscrSampleH,
       onscrSampleNumX := if bigTiles then 2 else if singleTile then 1 else s.onscrSampleNumX,
       onscrSampleNumY := if bigTiles then 2 else if singleTile then 1 else s.onscrSampleNumY)
  }

  /** Multithreaded replay, and in-sequence replay only together with it. Neither is ever cleared. */
  function WithThreading(s: RetraceOptions, multithread: bool, insequence: bool): RetraceOptions {
    s.(multiThread := s.multiThread || multithread,
       forceInSequence := s.forceInSequence || (multithread && insequence))
  }

  /** The options once overrideDefaultsWithJson has applied every key up to and including `frames`. */
  function OverriddenUpToFrames(s: RetraceOptions, headerVersion: nat, cfg: Config): RetraceOptions {
    var s1 := WithResolutionKeys(s, cfg);
    var s2 := WithThreadId(s1, cfg.threadId.GetOr(-1));
    var s3 := WithWindowSize(s2, headerVersion, cfg);
    var s4 := WithFramebufferKeys(s3, cfg);
    WithFrameRange(s4, cfg)
  }

  /** The options after overrideDefaultsWithJson has run to its end. */
  function Overridden(s: RetraceOptions, headerVersion: nat, cfg: Config): RetraceOptions {
    var s5 := OverriddenUpToFrames(s, headerVersion, cfg);
    var s6 := WithSnapshotAndLoggingKeys(s5, cfg);
    var s7 := WithTiling(s6, cfg.offscreenBigTiles.GetOr(false), cfg.offscreenSingleTile.GetOr(false));
    WithThreading(s7, cfg.multithread.GetOr(false), cfg.insequence.GetOr(false))
  }

  /** The width and height after overriding are those the window-size rule picks from the header's. */
  lemma OverriddenWindowSize(s: RetraceOptions, headerVersion: nat, cfg: Config)
    ensures var r := Overridden(s, headerVersion, cfg);
      (r.windowWidth, r.windowHeight)
      == WindowSize(headerVersion, cfg.width.GetOr(-1), cfg.height.GetOr(-1), s.windowWidth, s.windowHeight)
  {
  }

  /**
   * Offscreen replay receives the requested framebuffer configuration and a
   * low onscreen one; onscreen replay receives the request onscreen and
   * keeps the offscreen configuration.
   */
  lemma OverriddenFramebuffers(s: RetraceOptions, headerVersion: nat, cfg: Config)
    ensures var r := Overridden(s, headerVersion, cfg);
      && r.forceOffscreen == cfg.offscreen.GetOr(s.forceOffscreen)
      && (r.forceOffscreen ==>
            r.onscreenConfig == Override(s.onscreenConfig, LowOnscreen)
            && r.offscreenConfig == Override(s.offscreenConfig, RequestedConfig(cfg)))
      && (!r.forceOffscreen ==>
            r.onscreenConfig == Override(s.onscreenConfig, RequestedConfig(cfg))
            && r.offscreenConfig == s.offscreenConfig)
  {
  }

  /** Big tiles take precedence over a single tile; without either the sampling is the header's. */
  lemma OverriddenTiling(s: RetraceOptions, headerVersion: nat, cfg: Config)
    ensures var r := Overridden(s, headerVersion, cfg);
      var bigTiles := cfg.offscreenBigTiles.GetOr(false);
      var singleTile := cfg.offscreenSingleTile.GetOr(false);
      && (bigTiles ==>
            r.onscrSampleW == s.onscrSampleW * 12 && r.onscrSampleH == s.onscrSampleH * 12
            && r.onscrSampleNumX == 2 && r.onscrSampleNumY == 2)
      && (!bigTiles && singleTile ==>
            r.onscrSampleW == s.onscrSampleW * 10 && r.onscrSampleH == s.onscrSampleH * 10
            && r.onscrSampleNumX == 1 && r.onscrSampleNumY == 1)
      && (!bigTiles && !singleTile ==>
            r.onscrSampleW == s.onscrSampleW && r.onscrSampleH == s.onscrSampleH
            && r.onscrSampleNumX == s.onscrSampleNumX && r.onscrSampleNumY == s.onscrSampleNumY)
  {
    var s5 := OverriddenUpToFrames(s, headerVersion, cfg);
    assert s5.onscrSampleW == s.onscrSampleW && s5.onscrSampleH == s.onscrSampleH
      && s5.onscrSampleNumX == s.onscrSampleNumX && s5.onscrSampleNumY == s.onscrSampleNumY;
    var s6 := WithSnapshotAndLoggingKeys(s5, cfg);
    assert s6.onscrSampleW == s.onscrSampleW && s6.onscrSampleH == s.onscrSampleH
      && s6.onscrSampleNumX == s.onscrSampleNumX && s6.onscrSampleNumY == s.onscrSampleNumY;
    var s7 := WithTiling(s6, cfg.offscreenBigTiles.GetOr(false), cfg.offscreenSingleTile.GetOr(false));
    var r := Overridden(s, headerVersion, cfg);
    assert r.onscrSampleW == s7.onscrSampleW && r.onscrSampleH == s7.onscrSampleH
      && r.onscrSampleNumX == s7.onscrSampleNumX && r.onscrSampleNumY == s7.onscrSampleNumY;
  }

  /**
   * The parameters can switch multithreaded and in-sequence replay on but
   * never off, and in-sequence replay only together with multithreading.
   */
  lemma OverriddenThreading(s: RetraceOptions, headerVersion: nat, cfg: Config)
    ensures var r := Overridden(s, headerVersion, cfg);
      && r.multiThread == (s.multiThread || cfg.multithread.GetOr(false))
      && r.forceInSequence == (s.forceInSequence || (cfg.multithread.GetOr(false) && cfg.insequence.GetOr(false)))
      && (s.multiThread ==> r.multiThread) && (s.forceInSequence ==> r.forceInSequence)
  {
  }

  /**
   * A document without keys keeps every header default except the switches
   * that default to off, and the MSAA sample-buffer count the request always
   * sets to 0.
   */
  lemma OverriddenWithoutKeys(s: RetraceOptions, headerVersion: nat)
    ensures Overridden(s, headerVersion, NoKeys)
      == s.(doOverrideResolution := false, overrideResW := -1, overrideResH := -1,
            onscreenConfig := if s.forceOffscreen then LowOnscreen else s.onscreenConfig.(msaaSampleBuffers := 0),
            offscreenConfig := if s.forceOffscreen then s.offscreenConfig.(msaaSampleBuffers := 0) else s.offscreenConfig,
            measurePerFrame := false, preload := false, snapshotPrefix := "", uploadSnapshots := false,
            stateLogging := false, debug := 0, storeProgramInformation := false,
            removeUnusedVertexAttributes := false)
  {
  }

  /** The parts of the global retracer the trace executor reads or sets. */
  class Retracer {
    /** The replay options, loaded from the trace header and then overridden. */
    var options: RetraceOptions
    /** Header version of the opened trace file. */
    var headerVersion: nat
    /** Set when a program failed to link and shader errors are fatal. */
    var failedToLinkShaderProgram: bool
    /** The global draw-logging switch. */
    var stateLoggingEnabled: bool

    constructor (options: RetraceOptions, headerVersion: nat)
      ensures this.options == options && this.headerVersion == headerVersion
      ensures !failedToLinkShaderProgram && !stateLoggingEnabled
    {
      this.options := options;
      this.headerVersion := headerVersion;
      failedToLinkShaderProgram := false;
      stateLoggingEnabled := false;
    }

    method ApplyResolutionKeys(cfg: Config)
      modifies this`options
      ensures options == WithResolutionKeys(old(options), cfg)
    {
      options := options.(doOverrideResolution := cfg.overrideResolution.GetOr(false),
                          overrideResW := cfg.overrideWidth.GetOr(-1),
                          overrideResH := cfg.overrideHeight.GetOr(-1),
                          failOnShaderError := cfg.overrideFailOnShaderError.GetOr(options.failOnShaderError),
                          callStats := cfg.callStats.GetOr(options.callStats));
    }

    method ApplyThreadId(threadId: int)
      modifies this`options
      ensures options == WithThreadId(old(options), threadId)
    {
      if threadId >= 0 {
        options := options.(retraceTid := threadId);
      }
    }

    /** The `width`/`height` keys, checked against the window size of the trace header. */
    method ApplyWindowSize(cfg: Config)
      modifies this`options
      ensures options == WithWindowSize(old(options), headerVersion, cfg)
    {
      var size := WindowSize(headerVersion, cfg.width.GetOr(-1), cfg.height.GetOr(-1),
                             options.windowWidth, options.windowHeight);
      options := options.(windowWidth := size.0, windowHeight := size.1);
    }

    method ApplyFramebufferKeys(cfg: Config)
      modifies this`options
      ensures options == WithFramebufferKeys(old(options), cfg)
    {
      var requested := RequestedConfig(cfg);
      var offscreen := cfg.offscreen.GetOr(options.forceOffscreen);
      var skipWork := options.skipWork;
      if cfg.skipWork.Some? {
        skipWork := cfg.skipWork.value;
      }
      var onscreenConfig := options.onscreenConfig;
      var offscreenConfig := options.offscreenConfig;
      if offscreen {
        onscreenConfig := Override(onscreenConfig, LowOnscreen);
        offscreenConfig := Override(offscreenConfig, requested);
      } else {
        onscreenConfig := Override(onscreenConfig, requested);
      }
      options := options.(forceSingleWindow := cfg.forceSingleWindow.GetOr(options.forceSingleWindow),
                          forceOffscreen := offscreen, skipWork := skipWork,
                          onscreenConfig := onscreenConfig, offscreenConfig := offscreenConfig);
    }

    /**
     * The `measurePerFrame` and `frames` keys. A `frames` value that does not
     * parse, or whose range is not increasing, aborts.
     */
    method ApplyFrameRange(cfg: Config) returns (outcome: Outcome)
      modifies this`options
      ensures options == WithFrameRange(old(options), cfg)
      ensures outcome == Abort(InvalidFramesParameter) <==> cfg.frames.Some? && ParseFrames(cfg.frames.value).None?
      ensures outcome == Abort(FrameRangeNotIncreasing) <==>
        cfg.frames.Some? && ParseFrames(cfg.frames.value).Some?
        && ParseFrames(cfg.frames.value).value.0 >= ParseFrames(cfg.frames.value).value.1
      ensures outcome.Abort? ==> outcome.reason in {InvalidFramesParameter, FrameRangeNotIncreasing}
    {
      var measurePerFrame := cfg.measurePerFrame.GetOr(false);
      var begin, end := options.beginMeasureFrame, options.endMeasureFrame;
      outcome := Continue;
      if cfg.frames.Some? {
        var range := ParseFrames(cfg.frames.value);
        if range.None? {
          outcome := Abort(InvalidFramesParameter);
        } else if range.value.0 >= range.value.1 {
          outcome := Abort(FrameRangeNotIncreasing);
        } else {
          // Both are unsigned, so the source's further test that they are not negative always holds.
          begin, end := range.value.0, range.value.1;
        }
      }
      options := options.(measurePerFrame := measurePerFrame, beginMeasureFrame := begin, endMeasureFrame := end);
    }

    method ApplySnapshotAndLoggingKeys(cfg: Config)
      modifies this`options
      ensures options == WithSnapshotAndLoggingKeys(old(options), cfg)
    {
      var snapshotPrefix := cfg.snapshotPrefix.GetOr("");
      if snapshotPrefix == "*" {
        snapshotPrefix := SNAPSHOT_DIR;
      }
      var snapshotCallSet := options.snapshotCallSet;
      if cfg.snapshotCallset.Some? {
        snapshotCallSet := cfg.snapshotCallset;
      }
      options := options.(preload := cfg.preload.GetOr(false),
                          snapshotPrefix := snapshotPrefix,
                          uploadSnapshots := cfg.snapshotUpload.GetOr(false),
                          snapshotCallSet := snapshotCallSet,
                          stateLogging := cfg.statelog.GetOr(false),
                          debug := if cfg.debug.GetOr(false) then 1 else 0,
                          storeProgramInformation := cfg.storeProgramInformation.GetOr(false),
                          removeUnusedVertexAttributes := cfg.removeUnusedVertexAttributes.GetOr(false));
    }

    method ApplyTiling(bigTiles: bool, singleTile: bool)
      modifies this`options
      ensures options == WithTiling(old(options), bigTiles, singleTile)
    {
      var sampleW, sampleH := options.onscrSampleW, options.onscrSampleH;
      var sampleNumX, sampleNumY := options.onscrSampleNumX, options.onscrSampleNumY;
      if bigTiles {
        sampleH, sampleW := sampleH * 12, sampleW * 12;
        sampleNumX, sampleNumY := 2, 2;
      } else if singleTile {
        sampleH, sampleW := sampleH * 10, sampleW * 10;
        sampleNumX, sampleNumY := 1, 1;
      }
      options := options.(onscrSampleW := sampleW, onscrSampleH := sampleH,
                          onscrSampleNumX := sampleNumX, onscrSampleNumY := sampleNumY);
    }

    method ApplyThreading(multithread: bool, insequence: bool)
      modifies this`options
      ensures options == WithThreading(old(options), multithread, insequence)
    {
      var multiThread, forceInSequence := options.multiThread, options.forceInSequence;
      if multithread {
        multiThread := true;
        if insequence {
          forceInSequence := true;
        }
      }
      options := options.(multiThread := multiThread, forceInSequence := forceInSequence);
    }
  }
}
