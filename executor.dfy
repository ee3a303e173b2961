/**
 * The trace executor: it overrides the replay options loaded from the trace
 * header with the parameters document, accumulates the session's errors and
 * program diagnostics, and decides what the result document holds.
 *
 * `reportAndAbort` ends the process; here it is the outcome Abort (declared
 * with the retracer), and the operation returns at once, so nothing after
 * the failing check happens.
 */
module Executor {
  import opened Wrappers
  import opened Scan
  import opened Errors
  import opened Egl
  import opened JsonConfig
  import opened Options
  import opened Results

  /** Where the result document goes when no result file was given (desktop builds). */
  const DEFAULT_RESULT_FILE: string := "results.json"
  const BYTES_PER_MIB: nat := 1024 * 1024
  const LINK_FAILURE_DESCRIPTION: string := "A shader program failed to link"

  /** A path is absolute when it begins with a slash; an empty path is not. */
  predicate IsAbsolute(path: string) {
    |path| > 0 && path[0] == '/'
  }

  /** The trace file to open: `file` itself when absolute, otherwise relative to the trace directory. */
  function ResolveTracePath(file: string, traceDir: string): (path: string)
    ensures IsAbsolute(file) ==> path == file
    ensures !IsAbsolute(file) ==> path == traceDir + "/" + file
    ensures |file| <= |path| && path[|path| - |file|..] == file
    ensures IsAbsolute(path) <==> IsAbsolute(file) || IsAbsolute(traceDir) || traceDir == []
  {
    if IsAbsolute(file) then file
    else
      var path := traceDir + "/" + file;
      assert path[|path| - |file|..] == file;
      assert path[0] == if traceDir == [] then '/' else traceDir[0];
      path
  }

  /** The file the result document is written to. */
  function OutputFile(resultFile: string): (path: string)
    ensures path != []
    ensures resultFile != [] ==> path == resultFile
    ensures resultFile == [] ==> path == DEFAULT_RESULT_FILE
  {
    if resultFile == [] then DEFAULT_RESULT_FILE else resultFile
  }

  /** A 32-bit `unsigned int` conversion of a configured integer. */
  function Uint32(x: int): (r: nat)
    ensures r < UINT_MODULUS
    ensures 0 <= x < UINT_MODULUS ==> r == x
    ensures -(UINT_MODULUS as int) <= x < 0 ==> r == x + UINT_MODULUS
  {
    x % UINT_MODULUS
  }

  /** The memory budget in bytes; `membudget` is given in MiB and defaults to 0. */
  function BudgetBytes(membudget: Option<int>): (bytes: nat)
    ensures membudget.None? ==> bytes == 0
    ensures bytes % BYTES_PER_MIB == 0
    ensures membudget.Some? && 0 <= membudget.value < UINT_MODULUS ==> bytes == membudget.value * BYTES_PER_MIB
    ensures membudget.Some? && -(UINT_MODULUS as int) <= membudget.value < 0 ==>
      bytes == (membudget.value + UINT_MODULUS) * BYTES_PER_MIB
  {
    Uint32(membudget.GetOr(0)) * BYTES_PER_MIB
  }

  predicate ThreadIdKnown(cfg: Config, headerTid: int) {
    cfg.threadId.GetOr(-1) >= 0 || headerTid >= 0
  }

  predicate ResolutionMissing(cfg: Config) {
    cfg.overrideResolution.GetOr(false)
    && (cfg.overrideWidth.GetOr(-1) < 0 || cfg.overrideHeight.GetOr(-1) < 0)
  }

  /**
   * Which check of overrideDefaultsWithJson aborts, given the parameters and
   * the thread id of the trace header: the first that fails, in source order.
   */
  function OverrideOutcome(cfg: Config, headerTid: int): (r: Outcome)
    ensures r == Abort(MissingThreadId) <==> !ThreadIdKnown(cfg, headerTid)
    ensures r == Abort(MissingResolution) <==> ThreadIdKnown(cfg, headerTid) && ResolutionMissing(cfg)
    ensures r == Abort(InvalidFramesParameter) <==>
      ThreadIdKnown(cfg, headerTid) && !ResolutionMissing(cfg)
      && cfg.frames.Some? && ParseFrames(cfg.frames.value).None?
    ensures r == Abort(FrameRangeNotIncreasing) <==>
      ThreadIdKnown(cfg, headerTid) && !ResolutionMissing(cfg)
      && cfg.frames.Some? && ParseFrames(cfg.frames.value).Some?
      && ParseFrames(cfg.frames.value).value.0 >= ParseFrames(cfg.frames.value).value.1
    ensures r.Abort? ==> r.reason in {MissingThreadId, MissingResolution, InvalidFramesParameter, FrameRangeNotIncreasing}
  {
    if !ThreadIdKnown(cfg, headerTid) then Abort(MissingThreadId)
    else if ResolutionMissing(cfg) then Abort(MissingResolution)
    else match cfg.frames
      case None => Continue
      case Some(frames) =>
        match ParseFrames(frames)
        case None => Abort(InvalidFramesParameter)
        case Some(range) => if range.0 >= range.1 then Abort(FrameRangeNotIncreasing) else Continue
  }

  /** Once overriding succeeds a thread id is known: the configured one, or else the header's. */
  lemma ContinueHasThreadId(s: RetraceOptions, headerVersion: nat, cfg: Config)
    requires OverrideOutcome(cfg, s.retraceTid) == Continue
    ensures Overridden(s, headerVersion, cfg).retraceTid >= 0
    ensures cfg.threadId.GetOr(-1) >= 0 ==> Overridden(s, headerVersion, cfg).retraceTid == cfg.threadId.value
    ensures cfg.threadId.GetOr(-1) < 0 ==> Overridden(s, headerVersion, cfg).retraceTid == s.retraceTid
  {
  }

  /** Once overriding succeeds, a resolution override comes with a width and a height. */
  lemma ContinueHasResolution(s: RetraceOptions, headerVersion: nat, cfg: Config)
    requires OverrideOutcome(cfg, s.retraceTid) == Continue
    ensures var r := Overridden(s, headerVersion, cfg);
      r.doOverrideResolution ==> r.overrideResW >= 0 && r.overrideResH >= 0
  {
  }

  /**
   * Once overriding succeeds, a `frames` value has set an increasing measured
   * range, the one it parses to; without one the range is the header's.
   */
  lemma ContinueFrameRange(s: RetraceOptions, headerVersion: nat, cfg: Config)
    requires OverrideOutcome(cfg, s.retraceTid) == Continue
    ensures var r := Overridden(s, headerVersion, cfg);
      && (cfg.frames.Some? ==>
            ParseFrames(cfg.frames.value) == Some((r.beginMeasureFrame, r.endMeasureFrame))
            && r.beginMeasureFrame < r.endMeasureFrame)
      && (cfg.frames.None? ==>
            r.beginMeasureFrame == s.beginMeasureFrame && r.endMeasureFrame == s.endMeasureFrame)
  {
  }

  /** When `frames` aborts overriding, the measured range is still the header's. */
  lemma FrameAbortKeepsRange(s: RetraceOptions, headerVersion: nat, cfg: Config)
    requires OverrideOutcome(cfg, s.retraceTid) in {Abort(InvalidFramesParameter), Abort(FrameRangeNotIncreasing)}
    ensures var r := OverriddenUpToFrames(s, headerVersion, cfg);
      r.beginMeasureFrame == s.beginMeasureFrame && r.endMeasureFrame == s.endMeasureFrame
  {
  }

  /** The session-wide state of the trace executor. */
  class TraceExecutor {
    const retracer: Retracer
    var resultFile: string
    var errorList: seq<TraceError>
    var programAttributeListMap: map<int, set<string>>
    var programInfoList: seq<ProgramRecord>

    /** Every program diagnostic keeps its link log exactly when linking failed. */
    ghost predicate Valid()
      reads this
    {
      forall r :: r in programInfoList ==> r.WellFormed()
    }

    constructor (retracer: Retracer)
      ensures this.retracer == retracer && Valid()
      ensures resultFile == [] && errorList == []
      ensures programAttributeListMap == map[] && programInfoList == []
    {
      this.retracer := retracer;
      resultFile := [];
      errorList := [];
      programAttributeListMap := map[];
      programInfoList := [];
    }

    /**
     * Overrides the header defaults held in the options with the parameters
     * document. However it ends, the options hold exactly the keys applied
     * before the check that decided the outcome.
     */
    method OverrideDefaultsWithJson(cfg: Config) returns (outcome: Outcome)
      modifies retracer
      ensures outcome == OverrideOutcome(cfg, old(retracer.options.retraceTid))
      ensures outcome.Continue? ==>
        && retracer.options == Overridden(old(retracer.options), old(retracer.headerVersion), cfg)
        && retracer.stateLoggingEnabled == cfg.drawlog.GetOr(false)
      ensures outcome == Abort(MissingThreadId) || outcome == Abort(MissingResolution) ==>
        retracer.options == WithResolutionKeys(old(retracer.options), cfg)
      ensures outcome == Abort(InvalidFramesParameter) || outcome == Abort(FrameRangeNotIncreasing) ==>
        retracer.options == OverriddenUpToFrames(old(retracer.options), old(retracer.headerVersion), cfg)
      ensures outcome.Abort? ==> retracer.stateLoggingEnabled == old(retracer.stateLoggingEnabled)
      ensures retracer.headerVersion == old(retracer.headerVersion)
      ensures retracer.failedToLinkShaderProgram == old(retracer.failedToLinkShaderProgram)
    {
      var threadId := cfg.threadId.GetOr(-1);

      retracer.ApplyResolutionKeys(cfg);
      if threadId < 0 && retracer.options.retraceTid < 0 {
        return Abort(MissingThreadId);
      }
      if retracer.options.doOverrideResolution
         && (retracer.options.overrideResW < 0 || retracer.options.overrideResH < 0)
      {
        return Abort(MissingResolution);
      }
      retracer.ApplyThreadId(threadId);
      retracer.ApplyWindowSize(cfg);
      retracer.ApplyFramebufferKeys(cfg);

      var framesOutcome := retracer.ApplyFrameRange(cfg);
      if framesOutcome.Abort? {
        return framesOutcome;
      }

      retracer.ApplySnapshotAndLoggingKeys(cfg);
      retracer.stateLoggingEnabled := cfg.drawlog.GetOr(false);
      retracer.ApplyTiling(cfg.offscreenBigTiles.GetOr(false), cfg.offscreenSingleTile.GetOr(false));
      retracer.ApplyThreading(cfg.multithread.GetOr(false), cfg.insequence.GetOr(false));
      outcome := Continue;
    }

    /**
     * Initialises the session from the parameters document. `parsed` is the
     * parse result (None for unparsable text); `traceOpens` says whether the
     * trace file at a path opens, and the options hold the header defaults it
     * loads; `freeMemory` is the free memory in bytes.
     */
    method InitFromJson(parsed: Option<Config>, traceDir: string, resultFile: string,
                        traceOpens: string -> bool, freeMemory: nat) returns (outcome: Outcome)
      modifies this, retracer
      ensures this.resultFile == resultFile
      ensures errorList == old(errorList) && programInfoList == old(programInfoList)
      ensures programAttributeListMap == old(programAttributeListMap)
      ensures parsed.None? ==> outcome == Abort(JsonParseError)
      ensures parsed.Some? && parsed.value.file.None? ==> outcome == Abort(MissingFile)
      ensures parsed.Some? && parsed.value.file.Some?
              && !traceOpens(ResolveTracePath(parsed.value.file.value, traceDir))
              ==> outcome == Abort(TraceOpenFailed)
      ensures outcome in {Abort(JsonParseError), Abort(MissingFile), Abort(TraceOpenFailed)} ==>
        unchanged(retracer)
      ensures parsed.Some? && parsed.value.file.Some?
              && traceOpens(ResolveTracePath(parsed.value.file.value, traceDir)) ==>
        var cfg := parsed.value;
        var overridden := OverrideOutcome(cfg, old(retracer.options.retraceTid));
        && (overridden.Abort? ==> outcome == overridden && retracer.stateLoggingEnabled == old(retracer.stateLoggingEnabled))
        && (overridden == Abort(MissingThreadId) || overridden == Abort(MissingResolution) ==>
              retracer.options == WithResolutionKeys(old(retracer.options), cfg))
        && (overridden == Abort(InvalidFramesParameter) || overridden == Abort(FrameRangeNotIncreasing) ==>
              retracer.options == OverriddenUpToFrames(old(retracer.options), old(retracer.headerVersion), cfg))
        && (overridden.Continue? ==>
              retracer.options == Overridden(old(retracer.options), old(retracer.headerVersion), cfg)
              && retracer.stateLoggingEnabled == cfg.drawlog.GetOr(false)
              && outcome == if freeMemory < BudgetBytes(cfg.membudget) then Abort(MemoryBudgetExceeded) else Continue)
      ensures retracer.headerVersion == old(retracer.headerVersion)
      ensures retracer.failedToLinkShaderProgram == old(retracer.failedToLinkShaderProgram)
    {
      this.resultFile := resultFile;
      if parsed.None? {
        return Abort(JsonParseError);
      }
      var cfg := parsed.value;
      if cfg.file.None? {
        return Abort(MissingFile);
      }
      var tracePath := ResolveTracePath(cfg.file.value, traceDir);
      if !traceOpens(tracePath) {
        return Abort(TraceOpenFailed);
      }
      outcome := OverrideDefaultsWithJson(cfg);
      if outcome.Abort? {
        return;
      }
      var budget := Uint32(cfg.membudget.GetOr(0));
      if freeMemory < budget * BYTES_PER_MIB {
        return Abort(MemoryBudgetExceeded);
      }
    }

    method AddError(code: nat, description: string)
      modifies this
      ensures errorList == old(errorList) + [TraceError(code, description)]
      ensures programAttributeListMap == old(programAttributeListMap)
      ensures programInfoList == old(programInfoList) && resultFile == old(resultFile)
    {
      errorList := errorList + [TraceError(code, description)];
    }

    /** Records that `name` is active in `program` although its array is disabled. */
    method AddDisabledButActiveAttribute(program: int, name: string)
      modifies this
      ensures programAttributeListMap == WithAttribute(old(programAttributeListMap), program, name)
      ensures name in programAttributeListMap[program]
      ensures errorList == old(errorList) && programInfoList == old(programInfoList)
      ensures resultFile == old(resultFile)
    {
      if program !in programAttributeListMap {
        programAttributeListMap := programAttributeListMap[program := {}];
      }
      programAttributeListMap := programAttributeListMap[program := programAttributeListMap[program] + {name}];
    }

    /**
     * Builds and stores the diagnostic entry of a program from what the GL
     * reports about it, naming each shader by its original name through
     * `shaderRevMap`. A failed link is an error when shader errors are fatal.
     */
    method AddProgramInfo(originalProgramName: int, query: ProgramQuery,
                          shaderRevMap: nat -> nat, curCallId: nat) returns (info: ProgramRecord)
      requires Valid()
      modifies this, retracer
      ensures Valid() && info.WellFormed()
      ensures programInfoList == old(programInfoList) + [info]
      ensures info.callNo == curCallId && info.id == originalProgramName
      ensures info.activeAttributeNames == query.activeAttributeNames
      ensures info.linkStatus == query.linkStatus
      ensures info.linkLog == if query.linkStatus then None else Some(query.infoLog)
      ensures ShaderSectionOf(query.shaders, shaderRevMap, info.shaders)
      ensures retracer.options == old(retracer.options)
      ensures var fatal := !query.linkStatus && old(retracer.options.failOnShaderError);
        && errorList == old(errorList)
             + (if fatal then [TraceError(TRACE_ERROR_OUT_OF_MEMORY, LINK_FAILURE_DESCRIPTION)] else [])
        && retracer.failedToLinkShaderProgram == (old(retracer.failedToLinkShaderProgram) || fatal)
      ensures programAttributeListMap == old(programAttributeListMap) && resultFile == old(resultFile)
      ensures retracer.headerVersion == old(retracer.headerVersion)
      ensures retracer.stateLoggingEnabled == old(retracer.stateLoggingEnabled)
    {
      var linkLog: Option<string> := None;
      if !query.linkStatus {
        linkLog := Some(query.infoLog);
        if retracer.options.failOnShaderError {
          AddError(TRACE_ERROR_OUT_OF_MEMORY, LINK_FAILURE_DESCRIPTION);
          retracer.failedToLinkShaderProgram := true;
        }
      }
      var shaders := ShaderSection(query.shaders, shaderRevMap);
      info := ProgramRecord(curCallId, query.activeAttributeNames, |query.activeAttributeNames|,
                            originalProgramName, query.linkStatus, linkLog, shaders);
      programInfoList := programInfoList + [info];
    }

    /**
     * The document writeData produces, and whether it could be written:
     * opening the output file is the only failure. `selected` is the
     * configuration the window system selected.
     */
    method WriteData(frames: int, duration: real, selected: EglConfig,
                     canOpen: string -> bool) returns (written: bool, report: Report)
      ensures written == canOpen(OutputFile(resultFile))
      ensures errorList != [] ==>
        report.ErrorReport? && ListsErrors(errorList, report.error, report.errorDescription)
      ensures errorList == [] && (frames > 0 || duration > 0.0) ==>
        && report.ResultReport?
        && report.result.frames == frames && report.result.time == duration
        && (report.result.unusedActiveAttributes.Some? <==> programAttributeListMap != map[])
        && (report.result.unusedActiveAttributes.Some? ==>
              report.result.unusedActiveAttributes.value == programAttributeListMap)
        && (report.result.programInfos.Some? <==> programInfoList != [])
        && (report.result.programInfos.Some? ==> report.result.programInfos.value == programInfoList)
        && report.result.fbConfig
           == SelectFbConfig(retracer.options.forceOffscreen, retracer.options.offscreenConfig, selected)
      ensures errorList == [] && !(frames > 0 || duration > 0.0) ==> report == EmptyReport
      ensures Valid() && report.ResultReport? && report.result.programInfos.Some? ==>
        forall r :: r in report.result.programInfos.value ==> r.WellFormed()
    {
      if errorList != [] {
        var names, descriptions := ErrorArrays(errorList);
        report := ErrorReport(names, descriptions);
      } else if frames > 0 || duration > 0.0 {
        var attributes := if programAttributeListMap != map[] then Some(programAttributeListMap) else None;
        var infos := if programInfoList != [] then Some(programInfoList) else None;
        var fbConfig := SelectFbConfig(retracer.options.forceOffscreen, retracer.options.offscreenConfig, selected);
        report := ResultReport(ResultData(frames, duration, attributes, infos, fbConfig));
      } else {
        report := EmptyReport;
      }
      written := canOpen(OutputFile(resultFile));
    }

    /**
     * Reports an error at once: records it, writes the error document and
     * clears the errors again, whether or not the write succeeded.
     */
    method WriteError(code: nat, description: string, canOpen: string -> bool) returns (report: Report)
      modifies this
      ensures report.ErrorReport?
      ensures ListsErrors(old(errorList) + [TraceError(code, description)], report.error, report.errorDescription)
      ensures code < TRACE_ERROR_COUNT ==>
        |report.error| > 0 && report.error[|report.error| - 1] == ErrorNames[code]
        && report.errorDescription[|report.errorDescription| - 1] == description
      ensures errorList == []
      ensures programAttributeListMap == old(programAttributeListMap)
      ensures programInfoList == old(programInfoList) && resultFile == old(resultFile)
    {
      AddError(code, description);
      KnownErrorsSnoc(old(errorList), TraceError(code, description));
      // The window system is not consulted: the error list is not empty.
      var written;
      written, report := WriteData(0, 0.0, Unspecified, canOpen);
      ClearError();
    }

    method ClearResult()
      modifies this
      ensures programAttributeListMap == map[] && programInfoList == [] && errorList == []
      ensures resultFile == old(resultFile) && Valid()
    {
      programAttributeListMap := map[];
      programInfoList := [];
      ClearError();
    }

    method ClearError()
      modifies this
      ensures errorList == []
      ensures programAttributeListMap == old(programAttributeListMap)
      ensures programInfoList == old(programInfoList) && resultFile == old(resultFile)
    {
      errorList := [];
    }
  }
}
