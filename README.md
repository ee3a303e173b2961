# TraceExecutor session configuration and result aggregation (patrace)

This project models the session logic of patrace's `TraceExecutor` (the
replayer's front end driven by a JSON parameters document) and proves
properties of it.

- **Option overriding.** `overrideDefaultsWithJson` takes the replay options
  loaded from the trace header and overrides them key by key. It aborts on
  a missing thread id, on a resolution override without a resolution, and
  on a `frames` value that does not parse or is not increasing.
  `initFromJson` adds the parse, `file`, trace-open and memory-budget checks
  around it.
- **Result accumulation.** `addError`, `addDisabledButActiveAttribute`,
  `addProgramInfo`, `writeError`, `clearResult` and `clearError` maintain
  three session-wide containers: the error list, the map from program to
  disabled-but-active attribute names, and the list of program diagnostics.
- **Report shape.** `writeData` decides what the result document holds:
  - the error arrays when any error was recorded (codes without a name are
    skipped);
  - otherwise a result section when frames or time were measured;
  - otherwise nothing.

Modules:

- `Wrappers`: `Option`.
- `JsonConfig`: the parameters document as a record of optional keys.
  `NoKeys` is the document with no keys.
- `Scan`: the `sscanf("%u-%u")` frame-range parse, with a decimal
  round trip.
- `Errors`: the error codes, the `ErrorNames` table, and the filtered error
  arrays.
- `Egl`: framebuffer configurations, their override, and the reported
  `fb_config`.
- `Options`: the retracer's options and the retracer object. Each key group
  of `overrideDefaultsWithJson` is a step function on the options value and
  a method of `Retracer` that applies it in place. `Overridden` is the
  composition.
- `Results`: program and shader diagnostic records, the attribute map, and
  the report.
- `Executor`: the session class `TraceExecutor` and the abort decision
  `OverrideOutcome`.

The retracer's options (`gRetracer.mOptions`) are a record held by value, so
the model holds a `RetraceOptions` value in the `options` field of the
`Retracer` object, and each method assigns a new value to that field. The
options on entry to `initFromJson` stand for the header defaults
`OpenTraceFile` loads. `reportAndAbort` ends the process. In the model it is
an `Abort` outcome, and the operation returns at once, so nothing after the
failing check happens.

Some inputs are parameters:

- whether the trace file opens (`traceOpens`);
- whether the output file opens (`canOpen`);
- the free memory;
- what the GL reports about a program and its shaders;
- the shader reverse map;
- the current call number;
- the configuration the window system selected.

`offscreenBigTiles` is tested first, so it takes precedence over
`offscreenSingleTile` (patrace/src/retracer/trace_executor.cpp:203-218).

## Model

| member | source | states |
|---|---|---|
| Scan.UnsignedOf | patrace/src/retracer/trace_executor.cpp:140-141 | a `%u` conversion stores a value below 2^32: a magnitude that fits `unsigned long` is kept modulo 2^32 (negated first under a minus sign), a larger one saturates to 0xFFFFFFFF |
| Scan.ScanUnsigned | patrace/src/retracer/trace_executor.cpp:141 | one `%u` conversion yields a 32-bit value and consumes at least one character |
| Scan.ScanUnsignedSuffix | patrace/src/retracer/trace_executor.cpp:141 | what a conversion leaves unread is the tail of its input |
| Scan.ScanDecimal | patrace/src/retracer/trace_executor.cpp:141 | converting a rendered 32-bit number followed by a non-digit reads back exactly that number and leaves the rest |
| Scan.ParseFrames | patrace/src/retracer/trace_executor.cpp:141 | `sscanf(frames, "%u-%u") == 2` yields two 32-bit values and needs a `-` after the first character |
| Scan.ParseFramesOfScans | patrace/src/retracer/trace_executor.cpp:141 | two conversions joined by the literal `-` are accepted as that pair |
| Scan.ParseFramesOfDecimal | patrace/src/retracer/trace_executor.cpp:141 | round trip: "start-end", with trailing text not starting with a digit, parses back to (start, end) |
| Scan.ParseFramesNeedsDigits | patrace/src/retracer/trace_executor.cpp:141-152 | a `frames` value without digits never yields a range, so it is rejected |
| Errors.ErrorNamesComplete | patrace/src/retracer/trace_executor.cpp:30-44 | the table has exactly TRACE_ERROR_COUNT names, pairwise distinct |
| Errors.KnownErrors | patrace/src/retracer/trace_executor.cpp:428-434 | the errors the report names: only codes below TRACE_ERROR_COUNT, every such recorded error, none added |
| Errors.KnownErrorsSnoc | patrace/src/retracer/trace_executor.cpp:428-434 | one more recorded error is appended to the named ones exactly when its code has a name |
| Errors.KnownErrorsAppend | patrace/src/retracer/trace_executor.cpp:428-434 | filtering commutes with concatenation, so recorded order is kept |
| Errors.KnownErrorsAllKnown | patrace/src/retracer/trace_executor.cpp:428-434 | when every code has a name nothing is skipped |
| Errors.ListsErrorsSnoc | patrace/src/retracer/trace_executor.cpp:428-434 | one loop step keeps the two arrays parallel: a named error appends its name and description, an unnamed one appends nothing |
| Errors.ErrorArrays | patrace/src/retracer/trace_executor.cpp:425-436 | the loop builds equal-length `error` and `error_description` arrays listing the named errors in recorded order |
| Egl.Override | patrace/src/retracer/trace_executor.cpp:127-132 | the override `EglConfigInfo::override` is read as: each field the request specifies (not -1) replaces the base's; it is a definition, whose properties are OverrideComplete and RequestWithoutKeys |
| Egl.OverrideComplete | patrace/src/retracer/trace_executor.cpp:127 | a request that specifies every field, such as the low onscreen one, replaces the configuration |
| Egl.ReportedMsaaSamples | patrace/src/retracer/trace_executor.cpp:495 | the reported sample count is the selected one exactly when there is one sample buffer and a positive count, else 0 |
| Egl.SelectFbConfig | patrace/src/retracer/trace_executor.cpp:480-503 | `fb_config` reports the offscreen configuration when replay is forced offscreen, otherwise the selected one with the MSAA rule |
| Options.WindowSize | patrace/src/retracer/trace_executor.cpp:89-104 | the size changes only when both keys are not -1, and from header version 2 a positive pair that differs from the header's is ignored |
| Options.RequestedConfig | patrace/src/retracer/trace_executor.cpp:106-115 | the request built from the colour, depth, stencil and MSAA keys always asks for 0 sample buffers; without keys it specifies nothing else |
| Options.RequestWithoutKeys | patrace/src/retracer/trace_executor.cpp:106-132 | overriding with the request of a document without framebuffer keys sets the sample-buffer count to 0 and keeps every other field |
| Options.WithResolutionKeys | patrace/src/retracer/trace_executor.cpp:59-63 | definition of the resolution, shader-error and call-statistics step; OverrideDefaultsWithJson and InitFromJson state the options after an early abort with it |
| Options.WithThreadId | patrace/src/retracer/trace_executor.cpp:85-87 | definition of the thread-id step; its effect on the result is ContinueHasThreadId |
| Options.WithWindowSize | patrace/src/retracer/trace_executor.cpp:89-104 | definition of the window-size step through WindowSize; its effect on the result is OverriddenWindowSize |
| Options.WithFramebufferKeys | patrace/src/retracer/trace_executor.cpp:117-133 | definition of the window-mode and framebuffer step; its effect on the result is OverriddenFramebuffers |
| Options.WithFrameRange | patrace/src/retracer/trace_executor.cpp:135-154 | definition of the frame-range step; its effect is ContinueFrameRange and FrameAbortKeepsRange |
| Options.WithSnapshotAndLoggingKeys | patrace/src/retracer/trace_executor.cpp:156-201 | definition of the snapshot, logging and program-information step; its effect without keys is OverriddenWithoutKeys |
| Options.WithTiling | patrace/src/retracer/trace_executor.cpp:203-218 | definition of the tiling step; its effect on the result is OverriddenTiling |
| Options.WithThreading | patrace/src/retracer/trace_executor.cpp:220-227 | definition of the threading step; its effect on the result is OverriddenThreading |
| Options.OverriddenUpToFrames | patrace/src/retracer/trace_executor.cpp:53-154 | the options once every key up to `frames` is applied, in source order; what a `frames` abort leaves |
| Options.Overridden | patrace/src/retracer/trace_executor.cpp:53-227 | the options after overrideDefaultsWithJson runs to its end; the Overridden and Continue lemmas state its properties |
| Options.Retracer.constructor | patrace/src/retracer/trace_executor.cpp:53-57 | a retracer holds the header options and version, with no failed link and draw logging off |
| Options.SnapshotPrefix | patrace/src/retracer/trace_executor.cpp:159-182 | "*" selects the fixed snapshot directory, any other prefix is kept |
| Options.OverriddenWindowSize | patrace/src/retracer/trace_executor.cpp:89-104 | after all overriding, the window size is what the window-size rule picks from the header's |
| Options.OverriddenFramebuffers | patrace/src/retracer/trace_executor.cpp:117-133 | offscreen replay gets the request offscreen and the low configuration onscreen; onscreen replay gets the request onscreen and keeps the offscreen configuration |
| Options.OverriddenTiling | patrace/src/retracer/trace_executor.cpp:203-218 | big tiles (×12, 2×2) take precedence over a single tile (×10, 1×1); with neither flag the sampling is unchanged |
| Options.OverriddenThreading | patrace/src/retracer/trace_executor.cpp:220-227 | multithreading and in-sequence replay are switched on, never off, and in-sequence only together with multithreading |
| Options.OverriddenWithoutKeys | patrace/src/retracer/trace_executor.cpp:53-251 | with no keys, the resolution override is off with width and height -1, the snapshot prefix is "", and the switches that default to off are off; with forced offscreen the onscreen configuration becomes the RGB565 one and the offscreen one gets 0 sample buffers, otherwise the onscreen one gets 0 sample buffers; every other option keeps the header's value |
| Options.Retracer.ApplyResolutionKeys | patrace/src/retracer/trace_executor.cpp:59-63 | the resolution override and the shader-error and call-statistics keys are applied in place |
| Options.Retracer.ApplyThreadId | patrace/src/retracer/trace_executor.cpp:85-87 | a non-negative configured thread id replaces the header's |
| Options.Retracer.ApplyWindowSize | patrace/src/retracer/trace_executor.cpp:89-104 | the window size becomes what the window-size rule picks |
| Options.Retracer.ApplyFramebufferKeys | patrace/src/retracer/trace_executor.cpp:106-133 | the window-mode and framebuffer keys are applied in place |
| Options.Retracer.ApplyFrameRange | patrace/src/retracer/trace_executor.cpp:135-154 | the range is set only from an increasing parse; it aborts iff `frames` is given and does not parse, or parses with start ≥ end |
| Options.Retracer.ApplySnapshotAndLoggingKeys | patrace/src/retracer/trace_executor.cpp:156-201 | the snapshot, logging and program-information keys are applied in place |
| Options.Retracer.ApplyTiling | patrace/src/retracer/trace_executor.cpp:203-218 | the tiling keys are applied in place |
| Options.Retracer.ApplyThreading | patrace/src/retracer/trace_executor.cpp:220-227 | the threading keys are applied in place |
| Executor.ResolveTracePath | patrace/src/retracer/trace_executor.cpp:291-300 | an absolute `file` is used as is, otherwise it is joined to the trace directory with "/"; the path always ends with `file`; it is absolute iff `file` or the directory is, or the directory is empty |
| Executor.OutputFile | patrace/src/retracer/trace_executor.cpp:513-521 | the result goes to the result file when one was given, else to "results.json"; never to an empty path |
| Executor.Uint32 | patrace/src/retracer/trace_executor.cpp:319-320 | storing an int into `unsigned int` keeps it modulo 2^32 |
| Executor.BudgetBytes | patrace/src/retracer/trace_executor.cpp:318-325 | the budget is `membudget` MiB for a non-negative value, a negative value wrapped modulo 2^32 first, and 0 without the key |
| Executor.OverrideOutcome | patrace/src/retracer/trace_executor.cpp:53-154 | each abort reason holds iff its check is the first to fail in source order: thread id, resolution, frames parse, frames order |
| Executor.ContinueHasThreadId | patrace/src/retracer/trace_executor.cpp:69-87 | once overriding succeeds the thread id is non-negative: the configured one if non-negative, else the header's |
| Executor.ContinueHasResolution | patrace/src/retracer/trace_executor.cpp:74-77 | once overriding succeeds, a resolution override has a non-negative width and height |
| Executor.ContinueFrameRange | patrace/src/retracer/trace_executor.cpp:137-154 | once overriding succeeds, a `frames` value has set the increasing range it parses to; without one the range is the header's |
| Executor.FrameAbortKeepsRange | patrace/src/retracer/trace_executor.cpp:137-154 | when `frames` aborts overriding, the measured range is still the header's |
| Executor.TraceExecutor.constructor | patrace/src/retracer/trace_executor.cpp:46-49 | the session starts with no result file and empty containers |
| Executor.TraceExecutor.OverrideDefaultsWithJson | patrace/src/retracer/trace_executor.cpp:53-251 | the outcome is OverrideOutcome; on success the options are `Overridden` and draw logging follows `drawlog`; an abort leaves exactly the keys applied before the failing check |
| Executor.TraceExecutor.InitFromJson | patrace/src/retracer/trace_executor.cpp:261-327 | aborts on a parse error, a missing `file` or a trace that does not open, changing nothing in the retracer; otherwise it has the override's outcome and resulting options and draw logging for each exit, then a memory-budget abort when free memory is below the budget; the header version and the failed-link flag never change |
| Executor.TraceExecutor.AddError | patrace/src/retracer/trace_executor.cpp:329-331 | appends the error at the end of the list and changes nothing else |
| Executor.TraceExecutor.AddDisabledButActiveAttribute | patrace/src/retracer/trace_executor.cpp:333-342 | the name is in the program's set, and the map becomes WithAttribute of the old one |
| Executor.TraceExecutor.AddProgramInfo | patrace/src/retracer/trace_executor.cpp:344-389 | appends exactly one well-formed record and returns it; it has a link log iff linking failed, and the shader section from the reverse map; a link-failure error and the failed-link flag are set only when linking failed and shader errors were fatal on entry; the options do not change |
| Executor.TraceExecutor.WriteData | patrace/src/retracer/trace_executor.cpp:422-539 | errors give only the error arrays; otherwise a result section iff frames > 0 or time > 0, with the attribute and program sections iff non-empty (every reported program record well formed) and the selected `fb_config`; it is written iff the output file opens |
| Executor.TraceExecutor.WriteError | patrace/src/retracer/trace_executor.cpp:391-408 | the written report lists the errors with the new one last when it has a name; the error list is empty afterwards whatever the write did |
| Executor.TraceExecutor.ClearResult | patrace/src/retracer/trace_executor.cpp:410-415 | empties the attribute map, the program list and the error list |
| Executor.TraceExecutor.ClearError | patrace/src/retracer/trace_executor.cpp:417-420 | empties the error list and changes nothing else |
| Results.ShaderRecordOf | patrace/src/retracer/trace_executor.cpp:380-385 | a shader entry keeps its compile status and has a compile log iff compiling failed |
| Results.OriginalNamesStep | patrace/src/retracer/trace_executor.cpp:372-380 | one more shader adds its original name to the section's keys |
| Results.SectionStep | patrace/src/retracer/trace_executor.cpp:372-386 | one loop step extends the section of the first n shaders to that of the first n + 1 |
| Results.SectionEntriesStep | patrace/src/retracer/trace_executor.cpp:372-386 | one step keeps every original name's entry that of the last shader mapped to it |
| Results.ShaderSection | patrace/src/retracer/trace_executor.cpp:371-386 | the `shaders` object has one key per original shader name, whose entry is that of the last shader with that name |
| Results.WithAttribute | patrace/src/retracer/trace_executor.cpp:333-342 | recording adds the name to the program's set, adds the program as a key, and leaves every other program's set unchanged |
| Results.WithAttributeIdempotent | patrace/src/retracer/trace_executor.cpp:333-342 | recording the same attribute twice is the same as once |
| Results.WithAttributeCommutes | patrace/src/retracer/trace_executor.cpp:333-342 | the map does not depend on the order attributes were recorded in |

## Left out

- File output of `writeData` (the write loop, `fsync`, `fclose`, lines 522-539): foreign I/O. Only its return value is modelled, false exactly when the output file does not open.
- The JSON text itself, its parser and its writer (jsoncpp): a foreign library. The document is a record of optional keys, each of its own type, so jsoncpp's conversions between mismatched types are not modelled. The report is a datatype, and the JSON layout of its values is not modelled.
- JsonConfig.Config: the integer keys (`threadId`, the resolution and window sizes, the framebuffer bits, `skipWork`, `membudget`) are unbounded integers. jsoncpp's `asInt()` (lines 55, 60-61, 89-90, 107-113, 121, 320) accepts only values in the 32-bit `int` range and ends the program on any other, whereas the model gives such values a meaning (a `threadId` of 3000000000 becomes the thread id, a `membudget` of 3000000000 becomes that many MiB).
- `OpenTraceFile` and `gApiInfo.RegisterEntries` (lines 286-305): foreign calls. Whether the trace opens is a parameter, and the options on entry stand for the header defaults it would load.
- The creation of the snapshot directory with `system()` or `mkdir` (lines 163-180): process and file-system effects. Only the substitution of "*" is modelled, for the desktop path.
- `ResetCurFrameId` (line 264), the Android `claimMemory` reservation (lines 310-316), and the `MemoryInfo` probing of free memory (a parameter).
- libcollector instrumentation (lines 229-247 and 446-449): an external library.
- The GL queries of `ProgramInfo`, `ShaderInfo` and `GLWS::getSelectedEglConfig`: their results are parameters.
- Floating point: the resolution ratios (lines 78-82) and `fps`, `start_time` and `end_time` (lines 442-444). A result section keeps only its frames and time.
- `DBG_LOG` and the Android log.
- `snapshotCallset` is kept as the configured string. Parsing it into a `common::CallSet` is not part of this model.
- `EglConfigInfo::override` is declared in eglconfiginfo.hpp, which is not part of this model. It is modelled as: every field of the request that is not -1 replaces the base's, for all eight fields. The source always requests 0 sample buffers (line 114), so under this reading every override sets the sample-buffer count to 0.
- `common::HEADER_VERSION_2` is declared in a header that is not part of this model. It is assumed to be version 2 of an ordinal header version.
- The platform modelled is a 64-bit, non-Windows, non-Android build. On other builds the source differs:
  - with a 32-bit `unsigned long`, `%u` saturates any magnitude of 2^32 or more to 0xFFFFFFFF, where the model reduces it modulo 2^32 (so "4294967296-4294967297" is the range [0, 1) here but an abort there);
  - with a 32-bit `unsigned long`, the budget in bytes wraps, where BudgetBytes does not;
  - on Windows the memory-budget check is compiled out (line 318), but InitFromJson always makes it;
  - on Android the default result file is "/sdcard/results.json" (line 514) and the snapshot directory is under /sdcard, where the model uses the desktop paths.
- Executor.TraceExecutor.AddProgramInfo: the source returns a reference to the stored entry (line 388), so later edits through it change the list. The model returns a copy and does not capture that aliasing.
- Options.Retracer.ApplyTiling: the `*= 12` and `*= 10` on `int` fields are exact in the model, without 32-bit overflow. The sample sizes are small in practice.
- Options.Retracer: the one source function `overrideDefaultsWithJson` is split into one method per key group so that each step is proved on its own. The order of the steps, and which one an abort stops at, are those of the source.
