/**
 * What a replay session accumulates for its report: per-program link
 * diagnostics, the vertex attributes found active although disabled, and
 * the shape of the report itself.
 */
module Results {
  import opened Wrappers
  import opened Egl

  /** What the GL reports about one shader, queried by its retraced name. */
  datatype ShaderQuery = ShaderQuery(id: nat, compileStatus: bool, infoLog: string)

  /** What the GL reports about one linked program. */
  datatype ProgramQuery = ProgramQuery(
    activeAttributeNames: seq<string>,
    linkStatus: bool,
    infoLog: string,
    shaders: seq<ShaderQuery>)

  /** The diagnostic entry of one shader: its compile log is kept only when compiling failed. */
  datatype ShaderRecord = ShaderRecord(compileStatus: bool, compileLog: Option<string>) {
    predicate WellFormed() {
      compileLog.Some? <==> !compileStatus
    }
  }

  /** The diagnostic entry of one program, keyed in the report by its original name. */
  datatype ProgramRecord = ProgramRecord(
    callNo: nat,
    activeAttributeNames: seq<string>,
    activeAttributeCount: nat,
    id: int,
    linkStatus: bool,
    linkLog: Option<string>,
    shaders: map<nat, ShaderRecord>)
  {
    predicate WellFormed() {
      && activeAttributeCount == |activeAttributeNames|
      && (linkLog.Some? <==> !linkStatus)
      && forall k :: k in shaders ==> shaders[k].WellFormed()
    }
  }

  function ShaderRecordOf(q: ShaderQuery): (r: ShaderRecord)
    ensures r.WellFormed()
    ensures r.compileStatus == q.compileStatus
    ensures !q.compileStatus ==> r.compileLog == Some(q.infoLog)
  {
    ShaderRecord(q.compileStatus, if q.compileStatus then None else Some(q.infoLog))
  }

  /** No shader after position i among the first n has the same original name as shader i. */
  predicate LastWithKey(shaders: seq<ShaderQuery>, shaderRevMap: nat -> nat, n: nat, i: nat)
    requires i < n <= |shaders|
  {
    forall j :: i < j < n ==> shaderRevMap(shaders[j].id) != shaderRevMap(shaders[i].id)
  }

  /**
   * `section` is the shader object built from the first n shaders: one key
   * per original shader name, obtained through the reverse map, whose entry
   * is that of the last shader mapped to it.
   */
  predicate SectionUpTo(shaders: seq<ShaderQuery>, shaderRevMap: nat -> nat, n: nat, section: map<nat, ShaderRecord>)
    requires n <= |shaders|
  {
    && section.Keys == OriginalNames(shaders, shaderRevMap, n)
    && (forall i :: 0 <= i < n && LastWithKey(shaders, shaderRevMap, n, i) ==>
          section[shaderRevMap(shaders[i].id)] == ShaderRecordOf(shaders[i]))
    && (forall k :: k in section ==> section[k].WellFormed())
  }

  predicate ShaderSectionOf(shaders: seq<ShaderQuery>, shaderRevMap: nat -> nat, section: map<nat, ShaderRecord>) {
    SectionUpTo(shaders, shaderRevMap, |shaders|, section)
  }

  function OriginalNames(shaders: seq<ShaderQuery>, shaderRevMap: nat -> nat, n: nat): set<nat>
    requires n <= |shaders|
  {
    set i | 0 <= i < n :: shaderRevMap(shaders[i].id)
  }

  lemma OriginalNamesStep(shaders: seq<ShaderQuery>, shaderRevMap: nat -> nat, n: nat)
    requires n < |shaders|
    ensures OriginalNames(shaders, shaderRevMap, n + 1)
         == OriginalNames(shaders, shaderRevMap, n) + {shaderRevMap(shaders[n].id)}
  {
    var before := OriginalNames(shaders, shaderRevMap, n);
    var after := OriginalNames(shaders, shaderRevMap, n + 1);
    forall k | k in after ensures k in before || k == shaderRevMap(shaders[n].id) {
      var i :| 0 <= i < n + 1 && k == shaderRevMap(shaders[i].id);
      assert i < n ==> k in before;
    }
  }

  /** Adding shader n to a section built from the first n shaders gives the section of the first n + 1. */
  lemma SectionStep(shaders: seq<ShaderQuery>, shaderRevMap: nat -> nat, n: nat, section: map<nat, ShaderRecord>)
    requires n < |shaders|
    requires SectionUpTo(shaders, shaderRevMap, n, section)
    ensures SectionUpTo(shaders, shaderRevMap, n + 1,
                        section[shaderRevMap(shaders[n].id) := ShaderRecordOf(shaders[n])])
  {
    var next := section[shaderRevMap(shaders[n].id) := ShaderRecordOf(shaders[n])];
    OriginalNamesStep(shaders, shaderRevMap, n);
    assert next.Keys == OriginalNames(shaders, shaderRevMap, n + 1);
    SectionEntriesStep(shaders, shaderRevMap, n, section);
  }

  /** The entries part of SectionStep: the last shader of each name decides its entry. */
  lemma SectionEntriesStep(shaders: seq<ShaderQuery>, shaderRevMap: nat -> nat, n: nat, section: map<nat, ShaderRecord>)
    requires n < |shaders|
    requires forall i :: 0 <= i < n && LastWithKey(shaders, shaderRevMap, n, i) ==>
               shaderRevMap(shaders[i].id) in section && section[shaderRevMap(shaders[i].id)] == ShaderRecordOf(shaders[i])
    ensures var next := section[shaderRevMap(shaders[n].id) := ShaderRecordOf(shaders[n])];
      forall i :: 0 <= i < n + 1 && LastWithKey(shaders, shaderRevMap, n + 1, i) ==>
        shaderRevMap(shaders[i].id) in next && next[shaderRevMap(shaders[i].id)] == ShaderRecordOf(shaders[i])
  {
    var key := shaderRevMap(shaders[n].id);
    var next := section[key := ShaderRecordOf(shaders[n])];
    forall i | 0 <= i < n + 1 && LastWithKey(shaders, shaderRevMap, n + 1, i)
      ensures shaderRevMap(shaders[i].id) in next && next[shaderRevMap(shaders[i].id)] == ShaderRecordOf(shaders[i])
    {
      if i < n {
        assert shaderRevMap(shaders[i].id) != key;
        assert LastWithKey(shaders, shaderRevMap, n, i);
      }
    }
  }

  /** The loop of addProgramInfo that fills the `shaders` object. */
  method ShaderSection(shaders: seq<ShaderQuery>, shaderRevMap: nat -> nat) returns (section: map<nat, ShaderRecord>)
    ensures ShaderSectionOf(shaders, shaderRevMap, section)
  {
    section := map[];
    for n := 0 to |shaders|
      invariant SectionUpTo(shaders, shaderRevMap, n, section)
    {
      SectionStep(shaders, shaderRevMap, n, section);
      section := section[shaderRevMap(shaders[n].id) := ShaderRecordOf(shaders[n])];
    }
  }

  /** The attribute names recorded for a program so far. */
  function AttributesOf(m: map<int, set<string>>, program: int): set<string> {
    if program in m then m[program] else {}
  }

  /** The attribute map after recording `name` as disabled but active in `program`. */
  function WithAttribute(m: map<int, set<string>>, program: int, name: string): (r: map<int, set<string>>)
    ensures r.Keys == m.Keys + {program}
    ensures AttributesOf(r, program) == AttributesOf(m, program) + {name}
    ensures forall p :: p != program ==> AttributesOf(r, p) == AttributesOf(m, p)
  {
    m[program := AttributesOf(m, program) + {name}]
  }

  /** Recording the same attribute twice is the same as recording it once. */
  lemma WithAttributeIdempotent(m: map<int, set<string>>, program: int, name: string)
    ensures WithAttribute(WithAttribute(m, program, name), program, name) == WithAttribute(m, program, name)
  {
  }

  /** The final map does not depend on the order attributes were recorded in. */
  lemma WithAttributeCommutes(m: map<int, set<string>>, p: int, a: string, q: int, b: string)
    ensures WithAttribute(WithAttribute(m, p, a), q, b) == WithAttribute(WithAttribute(m, q, b), p, a)
  {
    var l := WithAttribute(WithAttribute(m, p, a), q, b);
    var r := WithAttribute(WithAttribute(m, q, b), p, a);
    forall k | k in l ensures l[k] == r[k] {
      assert l[k] == AttributesOf(l, k) && r[k] == AttributesOf(r, k);
    }
  }

  /** The result section of a report (the document wraps it in a one-element array). */
  datatype ResultData = ResultData(
    frames: int,
    time: real,
    unusedActiveAttributes: Option<map<int, set<string>>>,
    programInfos: Option<seq<ProgramRecord>>,
    fbConfig: FbConfig)

  /** The document written at the end of a session or when an error is reported. */
  datatype Report =
    | ErrorReport(error: seq<string>, errorDescription: seq<string>)
    | ResultReport(result: ResultData)
    | EmptyReport
}
