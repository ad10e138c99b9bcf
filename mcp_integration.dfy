/**
 * The Revit integration client: the tool-call builders with their default
 * arguments, the keyword router that turns a natural-language request into
 * one tool call, and the connected/disconnected state of the server process.
 * Process creation and the stdio exchange are inputs.
 */
module McpIntegration {
  import opened Wrappers
  import opened Text

  // ---------------------------------------------------------------------
  // Tool calls
  // ---------------------------------------------------------------------

  datatype ToolArguments =
    | QueryArgs(query: string, k: int)
    | HeightArgs(zoneType: string, maxHeight: real, elementCategories: seq<string>)
    | SetbackArgs(frontSetback: real, sideSetback: real, rearSetback: real, propertyLines: seq<map<string, string>>)
    | ReportArgs(projectName: string, buildingType: string, checkCategories: seq<string>)
    | ScriptArgs(codeRequirement: string, scriptType: string)

  /** The `params` of a `tools/call` request: the tool's name and its arguments. */
  datatype ToolCall = ToolCall(name: string, arguments: ToolArguments)

  const DefaultK: int := 5
  const DefaultElementCategories: seq<string> := ["Walls", "Columns", "Structural Framing"]
  const DefaultCheckCategories: seq<string> := ["height", "setbacks", "fire_safety", "accessibility"]
  const DefaultScriptType: string := "python"

  function QueryBuildingCodes(query: string, k: int := DefaultK): (c: ToolCall)
    ensures c.name == "query_building_codes" && c.arguments.QueryArgs?
    ensures c.arguments.query == query && c.arguments.k == k
  {
    ToolCall("query_building_codes", QueryArgs(query, k))
  }

  /** Element categories default to walls, columns and structural framing when not given. */
  function ApplyHeightRestrictions(zoneType: string, maxHeight: real, elementCategories: Option<seq<string>>): (c: ToolCall)
    ensures c.name == "apply_height_restrictions" && c.arguments.HeightArgs?
    ensures c.arguments.zoneType == zoneType && c.arguments.maxHeight == maxHeight
    ensures elementCategories.None? ==> c.arguments.elementCategories == DefaultElementCategories
    ensures elementCategories.Some? ==> c.arguments.elementCategories == elementCategories.value
  {
    var categories := if elementCategories.None? then DefaultElementCategories else elementCategories.value;
    ToolCall("apply_height_restrictions", HeightArgs(zoneType, maxHeight, categories))
  }

  /** `property_lines or []`: a missing or empty list is sent as the empty list. */
  function CheckSetbackCompliance(front: real, side: real, rear: real, propertyLines: Option<seq<map<string, string>>>): (c: ToolCall)
    ensures c.name == "check_setback_compliance" && c.arguments.SetbackArgs?
    ensures c.arguments.frontSetback == front && c.arguments.sideSetback == side && c.arguments.rearSetback == rear
    ensures propertyLines.None? ==> c.arguments.propertyLines == []
    ensures propertyLines.Some? ==> c.arguments.propertyLines == propertyLines.value
  {
    var lines := if propertyLines.Some? && propertyLines.value != [] then propertyLines.value else [];
    ToolCall("check_setback_compliance", SetbackArgs(front, side, rear, lines))
  }

  /** Check categories default to height, setbacks, fire safety and accessibility when not given. */
  function CreateComplianceReport(projectName: string, buildingType: string, checkCategories: Option<seq<string>>): (c: ToolCall)
    ensures c.name == "create_code_compliance_report" && c.arguments.ReportArgs?
    ensures c.arguments.projectName == projectName && c.arguments.buildingType == buildingType
    ensures checkCategories.None? ==> c.arguments.checkCategories == DefaultCheckCategories
    ensures checkCategories.Some? ==> c.arguments.checkCategories == checkCategories.value
  {
    var categories := if checkCategories.None? then DefaultCheckCategories else checkCategories.value;
    ToolCall("create_code_compliance_report", ReportArgs(projectName, buildingType, categories))
  }

  function GenerateRevitScript(codeRequirement: string, scriptType: string := DefaultScriptType): (c: ToolCall)
    ensures c.name == "generate_revit_script" && c.arguments == ScriptArgs(codeRequirement, scriptType)
  {
    ToolCall("generate_revit_script", ScriptArgs(codeRequirement, scriptType))
  }

  // ---------------------------------------------------------------------
  // `(\d+)\s*(?:feet|ft|')`: a number followed by a length unit
  // ---------------------------------------------------------------------

  /** The length of the unit `feet`, `ft` or `'` at `i` (tried in that order), or 0. */
  function UnitLength(s: string, i: nat): (n: nat)
    ensures n > 0 ==> i + n <= |s|
  {
    if OccursAt(s, "feet", i) then 4
    else if OccursAt(s, "ft", i) then 2
    else if OccursAt(s, "'", i) then 1
    else 0
  }

  /** The pattern matches at `p`: digits (all of the run, as no shorter run can be followed by a unit), optional whitespace, a unit. */
  predicate LengthAt(s: string, p: nat) {
    p < |s| && IsDigit(s[p]) && UnitLength(s, SkipSpace(s, SkipDigits(s, p))) > 0
  }

  /** Where the match at `p` ends. */
  function LengthEnd(s: string, p: nat): (e: nat)
    requires LengthAt(s, p)
    ensures p < e <= |s|
  {
    var w := SkipSpace(s, SkipDigits(s, p));
    w + UnitLength(s, w)
  }

  /** The captured number of the match at `p`. */
  function LengthNumber(s: string, p: nat): (c: string)
    requires LengthAt(s, p)
    ensures |c| > 0 && AllDigits(c)
  {
    s[p..SkipDigits(s, p)]
  }

  /** The leftmost match at or after `from` (what `re.search` finds). */
  function FindLength(s: string, from: nat): (r: Option<nat>)
    ensures r.Some? ==> from <= r.value && LengthAt(s, r.value)
                        && forall j :: from <= j < r.value ==> !LengthAt(s, j)
    ensures r.None? ==> forall j :: from <= j ==> !LengthAt(s, j)
    decreases |s| - from
  {
    if from >= |s| then NoLengthPastEnd(s, from); None
    else if LengthAt(s, from) then Some(from)
    else
      var r := FindLength(s, from + 1);
      LengthNotBefore(s, from, r);
      r
  }

  lemma NoLengthPastEnd(s: string, from: nat)
    requires |s| <= from
    ensures forall j :: from <= j ==> !LengthAt(s, j)
  {
  }

  /** No match at `from`: the leftmost match from `from + 1` is the leftmost from `from`. */
  lemma LengthNotBefore(s: string, from: nat, r: Option<nat>)
    requires !LengthAt(s, from)
    requires r.Some? ==> forall j :: from + 1 <= j < r.value ==> !LengthAt(s, j)
    requires r.None? ==> forall j :: from + 1 <= j ==> !LengthAt(s, j)
    ensures r.Some? ==> forall j :: from <= j < r.value ==> !LengthAt(s, j)
    ensures r.None? ==> forall j :: from <= j ==> !LengthAt(s, j)
  {
  }

  /** `re.findall`: the captured numbers of the successive non-overlapping matches from `from`. */
  function LengthNumbers(s: string, from: nat): (r: seq<string>)
    ensures forall k :: 0 <= k < |r| ==> |r[k]| > 0 && AllDigits(r[k])
    decreases |s| - from
  {
    match FindLength(s, from)
    case None => []
    case Some(p) => [LengthNumber(s, p)] + LengthNumbers(s, LengthEnd(s, p))
  }

  /** A match that starts inside a run of digits also starts at the digit before it. */
  lemma LengthAtRunStart(s: string, p: nat)
    requires LengthAt(s, p) && p > 0 && IsDigit(s[p - 1])
    ensures LengthAt(s, p - 1) && SkipDigits(s, p - 1) == SkipDigits(s, p)
  {
  }

  /** The number `re.search` captures is a whole run of digits, never the tail of a longer one. */
  lemma {:induction false} LeftmostLengthIsWholeRun(s: string)
    requires FindLength(s, 0).Some?
    ensures var p := FindLength(s, 0).value;
            p == 0 || !IsDigit(s[p - 1])
  {
    var p := FindLength(s, 0).value;
    if p > 0 && IsDigit(s[p - 1]) {
      LengthAtRunStart(s, p);
      assert false;
    }
  }

  /** `findall` and `search` agree on the first number. */
  lemma FirstOfAll(s: string)
    ensures FindLength(s, 0).Some? <==> LengthNumbers(s, 0) != []
    ensures FindLength(s, 0).Some? ==> LengthNumbers(s, 0)[0] == LengthNumber(s, FindLength(s, 0).value)
  {
  }

  /** `float(x)` of a digit string. */
  function Value(digits: string): real
    requires AllDigits(digits)
  {
    DigitsValue(digits) as real
  }

  // ---------------------------------------------------------------------
  // `(r\d+|c\d+|m\d+)`: a zone code
  // ---------------------------------------------------------------------

  predicate ZoneAt(s: string, p: nat) {
    p + 1 < |s| && (s[p] == 'r' || s[p] == 'c' || s[p] == 'm') && IsDigit(s[p + 1])
  }

  function FindZone(s: string, from: nat): (r: Option<nat>)
    ensures r.Some? ==> from <= r.value && ZoneAt(s, r.value)
                        && forall j :: from <= j < r.value ==> !ZoneAt(s, j)
    ensures r.None? ==> forall j :: from <= j ==> !ZoneAt(s, j)
    decreases |s| - from
  {
    if from >= |s| then None
    else if ZoneAt(s, from) then Some(from)
    else FindZone(s, from + 1)
  }

  const DefaultZone: string := "R1"

  /** The first zone code, upper-cased, or "R1". */
  function Zone(s: string): (z: string)
    ensures FindZone(s, 0).None? ==> z == DefaultZone
    ensures FindZone(s, 0).Some? ==> |z| >= 2 && (z[0] == 'R' || z[0] == 'C' || z[0] == 'M') && AllDigits(z[1..])
    ensures FindZone(s, 0).Some? ==> var p := FindZone(s, 0).value;
              z == [ToUpper(s[p])] + s[p + 1..SkipDigits(s, p + 1)]
  {
    match FindZone(s, 0)
    case None => DefaultZone
    case Some(p) =>
      var z := Upper(s[p..SkipDigits(s, p + 1)]);
      assert forall j :: 1 <= j < |z| ==> z[j] == s[p + j];
      assert z[1..] == s[p + 1..SkipDigits(s, p + 1)];
      z
  }

  // ---------------------------------------------------------------------
  // `project\s+(\w+)` and `(residential|commercial|industrial|mixed)`
  // ---------------------------------------------------------------------

  predicate IsWordChar(c: char) {
    ('a' <= c <= 'z') || ('A' <= c <= 'Z') || IsDigit(c) || c == '_'
  }

  function SkipWord(s: string, i: nat): (r: nat)
    requires i <= |s|
    ensures i <= r <= |s|
    ensures forall j :: i <= j < r ==> IsWordChar(s[j])
    ensures r < |s| ==> !IsWordChar(s[r])
    decreases |s| - i
  {
    if i < |s| && IsWordChar(s[i]) then SkipWord(s, i + 1) else i
  }

  predicate ProjectAt(s: string, p: nat) {
    OccursAt(s, "project", p) && p + 7 < |s| && IsSpace(s[p + 7])
    && var w := SkipSpace(s, p + 7); w < |s| && IsWordChar(s[w])
  }

  function FindProject(s: string, from: nat): (r: Option<nat>)
    ensures r.Some? ==> from <= r.value && ProjectAt(s, r.value)
                        && forall j :: from <= j < r.value ==> !ProjectAt(s, j)
    ensures r.None? ==> forall j :: from <= j ==> !ProjectAt(s, j)
    decreases |s| - from
  {
    if from >= |s| then None
    else if ProjectAt(s, from) then Some(from)
    else FindProject(s, from + 1)
  }

  const DefaultProject: string := "Current Project"
  const DefaultBuildingType: string := "residential"
  const BuildingTypes: seq<string> := ["residential", "commercial", "industrial", "mixed"]

  function ProjectName(s: string): (r: string)
    ensures FindProject(s, 0).None? ==> r == DefaultProject
    ensures FindProject(s, 0).Some? ==> |r| > 0 && forall j :: 0 <= j < |r| ==> IsWordChar(r[j])
    ensures FindProject(s, 0).Some? ==> var w := SkipSpace(s, FindProject(s, 0).value + 7);
              w < |s| && r == s[w..SkipWord(s, w)]
  {
    match FindProject(s, 0)
    case None => DefaultProject
    case Some(p) =>
      var w := SkipSpace(s, p + 7);
      assert forall j :: 0 <= j < SkipWord(s, w) - w ==> s[w..SkipWord(s, w)][j] == s[w + j];
      s[w..SkipWord(s, w)]
  }

  /** The building-type word at `p`: the first of `words`, in order, that occurs there. */
  function BuildingTypeAt(s: string, p: nat, words: seq<string>): (r: Option<string>)
    ensures r.Some? ==> r.value in words && OccursAt(s, r.value, p)
    ensures r.Some? ==> exists k :: 0 <= k < |words| && words[k] == r.value
                                    && forall i :: 0 <= i < k ==> !OccursAt(s, words[i], p)
    ensures r.None? ==> forall k :: 0 <= k < |words| ==> !OccursAt(s, words[k], p)
  {
    if words == [] then None
    else if OccursAt(s, words[0], p) then Some(words[0])
    else
      var r := BuildingTypeAt(s, p, words[1..]);
      if r.Some? then
        var k :| 0 <= k < |words[1..]| && words[1..][k] == r.value
                 && forall i :: 0 <= i < k ==> !OccursAt(s, words[1..][i], p);
        assert words[k + 1] == r.value && forall i :: 0 <= i < k + 1 ==> !OccursAt(s, words[i], p);
        r
      else r
  }

  /** One of the building-type alternatives occurs at `p`. */
  predicate TypeAt(s: string, p: nat) {
    BuildingTypeAt(s, p, BuildingTypes).Some?
  }

  /** `re.search` for the building-type alternation: the leftmost position where one of them occurs. */
  function FindBuildingType(s: string, from: nat): (r: Option<nat>)
    ensures r.Some? ==> from <= r.value && TypeAt(s, r.value)
                        && forall j :: from <= j < r.value ==> !TypeAt(s, j)
    ensures r.None? ==> forall j :: from <= j ==> !TypeAt(s, j)
    decreases |s| - from
  {
    if from > |s| then None
    else if TypeAt(s, from) then Some(from)
    else FindBuildingType(s, from + 1)
  }

  /** The captured building type, or "residential" when none of the four words occurs. */
  function BuildingType(s: string): (r: string)
    ensures r in BuildingTypes
    ensures FindBuildingType(s, 0).None? ==> r == DefaultBuildingType
    ensures FindBuildingType(s, 0).Some? ==> Some(r) == BuildingTypeAt(s, FindBuildingType(s, 0).value, BuildingTypes)
  {
    match FindBuildingType(s, 0)
    case None => DefaultBuildingType
    case Some(p) => BuildingTypeAt(s, p, BuildingTypes).value
  }

  // ---------------------------------------------------------------------
  // Routing
  // ---------------------------------------------------------------------

  /** What `process_natural_language_request` does: call one tool, return None, or raise. */
  datatype Action = Dispatch(call: ToolCall) | NoAction | Raised(error: string)

  predicate HeightIntent(lower: string) {
    Contains(lower, "height") && (Contains(lower, "limit") || Contains(lower, "restriction"))
  }

  predicate SetbackIntent(lower: string) {
    Contains(lower, "setback")
  }

  predicate ReportIntent(lower: string) {
    Contains(lower, "compliance") && Contains(lower, "report")
  }

  predicate ScriptIntent(lower: string) {
    Contains(lower, "script") || Contains(lower, "generate")
  }

  /** `re` is bound only by the `import re` statements of the other branches, so the report branch reads an unbound local. */
  const UnboundRe: string := "UnboundLocalError: cannot access local variable 're' where it is not associated with a value"

  /** `process_natural_language_request`, as written. */
  function Route(request: string): (a: Action)
    ensures var lower := Lower(request);
            HeightIntent(lower) ==> (a.NoAction? <==> FindLength(lower, 0).None?)
    ensures var lower := Lower(request);
            HeightIntent(lower) && FindLength(lower, 0).Some? ==>
              a == Dispatch(ApplyHeightRestrictions(Zone(lower), Value(LengthNumber(lower, FindLength(lower, 0).value)), None))
    ensures var lower := Lower(request); var ns := LengthNumbers(lower, 0);
            !HeightIntent(lower) && SetbackIntent(lower) ==>
              && (|ns| >= 3 ==> a == Dispatch(CheckSetbackCompliance(Value(ns[0]), Value(ns[1]), Value(ns[2]), None)))
              && (|ns| == 1 ==> a == Dispatch(CheckSetbackCompliance(Value(ns[0]), Value(ns[0]), Value(ns[0]), None)))
              && (|ns| == 0 || |ns| == 2 ==> a == NoAction)
    ensures var lower := Lower(request);
            a.Raised? <==> !HeightIntent(lower) && !SetbackIntent(lower) && ReportIntent(lower)
    ensures var lower := Lower(request);
            !HeightIntent(lower) && !SetbackIntent(lower) && !ReportIntent(lower) ==>
              a == Dispatch(if ScriptIntent(lower) then GenerateRevitScript(request) else QueryBuildingCodes(request))
  {
    var lower := Lower(request);
    if HeightIntent(lower) then
      match FindLength(lower, 0)
      case Some(p) => Dispatch(ApplyHeightRestrictions(Zone(lower), Value(LengthNumber(lower, p)), None))
      case None => NoAction
    else if SetbackIntent(lower) then
      var numbers := LengthNumbers(lower, 0);
      if |numbers| >= 3 then
        Dispatch(CheckSetbackCompliance(Value(numbers[0]), Value(numbers[1]), Value(numbers[2]), None))
      else if |numbers| == 1 then
        Dispatch(CheckSetbackCompliance(Value(numbers[0]), Value(numbers[0]), Value(numbers[0]), None))
      else NoAction
    else if ReportIntent(lower) then
      Raised(UnboundRe)
    else if ScriptIntent(lower) then
      Dispatch(GenerateRevitScript(request))
    else
      Dispatch(QueryBuildingCodes(request))
  }

  /** The report branch as intended: it reaches `create_compliance_report` with its defaults, and routing never raises. */
  function RouteIntended(request: string): (a: Action)
    ensures !a.Raised?
    ensures var lower := Lower(request);
            !HeightIntent(lower) && !SetbackIntent(lower) && ReportIntent(lower) ==>
              a == Dispatch(CreateComplianceReport(ProjectName(lower), BuildingType(lower), None))
    ensures !Route(request).Raised? ==> a == Route(request)
  {
    var lower := Lower(request);
    if !HeightIntent(lower) && !SetbackIntent(lower) && ReportIntent(lower) then
      Dispatch(CreateComplianceReport(ProjectName(lower), BuildingType(lower), None))
    else Route(request)
  }

  // ---------------------------------------------------------------------
  // Examples
  // ---------------------------------------------------------------------

  /** A keyword none of whose occurrences of its `k`-th and `k+1`-th characters appear together in `s` occurs nowhere in `s`. */
  lemma AbsentPair(s: string, sub: string, k: nat)
    requires k + 1 < |sub|
    requires forall j :: 0 <= j < |s| - 1 ==> !(s[j] == sub[k] && s[j + 1] == sub[k + 1])
    ensures forall p :: !OccursAt(s, sub, p)
    ensures !Contains(s, sub)
  {
    ContainsIffOccurs(s, sub);
    forall p | OccursAt(s, sub, p) ensures s[p + k] == sub[k] && s[p + k + 1] == sub[k + 1] {
      assert s[p..p + |sub|][k] == s[p + k];
      assert s[p..p + |sub|][k + 1] == s[p + k + 1];
    }
  }

  /** A keyword whose `k`-th character does not appear in `s` occurs nowhere in `s`. */
  lemma AbsentChar(s: string, sub: string, k: nat)
    requires k < |sub|
    requires forall j :: 0 <= j < |s| ==> s[j] != sub[k]
    ensures forall p :: !OccursAt(s, sub, p)
    ensures !Contains(s, sub)
  {
    ContainsIffOccurs(s, sub);
    forall p | OccursAt(s, sub, p) ensures s[p + k] == sub[k] {
      assert s[p..p + |sub|][k] == s[p + k];
    }
  }

  lemma LowerOfLower(s: string)
    requires forall j :: 0 <= j < |s| ==> !('A' <= s[j] <= 'Z')
    ensures Lower(s) == s
  {
  }

  const ReportRequest: string := "compliance report"

  lemma ReportRequestIsLower(s: string)
    requires s == ReportRequest
    ensures Lower(s) == s
  {
    LowerOfLower(s);
  }

  lemma ReportRequestLacksHeight(s: string)
    requires s == ReportRequest
    ensures !HeightIntent(s)
  {
    AbsentChar(s, "height", 0);
  }

  lemma ReportRequestLacksSetback(s: string)
    requires s == ReportRequest
    ensures !SetbackIntent(s)
  {
    AbsentChar(s, "setback", 0);
  }

  lemma ReportRequestSaysCompliance(s: string)
    requires s == ReportRequest
    ensures Contains(s, "compliance")
  {
    assert s[0..10] == "compliance";
    ContainsAt(s, "compliance", 0);
  }

  lemma ReportRequestSaysReport(s: string)
    requires s == ReportRequest
    ensures Contains(s, "report")
  {
    assert s[11..17] == "report";
    ContainsAt(s, "report", 11);
  }

  lemma ReportRequestAsksReport(s: string)
    requires s == ReportRequest
    ensures ReportIntent(s)
  {
    ReportRequestSaysCompliance(s);
    ReportRequestSaysReport(s);
  }

  lemma ReportRequestIntent(s: string)
    requires s == ReportRequest
    ensures Lower(s) == s
    ensures !HeightIntent(s) && !SetbackIntent(s) && ReportIntent(s)
  {
    ReportRequestIsLower(s);
    ReportRequestLacksHeight(s);
    ReportRequestLacksSetback(s);
    ReportRequestAsksReport(s);
  }

  /** As written, a request for a compliance report raises instead of calling the report tool. */
  lemma ReportRequestRaises()
    ensures Route(ReportRequest) == Raised(UnboundRe)
  {
    ReportRequestIntent(ReportRequest);
  }

  lemma ReportRequestNamesNoProject(s: string)
    requires s == ReportRequest
    ensures FindProject(s, 0).None?
  {
    AbsentChar(s, "project", 3);
  }

  /** None of the four building types occurs in the request: each has a character, or a pair of them, the request lacks. */
  lemma ReportRequestNamesNoBuildingType(s: string)
    requires s == ReportRequest
    ensures forall p: nat, k :: 0 <= k < |BuildingTypes| ==> !OccursAt(s, BuildingTypes[k], p)
  {
    forall k | 0 <= k < |BuildingTypes| ensures forall p :: !OccursAt(s, BuildingTypes[k], p) {
      if BuildingTypes[k] == "commercial" {
        AbsentPair(s, "commercial", 2);
      } else {
        assert BuildingTypes[k][2] in {'s', 'd', 'x'};
        AbsentChar(s, BuildingTypes[k], 2);
      }
    }
  }

  lemma {:induction false} NoBuildingTypeFrom(s: string, from: nat)
    requires forall p: nat, k :: 0 <= k < |BuildingTypes| ==> !OccursAt(s, BuildingTypes[k], p)
    ensures FindBuildingType(s, from).None?
    decreases |s| - from
  {
    if from <= |s| {
      NoBuildingTypeFrom(s, from + 1);
    }
  }

  /** As intended, the same request asks for a report on the current project of a residential building. */
  lemma ReportRequestIntended()
    ensures RouteIntended(ReportRequest) == Dispatch(CreateComplianceReport(DefaultProject, DefaultBuildingType, None))
  {
    var s := ReportRequest;
    ReportRequestIntent(s);
    ReportRequestNamesNoProject(s);
    ReportRequestNamesNoBuildingType(s);
    NoBuildingTypeFrom(s, 0);
  }

  // ---------------------------------------------------------------------
  // The server connection
  // ---------------------------------------------------------------------

  /** A spawned server: its pid, whether its stdin is a pipe, and whether it has been terminated. */
  datatype Process = Process(pid: nat, stdinPiped: bool, exited: bool)

  /** What `create_subprocess_exec` did. */
  datatype SpawnOutcome = SpawnFailed(message: string) | Spawned(pid: nat)

  /** A JSON-RPC 2.0 request object (section 4 of the JSON-RPC 2.0 Specification). */
  datatype RpcRequest = RpcRequest(jsonrpc: string, id: int, rpcMethod: string, params: ToolCall)

  /** Writing the request line and reading one response line: a decoded reply, or an exception. */
  datatype Exchange = Answered(reply: string) | IoFailed(message: string)

  /** What `send_request` returns: the server's reply, or `{"error": str(e)}`. */
  datatype Response = Reply(body: string) | ErrorResponse(error: string)

  const NoProcessError: string := "'NoneType' object has no attribute 'stdin'"
  const NoStdinError: string := "'NoneType' object has no attribute 'write'"

  function Envelope(rpcMethod: string, params: ToolCall): (r: RpcRequest)
    ensures r.jsonrpc == "2.0" && r.id == 1 && r.rpcMethod == rpcMethod && r.params == params
  {
    RpcRequest("2.0", 1, rpcMethod, params)
  }

  /** The response of one exchange over the current process, every failure caught. */
  function Respond(process: Option<Process>, exchange: RpcRequest -> Exchange, request: RpcRequest): (r: Response)
    ensures process.None? ==> r == ErrorResponse(NoProcessError)
    ensures process.Some? && !process.value.stdinPiped ==> r == ErrorResponse(NoStdinError)
    ensures process.Some? && process.value.stdinPiped ==>
              match exchange(request)
              case Answered(reply) => r == Reply(reply)
              case IoFailed(message) => r == ErrorResponse(message)
  {
    if process.None? then ErrorResponse(NoProcessError)
    else if !process.value.stdinPiped then ErrorResponse(NoStdinError)
    else match exchange(request)
      case Answered(reply) => Reply(reply)
      case IoFailed(message) => ErrorResponse(message)
  }

  /** What routing a request and sending the resulting call produced. */
  datatype Outcome = Responded(response: Response) | NoResponse | Failed(error: string)

  class McpRevitIntegration {
    const serverPath: string
    var serverProcess: Option<Process>
    var isConnected: bool

    /** Connected implies a process exists. */
    ghost predicate Valid()
      reads this
    {
      isConnected ==> serverProcess.Some?
    }

    constructor(serverPath: string := "mcp/mcp_server.py")
      ensures this.serverPath == serverPath && serverProcess == None && !isConnected
      ensures Valid()
    {
      this.serverPath := serverPath;
      serverProcess := None;
      isConnected := false;
    }

    /** `start_server`: spawns with stdout and stderr piped, stdin not. */
    method StartServer(spawn: SpawnOutcome) returns (ok: bool)
      requires Valid()
      modifies this
      ensures Valid()
      ensures ok <==> spawn.Spawned?
      ensures ok ==> serverProcess == Some(Process(spawn.pid, false, false)) && isConnected
      ensures !ok ==> serverProcess == old(serverProcess) && isConnected == old(isConnected)
    {
      match spawn
      case SpawnFailed(_) =>
        return false;
      case Spawned(pid) =>
        serverProcess := Some(Process(pid, false, false));
        isConnected := true;
        return true;
    }

    /** `start_server` with stdin piped as well, as `send_request` needs. */
    method StartServerWithStdin(spawn: SpawnOutcome) returns (ok: bool)
      requires Valid()
      modifies this
      ensures Valid()
      ensures ok <==> spawn.Spawned?
      ensures ok ==> serverProcess == Some(Process(spawn.pid, true, false)) && isConnected
      ensures !ok ==> serverProcess == old(serverProcess) && isConnected == old(isConnected)
    {
      match spawn
      case SpawnFailed(_) =>
        return false;
      case Spawned(pid) =>
        serverProcess := Some(Process(pid, true, false));
        isConnected := true;
        return true;
    }

    /** `stop_server`: terminates the process and disconnects, but keeps the process object. */
    method StopServer()
      requires Valid()
      modifies this
      ensures Valid()
      ensures old(serverProcess).None? ==> serverProcess == None && isConnected == old(isConnected)
      ensures old(serverProcess).Some? ==> serverProcess == Some(old(serverProcess).value.(exited := true)) && !isConnected
    {
      if serverProcess.Some? {
        serverProcess := Some(serverProcess.value.(exited := true));
        isConnected := false;
      }
    }

    /** `send_request`: starts the server first when disconnected, then exchanges one JSON-RPC request. */
    method SendRequest(rpcMethod: string, params: ToolCall, spawn: SpawnOutcome, exchange: RpcRequest -> Exchange)
      returns (response: Response)
      requires Valid()
      modifies this
      ensures Valid()
      ensures old(isConnected) ==> serverProcess == old(serverProcess) && isConnected
      ensures !old(isConnected) && spawn.Spawned? ==> serverProcess == Some(Process(spawn.pid, false, false)) && isConnected
      ensures !old(isConnected) && spawn.SpawnFailed? ==> serverProcess == old(serverProcess) && !isConnected
      ensures response == Respond(serverProcess, exchange, Envelope(rpcMethod, params))
    {
      if !isConnected {
        var _ := StartServer(spawn);
      }
      var request := Envelope(rpcMethod, params);
      if serverProcess.None? {
        return ErrorResponse(NoProcessError);
      }
      if !serverProcess.value.stdinPiped {
        return ErrorResponse(NoStdinError);
      }
      match exchange(request)
      case Answered(reply) =>
        response := Reply(reply);
      case IoFailed(message) =>
        response := ErrorResponse(message);
    }

    /** `process_natural_language_request`: route, then send the chosen tool call. */
    method ProcessNaturalLanguageRequest(request: string, spawn: SpawnOutcome, exchange: RpcRequest -> Exchange)
      returns (outcome: Outcome)
      requires Valid()
      modifies this
      ensures Valid()
      ensures Route(request).NoAction? ==> outcome == NoResponse
      ensures Route(request).Raised? ==> outcome == Failed(Route(request).error)
      ensures Route(request).Dispatch? ==>
                outcome == Responded(Respond(serverProcess, exchange, Envelope("tools/call", Route(request).call)))
      ensures !Route(request).Dispatch? ==> serverProcess == old(serverProcess) && isConnected == old(isConnected)
      ensures Route(request).Dispatch? && old(isConnected) ==> serverProcess == old(serverProcess) && isConnected
      ensures Route(request).Dispatch? && !old(isConnected) && spawn.Spawned? ==>
                serverProcess == Some(Process(spawn.pid, false, false)) && isConnected
      ensures Route(request).Dispatch? && !old(isConnected) && spawn.SpawnFailed? ==>
                serverProcess == old(serverProcess) && !isConnected
    {
      match Route(request)
      case NoAction =>
        outcome := NoResponse;
      case Raised(error) =>
        outcome := Failed(error);
      case Dispatch(call) =>
        var response := SendRequest("tools/call", call, spawn, exchange);
        outcome := Responded(response);
    }
  }

  /** As written, no request ever reaches a freshly created client's server: stdin is never piped. */
  method FirstRequestAsWritten(rpcMethod: string, params: ToolCall, spawn: SpawnOutcome, exchange: RpcRequest -> Exchange)
    returns (response: Response)
    ensures response.ErrorResponse?
    ensures spawn.Spawned? ==> response == ErrorResponse(NoStdinError)
    ensures spawn.SpawnFailed? ==> response == ErrorResponse(NoProcessError)
  {
    var client := new McpRevitIntegration();
    response := client.SendRequest(rpcMethod, params, spawn, exchange);
  }

  /** With stdin piped, the request reaches the server and its reply is returned. */
  method FirstRequestWithStdin(rpcMethod: string, params: ToolCall, pid: nat, exchange: RpcRequest -> Exchange)
    returns (response: Response)
    ensures exchange(Envelope(rpcMethod, params)).Answered? ==> response == Reply(exchange(Envelope(rpcMethod, params)).reply)
    ensures exchange(Envelope(rpcMethod, params)).IoFailed? ==> response == ErrorResponse(exchange(Envelope(rpcMethod, params)).message)
  {
    var client := new McpRevitIntegration();
    var _ := client.StartServerWithStdin(Spawned(pid));
    response := client.SendRequest(rpcMethod, params, SpawnFailed("not needed"), exchange);
  }
}
