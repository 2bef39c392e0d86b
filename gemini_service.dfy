/**
 * The AI report service: resolving the stored settings, assembling the analysis prompt, and
 * turning the outcome of the model call into the string or list the views display. The call
 * itself is a function parameter from prompt to outcome.
 */
module GeminiService {
  import opened Wrappers
  import opened Types
  import opened Seqs
  import opened Text

  // ---------------------------------------------------------------- settings

  /** Risk assessment and progress forecasting on, resource optimisation off, professional, Vietnamese. */
  const DefaultSettings: AISettings := AISettings(true, false, true, Professional, Vi)

  /**
   * What `localStorage.getItem('phoenix_ai_settings')` followed by `JSON.parse` can yield:
   * no entry, the empty string, text that does not parse, or a parsed settings record.
   */
  datatype Stored = Missing | Empty | Unparseable | Parsed(settings: AISettings)

  /** `getSettings`: a parsed record is used as it is; every other case falls back to the defaults. */
  function GetSettings(stored: Stored): (s: AISettings)
    ensures stored.Parsed? ==> s == stored.settings
    ensures !stored.Parsed? ==> s == DefaultSettings
  {
    match stored
    case Parsed(saved) => saved
    case _ => DefaultSettings
  }

  // ---------------------------------------------------------------- focus instructions

  const RiskLine: string := "- Đánh giá rủi ro: Xác định các mối nguy về an toàn, pháp lý hoặc tiến độ.\n"
  const ResourceLine: string := "- Tối ưu hóa nguồn lực: Phân tích hiệu quả sử dụng nhân công và vật tư.\n"
  const ForecastLine: string := "- Dự báo tiến độ: Dự đoán ngày hoàn thành dựa trên tốc độ thi công hiện tại.\n"

  /** The focus lines in their fixed order, kept when their flag is on. */
  function FocusLines(s: AISettings): (lines: seq<string>)
    ensures |lines| == (if s.riskAssessment then 1 else 0) + (if s.resourceOptimization then 1 else 0) + (if s.progressForecasting then 1 else 0)
  {
    Choose(s.riskAssessment, s.resourceOptimization, s.progressForecasting, RiskLine, ResourceLine, ForecastLine)
  }

  /** The second, fourth and sixth arguments, each kept when its flag is on. */
  function Choose<T>(a: bool, b: bool, c: bool, x: T, y: T, z: T): seq<T>
  {
    (if a then [x] else []) + (if b then [y] else []) + (if c then [z] else [])
  }

  /** Concatenating a choice of three strings is appending the chosen ones. */
  lemma ConcatChoice(a: bool, b: bool, c: bool, x: string, y: string, z: string)
    ensures Concat(Choose(a, b, c, x, y, z)) == "" + (if a then x else "") + (if b then y else "") + (if c then z else "")
  {
    var zs: seq<string> := if c then [z] else [];
    assert Concat(zs) == (if c then z else "") by {
      if c { assert Concat(zs) == z + Concat([]); }
    }
    var ys: seq<string> := (if b then [y] else []) + zs;
    assert Concat(ys) == (if b then y else "") + (if c then z else "") by {
      if b { assert ys[1..] == zs; }
      else { assert ys == zs; }
    }
    var xs := (if a then [x] else []) + ys;
    assert xs == Choose(a, b, c, x, y, z);
    if a { assert xs[1..] == ys; }
    else { assert xs == ys; }
  }

  lemma LinesDiffer()
    ensures |RiskLine| == 75 && |ResourceLine| == 72 && |ForecastLine| == 77
  {
  }

  /** The focus block of a settings record: the enabled lines, one after another. */
  function FocusInstructions(s: AISettings): (focus: string)
    ensures focus == "" + (if s.riskAssessment then RiskLine else "") + (if s.resourceOptimization then ResourceLine else "") +
      (if s.progressForecasting then ForecastLine else "")
    ensures |focus| == (if s.riskAssessment then 75 else 0) + (if s.resourceOptimization then 72 else 0) + (if s.progressForecasting then 77 else 0)
    ensures focus == "" <==> !s.riskAssessment && !s.resourceOptimization && !s.progressForecasting
  {
    LinesDiffer();
    ConcatChoice(s.riskAssessment, s.resourceOptimization, s.progressForecasting, RiskLine, ResourceLine, ForecastLine);
    Concat(FocusLines(s))
  }

  /** The focus block holds exactly the enabled lines, in the order risk, resources, forecast. */
  lemma FocusOrder(s: AISettings)
    ensures ContainsInOrder(FocusInstructions(s), FocusLines(s))
  {
    ConcatContains(FocusLines(s));
  }

  /**
   * The imperative assembly of `focusInstructions`: start from "" and append, in order, the line
   * of each enabled flag.
   */
  method BuildFocusInstructions(s: AISettings) returns (focus: string)
    ensures focus == FocusInstructions(s)
  {
    focus := "";
    if s.riskAssessment {
      focus := focus + RiskLine;
    }
    if s.resourceOptimization {
      focus := focus + ResourceLine;
    }
    if s.progressForecasting {
      focus := focus + ForecastLine;
    }
  }

  /** The focus block reveals which flags were on: no two flag choices give the same text. */
  lemma FocusDeterminesFlags(s: AISettings, t: AISettings)
    requires FocusInstructions(s) == FocusInstructions(t)
    ensures s.riskAssessment == t.riskAssessment
    ensures s.resourceOptimization == t.resourceOptimization
    ensures s.progressForecasting == t.progressForecasting
  {
    assert |FocusInstructions(s)| == |FocusInstructions(t)|;
  }

  // ---------------------------------------------------------------- tone and language

  function ToneDescription(t: ReportTone): string
  {
    match t
    case Professional => "Chuyên nghiệp và đầy đủ"
    case Concise => "Ngắn gọn, đi thẳng vào vấn đề"
    case Technical => "Kỹ thuật sâu, sử dụng thuật ngữ chuyên ngành"
  }

  /** The three tones have three different descriptions. */
  lemma ToneDescriptionInjective(a: ReportTone, b: ReportTone)
    ensures ToneDescription(a) == ToneDescription(b) ==> a == b
  {
    assert |ToneDescription(Professional)| == 23;
    assert |ToneDescription(Concise)| == 29;
    assert |ToneDescription(Technical)| == 44;
  }

  /** `settings.language === 'vi' ? 'Tiếng Việt' : 'English'` */
  function LanguageName(l: Language): (name: string)
    ensures l == Vi <==> name == "Tiếng Việt"
    ensures l != Vi <==> name == "English"
  {
    if l == Vi then "Tiếng Việt" else "English"
  }

  // ---------------------------------------------------------------- the analysis prompt

  /** The fixed text of the prompt template, before each of its eight substitutions. */
  const PromptGaps: seq<string> := [
    "\n    Phân tích tiến độ cho dự án thi công PCCC: ",
    ".\n    Thông tin dự án: ",
    "\n    Nhật ký gần đây: ",
    "\n    \n    Yêu cầu báo cáo:\n    ",
    "\n    ",
    "\n    ",
    "\n    \n    Phong cách trình bày: ",
    ".\n    Ngôn ngữ: "]

  /** The fixed text after the last substitution. */
  const PromptTail: string := ".\n    Hãy trình bày dưới dạng Markdown với các tiêu đề rõ ràng.\n  "

  const Item1: string := "1. Tổng quan tình trạng hiện tại."
  const Item3: string := "3. Các bước đề xuất tiếp theo cho Quản lý dự án."

  /**
   * The prompt template filled in: the quoted project name, `JSON.stringify(project)`,
   * `JSON.stringify(logs)`, item 1, the focus block, item 3, the tone and the language name.
   */
  function Template(name: string, projectJson: string, logsJson: string, focus: string, tone: string, language: string): string
  {
    Interleave(PromptGaps, ["\"" + name + "\"", projectJson, logsJson, Item1, focus, Item3, tone, language], PromptTail)
  }

  /**
   * The analysis prompt for a settings record. `projectJson` and `logsJson` stand for the
   * serialisations of the project and its logs; JSON serialisation is not part of this model.
   */
  function Prompt(name: string, projectJson: string, logsJson: string, s: AISettings): string
  {
    Template(name, projectJson, logsJson, FocusInstructions(s), ToneDescription(s.reportTone), LanguageName(s.language))
  }

  /**
   * The quoted project name, the project and log serialisations, item 1, the focus block, item 3,
   * the tone and the language all occur in the prompt, one after another in this order.
   */
  lemma PromptLayout(name: string, projectJson: string, logsJson: string, s: AISettings)
    ensures ContainsInOrder(Prompt(name, projectJson, logsJson, s),
      ["\"" + name + "\"", projectJson, logsJson, Item1, FocusInstructions(s), Item3,
       ToneDescription(s.reportTone), LanguageName(s.language)])
  {
    InterleaveContains(PromptGaps,
      ["\"" + name + "\"", projectJson, logsJson, Item1, FocusInstructions(s), Item3,
       ToneDescription(s.reportTone), LanguageName(s.language)], PromptTail);
  }

  // ---------------------------------------------------------------- outcome normalisation

  /** The outcome of a model call: a response whose `text` may be absent, or a thrown error. */
  datatype Generation = Ok(text: Option<string>) | Err

  const NoSummary: string := "Không có tóm tắt."
  const SummaryError: string := "Lỗi phân tích từ AI. Vui lòng thử lại sau."

  /** `response.text || "Không có tóm tắt."`, and the fixed message when the call fails. */
  function SummaryText(g: Generation): (r: string)
    ensures g.Ok? && g.text.Some? && g.text.value != "" ==> r == g.text.value
    ensures g.Ok? && (g.text.None? || g.text.value == "") ==> r == NoSummary
    ensures g.Err? ==> r == SummaryError
    ensures r != ""
  {
    match g
    case Err => SummaryError
    case Ok(None) => NoSummary
    case Ok(Some(t)) => if t == "" then NoSummary else t
  }

  /**
   * `summarizeProjectProgress`: resolve the settings, assemble the focus block and the prompt,
   * call the model once and normalise its outcome; a failure never reaches the caller.
   */
  method SummarizeProjectProgress(project: Project, projectJson: string, logsJson: string, stored: Stored,
                                  generate: string -> Generation)
    returns (summary: string)
    ensures summary == SummaryText(generate(Prompt(project.name, projectJson, logsJson, GetSettings(stored))))
    ensures summary != ""
  {
    var settings := GetSettings(stored);
    var focus := BuildFocusInstructions(settings);
    var prompt := Template(project.name, projectJson, logsJson, focus, ToneDescription(settings.reportTone), LanguageName(settings.language));
    var outcome := generate(prompt);
    summary := SummaryText(outcome);
  }

  // ---------------------------------------------------------------- checklist suggestions

  const ChecklistRequest: string := "\n    Generate 5 critical PCCC compliance checklist items for a "
  const ChecklistTail: string := " project based on TCVN standards.\n    Return the result as a simple list of tasks.\n  "

  function ChecklistPrompt(projectType: string): string
  {
    ChecklistRequest + ("\"" + projectType + "\"") + ChecklistTail
  }

  /** The request for five items comes first and then names the quoted project type. */
  lemma ChecklistPromptNamesType(projectType: string)
    ensures ChecklistPrompt(projectType)[..|ChecklistRequest|] == ChecklistRequest
    ensures ContainsInOrder(ChecklistPrompt(projectType), ["\"" + projectType + "\""])
  {
    ContainsInOrderCons(ChecklistRequest, "\"" + projectType + "\"", ChecklistTail, []);
    assert ["\"" + projectType + "\""] + [] == ["\"" + projectType + "\""];
  }

  /** The list returned when the call fails, whatever the project type. */
  const FallbackItems: seq<string> := ["Verify system design approval", "Inspect pump room layout", "Test emergency lighting"]

  predicate IsNonBlank(line: string) { |Trim(line)| > 0 }

  /** `response.text?.split('\n').filter(line => line.trim().length > 0) || []`, or the fallback. */
  function ChecklistItems(g: Generation): (items: seq<string>)
    ensures g.Err? ==> items == FallbackItems
    ensures g.Ok? && g.text.None? ==> items == []
    ensures g.Ok? && g.text.Some? ==> items == Filter(Split(g.text.value, '\n'), IsNonBlank)
  {
    match g
    case Err => FallbackItems
    case Ok(None) => []
    case Ok(Some(t)) => Filter(Split(t, '\n'), IsNonBlank)
  }

  /**
   * The suggestions read from a response text are lines of it, in order and untrimmed: each holds
   * no line break and some non-white-space character, and every such line of the text is kept.
   */
  lemma ResponseLines(t: string)
    ensures IsSubsequence(ChecklistItems(Ok(Some(t))), Split(t, '\n'))
    ensures forall i :: 0 <= i < |ChecklistItems(Ok(Some(t)))| ==> '\n' !in ChecklistItems(Ok(Some(t)))[i]
    ensures forall i :: 0 <= i < |ChecklistItems(Ok(Some(t)))| ==> HasVisibleChar(ChecklistItems(Ok(Some(t)))[i])
    ensures forall k :: 0 <= k < |Split(t, '\n')| && HasVisibleChar(Split(t, '\n')[k]) ==> Split(t, '\n')[k] in ChecklistItems(Ok(Some(t)))
  {
    var lines := Split(t, '\n');
    FilterMembers(lines, IsNonBlank);
    KeptLines(lines, Filter(lines, IsNonBlank));
    forall k | 0 <= k < |lines| && HasVisibleChar(lines[k]) ensures lines[k] in Filter(lines, IsNonBlank) {
      TrimNonEmpty(lines[k]);
    }
  }

  /** Some character of the line is not white space. */
  predicate HasVisibleChar(line: string)
  {
    exists j :: 0 <= j < |line| && !IsJsWhitespace(line[j])
  }

  lemma KeptLines(lines: seq<string>, items: seq<string>)
    requires forall i :: 0 <= i < |lines| ==> '\n' !in lines[i]
    requires forall i :: 0 <= i < |items| ==> items[i] in lines && IsNonBlank(items[i])
    ensures forall i :: 0 <= i < |items| ==> '\n' !in items[i] && HasVisibleChar(items[i])
  {
    forall i | 0 <= i < |items| ensures '\n' !in items[i] && HasVisibleChar(items[i]) {
      var k :| 0 <= k < |lines| && lines[k] == items[i];
      TrimNonEmpty(items[i]);
    }
  }

  /** `generateChecklistItems(projectType)`: one call with the checklist prompt, then normalisation. */
  method GenerateChecklistItems(projectType: string, generate: string -> Generation) returns (items: seq<string>)
    ensures items == ChecklistItems(generate(ChecklistPrompt(projectType)))
  {
    var outcome := generate(ChecklistPrompt(projectType));
    match outcome
    case Err =>
      items := FallbackItems;
    case Ok(None) =>
      items := [];
    case Ok(Some(t)) =>
      items := Filter(Split(t, '\n'), IsNonBlank);
  }

  /** Five items are asked for, but an answer with two non-blank lines yields two items. */
  lemma FiveRequestedNotEnforced()
    ensures ChecklistItems(Ok(Some("a\n \nb"))) == ["a", "b"]
  {
    ExampleLines();
    var lines := ["a", " ", "b"];
    ExampleBlank();
    assert lines[1..] == [" ", "b"] && lines[1..][1..] == ["b"] && lines[1..][1..][1..] == [];
    assert Filter(lines[1..][1..], IsNonBlank) == ["b"] + Filter([], IsNonBlank);
    assert Filter(lines[1..], IsNonBlank) == Filter(lines[1..][1..], IsNonBlank);
    assert Filter(lines, IsNonBlank) == ["a"] + Filter(lines[1..], IsNonBlank);
    assert ChecklistItems(Ok(Some("a\n \nb"))) == Filter(lines, IsNonBlank);
  }

  lemma ExampleLines()
    ensures Split("a\n \nb", '\n') == ["a", " ", "b"]
  {
    var parts := ["a", " ", "b"];
    assert parts[1..] == [" ", "b"] && parts[1..][1..] == ["b"];
    assert Join(parts, '\n') == "a\n \nb";
    SplitJoin(parts, '\n');
  }

  lemma ExampleBlank()
    ensures !IsNonBlank(" ") && IsNonBlank("a") && IsNonBlank("b")
  {
    TrimNonEmpty(" ");
    TrimNonEmpty("a");
    TrimNonEmpty("b");
    assert !IsJsWhitespace("a"[0]) && !IsJsWhitespace("b"[0]);
  }
}
