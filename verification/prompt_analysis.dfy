/** The rule-based judgement of whether a user's prompt is already a complete
    final prompt, and the suggestion offered when it is not. */
module PromptAnalysis {

  import opened Wrappers
  import Text

  /** The judgement: complete or not, why, and the prompt to use. */
  datatype LLMResponse = LLMResponse(isComplete: bool, reason: string, suggestedPrompt: Option<string>)

  /** What the rules look at in the trimmed, lower-cased input. */
  datatype Features = Features(edit: bool, visual: bool, action: bool, len: nat)

  const EditKeywords: seq<string> := [
    "修改", "改变", "添加", "删除", "替换", "调整", "编辑", "美化", "增强",
    "modify", "change", "add", "remove", "replace", "adjust", "edit", "enhance", "beautify"
  ]

  const VisualKeywords: seq<string> := [
    "颜色", "风格", "背景", "光线", "阴影", "纹理", "形状", "大小", "位置",
    "color", "style", "background", "lighting", "shadow", "texture", "shape", "size", "position"
  ]

  const ActionKeywords: seq<string> := [
    "变成", "转换为", "制作成", "渲染为", "生成", "创建",
    "turn into", "convert to", "make into", "render as", "generate", "create"
  ]

  const BlankReason := "请输入一些内容"
  const EditReason := "输入包含明确的编辑指令和足够的描述"
  const ActionReason := "输入包含明确的转换动作和足够的描述"
  const LengthReason := "输入足够长且包含相关描述"
  const IncompleteReason := "输入不够具体，需要更多描述"

  /** The text the rules inspect: trimmed, then lower-cased. */
  function Normalize(userInput: string): string {
    Text.Lower(Text.Trim(userInput))
  }

  function FeaturesOf(userInput: string): Features {
    var input := Normalize(userInput);
    Features(
      Text.ContainsAny(input, EditKeywords),
      Text.ContainsAny(input, VisualKeywords),
      Text.ContainsAny(input, ActionKeywords),
      |input|)
  }

  /** Rule 1: an edit instruction with a visual description or more than 10 characters. */
  predicate EditRule(f: Features) {
    f.edit && (f.visual || f.len > 10)
  }

  /** Rule 2: an action with more than 10 characters. */
  predicate ActionRule(f: Features) {
    f.action && f.len > 10
  }

  /** Rule 3: more than 50 characters with a visual description or an edit instruction. */
  predicate LengthRule(f: Features) {
    f.len > 50 && (f.visual || f.edit)
  }

  /** The reason of the first rule that fires, or None when none fires. */
  function FirstRuleReason(f: Features): Option<string> {
    if EditRule(f) then Some(EditReason)
    else if ActionRule(f) then Some(ActionReason)
    else if LengthRule(f) then Some(LengthReason)
    else None
  }

  /** The suggestion offered for an incomplete, non-blank input. */
  function Suggestion(userInput: string, current: string, f: Features): string {
    if f.edit then current + ", " + userInput
    else if f.len < 20 then current + ", 请" + userInput
    else current + ", " + userInput
  }

  /** `analyzePrompt`. */
  function AnalyzePrompt(userInput: string, current: string): (r: LLMResponse)
    ensures Text.Trim(userInput) == "" ==> r == LLMResponse(false, BlankReason, None)
    ensures r.isComplete <==> (var f := FeaturesOf(userInput); EditRule(f) || ActionRule(f) || LengthRule(f))
    ensures r.isComplete ==> r.suggestedPrompt == Some(userInput)
    ensures Text.Trim(userInput) != "" && !r.isComplete ==>
              r.suggestedPrompt.Some? && Text.StartsWith(r.suggestedPrompt.value, current + ", ")
  {
    var input := Normalize(userInput);
    if input == "" then
      assert |Text.Trim(userInput)| == |input|;
      Text.TrimEmptyIffAllSpace(userInput);
      BlankHasNoFeatures(userInput);
      LLMResponse(false, BlankReason, None)
    else
      var f := FeaturesOf(userInput);
      if EditRule(f) then LLMResponse(true, EditReason, Some(userInput))
      else if ActionRule(f) then LLMResponse(true, ActionReason, Some(userInput))
      else if LengthRule(f) then LLMResponse(true, LengthReason, Some(userInput))
      else
        var suggestion := Suggestion(userInput, current, f);
        SuggestionStartsWithCurrent(userInput, current, f);
        LLMResponse(false, IncompleteReason, Some(suggestion))
  }

  /** An input of white space only has nothing to inspect: it is blank once
      trimmed and normalised, and holds no keyword. */
  lemma BlankHasNoFeatures(userInput: string)
    requires Text.AllSpace(userInput)
    ensures Text.Trim(userInput) == "" && Normalize(userInput) == ""
    ensures !FeaturesOf(userInput).edit && !FeaturesOf(userInput).visual && !FeaturesOf(userInput).action
  {
    Text.TrimEmptyIffAllSpace(userInput);
    NoKeywordInEmpty();
  }

  /** Every suggestion extends the current final prompt and a comma. */
  lemma SuggestionStartsWithCurrent(userInput: string, current: string, f: Features)
    ensures Text.StartsWith(Suggestion(userInput, current, f), current + ", ")
  {
    var s := Suggestion(userInput, current, f);
    assert s == (current + ", ") + s[|current + ", "|..];
  }

  /** `analyzePromptWithLLM`: the same judgement. */
  function AnalyzePromptWithLLM(userInput: string, current: string): (r: LLMResponse)
    ensures r == AnalyzePrompt(userInput, current)
  {
    AnalyzePrompt(userInput, current)
  }

  /** No keyword occurs in the empty input, since every keyword is non-empty. */
  lemma NoKeywordInEmpty()
    ensures !Text.ContainsAny("", EditKeywords)
    ensures !Text.ContainsAny("", VisualKeywords)
    ensures !Text.ContainsAny("", ActionKeywords)
  {
    KeywordsNonEmpty(EditKeywords);
    KeywordsNonEmpty(VisualKeywords);
    KeywordsNonEmpty(ActionKeywords);
  }

  /** A list of non-empty keywords has none in the empty input. */
  lemma KeywordsNonEmpty(keywords: seq<string>)
    requires forall j :: 0 <= j < |keywords| ==> |keywords[j]| > 0
    ensures !Text.ContainsAny("", keywords)
  {
    Text.NothingInEmpty(keywords);
  }

  /** The reason is that of the first rule that fires, in the order edit,
      action, length; a non-blank input that fires none gets the incomplete
      reason. */
  lemma ReasonIsFirstRule(userInput: string, current: string)
    requires Text.Trim(userInput) != ""
    ensures var r := AnalyzePrompt(userInput, current);
            var f := FeaturesOf(userInput);
            && (FirstRuleReason(f).Some? ==> r.reason == FirstRuleReason(f).value)
            && (FirstRuleReason(f).None? ==> r.reason == IncompleteReason && r.suggestedPrompt == Some(Suggestion(userInput, current, f)))
  {
    assert Normalize(userInput) != "";
  }

  /** The incomplete suggestion inserts "请" exactly when the input has no edit
      instruction and fewer than 20 characters; otherwise it appends the input
      as typed. */
  lemma SuggestionForm(userInput: string, current: string)
    requires Text.Trim(userInput) != ""
    requires !AnalyzePrompt(userInput, current).isComplete
    ensures var f := FeaturesOf(userInput);
            var s := AnalyzePrompt(userInput, current).suggestedPrompt;
            && (!f.edit && f.len < 20 ==> s == Some(current + ", 请" + userInput))
            && (f.edit || f.len >= 20 ==> s == Some(current + ", " + userInput))
  {
    ReasonIsFirstRule(userInput, current);
  }

  /** The edit instruction in rule 3 never decides: an input that reaches rule 3
      through it has already fired rule 1. So rule 3 fires first only for a
      visual description without edit instruction. */
  lemma LengthRuleNeedsVisual(f: Features)
    requires !EditRule(f) && !ActionRule(f) && LengthRule(f)
    ensures f.visual && !f.edit && !f.action
  {
  }

  /** An input with an edit instruction that fires no rule is short and names
      no visual aspect; by the judgement's contract, these are exactly the
      incomplete inputs with an edit instruction. */
  lemma IncompleteEditIsShort(f: Features)
    requires f.edit && !(EditRule(f) || ActionRule(f) || LengthRule(f))
    ensures f.len <= 10 && !f.visual
  {
  }

  /** Matching ignores letter case: upper-casing the input does not change the
      text the rules inspect. */
  lemma CaseInsensitive(userInput: string)
    ensures Normalize(Text.Upper(userInput)) == Normalize(userInput)
  {
    Text.TrimUpper(userInput);
    Text.LowerOfUpper(Text.Trim(userInput));
  }

  /** Inputs with the same normalised text get the same judgement and reason. */
  lemma SameNormalFormSameJudgement(u1: string, u2: string, current: string)
    requires Normalize(u1) == Normalize(u2)
    ensures AnalyzePrompt(u1, current).isComplete == AnalyzePrompt(u2, current).isComplete
    ensures AnalyzePrompt(u1, current).reason == AnalyzePrompt(u2, current).reason
  {
    assert FeaturesOf(u1) == FeaturesOf(u2);
  }

  /** Upper-casing the input changes neither the judgement nor the reason. */
  lemma UpperCaseSameJudgement(userInput: string, current: string)
    ensures AnalyzePrompt(Text.Upper(userInput), current).isComplete == AnalyzePrompt(userInput, current).isComplete
    ensures AnalyzePrompt(Text.Upper(userInput), current).reason == AnalyzePrompt(userInput, current).reason
  {
    CaseInsensitive(userInput);
    SameNormalFormSameJudgement(Text.Upper(userInput), userInput, current);
  }

  /** A worked case: a short edit instruction that names a visual aspect is
      complete by the first rule, and the prompt is kept as typed. */
  lemma ShortEditWithColorIsComplete(u: string, current: string)
    requires u == "Add color"
    ensures AnalyzePrompt(u, current) == LLMResponse(true, EditReason, Some(u))
  {
    WorkedNormalize(u);
    WorkedKeywords("add color");
    FeaturesOfNormalized(u, "add color");
    CompleteByEditRule(u, current);
  }

  /** An input with an edit instruction and a visual description is complete
      by the first rule, whatever its length. */
  lemma CompleteByEditRule(u: string, current: string)
    requires FeaturesOf(u).edit && FeaturesOf(u).visual
    ensures AnalyzePrompt(u, current) == LLMResponse(true, EditReason, Some(u))
  {
    NoKeywordInEmpty();
    assert Normalize(u) != "";
  }

  /** The features depend only on the normalised text. */
  lemma FeaturesOfNormalized(u: string, input: string)
    requires Normalize(u) == input
    ensures FeaturesOf(u).edit == Text.ContainsAny(input, EditKeywords)
    ensures FeaturesOf(u).visual == Text.ContainsAny(input, VisualKeywords)
  {
  }

  /** The worked input normalises to "add color". */
  lemma WorkedNormalize(u: string)
    requires u == "Add color"
    ensures Normalize(u) == "add color"
  {
    assert !Text.IsSpace(u[0]) && !Text.IsSpace(u[|u| - 1]);
    assert Text.Trim(u) == u;
    assert Text.Lower(u)[0] == 'a';
  }

  /** "add color" holds the edit keyword "add" and the visual keyword "color". */
  lemma WorkedKeywords(input: string)
    requires input == "add color"
    ensures Text.ContainsAny(input, EditKeywords)
    ensures Text.ContainsAny(input, VisualKeywords)
  {
    assert Text.OccursAt(input, EditKeywords[11], 0);
    assert Text.OccursAt(input, VisualKeywords[9], 4);
  }
}
