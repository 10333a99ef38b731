/**
 * The judge: prompts sent to the LLM and the parsing of its answers.
 * The LLM call is the parameter `generate` (None on error); JSON decoding
 * of the cleaned answer is the parameter `parse` (None on error).
 */
module Judge {
  import opened Wrappers
  import opened Types
  import opened Text

  /**
   * The cleaning applied to every LLM answer: trim white space, drop a
   * leading "```json" or "```" fence and a trailing "```" fence, trim again.
   */
  function CleanResponse(s: string): string
  {
    TrimSpace(TrimSuffix(TrimPrefix(TrimPrefix(TrimSpace(s), "```json"), "```"), "```"))
  }

  /** An answer wrapped in a ```json fence cleans to its trimmed body. */
  lemma CleanFencedJson(body: string)
    ensures CleanResponse("```json\n" + body + "\n```") == TrimSpace(body)
  {
    var s := "```json\n" + body + "\n```";
    assert !IsSpace(s[0]) && !IsSpace(s[|s| - 1]);
    assert TrimLeftSpace(s) == s;
    assert TrimRightSpace(s) == s;
    assert HasPrefix(s, "```json");
    var t := TrimPrefix(s, "```json");
    assert t == "\n" + body + "\n```";
    assert !HasPrefix(t, "```") by {
      assert t[0] == '\n';
    }
    assert HasSuffix(t, "```");
    var u := TrimSuffix(t, "```");
    assert u == "\n" + body + "\n";
    TrimSpacePadded("\n", body, "\n");
  }

  lemma FencePrefix(t: string)
    requires HasPrefix(t, "```json")
    ensures HasPrefix(t, "```")
  {
    assert t[..3] == t[..7][..3];
  }

  /** An unfenced answer is only trimmed. */
  lemma CleanUnfenced(s: string)
    requires !HasPrefix(TrimSpace(s), "```") && !HasSuffix(TrimSpace(s), "```")
    ensures CleanResponse(s) == TrimSpace(s)
  {
    var t := TrimSpace(s);
    if HasPrefix(t, "```json") {
      FencePrefix(t);
    }
    var t1 := TrimPrefix(t, "```json");
    assert t1 == t;
    var t2 := TrimPrefix(t1, "```");
    assert t2 == t;
    var t3 := TrimSuffix(t2, "```");
    assert t3 == t;
    TrimSpaceIdempotent(s);
  }

  /** "【记忆i】\n<content>\n\n", one block of the batch prompt. */
  function Block(i: nat, content: string): string
  {
    "【记忆" + NatToString(i) + "】\n" + content + "\n\n"
  }

  /** The numbered blocks for `contents`, numbering from `first`. */
  function ContentList(contents: seq<string>, first: nat): string
  {
    if contents == [] then "" else Block(first, contents[0]) + ContentList(contents[1..], first + 1)
  }

  /** Appending a content appends its block, numbered one past the previous ones. */
  lemma {:induction false} ContentListAppend(contents: seq<string>, c: string, first: nat)
    ensures ContentList(contents + [c], first) == ContentList(contents, first) + Block(first + |contents|, c)
  {
    if contents == [] {
      assert [] + [c] == [c];
      assert [c][1..] == [];
    } else {
      assert (contents + [c])[1..] == contents[1..] + [c];
      ContentListAppend(contents[1..], c, first + 1);
    }
  }

  const BatchPromptTail: string :=
    "\n\n评估维度（满分1.0）：\n1. 事实性 (0.4): 客观事实\n2. 偏好性 (0.3): 用户偏好\n3. 目标性 (0.3): 长期目标\n\n"
    + "输出JSON数组格式（严格遵守，不要添加额外文本）：\n[\n  {\n    \"value_score\": 0.0-1.0,\n"
    + "    \"confidence_score\": 0.0-1.0,\n    \"category\": \"fact|preference|goal|noise\",\n"
    + "    \"reason\": \"简短理由\",\n    \"tags\": [\"标签1\"],\n    \"entities\": {\"类型\": \"值\"},\n"
    + "    \"should_stage\": true/false\n  }\n]"

  /** The batch prompt: the count, then blocks numbered from 1, then the fixed instructions. */
  function BatchPrompt(contents: seq<string>): (p: string)
    ensures HasSuffix(p, BatchPromptTail)
  {
    var p := "你是记忆价值评估专家。批量分析以下" + NatToString(|contents|)
      + "条对话片段，判断每条是否包含值得长期记忆的信息。\n\n" + ContentList(contents, 1) + BatchPromptTail;
    assert p[|p| - |BatchPromptTail|..] == BatchPromptTail;
    p
  }

  /**
   * JudgeBatch: one verdict per content, in order. No contents means no
   * verdicts and no LLM call (the answer does not depend on `generate`).
   */
  function JudgeBatch(contents: seq<string>, generate: string -> Option<string>,
                      parse: string -> Option<seq<JudgeResult>>): (r: Result<seq<JudgeResult>>)
    ensures contents == [] ==> r == Ok([])
    ensures r.Ok? ==> |r.value| == |contents|
    ensures contents != [] && generate(BatchPrompt(contents)).None? ==> r.Err?
    ensures contents != [] && r.Ok? ==>
      exists answer :: generate(BatchPrompt(contents)) == Some(answer) && parse(CleanResponse(answer)) == Some(r.value)
  {
    if contents == [] then Ok([])
    else match generate(BatchPrompt(contents))
      case None => Err("批量判定失败")
      case Some(answer) => ParseBatch(answer, |contents|, parse)
  }

  /** The batch answer parsed and checked to hold one verdict per content. */
  function ParseBatch(answer: string, n: nat, parse: string -> Option<seq<JudgeResult>>): (r: Result<seq<JudgeResult>>)
    ensures r.Ok? <==> parse(CleanResponse(answer)).Some? && |parse(CleanResponse(answer)).value| == n
    ensures r.Ok? ==> Some(r.value) == parse(CleanResponse(answer))
  {
    match parse(CleanResponse(answer))
    case None => Err("解析批量判定结果失败")
    case Some(results) => if |results| != n then Err(CountMismatch(n, |results|)) else Ok(results)
  }

  /** The error for a verdict count that differs from the content count. */
  function CountMismatch(expected: nat, actual: nat): string
  {
    "判定结果数量不匹配: 期望" + IntToString(expected) + ", 实际" + IntToString(actual)
  }

  const SinglePromptHead: string :=
    "你是记忆价值评估专家。分析以下对话片段，判断是否包含值得长期记忆的信息。\n\n对话内容：\n"

  const SinglePromptTail: string :=
    "\n\n评估维度（满分1.0）：\n1. 事实性 (0.4): 是否包含客观事实（如地点、日期、人名、技术栈等）\n"
    + "2. 偏好性 (0.3): 是否反映用户偏好（如喜好、习惯、风格等）\n3. 目标性 (0.3): 是否涉及长期目标（如学习计划、项目意图等）\n\n"
    + "输出JSON格式（严格遵守，不要添加额外文本）：\n{\n  \"value_score\": 0.0-1.0,\n  \"confidence_score\": 0.0-1.0,\n"
    + "  \"category\": \"fact|preference|goal|noise\",\n  \"reason\": \"简短理由\",\n  \"tags\": [\"标签1\", \"标签2\"],\n"
    + "  \"entities\": {\"实体类型\": \"实体值\"},\n  \"should_stage\": true/false\n}"

  /** The single-content prompt, with the content in the middle. */
  function SinglePrompt(content: string): string
  {
    SinglePromptHead + content + SinglePromptTail
  }

  /** JudgeMemoryValue: the verdict parsed from the cleaned answer, or an error. */
  function JudgeMemoryValue(content: string, generate: string -> Option<string>,
                            parse: string -> Option<JudgeResult>): (r: Result<JudgeResult>)
    ensures generate(SinglePrompt(content)).None? ==> r == Err("LLM判定失败")
    ensures r.Ok? <==>
      generate(SinglePrompt(content)).Some? && parse(CleanResponse(generate(SinglePrompt(content)).value)).Some?
    ensures r.Ok? ==> Some(r.value) == parse(CleanResponse(generate(SinglePrompt(content)).value))
  {
    match generate(SinglePrompt(content))
    case None => Err("LLM判定失败")
    case Some(answer) =>
      match parse(CleanResponse(answer))
      case None => Err("解析判定结果失败")
      case Some(v) => Ok(v)
  }

  const TagsPromptTail: string :=
    "\n\n请提取：\n1. 关键标签（2-5个简洁的中文/英文标签）\n2. 实体映射（提取关键实体及其类型）\n\n"
    + "输出JSON格式：\n{\n  \"tags\": [\"标签1\", \"标签2\"],\n  \"entities\": {\"实体类型\": \"实体值\"}\n}"

  function TagsPrompt(content: string, category: string): string
  {
    "提取以下记忆的结构化信息。\n\n记忆内容：\n" + content + "\n\n分类：" + category + TagsPromptTail
  }

  /** ExtractStructuredTags: tags and entities parsed from the cleaned answer, or an error. */
  function ExtractStructuredTags(content: string, category: string, generate: string -> Option<string>,
                                 parse: string -> Option<(seq<string>, map<string, string>)>)
    : (r: Result<(seq<string>, map<string, string>)>)
    ensures generate(TagsPrompt(content, category)).None? ==> r == Err("标签提取失败")
    ensures r.Ok? <==>
      generate(TagsPrompt(content, category)).Some?
      && parse(CleanResponse(generate(TagsPrompt(content, category)).value)).Some?
    ensures r.Ok? ==> Some(r.value) == parse(CleanResponse(generate(TagsPrompt(content, category)).value))
  {
    match generate(TagsPrompt(content, category))
    case None => Err("标签提取失败")
    case Some(answer) =>
      match parse(CleanResponse(answer))
      case None => Err("解析标签提取结果失败")
      case Some(v) => Ok(v)
  }
}
