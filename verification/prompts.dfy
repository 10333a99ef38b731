/**
 * The prompt registry: two templates with one "%s" slot each, defaults
 * built in, overridable by configuration text in which a written "\n"
 * (backslash, n) stands for a line break.
 */
module Prompts {
  import opened Text

  /** The built-in templates: an instruction, a blank line, then the slot "%s". */
  const SummarizeHead: string := "Summarize the following conversation " + "completely regarding key facts "
  const SummarizeTail: string := "and user preferences. " + "Ignore casual chitchat.\n\n"
  const SummarizeInstruction: string := SummarizeHead + SummarizeTail
  const DefaultSummarizePrompt: string := SummarizeInstruction + "%s"

  const ProfileA: string := "Analyze the following interaction. " + "Identify any persistent user "
  const ProfileB: string := "preferences, traits, or facts " + "that should be remembered "
  const ProfileC: string := "for future personalization. " + "Return ONLY these facts "
  const ProfileD: string := "as a bulleted list. " + "If none, return 'None'.\n\n"
  const ExtractProfileInstruction: string := ProfileA + ProfileB + ProfileC + ProfileD
  const DefaultExtractProfilePrompt: string := ExtractProfileInstruction + "%s"

  datatype Registry = Registry(summarize: string, extractProfile: string)

  /** A backslash immediately followed by 'n'. */
  predicate EscapedNewlineAt(s: string, i: int)
  {
    0 <= i && i + 1 < |s| && s[i] == '\\' && s[i + 1] == 'n'
  }

  /** `strings.ReplaceAll(s, "\\n", "\n")`: left to right, non-overlapping. */
  function Unescape(s: string): (r: string)
    ensures |r| <= |s|
    ensures forall i :: !EscapedNewlineAt(r, i)
    ensures r == [] || r[0] == (if EscapedNewlineAt(s, 0) then '\n' else s[0])
  {
    if |s| >= 2 && s[0] == '\\' && s[1] == 'n' then
      var rest := Unescape(s[2..]);
      assert forall i :: 0 <= i ==> (i == 0 || (EscapedNewlineAt(['\n'] + rest, i) ==> EscapedNewlineAt(rest, i - 1)));
      ['\n'] + rest
    else if s == [] then []
    else
      var rest := Unescape(s[1..]);
      assert rest != [] ==> rest[0] != 'n' || s[0] != '\\';
      assert forall i :: 1 <= i ==> (EscapedNewlineAt([s[0]] + rest, i) ==> EscapedNewlineAt(rest, i - 1));
      [s[0]] + rest
  }

  /** The inverse direction: a line break written as backslash-n. */
  function Escape(s: string): string
  {
    if s == [] then [] else (if s[0] == '\n' then "\\n" else [s[0]]) + Escape(s[1..])
  }

  /** For text without backslashes, unescaping undoes escaping. */
  lemma {:induction false} UnescapeEscape(s: string)
    requires '\\' !in s
    ensures Unescape(Escape(s)) == s
  {
    if s != [] {
      assert '\\' !in s[1..];
      UnescapeEscape(s[1..]);
      var e := Escape(s);
      if s[0] == '\n' {
        assert e == "\\n" + Escape(s[1..]);
        assert e[2..] == Escape(s[1..]);
      } else {
        assert e == [s[0]] + Escape(s[1..]);
        assert e[1..] == Escape(s[1..]);
      }
    }
  }

  /** NewRegistry: an empty override keeps the default, a non-empty one is unescaped. */
  function NewRegistry(customSummarize: string, customExtract: string): (r: Registry)
    ensures customSummarize == "" ==> r.summarize == DefaultSummarizePrompt
    ensures customSummarize != "" ==> r.summarize == Unescape(customSummarize)
    ensures customExtract == "" ==> r.extractProfile == DefaultExtractProfilePrompt
    ensures customExtract != "" ==> r.extractProfile == Unescape(customExtract)
    ensures forall i :: customSummarize != "" ==> !EscapedNewlineAt(r.summarize, i)
  {
    Registry(
      if customSummarize != "" then Unescape(customSummarize) else DefaultSummarizePrompt,
      if customExtract != "" then Unescape(customExtract) else DefaultExtractProfilePrompt)
  }

  /** Every '%' starts a "%s" or "%%" verb: the templates `Format` covers. */
  predicate SimpleTemplate(t: string)
  {
    if t == [] then true
    else if t[0] == '%' then |t| >= 2 && (t[1] == 's' || t[1] == '%') && SimpleTemplate(t[2..])
    else SimpleTemplate(t[1..])
  }

  /** Whether the template has a "%s" verb that consumes the argument. */
  predicate HasSlot(t: string)
    requires SimpleTemplate(t)
  {
    if t == [] then false
    else if t[0] == '%' then t[1] == 's' || HasSlot(t[2..])
    else HasSlot(t[1..])
  }

  /** The expansion of the verbs, once the argument is (`used`) or is not yet consumed. */
  function Expand(t: string, arg: string, used: bool): string
    requires SimpleTemplate(t)
  {
    if t == [] then []
    else if t[0] == '%' then
      (if t[1] == '%' then "%" else if used then "%!s(MISSING)" else arg)
      + Expand(t[2..], arg, used || t[1] == 's')
    else [t[0]] + Expand(t[1..], arg, used)
  }

  /**
   * `fmt.Sprintf(t, arg)` for simple templates: "%%" prints '%', the first
   * "%s" prints `arg`, later ones print "%!s(MISSING)", and an unused
   * argument is reported at the end as "%!(EXTRA string=arg)".
   */
  function Format(t: string, arg: string): string
    requires SimpleTemplate(t)
  {
    Expand(t, arg, false) + (if HasSlot(t) then "" else "%!(EXTRA string=" + arg + ")")
  }

  /** Text without '%' is a simple template with no slot that expands to itself. */
  lemma {:induction false} PlainText(p: string, arg: string, used: bool)
    requires '%' !in p
    ensures SimpleTemplate(p) && !HasSlot(p) && Expand(p, arg, used) == p
  {
    if p != [] {
      assert p[0] in p;
      assert '%' !in p[1..];
      PlainText(p[1..], arg, used);
      assert p == [p[0]] + p[1..];
    }
  }

  /** A '%'-free prefix passes through expansion unchanged. */
  lemma {:induction false} PlainPrefix(p: string, rest: string, arg: string, used: bool)
    requires '%' !in p && SimpleTemplate(rest)
    ensures SimpleTemplate(p + rest)
    ensures HasSlot(p + rest) == HasSlot(rest)
    ensures Expand(p + rest, arg, used) == p + Expand(rest, arg, used)
  {
    if p != [] {
      assert p[0] in p;
      assert '%' !in p[1..];
      assert (p + rest)[0] == p[0];
      assert (p + rest)[1..] == p[1..] + rest;
      PlainPrefix(p[1..], rest, arg, used);
      assert [p[0]] + (p[1..] + Expand(rest, arg, used)) == p + Expand(rest, arg, used);
    } else {
      assert p + rest == rest;
    }
  }

  /** A template "<text>%s" with no other '%' puts the content right after the text. */
  lemma FormatTrailingSlot(p: string, content: string)
    requires '%' !in p
    ensures SimpleTemplate(p + "%s")
    ensures Format(p + "%s", content) == p + content
  {
    var slot := "%s";
    assert slot[2..] == [];
    assert SimpleTemplate(slot) && HasSlot(slot) && Expand(slot, content, false) == content;
    PlainPrefix(p, slot, content, false);
  }

  /**
   * GetSummarizePrompt: `fmt.Sprintf` of the template with the content. A template
   * "<text>%s" puts the content after the text; a template without any verb
   * reports the content as an extra argument.
   */
  function GetSummarizePrompt(r: Registry, content: string): (prompt: string)
    requires SimpleTemplate(r.summarize)
    ensures var t := r.summarize;
      |t| >= 2 && t[|t| - 2..] == "%s" && '%' !in t[..|t| - 2] ==> prompt == t[..|t| - 2] + content
    ensures '%' !in r.summarize ==> prompt == r.summarize + "%!(EXTRA string=" + content + ")"
  {
    var t := r.summarize;
    if |t| >= 2 && t[|t| - 2..] == "%s" && '%' !in t[..|t| - 2] then
      assert t == t[..|t| - 2] + "%s";
      FormatTrailingSlot(t[..|t| - 2], content);
      Format(t, content)
    else
      if '%' !in t then PlainText(t, content, false); Format(t, content)
      else Format(t, content)
  }

  /**
   * GetExtractProfilePrompt: `fmt.Sprintf` of the template with the content. A template
   * "<text>%s" puts the content after the text; a template without any verb
   * reports the content as an extra argument.
   */
  function GetExtractProfilePrompt(r: Registry, content: string): (prompt: string)
    requires SimpleTemplate(r.extractProfile)
    ensures var t := r.extractProfile;
      |t| >= 2 && t[|t| - 2..] == "%s" && '%' !in t[..|t| - 2] ==> prompt == t[..|t| - 2] + content
    ensures '%' !in r.extractProfile ==> prompt == r.extractProfile + "%!(EXTRA string=" + content + ")"
  {
    var t := r.extractProfile;
    if |t| >= 2 && t[|t| - 2..] == "%s" && '%' !in t[..|t| - 2] then
      assert t == t[..|t| - 2] + "%s";
      FormatTrailingSlot(t[..|t| - 2], content);
      Format(t, content)
    else
      if '%' !in t then PlainText(t, content, false); Format(t, content)
      else Format(t, content)
  }

  /** Neither built-in instruction contains '%' (checked a piece at a time). */
  lemma SummarizeIsPlain()
    ensures '%' !in SummarizeInstruction
  {
    SummarizeHeadIsPlain();
    SummarizeTailIsPlain();
  }

  lemma SummarizeHeadIsPlain() ensures '%' !in SummarizeHead {}
  lemma SummarizeTailIsPlain() ensures '%' !in SummarizeTail {}

  lemma ExtractProfileIsPlain()
    ensures '%' !in ExtractProfileInstruction
  {
    ProfileAIsPlain();
    ProfileBIsPlain();
    ProfileCIsPlain();
    ProfileDIsPlain();
  }

  lemma ProfileAIsPlain() ensures '%' !in ProfileA {}
  lemma ProfileBIsPlain() ensures '%' !in ProfileB {}
  lemma ProfileCIsPlain() ensures '%' !in ProfileC {}
  lemma ProfileDIsPlain() ensures '%' !in ProfileD {}

  /** With no override, the summary prompt is its instruction, a blank line, then the content. */
  lemma DefaultSummarize(content: string)
    ensures SimpleTemplate(NewRegistry("", "").summarize)
    ensures GetSummarizePrompt(NewRegistry("", ""), content) == SummarizeInstruction + content
  {
    SummarizeIsPlain();
    FormatTrailingSlot(SummarizeInstruction, content);
  }

  /** With no override, the profile prompt is its instruction, a blank line, then the content. */
  lemma DefaultExtractProfile(content: string)
    ensures SimpleTemplate(NewRegistry("", "").extractProfile)
    ensures GetExtractProfilePrompt(NewRegistry("", ""), content) == ExtractProfileInstruction + content
  {
    ExtractProfileIsPlain();
    FormatTrailingSlot(ExtractProfileInstruction, content);
  }
}
