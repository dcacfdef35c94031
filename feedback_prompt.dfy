/** The prompt `_build_prompt` sends to the model: fixed instructions, the JSON schema the answer must follow,
    and the request's post type, level, tone and content on labelled lines (app/services/feedback_agent.py). */
module FeedbackPrompt {
  import opened FeedbackModels

  /** How `f"{member}"` renders an enum member whose class mixes in `str`: depending on the Python version, its
      value, or `ClassName.MEMBER` (for these enums the member names equal their values). */
  datatype EnumFormat = ByValue | ByQualifiedName

  function RenderEnum(fmt: EnumFormat, className: string, value: string): string {
    match fmt
    case ByValue => value
    case ByQualifiedName => className + "." + value
  }

  function RenderPostType(fmt: EnumFormat, p: PostType): string {
    RenderEnum(fmt, "PostType", PostTypeValue(p))
  }

  function RenderExperienceLevel(fmt: EnumFormat, l: ExperienceLevel): string {
    RenderEnum(fmt, "ExperienceLevel", ExperienceLevelValue(l))
  }

  function RenderPreferredTone(fmt: EnumFormat, t: PreferredTone): string {
    RenderEnum(fmt, "PreferredTone", PreferredToneValue(t))
  }

  const PromptInstructions :=
    "You are reviewing a developer blog post. Analyze writing style, "
    + "strengths, weaknesses, and provide actionable guidance for the NEXT article. "
    + "Do NOT rewrite or add new content. Avoid generic feedback. "
    + "Return ONLY valid JSON matching this schema:\n"

  const SchemaToneLine := "      \"tone\": \"CASUAL|NEUTRAL|TECHNICAL\",\n"

  const PromptSchema :=
    "{\n"
    + "  \"analysis\": {\n"
    + "    \"writing_style\": {\n"
    + SchemaToneLine
    + "      \"clarity_score\": 0.0-1.0,\n"
    + "      \"structure_score\": 0.0-1.0,\n"
    + "      \"depth_score\": 0.0-1.0\n"
    + "    },\n"
    + "    \"strengths\": [\"string\"],\n"
    + "    \"weaknesses\": [\"string\"]\n"
    + "  },\n"
    + "  \"guidelines\": {\n"
    + "    \"next_article_focus\": [\"string\"],\n"
    + "    \"questions_to_answer\": [\"string\"],\n"
    + "    \"structural_advice\": [\"string\"]\n"
    + "  },\n"
    + "  \"agent_reasoning\": {\n"
    + "    \"decision_summary\": \"string\",\n"
    + "    \"confidence\": 0.0-1.0\n"
    + "  }\n"
    + "}\n\n"

  /** The schema template offers the model exactly the tone literals the parse accepts, in declaration order. */
  lemma SchemaTemplateListsToneValues()
    ensures SchemaToneLine ==
      "      \"tone\": \""
      + PreferredToneValue(CASUAL) + "|" + PreferredToneValue(NEUTRAL) + "|" + PreferredToneValue(TECHNICAL)
      + "\",\n"
  {
  }

  /** Everything the prompt says before the request's own fields. */
  const PromptPreamble := PromptInstructions + PromptSchema

  /** One labelled line of the prompt, followed by the rest of the prompt. */
  function Labelled(tag: string, value: string, rest: string): string {
    tag + value + "\n" + rest
  }

  /** The prompt after the preamble: the labelled post type, level and tone lines, then the content verbatim
      after a "Content:" line, then a final newline. */
  function PromptFields(fmt: EnumFormat, request: FeedbackRequest): string {
    Labelled("Post type: ", RenderPostType(fmt, request.postType),
    Labelled("User level: ", RenderExperienceLevel(fmt, request.metadata.experienceLevel),
    Labelled("Preferred tone: ", RenderPreferredTone(fmt, request.metadata.preferredTone),
    ContentBlock(request.content))))
  }

  /** The content verbatim after a "Content:" line, then a final newline. */
  function ContentBlock(content: string): string {
    "Content:\n" + content + "\n"
  }

  predicate StartsWith(s: string, prefix: string) {
    |prefix| <= |s| && s[..|prefix|] == prefix
  }

  predicate EndsWith(s: string, suffix: string) {
    |suffix| <= |s| && s[|s| - |suffix|..] == suffix
  }

  /** `_build_prompt`: the preamble, then the labelled fields. */
  function BuildPrompt(fmt: EnumFormat, request: FeedbackRequest): string {
    PromptPreamble + PromptFields(fmt, request)
  }

  /** Every prompt opens with the fixed instructions and schema and closes with the content block: the content
      verbatim after the "Content:" line, then a final newline. */
  lemma BuildPromptFraming(fmt: EnumFormat, request: FeedbackRequest)
    ensures StartsWith(BuildPrompt(fmt, request), PromptPreamble)
    ensures EndsWith(BuildPrompt(fmt, request), ContentBlock(request.content))
  {
    FieldsEndWithContentBlock(fmt, request);
    ConcatEnds(PromptPreamble, PromptFields(fmt, request), ContentBlock(request.content));
  }

  lemma {:induction false} FieldsEndWithContentBlock(fmt: EnumFormat, request: FeedbackRequest)
    ensures EndsWith(PromptFields(fmt, request), ContentBlock(request.content))
  {
    var tail := ContentBlock(request.content);
    var toneLine := Labelled("Preferred tone: ", RenderPreferredTone(fmt, request.metadata.preferredTone), tail);
    var levelLine := Labelled("User level: ", RenderExperienceLevel(fmt, request.metadata.experienceLevel), toneLine);
    LabelledEndsWithRest("Preferred tone: ", RenderPreferredTone(fmt, request.metadata.preferredTone), tail);
    LabelledEndsWithRest("User level: ", RenderExperienceLevel(fmt, request.metadata.experienceLevel), toneLine);
    LabelledEndsWithRest("Post type: ", RenderPostType(fmt, request.postType), levelLine);
    EndsWithTransitive(levelLine, toneLine, tail);
    EndsWithTransitive(PromptFields(fmt, request), levelLine, tail);
  }

  lemma {:induction false} EndsWithTransitive(a: string, b: string, c: string)
    requires EndsWith(a, b) && EndsWith(b, c)
    ensures EndsWith(a, c)
  {
    assert a[|a| - |c|..] == b[|b| - |c|..];
  }

  lemma {:induction false} ConcatEnds(front: string, back: string, tail: string)
    requires EndsWith(back, tail)
    ensures StartsWith(front + back, front)
    ensures EndsWith(front + back, tail)
  {
    assert (front + back)[|front + back| - |tail|..] == back[|back| - |tail|..];
  }

  lemma {:induction false} LabelledEndsWithRest(tag: string, value: string, rest: string)
    ensures EndsWith(Labelled(tag, value, rest), rest)
  {
  }

  lemma RenderedValuesHaveNoNewline(fmt: EnumFormat, request: FeedbackRequest)
    ensures '\n' !in RenderPostType(fmt, request.postType)
    ensures '\n' !in RenderExperienceLevel(fmt, request.metadata.experienceLevel)
    ensures '\n' !in RenderPreferredTone(fmt, request.metadata.preferredTone)
  {
    EnumValuesHaveNoNewline(request.postType, request.metadata.experienceLevel, request.metadata.preferredTone);
    RenderKeepsNoNewline(fmt, "PostType", PostTypeValue(request.postType));
    RenderKeepsNoNewline(fmt, "ExperienceLevel", ExperienceLevelValue(request.metadata.experienceLevel));
    RenderKeepsNoNewline(fmt, "PreferredTone", PreferredToneValue(request.metadata.preferredTone));
  }

  lemma EnumValuesHaveNoNewline(p: PostType, l: ExperienceLevel, t: PreferredTone)
    ensures '\n' !in PostTypeValue(p)
    ensures '\n' !in ExperienceLevelValue(l)
    ensures '\n' !in PreferredToneValue(t)
  {
  }

  lemma RenderKeepsNoNewline(fmt: EnumFormat, className: string, value: string)
    requires '\n' !in className && '\n' !in value
    ensures '\n' !in RenderEnum(fmt, className, value)
  {
    if fmt.ByQualifiedName? {
      NoNewlineInConcat(className, ".");
      NoNewlineInConcat(className + ".", value);
    }
  }

  lemma NoNewlineInConcat(a: string, b: string)
    requires '\n' !in a && '\n' !in b
    ensures '\n' !in a + b
  {
  }

  /** Distinct members render distinctly, in either format. */
  lemma {:induction false} RenderingIsInjective(fmt: EnumFormat, r1: FeedbackRequest, r2: FeedbackRequest)
    ensures RenderPostType(fmt, r1.postType) == RenderPostType(fmt, r2.postType) ==> r1.postType == r2.postType
    ensures RenderExperienceLevel(fmt, r1.metadata.experienceLevel) == RenderExperienceLevel(fmt, r2.metadata.experienceLevel)
      ==> r1.metadata.experienceLevel == r2.metadata.experienceLevel
    ensures RenderPreferredTone(fmt, r1.metadata.preferredTone) == RenderPreferredTone(fmt, r2.metadata.preferredTone)
      ==> r1.metadata.preferredTone == r2.metadata.preferredTone
  {
    if fmt.ByQualifiedName? {
      var l1, l2 := r1.metadata.experienceLevel, r2.metadata.experienceLevel;
      if RenderExperienceLevel(fmt, l1) == RenderExperienceLevel(fmt, l2) {
        DropCommonPrefix("ExperienceLevel" + ".", ExperienceLevelValue(l1), ExperienceLevelValue(l2));
      }
      var p1, p2 := r1.postType, r2.postType;
      if RenderPostType(fmt, p1) == RenderPostType(fmt, p2) {
        DropCommonPrefix("PostType" + ".", PostTypeValue(p1), PostTypeValue(p2));
      }
      var t1, t2 := r1.metadata.preferredTone, r2.metadata.preferredTone;
      if RenderPreferredTone(fmt, t1) == RenderPreferredTone(fmt, t2) {
        DropCommonPrefix("PreferredTone" + ".", PreferredToneValue(t1), PreferredToneValue(t2));
      }
    }
  }

  /** Cutting a string at its first newline: two strings agree when their parts before and after it do. */
  lemma {:induction false} SplitAtFirstNewline(a: string, b: string, c: string, d: string)
    requires '\n' !in a && '\n' !in c
    requires a + "\n" + b == c + "\n" + d
    ensures a == c && b == d
  {
    var x := a + "\n" + b;
    assert x[|a|] == '\n';
    assert x[|c|] == '\n';
    assert |a| == |c|;
    assert a == x[..|a|] && c == x[..|c|];
    assert b == x[|a| + 1..] && d == x[|c| + 1..];
  }

  lemma {:induction false} DropCommonPrefix(h: string, x: string, y: string)
    requires h + x == h + y
    ensures x == y
  {
    assert x == (h + x)[|h|..];
    assert y == (h + y)[|h|..];
  }

  /** One labelled line followed by the rest: the tag is dropped and the line cut at its newline. */
  lemma {:induction false} LabelledLine(tag: string, v1: string, rest1: string, v2: string, rest2: string)
    requires '\n' !in v1 && '\n' !in v2
    requires Labelled(tag, v1, rest1) == Labelled(tag, v2, rest2)
    ensures v1 == v2 && rest1 == rest2
  {
    assert tag + v1 + "\n" + rest1 == tag + (v1 + "\n" + rest1);
    assert tag + v2 + "\n" + rest2 == tag + (v2 + "\n" + rest2);
    DropCommonPrefix(tag, v1 + "\n" + rest1, v2 + "\n" + rest2);
    SplitAtFirstNewline(v1, rest1, v2, rest2);
  }

  /** The prompt depends on the post type, level, tone and content and on nothing else: two requests get the
      same prompt exactly when those four agree (request_id and user_id never reach the model). */
  lemma {:induction false} PromptDeterminedByPostFields(fmt: EnumFormat, r1: FeedbackRequest, r2: FeedbackRequest)
    ensures BuildPrompt(fmt, r1) == BuildPrompt(fmt, r2) <==>
      r1.postType == r2.postType && r1.metadata == r2.metadata && r1.content == r2.content
  {
    if BuildPrompt(fmt, r1) == BuildPrompt(fmt, r2) {
      DropCommonPrefix(PromptPreamble, PromptFields(fmt, r1), PromptFields(fmt, r2));
      FieldsDetermineRequest(fmt, r1, r2);
    }
  }

  /** The labelled lines after the preamble give back the post type, level, tone and content. */
  lemma {:induction false} FieldsDetermineRequest(fmt: EnumFormat, r1: FeedbackRequest, r2: FeedbackRequest)
    requires PromptFields(fmt, r1) == PromptFields(fmt, r2)
    ensures r1.postType == r2.postType && r1.metadata == r2.metadata && r1.content == r2.content
  {
    var t1, t2 := RenderPostType(fmt, r1.postType), RenderPostType(fmt, r2.postType);
    var l1, l2 := RenderExperienceLevel(fmt, r1.metadata.experienceLevel), RenderExperienceLevel(fmt, r2.metadata.experienceLevel);
    var n1, n2 := RenderPreferredTone(fmt, r1.metadata.preferredTone), RenderPreferredTone(fmt, r2.metadata.preferredTone);
    var tail1, tail2 := ContentBlock(r1.content), ContentBlock(r2.content);
    RenderedValuesHaveNoNewline(fmt, r1);
    RenderedValuesHaveNoNewline(fmt, r2);
    LabelledLine("Post type: ", t1, Labelled("User level: ", l1, Labelled("Preferred tone: ", n1, tail1)),
                                t2, Labelled("User level: ", l2, Labelled("Preferred tone: ", n2, tail2)));
    LabelledLine("User level: ", l1, Labelled("Preferred tone: ", n1, tail1), l2, Labelled("Preferred tone: ", n2, tail2));
    LabelledLine("Preferred tone: ", n1, tail1, n2, tail2);
    assert tail1 == "Content:\n" + (r1.content + "\n");
    assert tail2 == "Content:\n" + (r2.content + "\n");
    DropCommonPrefix("Content:\n", r1.content + "\n", r2.content + "\n");
    assert r1.content == (r1.content + "\n")[..|r1.content|];
    assert r2.content == (r2.content + "\n")[..|r2.content|];
    RenderingIsInjective(fmt, r1, r2);
  }
}
