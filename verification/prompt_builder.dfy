/** The instruction prompt and the `parts` list sent to the model. The
    browser client (services/geminiService.ts.ts) and the endpoint
    (api/analyze.ts) build them the same way from one template literal that
    differs only in indentation, so the builders take the template's fixed
    text as a parameter and each caller supplies its own instance. */
module PromptBuilder {
  import opened Wrappers
  import opened Types
  import Text

  /** The stand-in when no performance notes were given. */
  const NoneProvided := "None provided"

  /** The extra instruction present only when a video is attached. */
  const VideoInstruction := "IMPORTANT: A video file of the ad is provided. You must analyze the visual pacing, on-screen text, pattern interrupts, sound design, and brand integration within the video itself alongside the script."

  /** The fixed text of a template literal: the seven pieces before,
      between and after the six interpolated values, each without the
      newline that starts it. */
  datatype Template = Template(
    intro: string,
    audienceLabel: string,
    objectiveLabel: string,
    copyLabel: string,
    performanceLabel: string,
    clauseLead: string,
    rules: string)

  /** The seven fixed pieces in order; every one starts a new line. */
  function Glue(t: Template): (g: seq<string>)
    ensures |g| == 7
    ensures forall k :: 0 <= k < 7 ==> g[k] != "" && g[k][0] == '\n'
  {
    ["\n" + t.intro, "\n" + t.audienceLabel, "\n" + t.objectiveLabel, "\n" + t.copyLabel,
     "\n" + t.performanceLabel, "\n" + t.clauseLead, "\n" + t.rules]
  }

  /** The wording of the template literal, line by line: the opening lines
      up to the platform label, the four further labels, and the rules
      block. */
  datatype Wording = Wording(
    intro: seq<string>,
    audience: string,
    objective: string,
    copy: string,
    performance: string,
    rules: seq<string>)

  /** The wording both builders use. */
  const PromptWording: Wording := Wording(
    ["You are a senior advertising effectiveness analyst. ",
     "Analyze the following ad creative using your expert diagnostics framework.",
     "",
     "INPUT DATA:",
     "- Platform: "],
    "- Target Audience: ",
    "- Objective: ",
    "- Ad Copy/Script: ",
    "- Performance Data (Optional): ",
    ["STRICT RULES:",
     "1. Do not give vague feedback.",
     "2. Do not rewrite the entire copy.",
     "3. Diagnose rigorously across: Focus, Memorability, Branding, Emotion, Pacing, and Overlays.",
     "4. Provide brand lift estimations.",
     "5. Provide specific improvement recommendations.",
     "6. **SCORING SCALE**: Every metric (Focus, Memorability, Branding, Emotion, Pacing, Overlays) MUST be scored on a scale of 1 to 10. ",
     "   - 1 is extremely poor/ineffective.",
     "   - 10 is world-class/best-in-class.",
     "   - DO NOT use a 1-100 scale."])

  /** Lines joined by a line break and the body indentation; the first line
      is not indented here. */
  function Lines(indent: string, ls: seq<string>): (r: string)
    ensures |ls| == 1 ==> r == ls[0]
    ensures |ls| >= 1 ==> |r| >= |ls[0]| && r[..|ls[0]|] == ls[0]
  {
    if |ls| == 0 then ""
    else if |ls| == 1 then ls[0]
    else ls[0] + "\n" + indent + Lines(indent, ls[1..])
  }

  /** Each line behind the body indentation. */
  function Indented(indent: string, ls: seq<string>): (r: seq<string>)
    ensures |r| == |ls|
    ensures forall i :: 0 <= i < |ls| ==> r[i] == indent + ls[i]
  {
    seq(|ls|, i requires 0 <= i < |ls| => indent + ls[i])
  }

  /** The indented lines joined by line breaks are the indentation followed
      by `Lines`. */
  lemma {:induction false} LinesIsJoin(indent: string, ls: seq<string>)
    requires |ls| >= 1
    ensures indent + Lines(indent, ls) == Text.Join(Indented(indent, ls), '\n')
    decreases |ls|
  {
    if |ls| > 1 {
      LinesIsJoin(indent, ls[1..]);
      var segs := Indented(indent, ls);
      assert segs[1..] == Indented(indent, ls[1..]);
      assert indent + Lines(indent, ls) == segs[0] + ['\n'] + (indent + Lines(indent, ls[1..]));
    }
  }

  /** A wording whose blocks are non-empty and whose lines hold no line
      break, as a template literal's lines are. */
  predicate LineWording(w: Wording) {
    && |w.intro| >= 1 && |w.rules| >= 1
    && (forall i :: 0 <= i < |w.intro| ==> '\n' !in w.intro[i])
    && (forall i :: 0 <= i < |w.rules| ==> '\n' !in w.rules[i])
  }

  /** The template literal for a wording and the indentation of its body
      lines and of its closing line: every body line of the fixed text starts
      with `indent`, the video clause gets a body line of its own, and the
      literal ends on a line holding only `closing`. */
  function MakeTemplate(indent: string, closing: string, w: Wording): (t: Template)
    ensures |t.intro| >= |indent| && t.intro[..|indent|] == indent
    ensures t.audienceLabel == indent + w.audience && t.objectiveLabel == indent + w.objective
    ensures t.copyLabel == indent + w.copy && t.performanceLabel == indent + w.performance
    ensures |w.intro| >= 1 ==> |t.intro| >= |indent| + |w.intro[0]| && t.intro[|indent|..|indent| + |w.intro[0]|] == w.intro[0]
    ensures t.clauseLead == "\n" + indent
    ensures |t.rules| > |indent| && t.rules[..|indent| + 1] == "\n" + indent
    ensures |t.rules| > |closing| && t.rules[|t.rules| - |closing| - 1..] == "\n" + closing
  {
    Template(
      indent + Lines(indent, w.intro),
      indent + w.audience,
      indent + w.objective,
      indent + w.copy,
      indent + w.performance,
      "\n" + indent,
      "\n" + indent + Lines(indent, w.rules) + "\n" + closing)
  }

  /** Read line by line, the template is its wording: the opening piece is
      exactly the indented intro lines, ending with the platform label, and
      the rules piece is a line break, the indented rule lines, and the
      closing line. */
  lemma TemplateLines(indent: string, closing: string, w: Wording)
    requires LineWording(w) && '\n' !in indent && '\n' !in closing
    ensures Text.Split(MakeTemplate(indent, closing, w).intro, '\n') == Indented(indent, w.intro)
    ensures Text.Split(MakeTemplate(indent, closing, w).rules, '\n') == [""] + Indented(indent, w.rules) + [closing]
  {
    var t := MakeTemplate(indent, closing, w);
    var intro := Indented(indent, w.intro);
    LinesIsJoin(indent, w.intro);
    Text.SplitJoin(intro, '\n');
    var body := Indented(indent, w.rules);
    LinesIsJoin(indent, w.rules);
    Text.JoinSnoc(body, closing, '\n');
    var segs := [""] + body + [closing];
    assert segs[1..] == body + [closing];
    assert t.rules == Text.Join(segs, '\n');
    Text.SplitJoin(segs, '\n');
  }

  /** `performanceData || "None provided"`: the notes when they are a
      non-empty string, otherwise the stand-in. The line is never blank. */
  function PerformanceLine(pd: Option<string>): (r: string)
    ensures r != ""
    ensures pd.Some? && pd.value != "" ==> r == pd.value
    ensures pd.None? || pd.value == "" ==> r == NoneProvided
  {
    if pd.Some? && pd.value != "" then pd.value else NoneProvided
  }

  /** The conditional instruction: present exactly when a video is attached;
      the payload itself never enters the text. */
  function VideoClause(v: Option<VideoData>): (r: string)
    ensures r != "" <==> v.Some?
    ensures r != "" ==> r == VideoInstruction
  {
    if v.Some? then VideoInstruction else ""
  }

  /** The interpolated values in template order: platform, audience,
      objective, copy, performance line, video clause. */
  function Slots(input: AdInput): (s: seq<string>)
    ensures |s| == 6
  {
    [input.platform, input.targetAudience, input.objective, input.adCopy,
     PerformanceLine(input.performanceData), VideoClause(input.videoData)]
  }

  /** A template literal: fixed text and values, alternating, starting and
      ending with fixed text. */
  function Interleave(glue: seq<string>, slots: seq<string>): string
    requires |glue| == |slots| + 1
    decreases |slots|
  {
    if |slots| == 0 then glue[0] else glue[0] + slots[0] + Interleave(glue[1..], slots[1..])
  }

  /** The instruction prompt for `input`. */
  function TextPrompt(t: Template, input: AdInput): string {
    Interleave(Glue(t), Slots(input))
  }

  /** `sub` sits in `s` starting at index `i`. */
  predicate OccursAt(s: string, sub: string, i: nat) {
    i + |sub| <= |s| && s[i..i + |sub|] == sub
  }

  /** Where value `k` starts in the interleaved text. */
  function SlotOffset(glue: seq<string>, slots: seq<string>, k: nat): nat
    requires |glue| == |slots| + 1 && k < |slots|
    decreases k
  {
    |glue[0]| + if k == 0 then 0 else |slots[0]| + SlotOffset(glue[1..], slots[1..], k - 1)
  }

  lemma OccursAtShift(a: string, b: string, sub: string, i: nat)
    requires OccursAt(b, sub, i)
    ensures OccursAt(a + b, sub, |a| + i)
  {
    assert (a + b)[|a| + i..|a| + i + |sub|] == b[i..i + |sub|];
  }

  /** The text starts with the first fixed piece. */
  lemma StartsWithGlue(glue: seq<string>, slots: seq<string>)
    requires |glue| == |slots| + 1
    ensures OccursAt(Interleave(glue, slots), glue[0], 0)
  {
    if |slots| > 0 {
      assert Interleave(glue, slots) == glue[0] + (slots[0] + Interleave(glue[1..], slots[1..]));
    }
  }

  /** Value `k` stands at its offset and fixed text `k + 1` follows it. */
  lemma {:induction false} SlotAt(glue: seq<string>, slots: seq<string>, k: nat)
    requires |glue| == |slots| + 1 && k < |slots|
    ensures OccursAt(Interleave(glue, slots), slots[k], SlotOffset(glue, slots, k))
    ensures OccursAt(Interleave(glue, slots), glue[k + 1], SlotOffset(glue, slots, k) + |slots[k]|)
    decreases k
  {
    var pre, rest := glue[0] + slots[0], Interleave(glue[1..], slots[1..]);
    assert Interleave(glue, slots) == pre + rest;
    if k == 0 {
      StartsWithGlue(glue[1..], slots[1..]);
      OccursAtShift(pre, rest, glue[1], 0);
      assert (pre + rest)[|glue[0]|..|glue[0]| + |slots[0]|] == slots[0];
    } else {
      SlotAt(glue[1..], slots[1..], k - 1);
      var o := SlotOffset(glue[1..], slots[1..], k - 1);
      OccursAtShift(pre, rest, slots[k], o);
      OccursAtShift(pre, rest, glue[k + 1], o + |slots[k]|);
    }
  }

  /** Consecutive values are separated by exactly the fixed text between them. */
  lemma {:induction false} SlotOffsetStep(glue: seq<string>, slots: seq<string>, k: nat)
    requires |glue| == |slots| + 1 && k + 1 < |slots|
    ensures SlotOffset(glue, slots, k + 1) == SlotOffset(glue, slots, k) + |slots[k]| + |glue[k + 1]|
    decreases k
  {
    if k > 0 {
      SlotOffsetStep(glue[1..], slots[1..], k - 1);
    }
  }

  /** Changing one value changes the text only at that value's place. */
  lemma {:induction false} ReplaceSlot(glue: seq<string>, slots: seq<string>, k: nat, x: string)
    requires |glue| == |slots| + 1 && k < |slots|
    ensures var p, o := Interleave(glue, slots), SlotOffset(glue, slots, k);
            o + |slots[k]| <= |p| &&
            Interleave(glue, slots[k := x]) == p[..o] + x + p[o + |slots[k]|..]
    decreases k
  {
    SlotAt(glue, slots, k);
    var p, o := Interleave(glue, slots), SlotOffset(glue, slots, k);
    var pre := glue[0] + slots[0];
    var rest := Interleave(glue[1..], slots[1..]);
    assert p == pre + rest;
    if k == 0 {
      assert Interleave(glue, slots[k := x]) == glue[0] + x + rest;
      assert p[..o] == glue[0];
      assert p[o + |slots[k]|..] == rest;
    } else {
      ReplaceSlot(glue[1..], slots[1..], k - 1, x);
      var o' := SlotOffset(glue[1..], slots[1..], k - 1);
      assert slots[k := x][1..] == slots[1..][k - 1 := x];
      assert Interleave(glue, slots[k := x]) == pre + Interleave(glue[1..], slots[1..][k - 1 := x]);
      assert p[..o] == pre + rest[..o'];
      assert p[o + |slots[k]|..] == rest[o' + |slots[k]|..];
    }
  }

  /** Where value `k` of `input` starts in its prompt. */
  function PromptOffset(t: Template, input: AdInput, k: nat): nat
    requires k < 6
  {
    SlotOffset(Glue(t), Slots(input), k)
  }

  /** In any template literal with non-empty fixed text, every value
      stands at its offset and the values follow one another in order,
      never touching. */
  lemma SlotsInOrder(glue: seq<string>, slots: seq<string>)
    requires |glue| == |slots| + 1
    requires forall k :: 0 <= k < |glue| ==> glue[k] != ""
    ensures forall k :: 0 <= k < |slots| ==> OccursAt(Interleave(glue, slots), slots[k], SlotOffset(glue, slots, k))
    ensures forall k :: 0 <= k < |slots| - 1 ==>
              SlotOffset(glue, slots, k) + |slots[k]| < SlotOffset(glue, slots, k + 1)
  {
    forall k | 0 <= k < |slots|
      ensures OccursAt(Interleave(glue, slots), slots[k], SlotOffset(glue, slots, k))
    {
      SlotAt(glue, slots, k);
    }
    forall k | 0 <= k < |slots| - 1
      ensures SlotOffset(glue, slots, k) + |slots[k]| < SlotOffset(glue, slots, k + 1)
    {
      SlotOffsetStep(glue, slots, k);
    }
  }

  /** The prompt carries platform, audience, objective and copy verbatim,
      each in its own place and in that order, followed by the performance
      line and then the video clause. */
  lemma PromptLayout(t: Template, input: AdInput)
    ensures var p := TextPrompt(t, input);
      && OccursAt(p, input.platform, PromptOffset(t, input, 0))
      && OccursAt(p, input.targetAudience, PromptOffset(t, input, 1))
      && OccursAt(p, input.objective, PromptOffset(t, input, 2))
      && OccursAt(p, input.adCopy, PromptOffset(t, input, 3))
      && OccursAt(p, PerformanceLine(input.performanceData), PromptOffset(t, input, 4))
      && OccursAt(p, VideoClause(input.videoData), PromptOffset(t, input, 5))
      && PromptOffset(t, input, 0) + |input.platform| < PromptOffset(t, input, 1)
      && PromptOffset(t, input, 1) + |input.targetAudience| < PromptOffset(t, input, 2)
      && PromptOffset(t, input, 2) + |input.objective| < PromptOffset(t, input, 3)
      && PromptOffset(t, input, 3) + |input.adCopy| < PromptOffset(t, input, 4)
      && PromptOffset(t, input, 4) + |PerformanceLine(input.performanceData)| < PromptOffset(t, input, 5)
  {
    var g, s := Glue(t), Slots(input);
    SlotsInOrder(g, s);
    assert s[0] == input.platform && s[1] == input.targetAudience && s[2] == input.objective;
    assert s[3] == input.adCopy && s[4] == PerformanceLine(input.performanceData);
    assert s[5] == VideoClause(input.videoData);
  }

  /** The prompt opens with the fixed introduction and closes with the fixed
      rules. */
  lemma PromptFrame(t: Template, input: AdInput)
    ensures var p, g := TextPrompt(t, input), Glue(t);
      && OccursAt(p, g[0], 0)
      && |p| >= |g[6]| && OccursAt(p, g[6], |p| - |g[6]|)
  {
    Frame(Glue(t), Slots(input));
  }

  lemma Frame(glue: seq<string>, slots: seq<string>)
    requires |glue| == |slots| + 1 && |slots| > 0
    ensures var p := Interleave(glue, slots);
      && OccursAt(p, glue[0], 0)
      && |p| >= |glue[|slots|]| && OccursAt(p, glue[|slots|], |p| - |glue[|slots|]|)
  {
    var k := |slots| - 1;
    StartsWithGlue(glue, slots);
    SlotAt(glue, slots, k);
    PromptLength(glue, slots, k);
  }

  /** The text ends right after the last fixed piece. */
  lemma {:induction false} PromptLength(glue: seq<string>, slots: seq<string>, k: nat)
    requires |glue| == |slots| + 1 && k == |slots| - 1
    ensures |Interleave(glue, slots)| == SlotOffset(glue, slots, k) + |slots[k]| + |glue[k + 1]|
    decreases k
  {
    if k > 0 {
      PromptLength(glue[1..], slots[1..], k - 1);
    } else {
      assert Interleave(glue[1..], slots[1..]) == glue[1];
    }
  }

  /** Attaching a video inserts exactly the video instruction into the
      prompt, at the clause's place, and changes nothing else; which video
      it is makes no difference. */
  lemma VideoClauseInsertion(t: Template, input: AdInput, v: VideoData)
    requires input.videoData.None?
    ensures var without, with := TextPrompt(t, input), TextPrompt(t, input.(videoData := Some(v)));
      var o := PromptOffset(t, input, 5);
      && o <= |without|
      && with == without[..o] + VideoInstruction + without[o..]
      && |with| == |without| + |VideoInstruction|
  {
    FillEmptySlot(Glue(t), Slots(input), 5, VideoInstruction);
    SlotsWithVideo(input, v);
  }

  lemma SlotsWithVideo(input: AdInput, v: VideoData)
    requires input.videoData.None?
    ensures Slots(input)[5] == ""
    ensures Slots(input.(videoData := Some(v))) == Slots(input)[5 := VideoInstruction]
  {
  }

  /** Filling an empty value inserts the new text at that value's offset. */
  lemma FillEmptySlot(glue: seq<string>, slots: seq<string>, k: nat, x: string)
    requires |glue| == |slots| + 1 && k < |slots| && slots[k] == ""
    ensures var p, o := Interleave(glue, slots), SlotOffset(glue, slots, k);
            && o <= |p|
            && Interleave(glue, slots[k := x]) == p[..o] + x + p[o..]
            && |Interleave(glue, slots[k := x])| == |p| + |x|
  {
    ReplaceSlot(glue, slots, k, x);
  }

  /** One element of the `contents.parts` list. */
  datatype Part = TextPart(text: string) | InlineData(data: string, mimeType: string)

  /** `parts`: the prompt, then the video payload and its type when present. */
  function BuildParts(t: Template, input: AdInput): (parts: seq<Part>)
    ensures 1 <= |parts| <= 2
    ensures parts[0] == TextPart(TextPrompt(t, input))
    ensures |parts| == 2 <==> input.videoData.Some?
    ensures |parts| == 2 ==> parts[1] == InlineData(input.videoData.value.data, input.videoData.value.mimeType)
  {
    var text := [TextPart(TextPrompt(t, input))];
    match input.videoData
    case None => text
    case Some(v) => text + [InlineData(v.data, v.mimeType)]
  }

  /** What a receiver of `parts` reads back as the attached video. */
  function VideoOfParts(parts: seq<Part>): Option<VideoData> {
    if |parts| >= 2 && parts[1].InlineData? then Some(VideoData(parts[1].data, parts[1].mimeType))
    else None
  }

  /** The video travels unchanged: reading it back from the parts gives the
      input's video, or none. */
  lemma PartsCarryVideo(t: Template, input: AdInput)
    ensures VideoOfParts(BuildParts(t, input)) == input.videoData
  {
  }
}
