/**
  The roadmap generator handler: it derives a skill level from a solved
  count, builds a prompt for a hosted language model, extracts a JSON payload
  from the model's reply and returns it in a response envelope.

  The model call and JSON decoding are foreign code and appear as
  parameters: `invoke(prompt)` is the model's reply text, or None when the
  call (or unwrapping its response) raises; `decode(payload)` is the decoded
  value, or None when `json.loads` raises.
 */
module Roadmap {
  import opened JsonValues
  import opened PyText

  // ---------------------------------------------------------------------
  // Skill level

  datatype Level = Beginner | Intermediate | Advanced

  function LevelName(l: Level): string {
    match l
    case Beginner => "Beginner"
    case Intermediate => "Intermediate"
    case Advanced => "Advanced"
  }

  /** The levels in increasing order. */
  function Rank(l: Level): nat {
    match l
    case Beginner => 0
    case Intermediate => 1
    case Advanced => 2
  }

  /** The level for a solved count: fewer than 50 is Beginner, 50 up to 199
      is Intermediate, 200 or more is Advanced. */
  function DetermineUserLevel(totalSolved: int): (l: Level)
    ensures l == Beginner <==> totalSolved < 50
    ensures l == Intermediate <==> 50 <= totalSolved < 200
    ensures l == Advanced <==> 200 <= totalSolved
  {
    if totalSolved < 50 then Beginner
    else if totalSolved < 200 then Intermediate
    else Advanced
  }

  /** Solving more problems never lowers the level. */
  lemma LevelMonotone(a: int, b: int)
    requires a <= b
    ensures Rank(DetermineUserLevel(a)) <= Rank(DetermineUserLevel(b))
  {
  }

  /** The two boundaries sit between 49 and 50 and between 199 and 200. */
  lemma LevelBoundaries()
    ensures DetermineUserLevel(0) == Beginner && DetermineUserLevel(49) == Beginner
    ensures DetermineUserLevel(50) == Intermediate && DetermineUserLevel(199) == Intermediate
    ensures DetermineUserLevel(200) == Advanced && DetermineUserLevel(10000) == Advanced
  {
  }

  // ---------------------------------------------------------------------
  // Prompt

  const TopicSeparator := ", "

  const PromptHead :=
    "You are an expert competitive programming mentor specializing in LeetCode preparation.\n\n"
    + "User Profile:\n"
    + "- Skill Level: "

  const TopicsLabel := "\n- Weak Topics: "

  /** The fixed instructions and JSON schema that follow the topics. */
  const PromptTail :=
    "\n\nTask: Generate a structured 7-day learning roadmap to help this user improve their weak topics.\n\n"
    + "Requirements:\n"
    + "1. Focus on the weak topics provided\n"
    + "2. Provide 2-3 specific problem recommendations per day\n"
    + "3. Include topic-wise recommendations (which concepts to study)\n"
    + "4. Provide learning resources (no full solutions, only conceptual guidance)\n"
    + "5. Ensure progressive difficulty (start easier, build up)\n"
    + "6. Include daily goals and milestones\n\n"
    + "Return your response in the following JSON format:\n"
    + "{\n"
    + "  \"roadmap\": [\n"
    + "    {\n"
    + "      \"day\": 1,\n"
    + "      \"focus_topic\": \"Topic name\",\n"
    + "      \"daily_goal\": \"What to achieve today\",\n"
    + "      \"problems\": [\n"
    + "        {\n"
    + "          \"title\": \"Problem name\",\n"
    + "          \"difficulty\": \"Easy/Medium/Hard\",\n"
    + "          \"key_concept\": \"Main concept to learn\",\n"
    + "          \"approach_hint\": \"High-level approach (no code)\"\n"
    + "        }\n"
    + "      ],\n"
    + "      \"study_resources\": [\n"
    + "        \"Resource 1: Brief description\",\n"
    + "        \"Resource 2: Brief description\"\n"
    + "      ]\n"
    + "    }\n"
    + "  ],\n"
    + "  \"overall_strategy\": \"Brief overview of the 7-day plan\",\n"
    + "  \"success_metrics\": \"How to measure progress\"\n"
    + "}\n\n"
    + "Important: Return ONLY valid JSON, no additional text or markdown formatting."

  /** A prompt template: the text before the level, the text between the
      level and the topics, and the text after the topics. */
  datatype Template = Template(head: string, between: string, tail: string)

  /** build_prompt's template. */
  const SourceTemplate := Template(PromptHead, TopicsLabel, PromptTail)

  /** A template filled with a level ending and the topics joined by ", ". */
  function Fill(t: Template, topics: seq<string>, level: string): string {
    t.head + ((level + t.between) + (Join(topics, TopicSeparator) + t.tail))
  }

  /** The prompt build_prompt returns. */
  function BuildPrompt(topics: seq<string>, level: string): string {
    Fill(SourceTemplate, topics, level)
  }

  /** A filled template opens with the head, the level and the text between
      level and topics, and closes with the joined topics and the tail. */
  lemma FillShape(t: Template, topics: seq<string>, level: string)
    ensures StartsWith(Fill(t, topics, level), t.head + level + t.between)
    ensures EndsWith(Fill(t, topics, level), Join(topics, TopicSeparator) + t.tail)
  {
    var opening, rest := t.head + (level + t.between), Join(topics, TopicSeparator) + t.tail;
    assert Fill(t, topics, level) == opening + rest;
    ConcatSplits(opening, rest);
    assert opening == t.head + level + t.between;
  }

  /** The prompt opens with the fixed head, the level and the topics label,
      and closes with the topics joined by ", " and the fixed instructions. */
  lemma BuildPromptShape(topics: seq<string>, level: string)
    ensures StartsWith(BuildPrompt(topics, level), PromptHead + level + TopicsLabel)
    ensures EndsWith(BuildPrompt(topics, level), Join(topics, TopicSeparator) + PromptTail)
  {
    FillShape(SourceTemplate, topics, level);
  }

  /** The level whose line, ended by `ending`, opens `rest`, if any. */
  function LevelLineAt(rest: string, ending: string): Option<Level> {
    if StartsWith(rest, LevelName(Beginner) + ending) then Some(Beginner)
    else if StartsWith(rest, LevelName(Intermediate) + ending) then Some(Intermediate)
    else if StartsWith(rest, LevelName(Advanced) + ending) then Some(Advanced)
    else None
  }

  /** A string that opens with one level's line opens with no other's: the
      level names differ in their first character. */
  lemma LevelLineRecognised(rest: string, ending: string, l: Level)
    requires StartsWith(rest, LevelName(l) + ending)
    ensures LevelLineAt(rest, ending) == Some(l)
  {
    assert rest[0] == (LevelName(l) + ending)[0] == LevelName(l)[0];
    if l != Beginner {
      assert !StartsWith(rest, LevelName(Beginner) + ending) by {
        assert (LevelName(Beginner) + ending)[0] == 'B';
      }
    }
    if l == Advanced {
      assert !StartsWith(rest, LevelName(Intermediate) + ending) by {
        assert (LevelName(Intermediate) + ending)[0] == 'I';
      }
    }
  }

  /** The topics line's text, when `after` ends with the template's tail. */
  function TopicsBeforeTail(after: string, tail: string): Option<string> {
    if EndsWith(after, tail) then Some(after[..|after| - |tail|]) else None
  }

  /** Reads the level and the topics from a filled template after its head. */
  function ParseProfileLines(rest: string, t: Template): Option<(Level, string)> {
    match LevelLineAt(rest, t.between)
    case None => None
    case Some(l) =>
      match TopicsBeforeTail(rest[|LevelName(l) + t.between|..], t.tail)
      case None => None
      case Some(topics) => Some((l, topics))
  }

  /** Reads the level and the joined topics back out of a filled template. */
  function ParseFilled(p: string, t: Template): Option<(Level, string)> {
    if StartsWith(p, t.head) then ParseProfileLines(p[|t.head|..], t) else None
  }

  /** Reads the level and the joined topics back out of a prompt; the
      reference against which BuildPrompt is checked. */
  function ParsePrompt(p: string): Option<(Level, string)> {
    ParseFilled(p, SourceTemplate)
  }

  lemma ProfileLinesRoundTrip(t: Template, l: Level, topics: string)
    ensures ParseProfileLines((LevelName(l) + t.between) + (topics + t.tail), t) == Some((l, topics))
  {
    var line := LevelName(l) + t.between;
    ConcatSplits(line, topics + t.tail);
    LevelLineRecognised(line + (topics + t.tail), t.between, l);
    ConcatSplits(topics, t.tail);
  }

  /** Whatever the template, the level and the joined topics can be read
      back out of it once filled. */
  lemma FillRoundTrip(t: Template, topics: seq<string>, l: Level)
    ensures ParseFilled(Fill(t, topics, LevelName(l)), t) == Some((l, Join(topics, TopicSeparator)))
  {
    var j := Join(topics, TopicSeparator);
    ConcatSplits(t.head, (LevelName(l) + t.between) + (j + t.tail));
    ProfileLinesRoundTrip(t, l, j);
  }

  /** The prompt carries the level and the topics, joined in input order, in
      a form from which both can be read back. */
  lemma PromptRoundTrip(topics: seq<string>, l: Level)
    ensures ParsePrompt(BuildPrompt(topics, LevelName(l))) == Some((l, Join(topics, TopicSeparator)))
  {
    FillRoundTrip(SourceTemplate, topics, l);
  }

  /** Different levels, or topic lists that join differently, give
      different prompts, whatever the template (build_prompt's included). */
  lemma FillDeterminesProfile(t: Template, t1: seq<string>, l1: Level, t2: seq<string>, l2: Level)
    requires Fill(t, t1, LevelName(l1)) == Fill(t, t2, LevelName(l2))
    ensures l1 == l2 && Join(t1, TopicSeparator) == Join(t2, TopicSeparator)
  {
    FillRoundTrip(t, t1, l1);
    FillRoundTrip(t, t2, l2);
  }

  /** `", ".join(weak_topics)` takes only strings; any other element raises
      TypeError. */
  function TopicStrings(elems: seq<Json>): (r: Option<seq<string>>)
    ensures r.Some? ==> |r.value| == |elems| && forall i :: 0 <= i < |elems| ==> elems[i] == JString(r.value[i])
    ensures r.None? ==> exists i :: 0 <= i < |elems| && !elems[i].JString?
  {
    if |elems| == 0 then Some([])
    else if !elems[0].JString? then None
    else match TopicStrings(elems[1..])
      case None => None
      case Some(rest) => Some([elems[0].s] + rest)
  }

  // ---------------------------------------------------------------------
  // Extracting the JSON payload from the model's text

  const JsonFence := "```json"
  const Fence := "```"

  /** Where the payload starts: just after the first "```json" if the text
      has one, otherwise just after the first "```", otherwise nowhere (the
      text is not fenced). */
  function PayloadStart(text: string): (r: Option<nat>)
    ensures r.Some? <==> Contains(text, Fence)
    ensures Contains(text, JsonFence) ==>
              r.Some? && |JsonFence| <= r.value <= |text| && FirstAt(text, JsonFence, r.value - |JsonFence|)
    ensures !Contains(text, JsonFence) && Contains(text, Fence) ==>
              r.Some? && |Fence| <= r.value <= |text| && FirstAt(text, Fence, r.value - |Fence|)
  {
    if Contains(text, JsonFence) then
      assert JsonFence[..3] == Fence;
      ContainsPrefix(text, JsonFence, 3);
      Some(Find(text, JsonFence, 0) + |JsonFence|)
    else if Contains(text, Fence) then Some(Find(text, Fence, 0) + |Fence|)
    else None
  }

  /** The payload as the source computes it: in a fenced text the slice ends
      at the next "```", and when there is none `find` returns -1, which as
      a slice end drops the text's last character. */
  function ExtractPayloadAsWritten(text: string): (r: string)
    ensures Trimmed(r)
    ensures PayloadStart(text).None? ==> r == Strip(text)
    ensures PayloadStart(text).Some? && Find(text, Fence, PayloadStart(text).value) >= 0 ==>
              r == Strip(text[PayloadStart(text).value..Find(text, Fence, PayloadStart(text).value)])
    ensures PayloadStart(text).Some? && Find(text, Fence, PayloadStart(text).value) < 0 ==>
              r == if PayloadStart(text).value == |text| then ""
                   else Strip(text[PayloadStart(text).value..|text| - 1])
  {
    match PayloadStart(text)
    case None => Strip(text)
    case Some(start) => Strip(PySlice(text, start, Find(text, Fence, start)))
  }

  /** The payload as evidently intended: a missing closing fence means the
      payload runs to the end of the text. */
  function ExtractPayload(text: string): (r: string)
    ensures Trimmed(r)
    ensures PayloadStart(text).None? ==> r == Strip(text)
    ensures PayloadStart(text).Some? && Find(text, Fence, PayloadStart(text).value) >= 0 ==>
              r == Strip(text[PayloadStart(text).value..Find(text, Fence, PayloadStart(text).value)])
    ensures PayloadStart(text).Some? && Find(text, Fence, PayloadStart(text).value) < 0 ==>
              r == Strip(text[PayloadStart(text).value..])
  {
    match PayloadStart(text)
    case None => Strip(text)
    case Some(start) =>
      var close := Find(text, Fence, start);
      if close < 0 then Strip(text[start..]) else Strip(text[start..close])
  }

  /** The two readings differ only when an opening fence is not closed. */
  lemma PayloadReadingsAgreeWhenClosed(text: string)
    requires PayloadStart(text).None? || Find(text, Fence, PayloadStart(text).value) >= 0
    ensures ExtractPayloadAsWritten(text) == ExtractPayload(text)
  {
  }

  /** A text without any fence is its own payload, stripped. */
  lemma UnfencedPayload(text: string)
    requires !Contains(text, Fence)
    ensures ExtractPayload(text) == Strip(text)
    ensures ExtractPayloadAsWritten(text) == Strip(text)
  {
  }

  /** The text before an opening fence: no fence of that kind starts in it,
      not even one that runs on into the fence after it. Backticks are
      allowed. */
  lemma {:induction false} FenceOpensAfter(pre: string, fence: string, rest: string)
    requires |fence| > 0 && NoEarlierOccurrence(pre, fence)
    ensures FirstAt(pre + fence + rest, fence, |pre|)
    ensures Find(pre + fence + rest, fence, 0) == |pre|
    ensures (pre + fence + rest)[|pre| + |fence|..] == rest
  {
    var text := pre + fence + rest;
    ConcatSplits(pre + fence, rest);
    ConcatSplits(pre, fence);
    OccursInPrefix(pre + fence, rest, fence, |pre|);
    forall j | 0 <= j < |pre| ensures !OccursAt(text, fence, j) {
      OccursInPrefix(pre + fence, rest, fence, j);
    }
    FindFirst(text, fence, 0, |pre|);
  }

  /** A "```json" fence after text that opens none starts the payload. */
  lemma JsonFenceStart(pre: string, rest: string)
    requires NoEarlierOccurrence(pre, JsonFence)
    ensures PayloadStart(pre + JsonFence + rest) == Some(|pre| + |JsonFence|)
    ensures (pre + JsonFence + rest)[|pre| + |JsonFence|..] == rest
  {
    FenceOpensAfter(pre, JsonFence, rest);
  }

  /** With no "```json" anywhere, a "```" after text that opens none starts
      the payload. */
  lemma PlainFenceStart(pre: string, rest: string)
    requires NoEarlierOccurrence(pre, Fence) && !Contains(pre + Fence + rest, JsonFence)
    ensures PayloadStart(pre + Fence + rest) == Some(|pre| + |Fence|)
    ensures (pre + Fence + rest)[|pre| + |Fence|..] == rest
  {
    FenceOpensAfter(pre, Fence, rest);
  }

  /** The payload of a text whose fence opens at `start` and is never
      closed, in both readings. */
  lemma UnclosedPayload(text: string, start: nat)
    requires PayloadStart(text) == Some(start) && start <= |text| && !Contains(text[start..], Fence)
    ensures ExtractPayload(text) == Strip(text[start..])
    ensures ExtractPayloadAsWritten(text)
            == if start == |text| then "" else Strip(text[start..][..|text| - start - 1])
  {
    var rest := text[start..];
    NoClosingFence(text, start);
    assert ExtractPayload(text) == Strip(rest);
    if start < |text| {
      var cut := text[start..|text| - 1];
      assert cut == rest[..|text| - start - 1];
      assert ExtractPayloadAsWritten(text) == Strip(cut);
    }
  }

  /** A remainder without a fence holds no closing fence. */
  lemma NoClosingFence(text: string, start: nat)
    requires start <= |text| && !Contains(text[start..], Fence)
    ensures Find(text, Fence, start) == -1
  {
    assert text == text[..start] + text[start..];
    FindInSuffix(text[..start], text[start..], Fence);
  }

  /** The payload of a text whose fence opens at `start` and is closed
      after `content`, which holds no closing fence of its own, in both
      readings. */
  lemma ClosedPayload(text: string, start: nat, content: string, post: string)
    requires PayloadStart(text) == Some(start) && start <= |text|
    requires text[start..] == content + Fence + post && NoEarlierOccurrence(content, Fence)
    ensures ExtractPayload(text) == Strip(content)
    ensures ExtractPayloadAsWritten(text) == Strip(content)
  {
    var close := start + |content|;
    assert content + Fence + post == content + (Fence + post);
    ClosingFenceAt(text, start, content, post);
    var fenced := text[start..close];
    assert fenced == content;
    assert Find(text, Fence, PayloadStart(text).value) == close;
    assert ExtractPayload(text) == Strip(fenced);
    assert ExtractPayloadAsWritten(text) == Strip(fenced);
  }

  /** The closing fence `find` reports for such a text is the one right
      after `content`, so the fenced slice is `content`. */
  lemma ClosingFenceAt(text: string, start: nat, content: string, post: string)
    requires start <= |text|
    requires text[start..] == content + Fence + post && NoEarlierOccurrence(content, Fence)
    ensures Find(text, Fence, start) == start + |content| <= |text|
    ensures text[start..start + |content|] == content
  {
    var before := text[..start];
    assert text == before + (content + Fence + post);
    ClosingFenceAfter(before, content, post);
    FencedSlice(text, start, content, Fence + post);
  }

  /** The search for "```" from the end of any prefix finds the first fence
      after it. */
  lemma ClosingFenceAfter(before: string, content: string, post: string)
    requires NoEarlierOccurrence(content, Fence)
    ensures Find(before + (content + Fence + post), Fence, |before|) == |before| + |content|
  {
    FenceOpensAfter(content, Fence, post);
    FindInSuffix(before, content + Fence + post, Fence);
  }

  lemma FencedSlice(text: string, start: nat, content: string, after: string)
    requires start <= |text| && text[start..] == content + after
    ensures start + |content| <= |text| && text[start..start + |content|] == content
  {
    assert text[start..start + |content|] == text[start..][..|content|];
    ConcatSplits(content, after);
  }

  /** Within a "```json" fence, the payload is the stripped content,
      whatever follows the closing fence: the text before the fence opens no
      "```json" and the content closes no "```" before the closing fence. */
  lemma JsonFencedPayload(pre: string, content: string, post: string)
    requires NoEarlierOccurrence(pre, JsonFence) && NoEarlierOccurrence(content, Fence)
    ensures ExtractPayload(pre + JsonFence + content + Fence + post) == Strip(content)
    ensures ExtractPayloadAsWritten(pre + JsonFence + content + Fence + post) == Strip(content)
  {
    var rest := content + Fence + post;
    assert pre + JsonFence + content + Fence + post == pre + JsonFence + rest;
    JsonFenceStart(pre, rest);
    ClosedPayload(pre + JsonFence + rest, |pre| + |JsonFence|, content, post);
  }

  /** Within a plain "```" fence (and no "```json" anywhere), the payload is
      the stripped content, on the same conditions. */
  lemma PlainFencedPayload(pre: string, content: string, post: string)
    requires NoEarlierOccurrence(pre, Fence) && NoEarlierOccurrence(content, Fence)
    requires !Contains(pre + Fence + content + Fence + post, JsonFence)
    ensures ExtractPayload(pre + Fence + content + Fence + post) == Strip(content)
    ensures ExtractPayloadAsWritten(pre + Fence + content + Fence + post) == Strip(content)
  {
    var rest := content + Fence + post;
    assert pre + Fence + content + Fence + post == pre + Fence + rest;
    PlainFenceStart(pre, rest);
    ClosedPayload(pre + Fence + rest, |pre| + |Fence|, content, post);
  }

  /** An opening "```json" fence that is never closed: the intended reading
      takes all the content, while the source's reading loses its last
      character. */
  lemma UnclosedJsonFence(pre: string, content: string)
    requires NoEarlierOccurrence(pre, JsonFence) && !Contains(content, Fence)
    ensures ExtractPayload(pre + JsonFence + content) == Strip(content)
    ensures ExtractPayloadAsWritten(pre + JsonFence + content)
            == if content == [] then "" else Strip(content[..|content| - 1])
  {
    var text := pre + JsonFence + content;
    JsonFenceStart(pre, content);
    assert text[|pre| + |JsonFence|..] == content;
    UnclosedPayload(text, |pre| + |JsonFence|);
  }

  /** The same for an unclosed plain "```" fence. */
  lemma UnclosedPlainFence(pre: string, content: string)
    requires NoEarlierOccurrence(pre, Fence) && !Contains(content, Fence)
    requires !Contains(pre + Fence + content, JsonFence)
    ensures ExtractPayload(pre + Fence + content) == Strip(content)
    ensures ExtractPayloadAsWritten(pre + Fence + content)
            == if content == [] then "" else Strip(content[..|content| - 1])
  {
    var text := pre + Fence + content;
    PlainFenceStart(pre, content);
    assert text[|pre| + |Fence|..] == content;
    UnclosedPayload(text, |pre| + |Fence|);
  }

  /** A reply that opens a "```json" fence around a trimmed payload (say
      `{"roadmap": []}`) and never closes it: the source hands `json.loads`
      the payload without its last character, stripped, which is shorter
      than the payload. */
  lemma UnclosedFenceDropsLastChar(pre: string, content: string)
    requires NoEarlierOccurrence(pre, JsonFence) && !Contains(content, Fence)
    requires Trimmed(content) && content != []
    ensures ExtractPayload(pre + JsonFence + content) == content
    ensures ExtractPayloadAsWritten(pre + JsonFence + content) == Strip(content[..|content| - 1])
    ensures |ExtractPayloadAsWritten(pre + JsonFence + content)| < |content|
  {
    UnclosedJsonFence(pre, content);
    StripPadded("", content, "");
    assert "" + content + "" == content;
  }

  // ---------------------------------------------------------------------
  // Validating the decoded value

  /** The decoded value is an object with a top-level "roadmap" key. */
  predicate HasRoadmapKey(v: Json) {
    v.JObject? && "roadmap" in v.fields
  }

  /** `'roadmap' in v` as Python evaluates it on what `json.loads` returns:
      a key test on a dict, an element test on a list, a substring test on
      a string, and a TypeError (None here) on anything else. */
  function RoadmapTestAsWritten(v: Json): Option<bool> {
    match v
    case JObject(f) => Some("roadmap" in f)
    case JArray(e) => Some(JString("roadmap") in e)
    case JString(s) => Some(Contains(s, "roadmap"))
    case _ => None
  }

  /** On objects the source's test is the key test. */
  lemma RoadmapTestsAgreeOnObjects(v: Json)
    requires v.JObject?
    ensures RoadmapTestAsWritten(v) == Some(HasRoadmapKey(v))
  {
  }

  /** The source's test lets through a list that merely contains the string
      "roadmap", and a string that mentions it, neither of which has a
      "roadmap" key. */
  lemma RoadmapTestAcceptsNonObjects(s: string)
    requires Contains(s, "roadmap")
    ensures RoadmapTestAsWritten(JArray([JString("roadmap")])) == Some(true)
    ensures RoadmapTestAsWritten(JString(s)) == Some(true)
    ensures !HasRoadmapKey(JArray([JString("roadmap")])) && !HasRoadmapKey(JString(s))
  {
    assert JString("roadmap") in [JString("roadmap")];
  }

  datatype ParseError = InvalidJson | MissingRoadmap | NotSearchable

  /** parse_ai_response as the source writes it. A decoding error becomes
      InvalidJson; a value the `in` test rejects is MissingRoadmap; a value
      that test cannot search (a number, a boolean, null) raises a TypeError,
      which the function does not catch: NotSearchable. */
  function ParseAiResponseAsWritten(text: string, decode: string -> Option<Json>): (r: Result<Json, ParseError>)
    ensures r == Err(InvalidJson) <==> decode(ExtractPayloadAsWritten(text)).None?
    ensures r == Err(NotSearchable) <==>
              decode(ExtractPayloadAsWritten(text)).Some?
              && RoadmapTestAsWritten(decode(ExtractPayloadAsWritten(text)).value).None?
    ensures r.Ok? <==>
              decode(ExtractPayloadAsWritten(text)).Some?
              && RoadmapTestAsWritten(decode(ExtractPayloadAsWritten(text)).value) == Some(true)
    ensures r.Ok? ==> Some(r.value) == decode(ExtractPayloadAsWritten(text))
  {
    match decode(ExtractPayloadAsWritten(text))
    case None => Err(InvalidJson)
    case Some(v) =>
      match RoadmapTestAsWritten(v)
      case None => Err(NotSearchable)
      case Some(found) => if found then Ok(v) else Err(MissingRoadmap)
  }

  /** parse_ai_response as evidently intended: the payload decodes to an
      object with a top-level "roadmap" key, and that object is the result. */
  function ParseAiResponse(text: string, decode: string -> Option<Json>): (r: Result<Json, ParseError>)
    ensures r.Ok? <==> decode(ExtractPayload(text)).Some? && HasRoadmapKey(decode(ExtractPayload(text)).value)
    ensures r.Ok? ==> HasRoadmapKey(r.value) && Some(r.value) == decode(ExtractPayload(text))
    ensures r == Err(InvalidJson) <==> decode(ExtractPayload(text)).None?
    ensures r.Err? ==> r.error != NotSearchable
  {
    match decode(ExtractPayload(text))
    case None => Err(InvalidJson)
    case Some(v) => if HasRoadmapKey(v) then Ok(v) else Err(MissingRoadmap)
  }

  /** A reply on which the two readings cannot differ: its fence, if any,
      is closed, and its payload decodes, if at all, to an object. */
  predicate ObjectReply(text: string, decode: string -> Option<Json>) {
    && (PayloadStart(text).None? || Find(text, Fence, PayloadStart(text).value) >= 0)
    && (decode(ExtractPayload(text)).Some? ==> decode(ExtractPayload(text)).value.JObject?)
  }

  /** On such a reply the source's parse and the intended one agree. */
  lemma ParsesAgreeOnObjects(text: string, decode: string -> Option<Json>)
    requires ObjectReply(text, decode)
    ensures ParseAiResponseAsWritten(text, decode) == ParseAiResponse(text, decode)
  {
    PayloadReadingsAgreeWhenClosed(text);
  }

  /** Which parse_ai_response a handler run uses: the source's, or the
      evidently intended one. */
  datatype Reading = AsWritten | Intended

  function ParseReply(reading: Reading, text: string, decode: string -> Option<Json>): Result<Json, ParseError> {
    match reading
    case AsWritten => ParseAiResponseAsWritten(text, decode)
    case Intended => ParseAiResponse(text, decode)
  }

  // ---------------------------------------------------------------------
  // The handler

  datatype RoadmapError =
    | WeakTopicsEmpty        // "weak_topics is required and cannot be empty"
    | WeakTopicsNotList      // "weak_topics must be a list"
    | TotalSolvedNotNumber   // "total_solved must be a number"
    | TopicNotString         // join raised TypeError
    | ModelCallFailed        // the model call raised
    | InvalidModelJson       // the payload did not decode
    | MissingRoadmapField    // the decoded value has no "roadmap"
    | RoadmapNotSearchable   // `in` raised TypeError on the decoded value

  predicate IsValidationError(e: RoadmapError) {
    e == WeakTopicsEmpty || e == WeakTopicsNotList || e == TotalSolvedNotNumber
  }

  /** The handler's failure kind for a reply that does not parse. */
  function ParseFailure(e: ParseError): RoadmapError {
    match e
    case InvalidJson => InvalidModelJson
    case MissingRoadmap => MissingRoadmapField
    case NotSearchable => RoadmapNotSearchable
  }

  datatype RoadmapResponse =
    | Generated(userLevel: string, totalSolved: Json, weakTopics: Json, roadmap: Json, generatedAt: string)
    | Failed(status: int, error: RoadmapError)
  {
    function StatusCode(): int {
      if Generated? then 200 else status
    }
  }

  /** A handler run: the response, and the prompt sent to the model, or None
      when the model was not called. */
  datatype Invocation = Invocation(response: RoadmapResponse, prompt: Option<string>)

  function WeakTopicsOf(event: map<string, Json>): Json {
    Get(event, "weak_topics", JArray([]))
  }

  function TotalSolvedOf(event: map<string, Json>): Json {
    Get(event, "total_solved", JNumber(0))
  }

  /** generate_learning_roadmap and the success envelope: one model call
      with `prompt`, then the reply parsed; any failure is a 500. */
  function CallModel(reading: Reading, prompt: string, level: string, total: Json, topics: Json,
                     invoke: string -> Option<string>, decode: string -> Option<Json>, now: string): (o: Invocation)
    ensures o.prompt == Some(prompt)
    ensures invoke(prompt).None? ==> o.response == Failed(500, ModelCallFailed)
    ensures o.response.Failed? ==> o.response.status == 500 && !IsValidationError(o.response.error)
    ensures o.response.Generated? <==> invoke(prompt).Some? && ParseReply(reading, invoke(prompt).value, decode).Ok?
    ensures o.response.Generated? ==>
              o.response == Generated(level, total, topics, ParseReply(reading, invoke(prompt).value, decode).value, now)
    ensures invoke(prompt).Some? && ParseReply(reading, invoke(prompt).value, decode).Err? ==>
              o.response == Failed(500, ParseFailure(ParseReply(reading, invoke(prompt).value, decode).error))
  {
    match invoke(prompt)
    case None => Invocation(Failed(500, ModelCallFailed), Some(prompt))
    case Some(text) =>
      match ParseReply(reading, text, decode)
      case Ok(roadmap) => Invocation(Generated(level, total, topics, roadmap, now), Some(prompt))
      case Err(e) => Invocation(Failed(500, ParseFailure(e)), Some(prompt))
  }

  /** A reply whose payload decodes to the list ["roadmap"]: the source
      returns that list as the roadmap, the intended reading rejects it. */
  lemma ListReplyReadings(prompt: string, level: string, total: Json, topics: Json,
                          invoke: string -> Option<string>, decode: string -> Option<Json>, now: string)
    requires invoke(prompt).Some?
    requires decode(ExtractPayloadAsWritten(invoke(prompt).value)) == Some(JArray([JString("roadmap")]))
    requires decode(ExtractPayload(invoke(prompt).value)) == Some(JArray([JString("roadmap")]))
    ensures CallModel(AsWritten, prompt, level, total, topics, invoke, decode, now).response
            == Generated(level, total, topics, JArray([JString("roadmap")]), now)
    ensures CallModel(Intended, prompt, level, total, topics, invoke, decode, now).response
            == Failed(500, MissingRoadmapField)
  {
    RoadmapTestAcceptsNonObjects("roadmap");
  }

  /** A request that passed validation: a non-empty list of topics and a
      number. */
  datatype RoadmapRequest = RoadmapRequest(topics: seq<Json>, totalSolved: Json)

  /** The handler's validation cascade, in the source's order. `weak_topics`
      defaults to an empty list and `total_solved` to 0 when absent, and the
      emptiness test comes first, so any falsy value, list or not, is
      reported as empty. */
  function ValidateRequest(event: map<string, Json>): (r: Result<RoadmapRequest, RoadmapError>)
    ensures Falsy(WeakTopicsOf(event)) ==> r == Err(WeakTopicsEmpty)
    ensures !Falsy(WeakTopicsOf(event)) && !WeakTopicsOf(event).JArray? ==> r == Err(WeakTopicsNotList)
    ensures !Falsy(WeakTopicsOf(event)) && WeakTopicsOf(event).JArray? && !IsNumber(TotalSolvedOf(event)) ==>
              r == Err(TotalSolvedNotNumber)
    ensures r.Ok? <==> !Falsy(WeakTopicsOf(event)) && WeakTopicsOf(event).JArray? && IsNumber(TotalSolvedOf(event))
    ensures r.Ok? ==> && r.value.topics != [] && WeakTopicsOf(event) == JArray(r.value.topics)
                      && r.value.totalSolved == TotalSolvedOf(event)
    ensures r.Err? ==> IsValidationError(r.error)
  {
    var topics := WeakTopicsOf(event);
    var total := TotalSolvedOf(event);
    if Falsy(topics) then Err(WeakTopicsEmpty)
    else if !topics.JArray? then Err(WeakTopicsNotList)
    else if !IsNumber(total) then Err(TotalSolvedNotNumber)
    else Ok(RoadmapRequest(topics.elems, total))
  }

  /** The level ending for a validated request. */
  function RequestLevel(req: RoadmapRequest): string
    requires IsNumber(req.totalSolved)
  {
    LevelName(DetermineUserLevel(IntValue(req.totalSolved)))
  }

  /** lambda_handler: validate, derive the level, build the prompt, call the
      model once, parse its reply and wrap the result. `now` is the response
      timestamp. With `AsWritten` this is the source's handler; with
      `Intended` it parses the reply as evidently intended. */
  function HandleRoadmap(reading: Reading, event: map<string, Json>, invoke: string -> Option<string>,
                         decode: string -> Option<Json>, now: string): (o: Invocation)
    // a request that fails validation gets a 400 and never reaches the model
    ensures ValidateRequest(event).Err? ==> o == Invocation(Failed(400, ValidateRequest(event).error), None)
    // 400 exactly for validation errors, 500 for everything else that fails
    ensures o.response.Failed? ==> (o.response.status == 400 <==> IsValidationError(o.response.error))
    ensures o.response.Failed? ==> o.response.status == 400 || o.response.status == 500
    // the model is called exactly for a valid request whose topics are all strings
    ensures o.prompt.Some? <==> ValidateRequest(event).Ok? && TopicStrings(ValidateRequest(event).value.topics).Some?
  {
    match ValidateRequest(event)
    case Err(e) => Invocation(Failed(400, e), None)
    case Ok(req) =>
      var level := RequestLevel(req);
      match TopicStrings(req.topics)
      case None => Invocation(Failed(500, TopicNotString), None)
      case Some(names) =>
        CallModel(reading, BuildPrompt(names, level), level, req.totalSolved, JArray(req.topics), invoke, decode, now)
  }

  /** What can fail after validation: a topic that is not a string fails
      before the model is called, and a failed model call is a 500. */
  lemma HandleRoadmapFailures(reading: Reading, event: map<string, Json>, invoke: string -> Option<string>,
                              decode: string -> Option<Json>, now: string)
    ensures ValidateRequest(event).Ok? && TopicStrings(ValidateRequest(event).value.topics).None? ==>
              HandleRoadmap(reading, event, invoke, decode, now) == Invocation(Failed(500, TopicNotString), None)
    ensures var o := HandleRoadmap(reading, event, invoke, decode, now);
            o.prompt.Some? && invoke(o.prompt.value).None? ==> o.response == Failed(500, ModelCallFailed)
  {
  }

  /** The prompt sent is build_prompt's for the request's topics and level,
      and every valid request whose topics are all strings sends it. */
  lemma HandleRoadmapPrompt(reading: Reading, event: map<string, Json>, invoke: string -> Option<string>,
                            decode: string -> Option<Json>, now: string)
    ensures ValidateRequest(event).Ok? && TopicStrings(ValidateRequest(event).value.topics).Some? ==>
              HandleRoadmap(reading, event, invoke, decode, now).prompt
              == Some(BuildPrompt(TopicStrings(ValidateRequest(event).value.topics).value,
                                  RequestLevel(ValidateRequest(event).value)))
  {
  }

  /** Once the model has replied, the request succeeds exactly when the
      reply parses, and otherwise fails with the parse's failure. */
  lemma HandleRoadmapParsed(reading: Reading, event: map<string, Json>, invoke: string -> Option<string>,
                            decode: string -> Option<Json>, now: string)
    ensures var o := HandleRoadmap(reading, event, invoke, decode, now);
            o.prompt.Some? && invoke(o.prompt.value).Some? ==>
              && (o.response.Generated? <==> ParseReply(reading, invoke(o.prompt.value).value, decode).Ok?)
              && (ParseReply(reading, invoke(o.prompt.value).value, decode).Err? ==>
                    o.response == Failed(500, ParseFailure(ParseReply(reading, invoke(o.prompt.value).value, decode).error)))
  {
    match ValidateRequest(event)
    case Err(_) =>
    case Ok(req) =>
      match TopicStrings(req.topics)
      case None =>
      case Some(names) =>
        var level := RequestLevel(req);
        assert HandleRoadmap(reading, event, invoke, decode, now)
            == CallModel(reading, BuildPrompt(names, level), level, req.totalSolved, JArray(req.topics), invoke, decode, now);
  }

  /** A success echoes the request, carries the parsed roadmap and the
      derived level, and is stamped with `now`. */
  lemma HandleRoadmapSuccess(reading: Reading, event: map<string, Json>, invoke: string -> Option<string>,
                             decode: string -> Option<Json>, now: string)
    ensures var o := HandleRoadmap(reading, event, invoke, decode, now);
            o.response.Generated? ==>
              && ValidateRequest(event).Ok? && o.prompt.Some? && invoke(o.prompt.value).Some?
              && ParseReply(reading, invoke(o.prompt.value).value, decode) == Ok(o.response.roadmap)
    ensures var o := HandleRoadmap(reading, event, invoke, decode, now);
            o.response.Generated? ==>
              && ValidateRequest(event).Ok?
              && o.response.weakTopics == WeakTopicsOf(event)
              && o.response.totalSolved == TotalSolvedOf(event)
              && o.response.userLevel == RequestLevel(ValidateRequest(event).value)
              && o.response.generatedAt == now
  {
  }

  /** Whatever the model does, the prompt it receives carries the derived
      level and exactly the request's topics, joined in order. */
  lemma PromptCarriesProfile(reading: Reading, event: map<string, Json>, invoke: string -> Option<string>,
                             decode: string -> Option<Json>, now: string)
    ensures HandleRoadmap(reading, event, invoke, decode, now).prompt.Some? ==>
              && ValidateRequest(event).Ok?
              && TopicStrings(ValidateRequest(event).value.topics).Some?
              && ParsePrompt(HandleRoadmap(reading, event, invoke, decode, now).prompt.value)
                 == Some((DetermineUserLevel(IntValue(ValidateRequest(event).value.totalSolved)),
                          Join(TopicStrings(ValidateRequest(event).value.topics).value, TopicSeparator)))
  {
    HandleRoadmapPrompt(reading, event, invoke, decode, now);
    if HandleRoadmap(reading, event, invoke, decode, now).prompt.Some? {
      var req := ValidateRequest(event).value;
      PromptRoundTrip(TopicStrings(req.topics).value, DetermineUserLevel(IntValue(req.totalSolved)));
    }
  }

  /** When the model's reply is one on which the parses agree, the source's
      handler and the intended one answer alike. */
  lemma ReadingsAgreeOnObjectReplies(event: map<string, Json>, invoke: string -> Option<string>,
                                     decode: string -> Option<Json>, now: string)
    ensures var o := HandleRoadmap(AsWritten, event, invoke, decode, now);
            (o.prompt.Some? && invoke(o.prompt.value).Some? ==> ObjectReply(invoke(o.prompt.value).value, decode)) ==>
              o == HandleRoadmap(Intended, event, invoke, decode, now)
  {
    match ValidateRequest(event)
    case Err(_) =>
    case Ok(req) =>
      match TopicStrings(req.topics)
      case None =>
      case Some(names) =>
        var level := RequestLevel(req);
        var prompt := BuildPrompt(names, level);
        if invoke(prompt).Some? ==> ObjectReply(invoke(prompt).value, decode) {
          CallModelReadingsAgree(prompt, level, req.totalSolved, JArray(req.topics), invoke, decode, now);
        }
  }

  /** The same for one model call. */
  lemma CallModelReadingsAgree(prompt: string, level: string, total: Json, topics: Json,
                               invoke: string -> Option<string>, decode: string -> Option<Json>, now: string)
    requires invoke(prompt).Some? ==> ObjectReply(invoke(prompt).value, decode)
    ensures CallModel(AsWritten, prompt, level, total, topics, invoke, decode, now)
         == CallModel(Intended, prompt, level, total, topics, invoke, decode, now)
  {
    if invoke(prompt).Some? {
      ParsesAgreeOnObjects(invoke(prompt).value, decode);
    }
  }

  /** The end-to-end request {"weak_topics": ["Dynamic Programming"],
      "total_solved": 35} to the source's handler: a model whose reply's
      payload decodes to an object with a roadmap yields a 200 response at
      Beginner level that echoes the request. */
  lemma BeginnerScenario(invoke: string -> Option<string>, decode: string -> Option<Json>,
                         now: string, reply: string, plan: map<string, Json>)
    requires invoke(BuildPrompt(["Dynamic Programming"], "Beginner")) == Some(reply)
    requires "roadmap" in plan && decode(ExtractPayloadAsWritten(reply)) == Some(JObject(plan))
    ensures var event := map["weak_topics" := JArray([JString("Dynamic Programming")]), "total_solved" := JNumber(35)];
            HandleRoadmap(AsWritten, event, invoke, decode, now).response
            == Generated("Beginner", JNumber(35), JArray([JString("Dynamic Programming")]), JObject(plan), now)
  {
    var event := map["weak_topics" := JArray([JString("Dynamic Programming")]), "total_solved" := JNumber(35)];
    var elems := [JString("Dynamic Programming")];
    assert WeakTopicsOf(event) == JArray(elems);
    assert TotalSolvedOf(event) == JNumber(35);
    var req := RoadmapRequest(elems, JNumber(35));
    assert ValidateRequest(event) == Ok(req);
    assert RequestLevel(req) == "Beginner";
    assert elems[1..] == [];
    assert TopicStrings(elems[1..]) == Some([]);
    var names: seq<string> := ["Dynamic Programming"];
    assert [elems[0].s] + [] == names;
    assert TopicStrings(elems) == Some(names);
    var prompt := BuildPrompt(names, "Beginner");
    assert HandleRoadmap(AsWritten, event, invoke, decode, now)
        == CallModel(AsWritten, prompt, "Beginner", JNumber(35), JArray(elems), invoke, decode, now);
    assert ParseAiResponseAsWritten(reply, decode) == Ok(JObject(plan));
  }
}
