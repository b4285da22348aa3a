/**
  Prompt assembly: the text sent to the text-generation service is a fixed
  template with four holes (topic, story, result, tone). The template is a
  sequence of literal text and slots; rendering concatenates the literal text
  with the slot values in order.
 */
module Prompt {

  import opened Optional
  import opened JsValues

  /** The four places in the template where request data is substituted. */
  datatype Hole = TopicHole | StoryHole | ResultHole | ToneHole

  datatype Segment = Text(text: string) | Slot(hole: Hole)

  /** The strings substituted into the holes. */
  datatype Filling = Filling(topic: string, story: string, result: string, tone: string) {
    function Of(h: Hole): string {
      match h
      case TopicHole => topic
      case StoryHole => story
      case ResultHole => result
      case ToneHole => tone
    }
  }

  function Piece(seg: Segment, f: Filling): string {
    match seg
    case Text(t) => t
    case Slot(h) => f.Of(h)
  }

  /** The template with every slot replaced by its value. */
  function Render(t: seq<Segment>, f: Filling): string
    decreases |t|
  {
    if |t| == 0 then "" else Piece(t[0], f) + Render(t[1..], f)
  }

  /** Rendering distributes over concatenation of templates. */
  lemma {:induction false} RenderAppend(a: seq<Segment>, b: seq<Segment>, f: Filling)
    ensures Render(a + b, f) == Render(a, f) + Render(b, f)
    decreases |a|
  {
    if |a| > 0 {
      assert (a + b)[0] == a[0];
      assert (a + b)[1..] == a[1..] + b;
      RenderAppend(a[1..], b, f);
    } else {
      assert a + b == b;
    }
  }

  /** `sub` occurs in `s` starting at position `at`. */
  predicate OccursAt(s: string, sub: string, at: nat) {
    at + |sub| <= |s| && s[at..at + |sub|] == sub
  }

  /**
    The value of a slot appears verbatim in the rendered text, right after the
    rendering of the segments before it.
   */
  lemma SlotVerbatim(t: seq<Segment>, f: Filling, i: nat)
    requires i < |t| && t[i].Slot?
    ensures OccursAt(Render(t, f), f.Of(t[i].hole), |Render(t[..i], f)|)
  {
    assert t == t[..i] + ([t[i]] + t[i + 1..]);
    RenderAppend(t[..i], [t[i]] + t[i + 1..], f);
    RenderAppend([t[i]], t[i + 1..], f);
    assert Render([t[i]], f) == f.Of(t[i].hole) by {
      assert [t[i]][1..] == [];
    }
  }

  /** Two fillings that agree on every hole used by a template render it identically. */
  lemma {:induction false} RenderUsesOnlySlots(t: seq<Segment>, f: Filling, g: Filling)
    requires forall i :: 0 <= i < |t| && t[i].Slot? ==> f.Of(t[i].hole) == g.Of(t[i].hole)
    ensures Render(t, f) == Render(t, g)
    decreases |t|
  {
    if |t| > 0 {
      assert forall i :: 0 <= i < |t[1..]| ==> t[1..][i] == t[i + 1];
      RenderUsesOnlySlots(t[1..], f, g);
    }
  }

  // ---------------------------------------------------------------------------
  // The post template of createLinkedInPrompt
  // ---------------------------------------------------------------------------

  const Intro: string :=
    "You are an expert LinkedIn content creator. Create a highly engaging LinkedIn post using these specific strategies:\n"
    + "\n"
    + "**MANDATORY STRATEGIES:**\n"
    + "1. **Open with a bold statement or confession** - Start with something attention-grabbing\n"
    + "2. **Break information into single lines** - Use short, punchy lines for readability\n"
    + "3. **Share personal insights and stories** - Make it relatable and valuable\n"
    + "4. **Close with a clear call to action** - Ask a question to encourage comments\n"
    + "5. **Use strategic formatting** - Use arrows (→), emojis, and line breaks\n"
    + "\n"
    + "**INPUT DETAILS:**\n"
    + "- Topic: "

  const Closing: string :=
    "\n"
    + "\n"
    + "**FORMATTING REQUIREMENTS:**\n"
    + "- Start with a bold, attention-grabbing opening line\n"
    + "- Use single lines separated by line breaks\n"
    + "- Include 2-3 relevant emojis (don't overuse)\n"
    + "- Use arrows (→) for key points\n"
    + "- End with an engaging question\n"
    + "- Add 3-5 relevant hashtags at the end\n"
    + "- Keep total length under 1300 characters\n"
    + "\n"
    + "**EXAMPLE STRUCTURE:**\n"
    + "[Bold opening statement]\n"
    + "\n"
    + "The situation:\n"
    + "→ [Context line 1]\n"
    + "→ [Context line 2]\n"
    + "\n"
    + "What I learned:\n"
    + "→ [Key insight 1]  \n"
    + "→ [Key insight 2]\n"
    + "→ [Key insight 3]\n"
    + "\n"
    + "The result:\n"
    + "→ [Outcome or impact]\n"
    + "\n"
    + "[Engaging question for comments]\n"
    + "\n"
    + "#Hashtag1 #Hashtag2 #Hashtag3\n"
    + "\n"
    + "**IMPORTANT:** Make it authentic, valuable, and conversation-starting. Focus on the human element and practical insights others can use.\n"
    + "\n"
    + "Generate the LinkedIn post now:"

  const StoryLabel: string := "\n- Story/Experience: "
  const ResultLabel: string := "\n- Specific Result: "
  const ToneLabel: string := "\n- Tone: "

  /** The literal texts around the four holes: before the topic, between holes, and after the tone. */
  datatype Wording = Wording(lead: string, afterTopic: string, afterStory: string, afterResult: string, tail: string)

  /** The template with the four holes in order, separated by the texts of `w`. */
  function Frame(w: Wording): seq<Segment> {
    [ Text(w.lead), Slot(TopicHole),
      Text(w.afterTopic), Slot(StoryHole),
      Text(w.afterStory), Slot(ResultHole),
      Text(w.afterResult), Slot(ToneHole),
      Text(w.tail) ]
  }

  /** The wording of the post prompt. */
  const PostWording: Wording := Wording(Intro, StoryLabel, ResultLabel, ToneLabel, Closing)

  /** One step of rendering a suffix of a template. */
  lemma RenderFrom(t: seq<Segment>, k: nat, f: Filling)
    requires k < |t|
    ensures Render(t[k..], f) == Piece(t[k], f) + Render(t[k + 1..], f)
  {
    assert t[k..][0] == t[k];
    assert t[k..][1..] == t[k + 1..];
  }

  /** A four-hole frame renders to its texts interleaved with the four values. */
  lemma RenderFrame(w: Wording, f: Filling)
    ensures Render(Frame(w), f)
         == w.lead + (f.topic + (w.afterTopic + (f.story + (w.afterStory + (f.result + (w.afterResult + (f.tone + w.tail)))))))
  {
    var t := Frame(w);
    assert t[9..] == [];
    RenderFrom(t, 8, f);
    RenderFrom(t, 7, f);
    RenderFrom(t, 6, f);
    RenderFrom(t, 5, f);
    RenderFrom(t, 4, f);
    RenderFrom(t, 3, f);
    RenderFrom(t, 2, f);
    RenderFrom(t, 1, f);
    RenderFrom(t, 0, f);
    assert t[0..] == t;
  }

  /** `v` occurs in `p + (v + rest)` right after `p`. */
  lemma OccursAfter(p: string, v: string, rest: string)
    ensures OccursAt(p + (v + rest), v, |p|)
  {
    assert (p + (v + rest))[|p|..|p| + |v|] == v;
  }

  // ---------------------------------------------------------------------------
  // Tone resolution
  // ---------------------------------------------------------------------------

  const DefaultTone: string := "professional and engaging"

  /** The four tone keys and their phrases; no other key is defined. */
  const ToneTable: map<string, string> := map[
    "professional" := "professional, inspiring, and business-focused",
    "personal" := "personal, authentic, and relatable",
    "educational" := "educational, informative, and value-driven",
    "motivational" := "motivational, energetic, and encouraging"
  ]

  /** Only a string value can name a tone key: every other value's string form is not a key. */
  lemma ToneKeyIsString(v: JsValue)
    ensures ToString(v).Success? && ToString(v).value in ToneTable ==> v.Str?
  {
  }

  /** `toneInstructions[tone]`: the table entry under the key ToString(tone), or undefined. */
  function LookupTone(tone: JsValue): Result<JsValue, string> {
    var k :- ToString(tone);
    Success(if k in ToneTable then Str(ToneTable[k]) else Undefined)
  }

  /** `toneInstructions[tone] || "professional and engaging"`; Failure when the key conversion throws. */
  function ResolveTone(tone: JsValue): (r: Result<string, string>)
    ensures r.Success? <==> Convertible(tone)
    ensures r.Failure? ==> r.error == CannotConvert
    ensures tone.Str? && tone.s in ToneTable ==> r == Success(ToneTable[tone.s])
    ensures Convertible(tone) && !(tone.Str? && tone.s in ToneTable) ==> r == Success(DefaultTone)
    ensures r.Success? ==> r.value == DefaultTone || r.value in ToneTable.Values
  {
    ToneKeyIsString(tone);
    var p :- LookupTone(tone);
    if Truthy(p) then ToString(p) else Success(DefaultTone)
  }

  /**
    Each tone phrase is reached from exactly one value, the string naming its
    key, and the default is reached from every other convertible value.
   */
  lemma ToneResolvesUniquely(tone: JsValue, k: string)
    requires k in ToneTable
    ensures ResolveTone(tone) == Success(ToneTable[k]) <==> tone == Str(k)
    ensures ResolveTone(tone) == Success(DefaultTone) <==> Convertible(tone) && !(tone.Str? && tone.s in ToneTable)
  {
  }

  // ---------------------------------------------------------------------------
  // Field substitution
  // ---------------------------------------------------------------------------

  const DefaultTopic: string := "Professional experience"
  const DefaultResult: string := "Not specified"

  /** `${v || fallback}`: the string form of `v` when it is truthy, else the fallback. */
  function OrElse(v: JsValue, fallback: string): (r: Result<string, string>)
    ensures !Truthy(v) ==> r == Success(fallback)
    ensures Truthy(v) ==> r == ToString(v)
    ensures r.Success? <==> Convertible(v)
    ensures v.Str? && v.s != "" ==> r == Success(v.s)
    ensures v.Num? && v.n != 0 ==> r.Success? && ParseInt(r.value) == Some(v.n)
  {
    if Truthy(v) then ToString(v) else Success(fallback)
  }

  /** The four fields can all be converted to strings. */
  predicate AllConvertible(topic: JsValue, content: JsValue, result: JsValue, tone: JsValue) {
    Convertible(topic) && Convertible(content) && Convertible(result) && Convertible(tone)
  }

  /**
    The strings createLinkedInPrompt substitutes for its four arguments, in
    its evaluation order: the tone lookup, then topic, content and result.
   */
  function PromptFilling(topic: JsValue, content: JsValue, result: JsValue, tone: JsValue): (r: Result<Filling, string>)
    ensures r.Success? <==> AllConvertible(topic, content, result, tone)
    ensures r.Failure? ==> r.error == CannotConvert
    ensures r.Success? ==>
      && OrElse(topic, DefaultTopic) == Success(r.value.topic)
      && ToString(content) == Success(r.value.story)
      && OrElse(result, DefaultResult) == Success(r.value.result)
      && ResolveTone(tone) == Success(r.value.tone)
  {
    var toneText :- ResolveTone(tone);
    var topicText :- OrElse(topic, DefaultTopic);
    var story :- ToString(content);
    var resultText :- OrElse(result, DefaultResult);
    Success(Filling(topicText, story, resultText, toneText))
  }

  /** Offsets of the four substituted values in a prompt rendered with wording `w`. */
  function TopicAt(w: Wording): nat { |w.lead| }
  function StoryAt(w: Wording, f: Filling): nat { TopicAt(w) + |f.topic| + |w.afterTopic| }
  function ResultAt(w: Wording, f: Filling): nat { StoryAt(w, f) + |f.story| + |w.afterStory| }
  function ToneAt(w: Wording, f: Filling): nat { ResultAt(w, f) + |f.result| + |w.afterResult| }

  /** The prompt for the given request fields under wording `w`, or the message of the conversion error. */
  function BuildPrompt(w: Wording, topic: JsValue, content: JsValue, result: JsValue, tone: JsValue): Result<string, string> {
    var f :- PromptFilling(topic, content, result, tone);
    Success(Render(Frame(w), f))
  }

  /**
    A prompt is built exactly when all four fields convert to strings. In it,
    each substituted value appears verbatim at its place, and nothing but the
    wording and the four values is present.
   */
  lemma BuildPromptSlots(w: Wording, topic: JsValue, content: JsValue, result: JsValue, tone: JsValue)
    ensures BuildPrompt(w, topic, content, result, tone).Success? <==> AllConvertible(topic, content, result, tone)
    ensures BuildPrompt(w, topic, content, result, tone).Success? ==>
      var r := BuildPrompt(w, topic, content, result, tone).value;
      var f := PromptFilling(topic, content, result, tone).value;
      && OccursAt(r, f.topic, TopicAt(w))
      && OccursAt(r, f.story, StoryAt(w, f))
      && OccursAt(r, f.result, ResultAt(w, f))
      && OccursAt(r, f.tone, ToneAt(w, f))
      && |r| == ToneAt(w, f) + |f.tone| + |w.tail|
      && r == w.lead + (f.topic + (w.afterTopic + (f.story + (w.afterStory + (f.result + (w.afterResult + (f.tone + w.tail)))))))
  {
    var pf := PromptFilling(topic, content, result, tone);
    if pf.Success? {
      FrameSlots(w, pf.value);
      RenderFrame(w, pf.value);
    }
  }

  /** createLinkedInPrompt(topic, content, result, tone): the post wording filled in. */
  function CreateLinkedInPrompt(topic: JsValue, content: JsValue, result: JsValue, tone: JsValue): Result<string, string> {
    BuildPrompt(PostWording, topic, content, result, tone)
  }

  /** Where each slot of a four-hole frame lands, and the rendered length. */
  lemma FrameSlots(w: Wording, f: Filling)
    ensures var r := Render(Frame(w), f);
      && OccursAt(r, f.topic, TopicAt(w))
      && OccursAt(r, f.story, StoryAt(w, f))
      && OccursAt(r, f.result, ResultAt(w, f))
      && OccursAt(r, f.tone, ToneAt(w, f))
      && |r| == ToneAt(w, f) + |f.tone| + |w.tail|
  {
    RenderFrame(w, f);
    var t4 := f.tone + w.tail;
    var t3 := f.result + (w.afterResult + t4);
    var t2 := f.story + (w.afterStory + t3);
    OccursAfter(w.lead, f.topic, w.afterTopic + t2);
    OccursAfter3(w.lead, f.topic, w.afterTopic, f.story, w.afterStory + t3);
    OccursAfter5(w.lead, f.topic, w.afterTopic, f.story, w.afterStory, f.result, w.afterResult + t4);
    OccursAfter7(w.lead, f.topic, w.afterTopic, f.story, w.afterStory, f.result, w.afterResult, f.tone, w.tail);
  }

  /** `v` occurs after three leading strings. */
  lemma OccursAfter3(a: string, b: string, c: string, v: string, rest: string)
    ensures OccursAt(a + (b + (c + (v + rest))), v, |a| + |b| + |c|)
  {
    assert a + (b + (c + (v + rest))) == (a + b + c) + (v + rest);
    OccursAfter(a + b + c, v, rest);
  }

  /** `v` occurs after five leading strings. */
  lemma OccursAfter5(a: string, b: string, c: string, d: string, e: string, v: string, rest: string)
    ensures OccursAt(a + (b + (c + (d + (e + (v + rest))))), v, |a| + |b| + |c| + |d| + |e|)
  {
    assert a + (b + (c + (d + (e + (v + rest))))) == (a + b + c + d + e) + (v + rest);
    OccursAfter(a + b + c + d + e, v, rest);
  }

  /** `v` occurs after seven leading strings. */
  lemma OccursAfter7(a: string, b: string, c: string, d: string, e: string, g: string, h: string, v: string, rest: string)
    ensures OccursAt(a + (b + (c + (d + (e + (g + (h + (v + rest))))))), v, |a| + |b| + |c| + |d| + |e| + |g| + |h|)
  {
    assert a + (b + (c + (d + (e + (g + (h + (v + rest))))))) == (a + b + c + d + e + g + h) + (v + rest);
    OccursAfter(a + b + c + d + e + g + h, v, rest);
  }

  /**
    With the other fields fixed, a built prompt determines the story text: two
    contents give the same prompt only if their string forms are equal.
   */
  lemma StoryDetermined(w: Wording, topic: JsValue, c1: JsValue, c2: JsValue, result: JsValue, tone: JsValue)
    requires BuildPrompt(w, topic, c1, result, tone).Success?
    requires BuildPrompt(w, topic, c1, result, tone) == BuildPrompt(w, topic, c2, result, tone)
    ensures ToString(c1) == ToString(c2)
    ensures c1.Str? && c2.Str? ==> c1 == c2
  {
    BuildPromptSlots(w, topic, c1, result, tone);
    BuildPromptSlots(w, topic, c2, result, tone);
    var f1 := PromptFilling(topic, c1, result, tone).value;
    var f2 := PromptFilling(topic, c2, result, tone).value;
    var r := BuildPrompt(w, topic, c1, result, tone).value;
    assert StoryAt(w, f1) == StoryAt(w, f2);
    assert |f1.story| == |f2.story|;
    assert f1.story == r[StoryAt(w, f1)..StoryAt(w, f1) + |f1.story|] == f2.story;
  }
}
