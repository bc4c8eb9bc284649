/**
 * POST /api/chat: guards, the system prompt with the patient's recent
 * analyses, the message list, and the keyword responder that stands in for
 * the language model.
 */
module ChatRoute {
  import opened Wrappers
  import opened Text
  import opened Http

  datatype Message = Message(role: string, content: string)

  const ErgAnswer: string :=
    "ERG (Electroretinography) measures the electrical responses of your retina. The a-wave represents " +
    "photoreceptor activity, while the b-wave shows bipolar cell responses. Your ERG results help us " +
    "understand how well your cone and rod cells are functioning, which is crucial for color vision assessment."
  const FundusAnswer: string :=
    "Fundus photography captures detailed images of your retina, including the optic disc, macula, and blood " +
    "vessels. Our AI analyzes color distribution patterns and structural features that can indicate color " +
    "vision deficiencies. The combination with ERG data provides a comprehensive assessment."
  const ColourBlindnessAnswer: string :=
    "Color blindness affects how you perceive certain colors. Protanopia affects red perception, deuteranopia " +
    "affects green perception, and tritanopia affects blue perception. Our multimodal analysis combines fundus " +
    "imaging and ERG data to provide accurate diagnosis and severity assessment."
  const DefaultAnswer: string :=
    "I can help explain your medical results, ERG data interpretation, fundus image analysis, and color " +
    "blindness conditions. Please feel free to ask specific questions about your test results or any medical " +
    "terms you'd like clarified."

  /** The text the responder reads: the last message's content, or "" for an empty list. */
  function LastContent(messages: seq<Message>): (text: string)
    ensures |messages| == 0 ==> text == ""
    ensures |messages| > 0 ==> text == messages[|messages| - 1].content
  {
    if |messages| == 0 then "" else messages[|messages| - 1].content
  }

  datatype Topic = Erg | Fundus | ColourBlindness | General

  predicate MentionsColourBlindness(lower: string) {
    Contains(lower, "color blind") || Contains(lower, "protanopia") || Contains(lower, "deuteranopia")
  }

  /** The keyword a message is answered by, in priority order, on the lower-cased text. */
  function Classify(text: string): (t: Topic)
    ensures t == Erg <==> Contains(ToLower(text), "erg")
    ensures t == Fundus <==> !Contains(ToLower(text), "erg") && Contains(ToLower(text), "fundus")
    ensures t == ColourBlindness <==>
              !Contains(ToLower(text), "erg") && !Contains(ToLower(text), "fundus") && MentionsColourBlindness(ToLower(text))
    ensures t == General <==>
              !Contains(ToLower(text), "erg") && !Contains(ToLower(text), "fundus") && !MentionsColourBlindness(ToLower(text))
  {
    var lower := ToLower(text);
    if Contains(lower, "erg") then Erg
    else if Contains(lower, "fundus") then Fundus
    else if MentionsColourBlindness(lower) then ColourBlindness
    else General
  }

  function Answer(t: Topic): string {
    match t
    case Erg => ErgAnswer
    case Fundus => FundusAnswer
    case ColourBlindness => ColourBlindnessAnswer
    case General => DefaultAnswer
  }

  /** The simulated model call: an if-chain over the last message. */
  function Respond(messages: seq<Message>): (reply: string)
    ensures reply == Answer(Classify(LastContent(messages)))
  {
    var userMessage := ToLower(LastContent(messages));
    if Contains(userMessage, "erg") then ErgAnswer
    else if Contains(userMessage, "fundus") then FundusAnswer
    else if Contains(userMessage, "color blind") || Contains(userMessage, "protanopia") ||
            Contains(userMessage, "deuteranopia") then ColourBlindnessAnswer
    else DefaultAnswer
  }

  /** "erg" is matched as a substring, so "Allergy" gets the ERG answer. */
  lemma AllergyAnsweredAsErg()
    ensures Classify("Allergy") == Erg
  {
    assert ToLower("Allergy") == "allergy";
    assert OccursAt("allergy", "erg", 3);
    ContainsAt("allergy", "erg", 3);
  }

  /** A message naming both ERG and fundus gets the ERG answer. */
  lemma ErgTakesPriority(text: string)
    requires Contains(ToLower(text), "erg") && Contains(ToLower(text), "fundus")
    ensures Respond([Message("user", text)]) == ErgAnswer
  {
  }

  /** One analysis passed as context. */
  datatype ContextEntry = ContextEntry(colorBlindnessType: string, severityLevel: string,
                                       combinedConfidence: real, fundusConfidence: real, ergConfidence: real)

  const BasePrompt: string :=
    "You are a medical AI assistant specializing in color blindness detection and retinal analysis. You help " +
    "patients understand their ERG (Electroretinography) results, fundus image analysis, and multimodal AI " +
    "predictions.\n\nKey responsibilities:\n" +
    "- Explain ERG parameters (a-wave, b-wave, implicit time, photopic/scotopic responses)\n" +
    "- Interpret fundus image findings (optic disc, macula, vessel analysis)\n" +
    "- Clarify color blindness types (Normal, Protanopia, Deuteranopia, Tritanopia)\n" +
    "- Provide confidence score explanations\n" +
    "- Use simple, patient-friendly language\n" +
    "- Always recommend consulting with an ophthalmologist for medical decisions\n\nGuidelines:\n" +
    "- Be empathetic and supportive\n" +
    "- Explain medical terms clearly\n" +
    "- Focus on education, not diagnosis\n" +
    "- Encourage professional medical consultation"

  const ContextHeader: string := "\n\nPatient's Recent Analysis Results:\n"

  /** The numbered block for one analysis; percentages with one decimal. */
  function ContextBlock(n: nat, e: ContextEntry): string {
    "Analysis " + NatToString(n) + ":\n- Color Blindness Type: " + e.colorBlindnessType +
    "\n- Severity: " + e.severityLevel +
    "\n- Combined Confidence: " + ToFixed1(e.combinedConfidence * 100.0) +
    "%\n- Fundus Confidence: " + ToFixed1(e.fundusConfidence * 100.0) +
    "%\n- ERG Confidence: " + ToFixed1(e.ergConfidence * 100.0) + "%\n"
  }

  /**
   * The blocks of the context, numbered from 1, in order. The block template
   * is a parameter so that the properties below hold for any rendering of
   * the numbers; the handler uses ContextBlock.
   */
  function Blocks(block: (nat, ContextEntry) -> string, context: seq<ContextEntry>): string {
    if |context| == 0 then ""
    else Blocks(block, context[..|context| - 1]) + block(|context|, context[|context| - 1])
  }

  /** The base text, followed by the header and the blocks when there is any context. */
  function SystemPrompt(base: string, block: (nat, ContextEntry) -> string, context: seq<ContextEntry>): string {
    base + if |context| > 0 then ContextHeader + Blocks(block, context) else ""
  }

  lemma OccursInPrefix(a: string, b: string, needle: string, i: nat)
    requires OccursAt(a, needle, i)
    ensures OccursAt(a + b, needle, i)
  {
    assert (a + b)[i..i + |needle|] == a[i..i + |needle|];
  }

  lemma OccursAfter(a: string, b: string)
    ensures OccursAt(a + b, b, |a|)
  {
    assert (a + b)[|a|..|a| + |b|] == b;
  }

  lemma OccursInSuffix(a: string, b: string, needle: string, i: nat)
    requires OccursAt(b, needle, i)
    ensures OccursAt(a + b, needle, |a| + i)
  {
    assert (a + b)[|a| + i..|a| + i + |needle|] == b[i..i + |needle|];
  }

  lemma AppendAssoc(a: string, b: string, c: string)
    ensures (a + b) + c == a + (b + c)
  {
  }

  /** The block of analysis i (numbered i + 1) sits right after the blocks of the analyses before it. */
  lemma {:induction false} BlockOccurs(block: (nat, ContextEntry) -> string, context: seq<ContextEntry>, i: nat)
    requires i < |context|
    ensures OccursAt(Blocks(block, context), block(i + 1, context[i]), |Blocks(block, context[..i])|)
    decreases |context|
  {
    var n := |context| - 1;
    assert context[..n] == context[..|context| - 1];
    if i == n {
      OccursAfter(Blocks(block, context[..i]), block(i + 1, context[i]));
    } else {
      var init := context[..n];
      assert init[..i] == context[..i] && init[i] == context[i];
      BlockOccurs(block, init, i);
      OccursInPrefix(Blocks(block, init), block(|context|, context[n]), block(i + 1, context[i]),
                     |Blocks(block, context[..i])|);
    }
  }

  /**
   * Without context the prompt is the fixed base text; with context it
   * holds one numbered block per analysis, in context order.
   */
  lemma PromptCarriesEveryAnalysis(base: string, block: (nat, ContextEntry) -> string, context: seq<ContextEntry>)
    ensures |context| == 0 ==> SystemPrompt(base, block, context) == base
    ensures StartsWith(SystemPrompt(base, block, context), base)
    ensures forall i :: 0 <= i < |context| ==> Contains(SystemPrompt(base, block, context), block(i + 1, context[i]))
  {
    var p := SystemPrompt(base, block, context);
    var rest := if |context| > 0 then ContextHeader + Blocks(block, context) else "";
    assert p == base + rest;
    assert p[..|base|] == base;
    if |context| > 0 {
      AppendAssoc(base, ContextHeader, Blocks(block, context));
      forall i | 0 <= i < |context|
        ensures Contains(p, block(i + 1, context[i]))
      {
        BlockOccurs(block, context, i);
        OccursInSuffix(base + ContextHeader, Blocks(block, context), block(i + 1, context[i]),
                       |Blocks(block, context[..i])|);
        ContainsAt(p, block(i + 1, context[i]), |base + ContextHeader| + |Blocks(block, context[..i])|);
      }
    }
  }

  /** The prompt is built by appending to a string, one block per analysis. */
  method BuildSystemPrompt(base: string, block: (nat, ContextEntry) -> string, context: seq<ContextEntry>)
    returns (prompt: string)
    ensures prompt == SystemPrompt(base, block, context)
  {
    prompt := base;
    if |context| > 0 {
      prompt := prompt + ContextHeader;
      var i := 0;
      while i < |context|
        invariant 0 <= i <= |context|
        invariant prompt == base + ContextHeader + Blocks(block, context[..i])
      {
        assert context[..i + 1][..i] == context[..i];
        AppendAssoc(base + ContextHeader, Blocks(block, context[..i]), block(i + 1, context[i]));
        prompt := prompt + block(i + 1, context[i]);
        i := i + 1;
      }
      assert context[..|context|] == context;
    }
  }

  /** The model's input: the system prompt, the history in order, the user's message last. */
  function ChatMessages(prompt: string, history: seq<Message>, message: string): (m: seq<Message>)
    ensures |m| == |history| + 2
    ensures m[0] == Message("system", prompt)
    ensures m[1..|m| - 1] == history
    ensures m[|m| - 1] == Message("user", message)
  {
    [Message("system", prompt)] + history + [Message("user", message)]
  }

  /** The answer depends on the user's message alone, never on the prompt or the history. */
  lemma ReplyDependsOnlyOnMessage(prompt: string, history: seq<Message>, message: string)
    ensures Respond(ChatMessages(prompt, history, message)) == Answer(Classify(message))
  {
  }

  /** The JSON body; an unparsable body makes request.json() throw. */
  datatype ChatRequest =
    | Malformed
    | ChatBody(message: Option<string>, context: Option<seq<ContextEntry>>, history: Option<seq<Message>>)

  /**
   * The handler: 401 before anything is read, 400 without a message, and
   * 500 when the body cannot be parsed or the history is missing (mapping
   * over it throws).
   */
  method Post(authenticated: bool, request: ChatRequest) returns (reply: Reply)
    ensures !authenticated ==> reply == Unauthorized
    ensures authenticated && request.Malformed? ==> reply == Error(500, "Failed to process chat message")
    ensures authenticated && request.ChatBody? && !Truthy(request.message) ==>
              reply == Error(400, "Message is required")
    ensures authenticated && request.ChatBody? && Truthy(request.message) && request.history.None? ==>
              reply == Error(500, "Failed to process chat message")
    ensures authenticated && request.ChatBody? && Truthy(request.message) && request.history.Some? ==>
              reply == Ok(Answer(Classify(request.message.value)))
  {
    if !authenticated {
      return Unauthorized;
    }
    if request.Malformed? {
      return Error(500, "Failed to process chat message");
    }
    if !Truthy(request.message) {
      return Error(400, "Message is required");
    }
    var context := if request.context.Some? then request.context.value else [];
    var systemPrompt := BuildSystemPrompt(BasePrompt, ContextBlock, context);
    if request.history.None? {
      return Error(500, "Failed to process chat message");
    }
    var messages := ChatMessages(systemPrompt, request.history.value, request.message.value);
    ReplyDependsOnlyOnMessage(systemPrompt, request.history.value, request.message.value);
    reply := Ok(Respond(messages));
  }
}
