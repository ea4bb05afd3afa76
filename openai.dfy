/**
 * The language-model service: the guard in front of the embedding call, the
 * chat-completion request and its fallbacks, the system prompt assembled from
 * a workspace's AI settings, the knowledge-base context, the token budget per
 * response length, the reading of a workflow analysis, and the top-k search
 * over document embeddings.  The provider itself (embeddings, completions,
 * JSON decoding, cosine similarity) enters as function parameters.
 */
module OpenAI {
  import opened Text
  import opened Ranking
  import opened DocumentChunking

  // ---------------------------------------------------------------------
  // Embeddings
  // ---------------------------------------------------------------------

  const MinEmbeddingText: nat := 3
  const MaxEmbeddingText: nat := 8000

  /** The text sent to the provider: none for a trimmed text under 3 characters, else the trimmed text cut to 8000. */
  function EmbeddingInput(text: string): (r: Option<string>)
    ensures r.None? <==> |Strip(text)| < MinEmbeddingText
    ensures r.Some? ==> StartsWith(Strip(text), r.value)
    ensures r.Some? ==> MinEmbeddingText <= |r.value| <= MaxEmbeddingText
    ensures r.Some? && |Strip(text)| <= MaxEmbeddingText ==> r.value == Strip(text)
  {
    var clean := Strip(text);
    if |clean| < MinEmbeddingText then None
    else if |clean| > MaxEmbeddingText then Some(clean[..MaxEmbeddingText])
    else Some(clean)
  }

  /**
   * `generate_embedding`; `provider` answers `None` when the call raises.
   * A too-short text gives no vector whatever the provider would say; the
   * vector returned is exactly the provider's answer on the prepared text; an
   * error gives no vector.
   */
  function GenerateEmbedding(text: string, provider: string -> Option<seq<real>>): (r: seq<real>)
    ensures |Strip(text)| < MinEmbeddingText ==> r == []
    ensures r != [] ==> EmbeddingInput(text).Some? && provider(EmbeddingInput(text).value) == Some(r)
    ensures EmbeddingInput(text).Some? && provider(EmbeddingInput(text).value).None? ==> r == []
    ensures EmbeddingInput(text).Some? && provider(EmbeddingInput(text).value).Some? ==>
      r == provider(EmbeddingInput(text).value).value
  {
    match EmbeddingInput(text)
    case None => []
    case Some(input) =>
      match provider(input)
      case None => []
      case Some(e) => e
  }

  /** Without a usable text, two providers give the same answer: the provider is not consulted. */
  lemma ShortTextSkipsProvider(text: string, p1: string -> Option<seq<real>>, p2: string -> Option<seq<real>>)
    requires |Strip(text)| < MinEmbeddingText
    ensures GenerateEmbedding(text, p1) == GenerateEmbedding(text, p2) == []
  {
  }

  // ---------------------------------------------------------------------
  // AI settings and the system prompt
  // ---------------------------------------------------------------------

  /**
   * The settings dictionary a workspace passes.  Keys read only for their
   * truth value are a `string` ("" when missing or empty) or a `bool`; keys
   * read with a default are an `Option`.
   */
  datatype AISettings = AISettings(
    systemPrompt: Option<string>,
    businessName: string,
    businessType: string,
    businessDescription: string,
    tone: Option<string>,
    responseLength: Option<string>,
    language: Option<string>,
    includeEmojis: bool,
    formalStyle: bool,
    friendlyApproach: bool,
    detailedResponses: bool,
    customInstructions: string,
    maxResponseTokens: Option<int>,
    temperature: Option<real>,
    fallbackMessage: Option<string>)

  /** The fields of a knowledge-base document that the prompt helpers and the search read. */
  datatype KnowledgeDoc = KnowledgeDoc(title: string, content: string, documentType: DocumentType, embedding: seq<real>)

  const DefaultSystemPrompt: string := "You are a helpful assistant."
  const KnowledgePreview: nat := 500

  const ProfessionalTone: string := "\n\nMaintain a professional and business-like tone."
  const FriendlyTone: string := "\n\nUse a warm, friendly, and approachable tone."
  const CasualTone: string := "\n\nUse a casual and conversational tone."
  const PoliteTone: string := "\n\nBe polite, respectful, and courteous in all interactions."
  const ShortLength: string := "\n\nKeep responses concise and to the point."
  const MediumLength: string := "\n\nProvide detailed but not lengthy responses."
  const LongLength: string := "\n\nProvide comprehensive and detailed responses."
  const EmojiStyle: string := "\n\nInclude relevant emojis in your responses to make them more engaging."
  const FormalStyle: string := "\n\nUse formal language and avoid casual expressions."
  const FriendlyStyle: string := "\n\nBe warm and friendly in your interactions."
  const DetailedStyle: string := "\n\nProvide detailed explanations and comprehensive information."
  const DescriptionLead: string := "\n\nBusiness description: "
  const CustomLead: string := "\n\nAdditional instructions: "
  const KnowledgeHeader: string := "\n\nContext from knowledge base:"

  function BasePrompt(settings: AISettings): string
  {
    match settings.systemPrompt
    case None => DefaultSystemPrompt
    case Some(p) => p
  }

  function ToneOf(settings: AISettings): string
  {
    match settings.tone case None => "polite" case Some(t) => t
  }

  function LengthOf(settings: AISettings): string
  {
    match settings.responseLength case None => "short" case Some(l) => l
  }

  function LanguageOf(settings: AISettings): string
  {
    match settings.language case None => "english" case Some(l) => l
  }

  /** The instruction for a tone, for the four tones that have one. */
  function ToneText(tone: string): Option<string>
  {
    if tone == "professional" then Some(ProfessionalTone)
    else if tone == "friendly" then Some(FriendlyTone)
    else if tone == "casual" then Some(CasualTone)
    else if tone == "polite" then Some(PoliteTone)
    else None
  }

  /** The instruction for a response length, for the three lengths that have one. */
  function LengthText(length: string): Option<string>
  {
    if length == "short" then Some(ShortLength)
    else if length == "medium" then Some(MediumLength)
    else if length == "long" then Some(LongLength)
    else None
  }

  /** The business line: the name, then the type when there is one. */
  function BusinessText(settings: AISettings): string
  {
    "\n\nYou work for " + settings.businessName
    + (if settings.businessType != "" then ", a " + settings.businessType + " business" else "") + "."
  }

  function LanguageText(language: string): string
  {
    "\n\nRespond in " + Title(language) + "."
  }

  function WorkflowText(workflowJson: string): string
  {
    "\n\nWorkflow Context: " + workflowJson + "\n\nFollow the workflow steps and guide the conversation accordingly."
  }

  /** One line per context document: its title and the first 500 characters of its content. */
  function KnowledgeLine(d: KnowledgeDoc): string
  {
    "\n- " + d.title + ": " + Take(d.content, KnowledgePreview) + "..."
  }

  function KnowledgeLines(docs: seq<KnowledgeDoc>, n: nat): string
    requires n <= |docs|
  {
    if n == 0 then "" else KnowledgeLines(docs, n - 1) + KnowledgeLine(docs[n - 1])
  }

  function When(present: bool, text: string): Option<string>
  {
    if present then Some(text) else None
  }

  /** The parts of the system prompt, in the order they are appended. */
  datatype SectionKind = Business | Description | Tone | Length | Language | Emojis | Formal | Friendly
                       | Detailed | Custom | Workflow | Knowledge

  const SectionCount: nat := 12

  function Rank(k: SectionKind): (n: nat)
    ensures n < SectionCount
  {
    match k
    case Business => 0 case Description => 1 case Tone => 2 case Length => 3
    case Language => 4 case Emojis => 5 case Formal => 6 case Friendly => 7
    case Detailed => 8 case Custom => 9 case Workflow => 10 case Knowledge => 11
  }

  function KindAt(i: nat): (k: SectionKind)
    requires i < SectionCount
    ensures Rank(k) == i
  {
    if i == 0 then Business else if i == 1 then Description else if i == 2 then Tone
    else if i == 3 then Length else if i == 4 then Language else if i == 5 then Emojis
    else if i == 6 then Formal else if i == 7 then Friendly else if i == 8 then Detailed
    else if i == 9 then Custom else if i == 10 then Workflow else Knowledge
  }

  function BusinessPart(settings: AISettings): Option<string>
  {
    When(settings.businessName != "", BusinessText(settings))
  }

  function DescriptionPart(settings: AISettings): Option<string>
  {
    When(settings.businessDescription != "", DescriptionLead + settings.businessDescription)
  }

  function LanguagePart(settings: AISettings): Option<string>
  {
    When(LanguageOf(settings) != "english", LanguageText(LanguageOf(settings)))
  }

  function CustomPart(settings: AISettings): Option<string>
  {
    When(settings.customInstructions != "", CustomLead + settings.customInstructions)
  }

  function WorkflowPart(workflowJson: Option<string>): Option<string>
  {
    if workflowJson.Some? then Some(WorkflowText(workflowJson.value)) else None
  }

  function KnowledgePart(docs: seq<KnowledgeDoc>): Option<string>
  {
    When(docs != [], KnowledgeHeader + KnowledgeLines(docs, |docs|))
  }

  /** A section's text, or `None` when the settings leave it out. */
  function PartOf(settings: AISettings, docs: seq<KnowledgeDoc>, workflowJson: Option<string>, k: SectionKind): Option<string>
  {
    match k
    case Business => BusinessPart(settings)
    case Description => DescriptionPart(settings)
    case Tone => ToneText(ToneOf(settings))
    case Length => LengthText(LengthOf(settings))
    case Language => LanguagePart(settings)
    case Emojis => When(settings.includeEmojis, EmojiStyle)
    case Formal => When(settings.formalStyle, FormalStyle)
    case Friendly => When(settings.friendlyApproach, FriendlyStyle)
    case Detailed => When(settings.detailedResponses, DetailedStyle)
    case Custom => CustomPart(settings)
    case Workflow => WorkflowPart(workflowJson)
    case Knowledge => KnowledgePart(docs)
  }

  /** The parts by rank. */
  function Parts(settings: AISettings, docs: seq<KnowledgeDoc>, workflowJson: Option<string>): nat -> Option<string>
  {
    (i: nat) => if i < SectionCount then PartOf(settings, docs, workflowJson, KindAt(i)) else None
  }

  /** A present section: its rank and its text. */
  datatype Section = Section(rank: nat, text: string)

  /** The section of rank `r` when its part is present, and nothing otherwise. */
  function Opt(r: nat, part: Option<string>): seq<Section>
  {
    if part.Some? then [Section(r, part.value)] else []
  }

  /** The present parts among the first `n` ranks, each tagged with its rank. */
  function Chain(part: nat -> Option<string>, n: nat): seq<Section>
  {
    if n == 0 then [] else Chain(part, n - 1) + Opt(n - 1, part(n - 1))
  }

  /** The sections of the system prompt, in the order they appear. */
  function Sections(settings: AISettings, docs: seq<KnowledgeDoc>, workflowJson: Option<string>): seq<Section>
  {
    Chain(Parts(settings, docs, workflowJson), SectionCount)
  }

  /** The sections' texts, concatenated. */
  function Render(secs: seq<Section>): string
  {
    if secs == [] then "" else Render(secs[..|secs| - 1]) + secs[|secs| - 1].text
  }

  /** A prompt with a part's text appended when the part is present. */
  function Appended(prompt: string, part: Option<string>): string
  {
    if part.Some? then prompt + part.value else prompt
  }

  /** The prompt: the base prompt with each part appended in rank order. */
  function SystemPrompt(settings: AISettings, docs: seq<KnowledgeDoc>, workflowJson: Option<string>): string
  {
    StylePrompt(settings, docs, workflowJson, ContextPrompt(settings, docs, workflowJson, BasePrompt(settings)))
  }

  /** The business, tone, length and language parts appended to `p0`. */
  function ContextPrompt(settings: AISettings, docs: seq<KnowledgeDoc>, workflowJson: Option<string>, p0: string): string
  {
    var p1 := Appended(p0, BusinessPart(settings));
    var p2 := Appended(p1, DescriptionPart(settings));
    var p3 := Appended(p2, ToneText(ToneOf(settings)));
    var p4 := Appended(p3, LengthText(LengthOf(settings)));
    Appended(p4, LanguagePart(settings))
  }

  /** The style, custom, workflow and knowledge parts appended to `p5`. */
  function StylePrompt(settings: AISettings, docs: seq<KnowledgeDoc>, workflowJson: Option<string>, p5: string): string
  {
    var p6 := Appended(p5, When(settings.includeEmojis, EmojiStyle));
    var p7 := Appended(p6, When(settings.formalStyle, FormalStyle));
    var p8 := Appended(p7, When(settings.friendlyApproach, FriendlyStyle));
    var p9 := Appended(p8, When(settings.detailedResponses, DetailedStyle));
    var p10 := Appended(p9, CustomPart(settings));
    var p11 := Appended(p10, WorkflowPart(workflowJson));
    Appended(p11, KnowledgePart(docs))
  }

  /** Appending a present part's text to a prompt renders one more section. */
  lemma AppendedRender(secs: seq<Section>, r: nat, part: Option<string>, prompt: string, base: string)
    requires prompt == base + Render(secs)
    ensures Appended(prompt, part) == base + Render(secs + Opt(r, part))
  {
    if part.Some? {
      assert (secs + Opt(r, part))[..|secs|] == secs;
    } else {
      assert secs + Opt(r, part) == secs;
    }
  }

  /** The base prompt with the present parts among the first `n` ranks appended in order. */
  function Fold(base: string, part: nat -> Option<string>, n: nat): string
  {
    if n == 0 then base else Appended(Fold(base, part, n - 1), part(n - 1))
  }

  /** Appending the parts one by one gives the base followed by the rendered sections. */
  lemma {:induction false} FoldRender(base: string, part: nat -> Option<string>, n: nat)
    ensures Fold(base, part, n) == base + Render(Chain(part, n))
  {
    if n == 0 {
      assert base + Render([]) == base;
    } else {
      FoldRender(base, part, n - 1);
      AppendedRender(Chain(part, n - 1), n - 1, part(n - 1), Fold(base, part, n - 1), base);
    }
  }

  /** The written-out prompt is the fold over the twelve ranks. */
  lemma SystemPromptFold(settings: AISettings, docs: seq<KnowledgeDoc>, workflowJson: Option<string>)
    ensures SystemPrompt(settings, docs, workflowJson) == Fold(BasePrompt(settings), Parts(settings, docs, workflowJson), SectionCount)
  {
    ContextFold(settings, docs, workflowJson, BasePrompt(settings));
    StyleFold(settings, docs, workflowJson, BasePrompt(settings));
  }

  lemma ContextFold(settings: AISettings, docs: seq<KnowledgeDoc>, workflowJson: Option<string>, base: string)
    ensures ContextPrompt(settings, docs, workflowJson, base) == Fold(base, Parts(settings, docs, workflowJson), 5)
  {
    var part := Parts(settings, docs, workflowJson);
    assert Fold(base, part, 1) == Appended(Fold(base, part, 0), PartOf(settings, docs, workflowJson, Business));
    assert Fold(base, part, 2) == Appended(Fold(base, part, 1), PartOf(settings, docs, workflowJson, Description));
    assert Fold(base, part, 3) == Appended(Fold(base, part, 2), PartOf(settings, docs, workflowJson, Tone));
    assert Fold(base, part, 4) == Appended(Fold(base, part, 3), PartOf(settings, docs, workflowJson, Length));
    assert Fold(base, part, 5) == Appended(Fold(base, part, 4), PartOf(settings, docs, workflowJson, Language));
  }

  lemma StyleFold(settings: AISettings, docs: seq<KnowledgeDoc>, workflowJson: Option<string>, base: string)
    ensures StylePrompt(settings, docs, workflowJson, Fold(base, Parts(settings, docs, workflowJson), 5)) ==
      Fold(base, Parts(settings, docs, workflowJson), SectionCount)
  {
    StyleRanks(settings, docs, workflowJson, base);
    ExtraRanks(settings, docs, workflowJson, base);
  }

  /** Ranks 6 to 9 of the fold are the four style preferences. */
  lemma StyleRanks(settings: AISettings, docs: seq<KnowledgeDoc>, workflowJson: Option<string>, base: string)
    ensures var part := Parts(settings, docs, workflowJson);
      Fold(base, part, 9) ==
        Appended(Appended(Appended(Appended(Fold(base, part, 5),
          When(settings.includeEmojis, EmojiStyle)), When(settings.formalStyle, FormalStyle)),
          When(settings.friendlyApproach, FriendlyStyle)), When(settings.detailedResponses, DetailedStyle))
  {
    var part := Parts(settings, docs, workflowJson);
    assert Fold(base, part, 6) == Appended(Fold(base, part, 5), PartOf(settings, docs, workflowJson, Emojis));
    assert Fold(base, part, 7) == Appended(Fold(base, part, 6), PartOf(settings, docs, workflowJson, Formal));
    assert Fold(base, part, 8) == Appended(Fold(base, part, 7), PartOf(settings, docs, workflowJson, Friendly));
    assert Fold(base, part, 9) == Appended(Fold(base, part, 8), PartOf(settings, docs, workflowJson, Detailed));
  }

  /** Ranks 10 to 12 of the fold are the custom instructions, the workflow and the knowledge base. */
  lemma ExtraRanks(settings: AISettings, docs: seq<KnowledgeDoc>, workflowJson: Option<string>, base: string)
    ensures var part := Parts(settings, docs, workflowJson);
      Fold(base, part, SectionCount) ==
        Appended(Appended(Appended(Fold(base, part, 9), CustomPart(settings)), WorkflowPart(workflowJson)), KnowledgePart(docs))
  {
    var part := Parts(settings, docs, workflowJson);
    assert Fold(base, part, 10) == Appended(Fold(base, part, 9), PartOf(settings, docs, workflowJson, Custom));
    assert Fold(base, part, 11) == Appended(Fold(base, part, 10), PartOf(settings, docs, workflowJson, Workflow));
    assert Fold(base, part, 12) == Appended(Fold(base, part, 11), PartOf(settings, docs, workflowJson, Knowledge));
  }

  /**
   * The prompt is the base prompt, the configured system prompt or the
   * default one, followed by the present sections in rank order.
   */
  lemma SystemPromptSections(settings: AISettings, docs: seq<KnowledgeDoc>, workflowJson: Option<string>)
    ensures SystemPrompt(settings, docs, workflowJson) == BasePrompt(settings) + Render(Sections(settings, docs, workflowJson))
  {
    SystemPromptFold(settings, docs, workflowJson);
    FoldRender(BasePrompt(settings), Parts(settings, docs, workflowJson), SectionCount);
  }

  /** `_build_system_prompt`: the base prompt, then each section the settings call for, in order. */
  method BuildSystemPrompt(settings: AISettings, docs: seq<KnowledgeDoc>, workflowJson: Option<string>) returns (prompt: string)
    ensures prompt == SystemPrompt(settings, docs, workflowJson)
  {
    prompt := match settings.systemPrompt case None => DefaultSystemPrompt case Some(p) => p;
    prompt := AddContext(prompt, settings, docs, workflowJson);
    prompt := AddStyle(prompt, settings, docs, workflowJson);
  }

  /** The first half of `_build_system_prompt`: business, tone, length, language. */
  method AddContext(prompt: string, settings: AISettings, docs: seq<KnowledgeDoc>, workflowJson: Option<string>) returns (r: string)
    ensures r == ContextPrompt(settings, docs, workflowJson, prompt)
  {
    r := AddBusinessContext(prompt, settings);
    r := AddTone(r, settings);
    r := AddLength(r, settings);
    r := AddLanguage(r, settings);
  }

  /** The second half: style preferences, custom instructions, workflow, knowledge. */
  method AddStyle(prompt: string, settings: AISettings, docs: seq<KnowledgeDoc>, workflowJson: Option<string>) returns (r: string)
    ensures r == StylePrompt(settings, docs, workflowJson, prompt)
  {
    r := AddStylePreferences(prompt, settings);
    r := AddCustomInstructions(r, settings);
    r := AddWorkflowContext(r, workflowJson);
    r := AddKnowledge(r, docs);
  }

  /** The business name, with its type when there is one, then the description. */
  method AddBusinessContext(prompt: string, settings: AISettings) returns (r: string)
    ensures r == Appended(Appended(prompt, BusinessPart(settings)), DescriptionPart(settings))
  {
    r := prompt;
    if settings.businessName != "" {
      r := r + ("\n\nYou work for " + settings.businessName);
      if settings.businessType != "" {
        r := r + (", a " + settings.businessType + " business");
      }
      r := r + ".";
      assert r == prompt + BusinessText(settings);
    }
    if settings.businessDescription != "" {
      r := r + (DescriptionLead + settings.businessDescription);
    }
  }

  /** The tone instruction; `polite` when no tone is set, nothing for an unknown tone. */
  method AddTone(prompt: string, settings: AISettings) returns (r: string)
    ensures r == Appended(prompt, ToneText(ToneOf(settings)))
  {
    r := prompt;
    var tone := match settings.tone case None => "polite" case Some(t) => t;
    if tone == "professional" {
      r := r + ProfessionalTone;
    } else if tone == "friendly" {
      r := r + FriendlyTone;
    } else if tone == "casual" {
      r := r + CasualTone;
    } else if tone == "polite" {
      r := r + PoliteTone;
    }
  }

  /** The length instruction; `short` when no length is set, nothing for an unknown one. */
  method AddLength(prompt: string, settings: AISettings) returns (r: string)
    ensures r == Appended(prompt, LengthText(LengthOf(settings)))
  {
    r := prompt;
    var length := match settings.responseLength case None => "short" case Some(l) => l;
    if length == "short" {
      r := r + ShortLength;
    } else if length == "medium" {
      r := r + MediumLength;
    } else if length == "long" {
      r := r + LongLength;
    }
  }

  /** The language instruction, for any language but English. */
  method AddLanguage(prompt: string, settings: AISettings) returns (r: string)
    ensures r == Appended(prompt, LanguagePart(settings))
  {
    r := prompt;
    var language := match settings.language case None => "english" case Some(l) => l;
    if language != "english" {
      r := r + LanguageText(language);
    }
  }

  /** The four style flags, each adding its sentence. */
  method AddStylePreferences(prompt: string, settings: AISettings) returns (r: string)
    ensures r == Appended(Appended(Appended(Appended(prompt,
      When(settings.includeEmojis, EmojiStyle)), When(settings.formalStyle, FormalStyle)),
      When(settings.friendlyApproach, FriendlyStyle)), When(settings.detailedResponses, DetailedStyle))
  {
    r := prompt;
    if settings.includeEmojis {
      r := r + EmojiStyle;
    }
    if settings.formalStyle {
      r := r + FormalStyle;
    }
    if settings.friendlyApproach {
      r := r + FriendlyStyle;
    }
    if settings.detailedResponses {
      r := r + DetailedStyle;
    }
  }

  /** The custom instructions, when there are any. */
  method AddCustomInstructions(prompt: string, settings: AISettings) returns (r: string)
    ensures r == Appended(prompt, CustomPart(settings))
  {
    r := prompt;
    if settings.customInstructions != "" {
      r := r + (CustomLead + settings.customInstructions);
    }
  }

  /** The workflow context, then the instruction to follow it, when there is a workflow. */
  method AddWorkflowContext(prompt: string, workflowJson: Option<string>) returns (r: string)
    ensures r == Appended(prompt, WorkflowPart(workflowJson))
  {
    r := prompt;
    if workflowJson.Some? {
      r := r + ("\n\nWorkflow Context: " + workflowJson.value);
      r := r + "\n\nFollow the workflow steps and guide the conversation accordingly.";
    }
  }

  /** The knowledge-base block, when there are documents: its header, then one line per document. */
  method AddKnowledge(prompt: string, docs: seq<KnowledgeDoc>) returns (r: string)
    ensures r == Appended(prompt, KnowledgePart(docs))
  {
    r := prompt;
    if docs != [] {
      r := r + KnowledgeHeader;
      for i := 0 to |docs|
        invariant r == prompt + (KnowledgeHeader + KnowledgeLines(docs, i))
      {
        r := r + KnowledgeLine(docs[i]);
      }
    }
  }

  /** The ranks of a section list strictly increase. */
  predicate InOrder(secs: seq<Section>)
  {
    forall i, j :: 0 <= i < j < |secs| ==> secs[i].rank < secs[j].rank
  }

  predicate HasRank(secs: seq<Section>, r: nat)
  {
    exists i :: 0 <= i < |secs| && secs[i].rank == r
  }

  /** The section of kind `k` is present. */
  predicate Has(secs: seq<Section>, k: SectionKind)
  {
    HasRank(secs, Rank(k))
  }

  /** The tagged parts come in strictly increasing rank, all below `n`. */
  lemma {:induction false} ChainInOrder(part: nat -> Option<string>, n: nat)
    ensures InOrder(Chain(part, n))
    ensures forall i :: 0 <= i < |Chain(part, n)| ==> Chain(part, n)[i].rank < n
  {
    if n > 0 {
      ChainInOrder(part, n - 1);
    }
  }

  /** A rank is tagged exactly when its part is present. */
  lemma {:induction false} ChainHas(part: nat -> Option<string>, n: nat, r: nat)
    ensures HasRank(Chain(part, n), r) <==> r < n && part(r).Some?
  {
    if n > 0 {
      ChainHas(part, n - 1, r);
      var prev := Chain(part, n - 1);
      var c := Chain(part, n);
      assert c == prev + Opt(n - 1, part(n - 1));
      if HasRank(c, r) {
        var i :| 0 <= i < |c| && c[i].rank == r;
        if i < |prev| {
          assert prev[i].rank == r;
        }
      }
      if r < n - 1 && part(r).Some? {
        var i :| 0 <= i < |prev| && prev[i].rank == r;
        assert c[i].rank == r;
      }
      if r == n - 1 && part(r).Some? {
        assert c[|prev|].rank == r;
      }
    }
  }

  /** The sections appear in the fixed order business, description, tone, length, language, emojis, formal, friendly, detailed, custom, workflow, knowledge. */
  lemma SectionsInOrder(settings: AISettings, docs: seq<KnowledgeDoc>, workflowJson: Option<string>)
    ensures InOrder(Sections(settings, docs, workflowJson))
  {
    ChainInOrder(Parts(settings, docs, workflowJson), SectionCount);
  }

  /** A section is present exactly when its part is. */
  lemma SectionPresent(settings: AISettings, docs: seq<KnowledgeDoc>, workflowJson: Option<string>, k: SectionKind)
    ensures Has(Sections(settings, docs, workflowJson), k) <==> PartOf(settings, docs, workflowJson, k).Some?
  {
    ChainHas(Parts(settings, docs, workflowJson), SectionCount, Rank(k));
    assert KindAt(Rank(k)) == k;
  }

  /** Whether the settings call for a section. */
  predicate CalledFor(settings: AISettings, docs: seq<KnowledgeDoc>, workflowJson: Option<string>, k: SectionKind)
  {
    match k
    case Business => settings.businessName != ""
    case Description => settings.businessDescription != ""
    case Tone => ToneOf(settings) in ["professional", "friendly", "casual", "polite"]
    case Length => LengthOf(settings) in ["short", "medium", "long"]
    case Language => LanguageOf(settings) != "english"
    case Emojis => settings.includeEmojis
    case Formal => settings.formalStyle
    case Friendly => settings.friendlyApproach
    case Detailed => settings.detailedResponses
    case Custom => settings.customInstructions != ""
    case Workflow => workflowJson.Some?
    case Knowledge => docs != []
  }

  /**
   * Each section is present exactly when the settings call for it: a name, a
   * description, one of the known tones or lengths, a language other than
   * English, a style flag, custom instructions, a workflow, documents.
   */
  lemma SectionsPresence(settings: AISettings, docs: seq<KnowledgeDoc>, workflowJson: Option<string>, k: SectionKind)
    ensures Has(Sections(settings, docs, workflowJson), k) <==> CalledFor(settings, docs, workflowJson, k)
  {
    SectionPresent(settings, docs, workflowJson, k);
    PartCalledFor(settings, docs, workflowJson, k);
  }

  lemma PartCalledFor(settings: AISettings, docs: seq<KnowledgeDoc>, workflowJson: Option<string>, k: SectionKind)
    ensures PartOf(settings, docs, workflowJson, k).Some? <==> CalledFor(settings, docs, workflowJson, k)
  {
  }

  /** The prompt opens with the configured system prompt, or the default one. */
  lemma SystemPromptStart(settings: AISettings, docs: seq<KnowledgeDoc>, workflowJson: Option<string>)
    ensures StartsWith(SystemPrompt(settings, docs, workflowJson), BasePrompt(settings))
    ensures settings.systemPrompt.None? ==> StartsWith(SystemPrompt(settings, docs, workflowJson), DefaultSystemPrompt)
  {
    SystemPromptSections(settings, docs, workflowJson);
    var p := SystemPrompt(settings, docs, workflowJson);
    assert p[..|BasePrompt(settings)|] == BasePrompt(settings);
  }
  // ---------------------------------------------------------------------
  // Chat completion
  // ---------------------------------------------------------------------

  const Greeting: string := "I'm here to help! How can I assist you today?"
  const DefaultFallback: string := "I'm sorry, I'm having trouble generating a response right now. Please try again."
  const DefaultMaxTokens: int := 150
  const DefaultTemperature: real := 0.7

  /** A chat message; a missing role or content is the empty string. */
  datatype ChatTurn = ChatTurn(role: string, content: string)

  /** What is sent to the provider. */
  datatype CompletionRequest = CompletionRequest(conversation: seq<ChatTurn>, maxTokens: int, temperature: real)

  predicate Usable(m: ChatTurn) { m.role != "" && m.content != "" }

  /** A usable message as it is sent: its role, and its content stripped. */
  function Sent(m: ChatTurn): ChatTurn { ChatTurn(m.role, Strip(m.content)) }

  /** The messages with both a role and a content, their content stripped, in order. */
  function Kept(messages: seq<ChatTurn>): seq<ChatTurn>
  {
    if messages == [] then []
    else
      var last := messages[|messages| - 1];
      Kept(messages[..|messages| - 1]) + if Usable(last) then [Sent(last)] else []
  }

  /** Every usable message is kept. */
  lemma {:induction false} KeptAll(messages: seq<ChatTurn>)
    ensures |Kept(messages)| <= |messages|
    ensures forall i :: 0 <= i < |messages| && Usable(messages[i]) ==> Sent(messages[i]) in Kept(messages)
  {
    if messages != [] {
      var init := messages[..|messages| - 1];
      KeptAll(init);
      forall i | 0 <= i < |messages| - 1 && Usable(messages[i]) ensures Sent(messages[i]) in Kept(messages) {
        assert messages[i] == init[i];
      }
    }
  }

  /** Nothing but usable messages is kept. */
  lemma {:induction false} KeptOnly(messages: seq<ChatTurn>)
    ensures forall t :: t in Kept(messages) ==> exists i :: 0 <= i < |messages| && Usable(messages[i]) && t == Sent(messages[i])
  {
    if messages != [] {
      var init := messages[..|messages| - 1];
      KeptOnly(init);
      forall t | t in Kept(messages) ensures exists i :: 0 <= i < |messages| && Usable(messages[i]) && t == Sent(messages[i]) {
        if t in Kept(init) {
          var i :| 0 <= i < |init| && Usable(init[i]) && t == Sent(init[i]);
          assert messages[i] == init[i];
        } else {
          assert t == Sent(messages[|messages| - 1]);
        }
      }
    }
  }

  /**
   * Exactly the usable messages are kept, each with its role and its content
   * stripped, and nothing else; none is kept exactly when none is usable.
   */
  lemma KeptSpec(messages: seq<ChatTurn>)
    ensures |Kept(messages)| <= |messages|
    ensures forall t :: t in Kept(messages) <==> exists m :: m in messages && Usable(m) && t == Sent(m)
    ensures Kept(messages) == [] <==> forall m :: m in messages ==> !Usable(m)
  {
    KeptAll(messages);
    KeptOnly(messages);
    forall t ensures t in Kept(messages) <==> exists m :: m in messages && Usable(m) && t == Sent(m) {
      if t in Kept(messages) {
        var i :| 0 <= i < |messages| && Usable(messages[i]) && t == Sent(messages[i]);
        assert messages[i] in messages;
      }
      if exists m :: m in messages && Usable(m) && t == Sent(m) {
        var m :| m in messages && Usable(m) && t == Sent(m);
        var i :| 0 <= i < |messages| && messages[i] == m;
      }
    }
    if Kept(messages) != [] {
      assert Kept(messages)[0] in Kept(messages);
    }
  }

  function ClampUnit(x: real): (r: real)
    ensures 0.0 <= r <= 1.0
    ensures 0.0 <= x <= 1.0 ==> r == x
    ensures x < 0.0 ==> r == 0.0
    ensures x > 1.0 ==> r == 1.0
  {
    if x < 0.0 then 0.0 else if x > 1.0 then 1.0 else x
  }

  /** `generate_response`'s loop: the system turn, then each usable message with its content stripped. */
  method BuildConversation(systemPrompt: string, messages: seq<ChatTurn>) returns (conversation: seq<ChatTurn>)
    ensures conversation == [ChatTurn("system", systemPrompt)] + Kept(messages)
  {
    conversation := [ChatTurn("system", systemPrompt)];
    for i := 0 to |messages|
      invariant conversation == [ChatTurn("system", systemPrompt)] + Kept(messages[..i])
    {
      assert messages[..i + 1][..i] == messages[..i];
      var msg := messages[i];
      if msg.content != "" && msg.role != "" {
        conversation := conversation + [Sent(msg)];
      }
    }
    assert messages[..|messages|] == messages;
  }

  /** The request sent for a conversation: the token budget defaults to 150, the temperature to 0.7, clamped into [0, 1]. */
  function RequestFor(settings: AISettings, conversation: seq<ChatTurn>): (r: CompletionRequest)
    ensures 0.0 <= r.temperature <= 1.0
    ensures settings.temperature.None? ==> r.temperature == DefaultTemperature
    ensures settings.maxResponseTokens.None? ==> r.maxTokens == DefaultMaxTokens
  {
    CompletionRequest(conversation,
      match settings.maxResponseTokens case None => DefaultMaxTokens case Some(n) => n,
      ClampUnit(match settings.temperature case None => DefaultTemperature case Some(t) => t))
  }

  /** The request for a chat: the system prompt, then the kept messages. */
  function ChatRequest(messages: seq<ChatTurn>, settings: AISettings, docs: seq<KnowledgeDoc>, workflowJson: Option<string>): CompletionRequest
  {
    RequestFor(settings, [ChatTurn("system", SystemPrompt(settings, docs, workflowJson))] + Kept(messages))
  }

  /**
   * The reply to a provider's answer: the completion when it is not blank;
   * the configured fallback (or the default one) for a blank completion; for
   * a failed call (`None`), a non-empty configured fallback or the default one.
   */
  function Reply(answer: Option<string>, fallback: Option<string>): string
  {
    match answer
    case None =>
      if fallback.Some? && fallback.value != "" then fallback.value else DefaultFallback
    case Some(text) =>
      if IsBlank(text) then (match fallback case None => DefaultFallback case Some(f) => f)
      else text
  }

  /**
   * The reply to a chat: the greeting without usable messages, otherwise the
   * reply to the provider's answer.  `complete` answers `None` when the call raises.
   */
  function Response(messages: seq<ChatTurn>, settings: AISettings, docs: seq<KnowledgeDoc>, workflowJson: Option<string>,
                    complete: CompletionRequest -> Option<string>): string
  {
    if messages == [] || Kept(messages) == [] then Greeting
    else Reply(complete(ChatRequest(messages, settings, docs, workflowJson)), settings.fallbackMessage)
  }

  /** `generate_response`. */
  method GenerateResponse(messages: seq<ChatTurn>, settings: AISettings, docs: seq<KnowledgeDoc>, workflowJson: Option<string>,
                          complete: CompletionRequest -> Option<string>) returns (reply: string)
    ensures reply == Response(messages, settings, docs, workflowJson, complete)
  {
    if messages == [] {
      return Greeting;
    }
    var systemPrompt := BuildSystemPrompt(settings, docs, workflowJson);
    var conversation := BuildConversation(systemPrompt, messages);
    if |conversation| <= 1 {
      return Greeting;
    }
    var maxTokens := match settings.maxResponseTokens case None => DefaultMaxTokens case Some(n) => n;
    var temperature := match settings.temperature case None => DefaultTemperature case Some(t) => t;
    var answer := complete(CompletionRequest(conversation, maxTokens, ClampUnit(temperature)));
    assert answer == complete(ChatRequest(messages, settings, docs, workflowJson));
    reply := AnswerOrFallback(answer, settings.fallbackMessage);
  }

  /** The tail of `generate_response`: the provider's answer, or a fallback for a blank answer or a failed call. */
  method AnswerOrFallback(answer: Option<string>, fallback: Option<string>) returns (reply: string)
    ensures reply == Reply(answer, fallback)
  {
    match answer {
      case None =>
        if fallback.Some? && fallback.value != "" {
          reply := fallback.value;
        } else {
          reply := DefaultFallback;
        }
      case Some(text) =>
        if IsBlank(text) {
          reply := match fallback case None => DefaultFallback case Some(f) => f;
        } else {
          reply := text;
        }
    }
  }

  lemma GreetingNotBlank()
    ensures !IsBlank(Greeting)
  {
    assert 'I' in Greeting;
  }

  lemma FallbackNotBlank()
    ensures !IsBlank(DefaultFallback)
  {
    assert 'P' in DefaultFallback;
  }

  /** Without a usable message the greeting comes back, whatever the provider would say. */
  lemma ResponseGreets(messages: seq<ChatTurn>, settings: AISettings, docs: seq<KnowledgeDoc>, workflowJson: Option<string>,
                       complete: CompletionRequest -> Option<string>)
    ensures (forall m :: m in messages ==> !Usable(m)) ==> Response(messages, settings, docs, workflowJson, complete) == Greeting
  {
    KeptSpec(messages);
  }

  /** A reply is never blank unless the configured fallback is. */
  lemma ReplyNotBlank(answer: Option<string>, fallback: Option<string>)
    requires fallback.None? || !IsBlank(fallback.value)
    ensures !IsBlank(Reply(answer, fallback))
  {
    FallbackNotBlank();
  }

  /** A reply is the default fallback, the configured one, or the provider's own answer. */
  lemma ReplySource(answer: Option<string>, fallback: Option<string>)
    ensures var r := Reply(answer, fallback);
      r == DefaultFallback || Some(r) == fallback || answer == Some(r)
  {
  }

  /** The reply to a chat is never blank unless the configured fallback is. */
  lemma ResponseNotBlank(messages: seq<ChatTurn>, settings: AISettings, docs: seq<KnowledgeDoc>, workflowJson: Option<string>,
                         complete: CompletionRequest -> Option<string>)
    requires settings.fallbackMessage.None? || !IsBlank(settings.fallbackMessage.value)
    ensures !IsBlank(Response(messages, settings, docs, workflowJson, complete))
  {
    if messages == [] || Kept(messages) == [] {
      GreetingNotBlank();
    } else {
      ReplyNotBlank(complete(ChatRequest(messages, settings, docs, workflowJson)), settings.fallbackMessage);
    }
  }

  /** Any other reply to a chat is a fallback or the provider's answer to the chat's request. */
  lemma ResponseSource(messages: seq<ChatTurn>, settings: AISettings, docs: seq<KnowledgeDoc>, workflowJson: Option<string>,
                       complete: CompletionRequest -> Option<string>)
    ensures var r := Response(messages, settings, docs, workflowJson, complete);
      r == Greeting || r == DefaultFallback || Some(r) == settings.fallbackMessage
      || complete(ChatRequest(messages, settings, docs, workflowJson)) == Some(r)
  {
    if messages != [] && Kept(messages) != [] {
      ReplySource(complete(ChatRequest(messages, settings, docs, workflowJson)), settings.fallbackMessage);
    }
  }

  // ---------------------------------------------------------------------
  // Knowledge-base context for the workflow prompt
  // ---------------------------------------------------------------------

  const NoDocuments: string := "No relevant documents found."
  const WorksheetMarker: string := "WORKSHEET"

  predicate IsSpreadsheet(d: KnowledgeDoc) { d.documentType == XLSX || d.documentType == XLS }

  /** How much of a document's content its context line shows. */
  function PreviewLength(d: KnowledgeDoc): (n: nat)
    ensures n == 500 <==> IsSpreadsheet(d) && Contains(Take(d.content, 500), WorksheetMarker)
    ensures n == 300 || n == 500
  {
    if IsSpreadsheet(d) && Contains(Take(d.content, 500), WorksheetMarker) then 500 else 300
  }

  /** One document's context line, branching as the formatter does. */
  function ContextLine(d: KnowledgeDoc): (r: string)
    ensures r == "\n- " + d.title + (if IsSpreadsheet(d) then " (Excel): " else ": ") + Take(d.content, PreviewLength(d)) + "..."
  {
    if d.documentType == XLSX || d.documentType == XLS then
      var preview := Take(d.content, 500);
      if Contains(preview, WorksheetMarker) then "\n- " + d.title + " (Excel): " + preview + "..."
      else "\n- " + d.title + " (Excel): " + Take(d.content, 300) + "..."
    else "\n- " + d.title + ": " + Take(d.content, 300) + "..."
  }

  function ContextLines(docs: seq<KnowledgeDoc>, n: nat): string
    requires n <= |docs|
  {
    if n == 0 then "" else ContextLines(docs, n - 1) + ContextLine(docs[n - 1])
  }

  function FormatContext(docs: seq<KnowledgeDoc>): string
  {
    if docs == [] then NoDocuments else ContextLines(docs, |docs|)
  }

  /** `_format_context_documents`. */
  method FormatContextDocuments(docs: seq<KnowledgeDoc>) returns (context: string)
    ensures context == FormatContext(docs)
  {
    if docs == [] {
      return NoDocuments;
    }
    context := "";
    for i := 0 to |docs|
      invariant context == ContextLines(docs, i)
    {
      var doc := docs[i];
      if doc.documentType == XLSX || doc.documentType == XLS {
        var preview := Take(doc.content, 500);
        if Contains(preview, WorksheetMarker) {
          context := context + ("\n- " + doc.title + " (Excel): " + preview + "...");
        } else {
          context := context + ("\n- " + doc.title + " (Excel): " + Take(doc.content, 300) + "...");
        }
      } else {
        context := context + ("\n- " + doc.title + ": " + Take(doc.content, 300) + "...");
      }
    }
  }

  lemma {:induction false} ContextLinesStart(docs: seq<KnowledgeDoc>, n: nat)
    requires 1 <= n <= |docs|
    ensures StartsWith(ContextLines(docs, n), "\n- " + docs[0].title)
  {
    if n > 1 {
      ContextLinesStart(docs, n - 1);
      var prev := ContextLines(docs, n - 1);
      assert (prev + ContextLine(docs[n - 1]))[..|"\n- " + docs[0].title|] == prev[..|"\n- " + docs[0].title|];
    } else {
      var line := ContextLine(docs[0]);
      assert ContextLines(docs, 1) == line;
      assert line[..|"\n- " + docs[0].title|] == "\n- " + docs[0].title;
    }
  }

  /** The placeholder is given exactly when there are no documents; otherwise the context opens with the first title. */
  lemma FormatContextSpec(docs: seq<KnowledgeDoc>)
    ensures FormatContext(docs) == NoDocuments <==> docs == []
    ensures docs != [] ==> StartsWith(FormatContext(docs), "\n- " + docs[0].title)
  {
    if docs != [] {
      ContextLinesStart(docs, |docs|);
      assert FormatContext(docs)[0] == '\n' != NoDocuments[0];
    }
  }

  // ---------------------------------------------------------------------
  // Token budget per response length
  // ---------------------------------------------------------------------

  /** `_get_max_tokens`. */
  function MaxTokens(responseLength: string): (n: int)
    ensures n == 100 <==> responseLength == "short"
    ensures n == 300 <==> responseLength == "medium"
    ensures n == 500 <==> responseLength == "long"
    ensures n == 200 <==> responseLength !in ["short", "medium", "long"]
  {
    if responseLength == "short" then 100
    else if responseLength == "medium" then 300
    else if responseLength == "long" then 500
    else 200
  }

  // ---------------------------------------------------------------------
  // Reading a workflow analysis
  // ---------------------------------------------------------------------

  /** The analysis a workflow step receives. */
  datatype WorkflowAnalysis = WorkflowAnalysis(
    stepCompleted: bool,
    confidenceScore: real,
    extractedInfo: map<string, string>,
    nextStep: Option<int>,
    needsClarification: bool,
    suggestedResponse: Option<string>)

  /** A decoded JSON object: each key present or not. */
  datatype AnalysisJson = AnalysisJson(
    stepCompleted: Option<bool>,
    confidenceScore: Option<real>,
    extractedInfo: Option<map<string, string>>,
    nextStep: Option<int>,
    needsClarification: Option<bool>,
    suggestedResponse: Option<string>)

  const ClarificationRequest: string := "I need some clarification. Could you please provide more details?"

  /** The analysis given when reading fails. */
  function ClarificationAnalysis(): WorkflowAnalysis
  {
    WorkflowAnalysis(false, 0.0, map[], None, true, Some(ClarificationRequest))
  }

  function FirstIndexOf(s: string, c: char, from: nat): (r: Option<nat>)
    requires from <= |s|
    ensures r.Some? ==> from <= r.value < |s| && s[r.value] == c
    ensures r.Some? ==> forall i :: from <= i < r.value ==> s[i] != c
    ensures r.None? ==> forall i :: from <= i < |s| ==> s[i] != c
    decreases |s| - from
  {
    if from == |s| then None else if s[from] == c then Some(from) else FirstIndexOf(s, c, from + 1)
  }

  /**
   * The text the pattern `\{.*\}` (dot matching newlines, greedy) finds: from
   * the first '{' to the last '}' after it, when there is one.
   */
  function JsonSpan(text: string): (r: Option<string>)
    ensures r.Some? ==> |r.value| >= 2 && r.value[0] == '{' && r.value[|r.value| - 1] == '}'
    ensures r.None? <==> forall i, j :: 0 <= i < j < |text| && text[i] == '{' ==> text[j] != '}'
  {
    match FirstIndexOf(text, '{', 0)
    case None => None
    case Some(open) =>
      var close := RFind(text, '}', open + 1, |text|);
      RFindSpec(text, '}', open + 1, |text|);
      if close == -1 then None else Some(text[open..close + 1])
  }

  /**
   * `_parse_workflow_analysis`: a JSON object found in the text is decoded by
   * `decode` (`None` for text that does not decode to the expected fields),
   * its missing keys take their defaults and the confidence is clamped into
   * [0, 1]; without an object, the text's wording decides.
   */
  function ParseWorkflowAnalysis(text: string, stepNumber: int, stepCount: nat, decode: string -> Option<AnalysisJson>): WorkflowAnalysis
  {
    match JsonSpan(text)
    case None =>
      WorkflowAnalysis(
        Contains(Lower(text), "completed"),
        0.5,
        map[],
        if stepNumber < stepCount then Some(stepNumber + 1) else None,
        Contains(Lower(text), "clarification"),
        None)
    case Some(span) =>
      match decode(span)
      case None => ClarificationAnalysis()
      case Some(j) =>
        WorkflowAnalysis(
          match j.stepCompleted case None => false case Some(b) => b,
          ClampUnit(match j.confidenceScore case None => 0.0 case Some(c) => c),
          match j.extractedInfo case None => map[] case Some(m) => m,
          j.nextStep,
          match j.needsClarification case None => false case Some(b) => b,
          j.suggestedResponse)
  }

  /**
   * The confidence always lies in [0, 1].  Without a JSON object the step
   * counts as completed exactly when the lowered text says "completed", the
   * confidence is 0.5 and the next step follows the current one unless it is
   * the last; a JSON object that does not decode gives the clarification
   * analysis.
   */
  lemma ParseWorkflowAnalysisSpec(text: string, stepNumber: int, stepCount: nat, decode: string -> Option<AnalysisJson>)
    ensures var a := ParseWorkflowAnalysis(text, stepNumber, stepCount, decode);
      && 0.0 <= a.confidenceScore <= 1.0
      && (JsonSpan(text).None? ==>
            && (a.stepCompleted <==> Contains(Lower(text), "completed"))
            && a.confidenceScore == 0.5
            && (a.nextStep.Some? <==> stepNumber < stepCount)
            && (a.nextStep.Some? ==> a.nextStep.value == stepNumber + 1))
      && (JsonSpan(text).Some? && decode(JsonSpan(text).value).None? ==>
            !a.stepCompleted && a.confidenceScore == 0.0 && a.needsClarification && a.nextStep.None?)
  {
  }

  // ---------------------------------------------------------------------
  // Top-k search over document embeddings
  // ---------------------------------------------------------------------

  /** A document with its similarity to the query. */
  datatype Scored = Scored(doc: KnowledgeDoc, similarity: real)

  function SimilarityOf(s: Scored): real { s.similarity }

  /** The documents carrying an embedding, in order. */
  function WithEmbeddings(docs: seq<KnowledgeDoc>): (r: seq<KnowledgeDoc>)
    ensures forall d :: d in r <==> d in docs && d.embedding != []
  {
    if docs == [] then []
    else
      assert forall d :: d in docs <==> d in docs[..|docs| - 1] || d == docs[|docs| - 1];
      WithEmbeddings(docs[..|docs| - 1]) + if docs[|docs| - 1].embedding != [] then [docs[|docs| - 1]] else []
  }

  function ScoredAll(docs: seq<KnowledgeDoc>, query: seq<real>, similarity: (seq<real>, seq<real>) -> real, n: nat): (r: seq<Scored>)
    requires n <= |docs|
    ensures |r| == n
    ensures forall i :: 0 <= i < n ==> r[i] == Scored(docs[i], similarity(query, docs[i].embedding))
  {
    if n == 0 then [] else ScoredAll(docs, query, similarity, n - 1) + [Scored(docs[n - 1], similarity(query, docs[n - 1].embedding))]
  }

  function Docs(ranked: seq<Scored>): (r: seq<KnowledgeDoc>)
    ensures |r| == |ranked|
    ensures forall i :: 0 <= i < |r| ==> r[i] == ranked[i].doc
  {
    if ranked == [] then [] else Docs(ranked[..|ranked| - 1]) + [ranked[|ranked| - 1].doc]
  }

  /** The documents with an embedding, ranked by similarity to the query, the first `limit` of them. */
  function TopDocuments(docs: seq<KnowledgeDoc>, query: seq<real>, similarity: (seq<real>, seq<real>) -> real, limit: int): seq<KnowledgeDoc>
  {
    if query == [] then []
    else
      var candidates := WithEmbeddings(docs);
      if candidates == [] then []
      else Docs(Take(SortDesc(ScoredAll(candidates, query, similarity, |candidates|), SimilarityOf), limit))
  }

  /** `search_documents`: embed the query, score each document with an embedding, rank and cut. */
  method SearchDocuments(query: string, docs: seq<KnowledgeDoc>, limit: int, provider: string -> Option<seq<real>>,
                         similarity: (seq<real>, seq<real>) -> real) returns (found: seq<KnowledgeDoc>)
    ensures found == TopDocuments(docs, GenerateEmbedding(query, provider), similarity, limit)
  {
    var queryEmbedding := GenerateEmbedding(query, provider);
    if queryEmbedding == [] {
      return [];
    }
    var candidates := WithEmbeddings(docs);
    if candidates == [] {
      return [];
    }
    var similarities := [];
    for i := 0 to |candidates|
      invariant similarities == ScoredAll(candidates, queryEmbedding, similarity, i)
    {
      similarities := similarities + [Scored(candidates[i], similarity(queryEmbedding, candidates[i].embedding))];
    }
    found := Docs(Take(SortDesc(similarities, SimilarityOf), limit));
  }

  /** The ranking is descending, and holds each candidate once with its own similarity and nothing else. */
  lemma RankedCandidates(candidates: seq<KnowledgeDoc>, query: seq<real>, similarity: (seq<real>, seq<real>) -> real)
    ensures var sorted := SortDesc(ScoredAll(candidates, query, similarity, |candidates|), SimilarityOf);
      && SortedDesc(sorted, SimilarityOf)
      && (forall x :: x in sorted ==> x.doc in candidates && x.similarity == similarity(query, x.doc.embedding))
      && (forall d :: d in candidates ==> Scored(d, similarity(query, d.embedding)) in sorted)
  {
    var scored := ScoredAll(candidates, query, similarity, |candidates|);
    var sorted := SortDesc(scored, SimilarityOf);
    SortDescSorted(scored, SimilarityOf);
    forall x | x in sorted ensures x.doc in candidates && x.similarity == similarity(query, x.doc.embedding) {
      assert x in multiset(scored);
      var k :| 0 <= k < |scored| && scored[k] == x;
    }
    forall d | d in candidates ensures Scored(d, similarity(query, d.embedding)) in sorted {
      var k :| 0 <= k < |candidates| && candidates[k] == d;
      assert scored[k] in multiset(sorted);
    }
  }

  /**
   * The search returns only documents with an embedding, at most `limit` of
   * them; an empty query embedding gives nothing.
   */
  lemma TopDocumentsMembers(docs: seq<KnowledgeDoc>, query: seq<real>, similarity: (seq<real>, seq<real>) -> real, limit: int)
    ensures var r := TopDocuments(docs, query, similarity, limit);
      && (query == [] ==> r == [])
      && (forall d :: d in r ==> d in docs && d.embedding != [])
      && (limit >= 0 ==> |r| <= limit)
  {
    var r := TopDocuments(docs, query, similarity, limit);
    if query != [] && WithEmbeddings(docs) != [] {
      var candidates := WithEmbeddings(docs);
      var sorted := SortDesc(ScoredAll(candidates, query, similarity, |candidates|), SimilarityOf);
      RankedCandidates(candidates, query, similarity);
      DocsOfTaken(sorted, limit, candidates);
    }
  }

  /** The documents of a cut of a ranking whose entries all come from `candidates` come from `candidates`. */
  lemma DocsOfTaken(sorted: seq<Scored>, limit: int, candidates: seq<KnowledgeDoc>)
    requires forall x :: x in sorted ==> x.doc in candidates
    ensures forall d :: d in Docs(Take(sorted, limit)) ==> d in candidates
  {
    TakeIsPrefix(sorted, limit);
    var taken := Take(sorted, limit);
    var r := Docs(taken);
    forall d | d in r ensures d in candidates {
      var k :| 0 <= k < |r| && r[k] == d;
      assert taken[k] in sorted;
    }
  }

  /**
   * With a query embedding the search returns `candidates[:limit]` many
   * documents, the candidates being the documents with an embedding: for a
   * non-negative limit that is `min(limit, candidates)`, and a limit that
   * covers every candidate returns them all.
   */
  lemma TopDocumentsSize(docs: seq<KnowledgeDoc>, query: seq<real>, similarity: (seq<real>, seq<real>) -> real, limit: int)
    ensures var r := TopDocuments(docs, query, similarity, limit);
      var n := |WithEmbeddings(docs)|;
      && (query != [] ==> |r| == |Take(WithEmbeddings(docs), limit)|)
      && (query != [] && limit >= 0 ==> |r| == if limit < n then limit else n)
      && (query != [] && limit >= n ==> forall d :: d in docs && d.embedding != [] ==> d in r)
  {
    var r := TopDocuments(docs, query, similarity, limit);
    var candidates := WithEmbeddings(docs);
    if query != [] && limit >= |candidates| && candidates != [] {
      var sorted := SortDesc(ScoredAll(candidates, query, similarity, |candidates|), SimilarityOf);
      RankedCandidates(candidates, query, similarity);
      assert Take(sorted, limit) == sorted;
      forall d | d in docs && d.embedding != [] ensures d in r {
        var x := Scored(d, similarity(query, d.embedding));
        var k :| 0 <= k < |sorted| && sorted[k] == x;
        assert r[k] == d;
      }
    }
  }

  /** The documents come in descending similarity to the query. */
  lemma TopDocumentsOrdered(docs: seq<KnowledgeDoc>, query: seq<real>, similarity: (seq<real>, seq<real>) -> real, limit: int)
    ensures var r := TopDocuments(docs, query, similarity, limit);
      forall i, j :: 0 <= i < j < |r| ==> similarity(query, r[i].embedding) >= similarity(query, r[j].embedding)
  {
    var r := TopDocuments(docs, query, similarity, limit);
    if query != [] && WithEmbeddings(docs) != [] {
      var candidates := WithEmbeddings(docs);
      var sorted := SortDesc(ScoredAll(candidates, query, similarity, |candidates|), SimilarityOf);
      RankedCandidates(candidates, query, similarity);
      TakeOfSorted(sorted, SimilarityOf, limit);
      TakeIsPrefix(sorted, limit);
      var taken := Take(sorted, limit);
      forall i, j | 0 <= i < j < |r| ensures similarity(query, r[i].embedding) >= similarity(query, r[j].embedding) {
        assert taken[i] in sorted && taken[j] in sorted;
      }
    }
  }

  /** No document with an embedding that is left out is more similar than the last one returned. */
  lemma TopDocumentsAreTop(docs: seq<KnowledgeDoc>, query: seq<real>, similarity: (seq<real>, seq<real>) -> real, limit: int)
    ensures var r := TopDocuments(docs, query, similarity, limit);
      forall d :: d in docs && d.embedding != [] && d !in r && r != [] ==>
        similarity(query, d.embedding) <= similarity(query, r[|r| - 1].embedding)
  {
    var r := TopDocuments(docs, query, similarity, limit);
    if query != [] && WithEmbeddings(docs) != [] {
      var candidates := WithEmbeddings(docs);
      var sorted := SortDesc(ScoredAll(candidates, query, similarity, |candidates|), SimilarityOf);
      RankedCandidates(candidates, query, similarity);
      var taken := Take(sorted, limit);
      TakeIsPrefix(sorted, limit);
      forall d | d in docs && d.embedding != [] && d !in r && r != []
        ensures similarity(query, d.embedding) <= similarity(query, r[|r| - 1].embedding)
      {
        BelowTheCut(sorted, limit, Scored(d, similarity(query, d.embedding)));
        assert sorted[|taken| - 1] in sorted;
      }
    }
  }

  /** A scored document left out of the top `limit` scores no higher than the last one kept. */
  lemma BelowTheCut(sorted: seq<Scored>, limit: int, x: Scored)
    requires SortedDesc(sorted, SimilarityOf)
    requires x in sorted && x.doc !in Docs(Take(sorted, limit)) && Take(sorted, limit) != []
    ensures x.similarity <= sorted[|Take(sorted, limit)| - 1].similarity
  {
    TakeOfSorted(sorted, SimilarityOf, limit);
    TakeIsPrefix(sorted, limit);
    var t := Take(sorted, limit);
    var m :| 0 <= m < |sorted| && sorted[m] == x;
    assert forall k :: 0 <= k < |t| ==> Docs(t)[k] == sorted[k].doc;
    assert |t| <= m;
  }
}
