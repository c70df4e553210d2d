/**
  The backend's prompt configuration: the per-option video prompts, the three marketing
  templates (each made of a shared context part, the two placeholders and its own
  instructions), the video descriptions, the personas, and the comment-analysis prompt
  pieces. The texts are those of the backend, written as Dafny literals.
 */
module Prompts {
  import opened Text

  const DescriptionPlaceholder: string := "[description of the video]"
  const PersonaPlaceholder: string := "[persona details]"
  const DefaultVideoDescription: string := "Advertisement video"
  const NoCommentsMessage: string := "\U{26A0}\U{FE0F} No comments found."

  const ContextHead: string :=
      "\n"
      + "**Context:**  \n"
      + "You are an audience "
      + "member watching a new "
      + "advertisement video. "
      + "The video is "

  const ContextMid: string :=
      ". Your task is to "
      + "provide honest and "
      + "detailed feedback as a "
      + "viewer.\n"
      + "\n"
      + "**Persona "
      + "Description:**  \n"

  const ImpactInstructions: seq<string> := [
    "\n", "\n", "**Instructions:**  \n", "1. Watch (or imagine ", "watching) the ad video ",
    "described above.  \n", "2. Evaluate the ", "following attributes: ",
    "Attention, Clarity, ", "Relevance, Emotional ", "Appeal, Persuasiveness, ",
    "Memorability.  \n", "3. Provide a **score ", "from 1\U{2013}5** for each ",
    "attribute **for only ", "the selected ", "demographic(s)**.  \n",
    "4. Present results in a ", "**markdown table**, ", "showing attributes as ",
    "rows and selected ", "demographic(s) as ", "columns.  \n", "5. Include brief ",
    "justification (1\U{2013}2 ", "lines) for each score.\n"]

  const BrandInstructions: seq<string> := [
    "\n", "\n", "**Instructions:**  \n", "1. Evaluate these ", "attributes: Brand ",
    "Presence, Product ", "Appeal, Packaging ", "Visibility, ", "Consistency, ",
    "Distinctiveness, CTA ", "Strength.  \n", "2. Provide a **score ",
    "from 1\U{2013}5** for each ", "attribute **for only ", "the selected ",
    "demographic(s)**.  \n", "3. Present results in a ", "**markdown table**, ",
    "showing attributes as ", "rows and selected ", "demographic(s) as ", "columns.  \n",
    "4. Include brief ", "justification (1\U{2013}2 ", "lines) for each score.\n"]

  const ComplianceInstructions: seq<string> := [
    "\n", "\n", "**Instructions:**  \n", "1. Evaluate these ", "attributes: FDA/FTC ",
    "Claim Accuracy, ", "Nutrition Claims, ", "Structure/Function ", "Claims, USDA Rules, ",
    "Allergen Disclosure, ", "Comparative Claims, ", "Children\U{2019}s Standards, ",
    "Disclaimers.  \n", "2. Provide a **score ", "from 1\U{2013}5** for each ",
    "attribute **for only ", "the selected ", "demographic(s)**.  \n",
    "3. Present results in a ", "**markdown table**, ", "showing attributes as ",
    "rows and selected ", "demographic(s) as ", "columns.  \n", "4. Include brief ",
    "justification (1\U{2013}2 ", "lines) for each score.\n"]

  const DescriptionPrompt: string :=
      "Please analyze this video and provide a clear description of what is happening."

  const AudioTextPrompt: string :=
      "You are an intelligent assistant capable of transcribing audio and extracting structured"
      + " insights.  \n"
      + "Step 1: Accurately transcribe the audio content.  \n"
      + "Step 2: Analyze the transcript and extract information in the following structured"
      + " format:  \n"
      + "1. **Key Topics:** List the main subjects discussed.  \n"
      + "2. **Critical Points / Facts:** Highlight important statements, data, or insights.  \n"
      + "3. **Decisions / Actions:** Capture any instructions, recommendations, or next steps.  \n"
      + "4. **Speakers & Roles:** Identify speakers if multiple and their roles or perspectives.  \n"
      + "5. **Sentiment & Tone:** Describe the speaker\U{2019}s emotions, emphasis, or intent.  \n"
      + "6. **Summary:** Provide a concise overview of the audio content in 2\U{2013}3 sentences.  \n"

  const ProductThemePrompt: string :=
      "Analyze this video and extract the product theme in detail. For the theme, provide:\n"
      + "1. **Theme / Main Feature:** Describe the core aspect or highlight of the product.\n"
      + "2. **Sentiment:** Indicate whether the theme is portrayed positively, negatively, or"
      + " neutrally.\n"
      + "3. **Explanation:** Give a short explanation supporting the sentiment, mentioning why"
      + " this feature is important or highlighted in the video.\n"

  const IngredientsPrompt: string :=
      "Analyze this video and extract information about the product's ingredients. For each"
      + " ingredient, provide:\n"
      + "1. **Ingredients:** List all mentioned ingredients.\n"
      + "2. **Sentiment:** Indicate whether the ingredients are portrayed positively, negatively,"
      + " or neutrally.\n"
      + "3. **Explanation:** Provide a brief explanation supporting the sentiment, highlighting"
      + " why the ingredients are considered good or bad in the context of the product.\n"

  const AdVibePrompt: string :=
      "Analyze this ketchup review video and extract the reviewer or consumer reaction in"
      + " detail. For this, provide:\n"
      + "1. **Reaction:** Describe the reviewer\U{2019}s or consumer\U{2019}s observable behavior or response.\n"
      + "2. **Sentiment:** Indicate whether the reaction is positive, neutral, or negative.\n"
      + "3. **Explanation:** Explain why the reviewer reacted this way based on taste, texture,"
      + " aroma, or presentation.\n"

  const PackagingPrompt: string :=
      "Analyze this video and extract information about the product\U{2019}s packaging:\n"
      + "1. **Package Type:** Describe the packaging type.\n"
      + "2. **Package Type Sentiment:** Positive, negative, or neutral.\n"
      + "3. **Explanation for Type Sentiment:** Briefly explain the sentiment.\n"
      + "4. **Package Size / Variants:** List available sizes or variants.\n"
      + "5. **Size Sentiment:** Positive, negative, or neutral.\n"
      + "6. **Explanation for Size Sentiment:** Brief reasoning for sentiment.\n"

  const YouTubeDescription: seq<string> := [
    "Advertisement of a ", "ketchup product, ", "highlighting taste, ",
    "quality, and packaging. ", "Theme is ", "family-friendly, with a ",
    "cheerful and appetizing ", "mood, encouraging ", "purchase."]

  const MalePersona: seq<string> := [
    "I am a 30-year-old male ", "urban professional, ", "interested in cooking ",
    "and convenience, who ", "often buys popular food ", "brands and enjoys ",
    "trying new flavors."]

  const FemalePersona: seq<string> := [
    "I am a 28-year-old ", "female urban ", "professional, ", "interested in wellness ",
    "and environmental ", "sustainability, who ", "regularly purchases ",
    "organic skincare ", "products."]

  const KidsPersona: seq<string> := [
    "I am a 10-year-old kid, ", "love fun and colorful ", "foods, cartoons, and ",
    "products that are sweet ", "and tasty."]

  const TeensPersona: seq<string> := [
    "I am a 16-year-old ", "teenager, enjoy trendy ", "snacks, social media, ",
    "friends' ", "recommendations, and ", "fun, visually appealing ", "products."]

  const AdultsPersona: seq<string> := [
    "I am a 40-year-old ", "adult, focus on quality ", "and value, enjoy ",
    "cooking at home, and ", "prefer trusted food ", "brands for family meals."]

  const SeniorsPersona: seq<string> := [
    "I am a 65-year-old ", "senior, value ", "simplicity and ", "healthiness, prefer ",
    "trusted and familiar ", "food brands, and look ", "for clear labeling."]

  const CommentIntro: string :=
      "\n"
      + "You are an AI marketing analyst. Analyze the following YouTube comments for insights:\n"
      + "\n"
      + "Video URL: "

  const CommentMid: string :=
      "\n"
      + "\n"
      + "Comments:\n"

  const CommentInstructions: string :=
      "\n"
      + "\n"
      + "**Instructions:**\n"
      + "1. Use professional and balanced wording rather than overly strong terms (avoid"
      + " \U{201C}overwhelmingly negative\U{201D}).\n"
      + "2. Summarize the main themes of the comments.\n"
      + "3. Identify sentiment (positive, negative, neutral).\n"
      + "4. Extract product feedback, complaints, or praise.\n"
      + "5. Provide 3\U{2013}5 actionable insights for the business.\n"

  /** A marketing template: the shared context with both placeholders, then the
      descriptor's instructions. */
  function Template(instructions: seq<string>): string {
    ContextHead + DescriptionPlaceholder + ContextMid + PersonaPlaceholder + Join(instructions, "")
  }

  /** `VIDEO_PROMPT_OPTIONS`. */
  const VideoPromptOptions: map<string, string> := map[
    "Video Description" := DescriptionPrompt,
    "Audio-Text Mining" := AudioTextPrompt,
    "Product Theme" := ProductThemePrompt,
    "Ingredients" := IngredientsPrompt,
    "Ad Vibe" := AdVibePrompt,
    "Packaging" := PackagingPrompt]

  /** The instructions of each template of `PROMPT_OPTIONS`, by descriptor. */
  const Instructions: map<string, seq<string>> := map[
    "Consumer Impact & Engagement" := ImpactInstructions,
    "Brand & Creative Quality" := BrandInstructions,
    "Regulatory & Claims Compliance (U.S.)" := ComplianceInstructions]

  /** `PROMPT_OPTIONS.get(descriptor, "")`. */
  function PromptOption(descriptor: string): string {
    if descriptor in Instructions then Template(Instructions[descriptor]) else ""
  }

  /** `VIDEO_DESCRIPTIONS`, in pieces. */
  const VideoDescriptions: map<string, seq<string>> := map["YouTube" := YouTubeDescription]

  /** `PERSONA_DICT`, in pieces. */
  const PersonaDict: map<string, seq<string>> := map[
    "Male" := MalePersona,
    "Female" := FemalePersona,
    "Kids" := KidsPersona,
    "Teens" := TeensPersona,
    "Adults" := AdultsPersona,
    "Seniors" := SeniorsPersona]

  // ---------------------------------------------------------------------------
  // The texts the marketing prompt is built from hold no '[' of their own: the only
  // brackets of a template are its two placeholders. Each text is checked a few parts at
  // a time.

  lemma ContextHeadPlain()
    ensures '[' !in ContextHead
  {
  }

  lemma ContextMidPlain()
    ensures '[' !in ContextMid
  {
  }

  lemma ImpactInstructionsPlain0()
    ensures forall i :: 0 <= i < 6 ==> '[' !in ImpactInstructions[i]
  {
  }

  lemma ImpactInstructionsPlain1()
    ensures forall i :: 6 <= i < 12 ==> '[' !in ImpactInstructions[i]
  {
  }

  lemma ImpactInstructionsPlain2()
    ensures forall i :: 12 <= i < 18 ==> '[' !in ImpactInstructions[i]
  {
  }

  lemma ImpactInstructionsPlain3()
    ensures forall i :: 18 <= i < 24 ==> '[' !in ImpactInstructions[i]
  {
  }

  lemma ImpactInstructionsPlain4()
    ensures forall i :: 24 <= i < 26 ==> '[' !in ImpactInstructions[i]
  {
  }

  lemma ImpactInstructionsPlain()
    ensures '[' !in Join(ImpactInstructions, "")
  {
    ImpactInstructionsPlain0(); ImpactInstructionsPlain1(); ImpactInstructionsPlain2(); ImpactInstructionsPlain3(); ImpactInstructionsPlain4();
    JoinFree(ImpactInstructions, "", '[');
  }

  lemma BrandInstructionsPlain0()
    ensures forall i :: 0 <= i < 6 ==> '[' !in BrandInstructions[i]
  {
  }

  lemma BrandInstructionsPlain1()
    ensures forall i :: 6 <= i < 12 ==> '[' !in BrandInstructions[i]
  {
  }

  lemma BrandInstructionsPlain2()
    ensures forall i :: 12 <= i < 18 ==> '[' !in BrandInstructions[i]
  {
  }

  lemma BrandInstructionsPlain3()
    ensures forall i :: 18 <= i < 24 ==> '[' !in BrandInstructions[i]
  {
  }

  lemma BrandInstructionsPlain4()
    ensures forall i :: 24 <= i < 25 ==> '[' !in BrandInstructions[i]
  {
  }

  lemma BrandInstructionsPlain()
    ensures '[' !in Join(BrandInstructions, "")
  {
    BrandInstructionsPlain0(); BrandInstructionsPlain1(); BrandInstructionsPlain2(); BrandInstructionsPlain3(); BrandInstructionsPlain4();
    JoinFree(BrandInstructions, "", '[');
  }

  lemma ComplianceInstructionsPlain0()
    ensures forall i :: 0 <= i < 6 ==> '[' !in ComplianceInstructions[i]
  {
  }

  lemma ComplianceInstructionsPlain1()
    ensures forall i :: 6 <= i < 12 ==> '[' !in ComplianceInstructions[i]
  {
  }

  lemma ComplianceInstructionsPlain2()
    ensures forall i :: 12 <= i < 18 ==> '[' !in ComplianceInstructions[i]
  {
  }

  lemma ComplianceInstructionsPlain3()
    ensures forall i :: 18 <= i < 24 ==> '[' !in ComplianceInstructions[i]
  {
  }

  lemma ComplianceInstructionsPlain4()
    ensures forall i :: 24 <= i < 27 ==> '[' !in ComplianceInstructions[i]
  {
  }

  lemma ComplianceInstructionsPlain()
    ensures '[' !in Join(ComplianceInstructions, "")
  {
    ComplianceInstructionsPlain0(); ComplianceInstructionsPlain1(); ComplianceInstructionsPlain2(); ComplianceInstructionsPlain3(); ComplianceInstructionsPlain4();
    JoinFree(ComplianceInstructions, "", '[');
  }

  lemma YouTubeDescriptionPlain0()
    ensures forall i :: 0 <= i < 6 ==> '[' !in YouTubeDescription[i]
  {
  }

  lemma YouTubeDescriptionPlain1()
    ensures forall i :: 6 <= i < 9 ==> '[' !in YouTubeDescription[i]
  {
  }

  lemma YouTubeDescriptionPlain()
    ensures '[' !in Join(YouTubeDescription, "")
  {
    YouTubeDescriptionPlain0(); YouTubeDescriptionPlain1();
    JoinFree(YouTubeDescription, "", '[');
  }

  lemma MalePersonaPlain0()
    ensures forall i :: 0 <= i < 6 ==> '[' !in MalePersona[i]
  {
  }

  lemma MalePersonaPlain1()
    ensures forall i :: 6 <= i < 7 ==> '[' !in MalePersona[i]
  {
  }

  lemma MalePersonaPlain()
    ensures '[' !in Join(MalePersona, "")
  {
    MalePersonaPlain0(); MalePersonaPlain1();
    JoinFree(MalePersona, "", '[');
  }

  lemma FemalePersonaPlain0()
    ensures forall i :: 0 <= i < 6 ==> '[' !in FemalePersona[i]
  {
  }

  lemma FemalePersonaPlain1()
    ensures forall i :: 6 <= i < 9 ==> '[' !in FemalePersona[i]
  {
  }

  lemma FemalePersonaPlain()
    ensures '[' !in Join(FemalePersona, "")
  {
    FemalePersonaPlain0(); FemalePersonaPlain1();
    JoinFree(FemalePersona, "", '[');
  }

  lemma KidsPersonaPlain0()
    ensures forall i :: 0 <= i < 5 ==> '[' !in KidsPersona[i]
  {
  }

  lemma KidsPersonaPlain()
    ensures '[' !in Join(KidsPersona, "")
  {
    KidsPersonaPlain0();
    JoinFree(KidsPersona, "", '[');
  }

  lemma TeensPersonaPlain0()
    ensures forall i :: 0 <= i < 6 ==> '[' !in TeensPersona[i]
  {
  }

  lemma TeensPersonaPlain1()
    ensures forall i :: 6 <= i < 7 ==> '[' !in TeensPersona[i]
  {
  }

  lemma TeensPersonaPlain()
    ensures '[' !in Join(TeensPersona, "")
  {
    TeensPersonaPlain0(); TeensPersonaPlain1();
    JoinFree(TeensPersona, "", '[');
  }

  lemma AdultsPersonaPlain0()
    ensures forall i :: 0 <= i < 6 ==> '[' !in AdultsPersona[i]
  {
  }

  lemma AdultsPersonaPlain()
    ensures '[' !in Join(AdultsPersona, "")
  {
    AdultsPersonaPlain0();
    JoinFree(AdultsPersona, "", '[');
  }

  lemma SeniorsPersonaPlain0()
    ensures forall i :: 0 <= i < 6 ==> '[' !in SeniorsPersona[i]
  {
  }

  lemma SeniorsPersonaPlain1()
    ensures forall i :: 6 <= i < 7 ==> '[' !in SeniorsPersona[i]
  {
  }

  lemma SeniorsPersonaPlain()
    ensures '[' !in Join(SeniorsPersona, "")
  {
    SeniorsPersonaPlain0(); SeniorsPersonaPlain1();
    JoinFree(SeniorsPersona, "", '[');
  }

  /** No persona holds a '['. */
  lemma PersonaPlain(demographic: string)
    requires demographic in PersonaDict
    ensures '[' !in Join(PersonaDict[demographic], "")
  {
    if demographic == "Male" {
      assert PersonaDict[demographic] == MalePersona;
      MalePersonaPlain();
    } else if demographic == "Female" {
      assert PersonaDict[demographic] == FemalePersona;
      FemalePersonaPlain();
    } else if demographic == "Kids" {
      assert PersonaDict[demographic] == KidsPersona;
      KidsPersonaPlain();
    } else if demographic == "Teens" {
      assert PersonaDict[demographic] == TeensPersona;
      TeensPersonaPlain();
    } else if demographic == "Adults" {
      assert PersonaDict[demographic] == AdultsPersona;
      AdultsPersonaPlain();
    } else {
      assert PersonaDict[demographic] == SeniorsPersona;
      SeniorsPersonaPlain();
    }
  }
}
