/**
 * The intake question catalog: the record type of one step and the constant,
 * ordered list of the seven steps the intake conversation walks through.
 */
module IntakeQuestions {
  import opened Wrappers

  /** How a step expects to be answered. */
  datatype StepType = Text | Choice | TextWithSuggestions

  /** One catalog entry. Optional members of the record are `Option`s. */
  datatype IntakeStep = IntakeStep(
    id: string,
    question: string,
    stepType: StepType,
    options: Option<seq<string>>,
    suggestions: Option<seq<string>>,
    extractKey: string,
    personalizedReplies: Option<map<string, string>>)

  /** The catalog, in presentation order. */
  const Flow: seq<IntakeStep> := [
    IntakeStep(
      "project-type",
      "Hey there! 👋 To get started, what kind of project are you working on?",
      Choice,
      Some(["Blog / Content Site", "E-commerce Store", "SaaS / Product", "Local Business", "Other"]),
      None,
      "projectType",
      Some(map[
        "Blog / Content Site" := "Awesome, a blogger! Content creators are the heart of the internet. 💖",
        "E-commerce Store" := "Nice! E-commerce is where the magic happens. Let's make your products irresistible! ✨",
        "SaaS / Product" := "Ooh, a tech innovator! This is going to be fun. 🚀",
        "Local Business" := "Supporting local businesses is my jam! Let's put you on the map! 🗺️",
        "Other" := "I love a mystery! Tell me more about your unique project! 🎭",
        "default" := "Great choice! Let's dive a bit deeper."])),
    IntakeStep(
      "niche",
      "Now, let's get specific - what's your niche or industry? (e.g., 'Vegan cooking', 'B2B marketing software')",
      Text,
      None,
      None,
      "niche",
      Some(map["default" := "That's a fascinating niche! I can already see the potential. 🌟"])),
    IntakeStep(
      "target-audience",
      "Who are you creating this content for? Describe your target audience.",
      TextWithSuggestions,
      None,
      Some(["Small business owners", "Tech enthusiasts", "Health-conscious millennials", "DIY hobbyists",
            "Professional developers", "Parents", "Students", "Fitness enthusiasts"]),
      "targetAudience",
      Some(map["default" := "Perfect! Understanding your audience is key to great content. 🎯"])),
    IntakeStep(
      "content-types",
      "What type of content do you create most often?",
      Choice,
      Some(["How-to Guides", "Product Reviews", "Listicles / Top 10s", "Educational Articles"]),
      None,
      "contentTypes",
      Some(map[
        "How-to Guides" := "Love it! How-to guides are super valuable for readers. 📚",
        "Product Reviews" := "Smart choice! Honest reviews build trust and drive decisions. ⭐",
        "Listicles / Top 10s" := "Listicles are so engaging! People love a good countdown. 📝",
        "Educational Articles" := "Educational content positions you as an expert. Great strategy! 🎓",
        "default" := "Excellent content strategy!"])),
    IntakeStep(
      "goals",
      "What's your main goal with this content?",
      Choice,
      Some(["Drive Sales", "Build Brand Authority", "Generate Leads", "Educate My Audience"]),
      None,
      "primaryGoal",
      Some(map[
        "Drive Sales" := "Let's turn those readers into customers! 💰",
        "Build Brand Authority" := "Building authority is a smart long-term play. 👑",
        "Generate Leads" := "Lead generation is the lifeblood of growth! 📈",
        "Educate My Audience" := "Knowledge sharing creates loyal communities. Love it! 🤝",
        "default" := "That's a solid goal!"])),
    IntakeStep(
      "voice",
      "How do you want your brand to sound?",
      Choice,
      Some(["Professional & Authoritative", "Friendly & Casual", "Witty & Humorous", "Technical & Expert"]),
      None,
      "brandVoice",
      Some(map[
        "Professional & Authoritative" := "Professional content builds serious trust. 💼",
        "Friendly & Casual" := "Friendly brands create the best connections! 😊",
        "Witty & Humorous" := "Humor makes everything more memorable! 😄",
        "Technical & Expert" := "Technical expertise is so valuable. Rock on! 🔧",
        "default" := "Great voice choice!"])),
    IntakeStep(
      "language",
      "Finally, what language will you be creating content in?",
      Choice,
      Some(["English", "Spanish", "French", "German", "Dutch", "Portuguese"]),
      None,
      "language",
      Some(map[
        "English" := "Perfect! Let's create amazing English content together. 🌍",
        "Spanish" := "¡Excelente! Spanish content has huge potential. 🇪🇸",
        "French" := "Magnifique! French content adds such elegance. 🇫🇷",
        "German" := "Wunderbar! German content means quality. 🇩🇪",
        "Dutch" := "Geweldig! Dutch content is on the rise. 🇳🇱",
        "Portuguese" := "Ótimo! Portuguese opens up amazing markets. 🇧🇷",
        "default" := "Great language choice!"]))
  ]

  /** The answer fields the profile endpoint reads from a submitted `answers` object. */
  const ProfileAnswerFields: set<string> :=
    {"projectType", "niche", "targetAudience", "contentTypes", "primaryGoal", "brandVoice", "language"}

  /** The storage keys of the first `n` steps of `flow`. */
  function KeysBefore(flow: seq<IntakeStep>, n: nat): (keys: set<string>)
    requires n <= |flow|
    ensures forall i :: 0 <= i < n ==> flow[i].extractKey in keys
    ensures forall k :: k in keys ==> exists i :: 0 <= i < n && flow[i].extractKey == k
  {
    set i | 0 <= i < n :: flow[i].extractKey
  }

  /** No two steps share an `id`. */
  ghost predicate DistinctIds(flow: seq<IntakeStep>)
  {
    forall i, j :: 0 <= i < j < |flow| ==> flow[i].id != flow[j].id
  }

  /** No two steps store their answer under the same key. */
  ghost predicate DistinctKeys(flow: seq<IntakeStep>)
  {
    forall i, j :: 0 <= i < j < |flow| ==> flow[i].extractKey != flow[j].extractKey
  }

  /** Every choice step lists at least one option. */
  ghost predicate ChoicesHaveOptions(flow: seq<IntakeStep>)
  {
    forall i :: 0 <= i < |flow| && flow[i].stepType == Choice ==>
      flow[i].options.Some? && |flow[i].options.value| > 0
  }

  /** What the chat component relies on: a first step exists and keys are distinct. */
  ghost predicate WellFormed(flow: seq<IntakeStep>)
  {
    |flow| > 0 && DistinctKeys(flow)
  }

  /** The storage key of each catalog step, in order. */
  lemma FlowKeys()
    ensures |Flow| == 7
    ensures Flow[0].extractKey == "projectType" && Flow[1].extractKey == "niche"
    ensures Flow[2].extractKey == "targetAudience" && Flow[3].extractKey == "contentTypes"
    ensures Flow[4].extractKey == "primaryGoal" && Flow[5].extractKey == "brandVoice"
    ensures Flow[6].extractKey == "language"
  {
  }

  /** Each position of the catalog is one of the seven literal entries. */
  lemma StepAt(i: int)
    requires 0 <= i < |Flow|
    ensures i == 0 || i == 1 || i == 2 || i == 3 || i == 4 || i == 5 || i == 6
  {
  }

  /** The catalog has seven steps and no two share an `id`. */
  lemma IdsAreDistinct()
    ensures |Flow| == 7
    ensures DistinctIds(Flow)
  {
    forall i, j | 0 <= i < j < |Flow| ensures Flow[i].id != Flow[j].id {
      StepAt(i);
      StepAt(j);
    }
  }

  /** No two steps of the catalog share a storage key. */
  lemma ExtractKeysAreDistinct()
    ensures DistinctKeys(Flow)
  {
    forall i, j | 0 <= i < j < |Flow| ensures Flow[i].extractKey != Flow[j].extractKey {
      StepAt(i);
      StepAt(j);
    }
  }

  /** The catalog meets what the chat component relies on: a first step and distinct keys. */
  lemma FlowIsWellFormed()
    ensures WellFormed(Flow)
  {
    ExtractKeysAreDistinct();
  }

  /** Every choice step of the catalog lists at least one option. */
  lemma ChoiceStepsHaveOptions()
    ensures ChoicesHaveOptions(Flow)
  {
    forall i | 0 <= i < |Flow| && Flow[i].stepType == Choice
      ensures Flow[i].options.Some? && |Flow[i].options.value| > 0
    {
      StepAt(i);
    }
  }

  /** Options appear exactly on the choice steps. */
  lemma OptionsOnlyOnChoiceSteps()
    ensures forall i :: 0 <= i < |Flow| ==> (Flow[i].options.Some? <==> Flow[i].stepType == Choice)
  {
    forall i | 0 <= i < |Flow| ensures Flow[i].options.Some? <==> Flow[i].stepType == Choice {
      StepAt(i);
    }
  }

  /** Every step has personalized replies with a `default` entry. */
  lemma EveryStepHasDefaultReply()
    ensures forall i :: 0 <= i < |Flow| ==>
      Flow[i].personalizedReplies.Some? && "default" in Flow[i].personalizedReplies.value
  {
    forall i | 0 <= i < |Flow|
      ensures Flow[i].personalizedReplies.Some? && "default" in Flow[i].personalizedReplies.value
    {
      StepAt(i);
    }
  }

  /** On a choice step, every option has a reply of its own, besides the default. */
  lemma EveryOptionHasReply()
    ensures forall i :: 0 <= i < |Flow| && Flow[i].stepType == Choice ==>
      Flow[i].options.Some? && Flow[i].personalizedReplies.Some? &&
      forall o :: o in Flow[i].options.value ==>
        o in Flow[i].personalizedReplies.value && o != "default"
  {
    forall i | 0 <= i < |Flow| && Flow[i].stepType == Choice
      ensures Flow[i].options.Some? && Flow[i].personalizedReplies.Some? &&
        forall o :: o in Flow[i].options.value ==>
          o in Flow[i].personalizedReplies.value && o != "default"
    {
      StepAt(i);
    }
  }

  /** Suggestions appear exactly on the text-with-suggestions step, the third one. */
  lemma SuggestionsOnlyOnSuggestionStep()
    ensures forall i :: 0 <= i < |Flow| ==>
      (Flow[i].suggestions.Some? <==> Flow[i].stepType == TextWithSuggestions)
    ensures Flow[2].stepType == TextWithSuggestions
  {
    forall i | 0 <= i < |Flow|
      ensures Flow[i].suggestions.Some? <==> Flow[i].stepType == TextWithSuggestions
    {
      StepAt(i);
    }
  }

  /** The storage keys of all steps are exactly the answer fields a profile is created from. */
  lemma ExtractKeysAreProfileFields()
    ensures KeysBefore(Flow, |Flow|) == ProfileAnswerFields
  {
    var keys := KeysBefore(Flow, |Flow|);
    assert Flow[0].extractKey in keys && Flow[1].extractKey in keys && Flow[2].extractKey in keys;
    assert Flow[3].extractKey in keys && Flow[4].extractKey in keys && Flow[5].extractKey in keys;
    assert Flow[6].extractKey in keys;
    forall k | k in keys ensures k in ProfileAnswerFields {
      var i :| 0 <= i < |Flow| && Flow[i].extractKey == k;
      StepAt(i);
    }
  }
}
