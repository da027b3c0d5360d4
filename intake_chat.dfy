/**
 * The intake chat component: a conversation that walks the question catalog,
 * records one answer per step and, after the last step, asks for a profile
 * name and posts the answers to the profile endpoint.
 *
 * `ChatState` and the functions over it are the specification; the class
 * `Chat` holds the component's state in fields and its methods are proved to
 * move that state exactly as the functions say. The functions read the question
 * catalog through a parameter `flow`; the component binds it to `Flow`, and the
 * lemmas that depend on the catalog's particular entries are stated for `Flow`.
 */
module IntakeChat {
  import opened Wrappers
  import opened IntakeQuestions

  datatype Role = Assistant | User

  /** One chat bubble. */
  datatype Message = Message(role: Role, text: string)

  /**
   * Everything the component keeps: its five pieces of React state, the value of
   * the uncontrolled text input, and the `currentProfileId` entry of local storage.
   */
  datatype ChatState = ChatState(
    currentStep: int,
    answers: map<string, string>,
    messages: seq<Message>,
    isComplete: bool,
    isSaving: bool,
    inputValue: string,
    storedProfileId: Option<string>)

  /** What the user does with the profile-name prompt. */
  datatype PromptReply = Cancelled | AcceptedDefault | Entered(text: string)

  /** The body posted to the profile endpoint; a cancelled prompt posts a null name. */
  datatype SaveRequest = SaveRequest(answers: map<string, string>, profileName: Option<string>)

  /**
   * How the profile POST ended: a transport failure, or an HTTP response with its
   * `ok` flag and the `profile.id` found in its JSON body (None when the body has
   * no profile object, so reading its id throws).
   */
  datatype FetchResult = NetworkError | HttpResponse(ok: bool, profileId: Option<string>)

  /** The input control rendered under the transcript. */
  datatype Control = NoInput | Buttons(options: seq<string>) | TextForm

  // ---------------------------------------------------------------------------
  // The text-form submit filter (String.prototype.trim)
  // ---------------------------------------------------------------------------

  /** The characters JavaScript's `trim` removes: white space and line terminators. */
  predicate IsWhitespace(c: char)
  {
    c == '\t' || c == '\n' || c == '\U{B}' || c == '\U{C}' || c == '\r' || c == ' ' ||
    c == '\U{A0}' || c == '\U{1680}' || ('\U{2000}' <= c <= '\U{200A}') ||
    c == '\U{2028}' || c == '\U{2029}' || c == '\U{202F}' || c == '\U{205F}' ||
    c == '\U{3000}' || c == '\U{FEFF}'
  }

  /** All characters of `s` are white space (vacuously so for ""). */
  predicate IsBlank(s: string)
  {
    forall i :: 0 <= i < |s| ==> IsWhitespace(s[i])
  }

  /** `s` without its leading white space. */
  function TrimStart(s: string): (r: string)
    ensures |r| <= |s| && r == s[|s| - |r|..]
    ensures IsBlank(s[..|s| - |r|])
    ensures r != [] ==> !IsWhitespace(r[0])
  {
    if s != [] && IsWhitespace(s[0]) then TrimStart(s[1..]) else s
  }

  /** `s` without its trailing white space. */
  function TrimEnd(s: string): (r: string)
    ensures |r| <= |s| && r == s[..|r|]
    ensures IsBlank(s[|r|..])
    ensures r != [] ==> !IsWhitespace(r[|r| - 1])
  {
    if s != [] && IsWhitespace(s[|s| - 1]) then TrimEnd(s[..|s| - 1]) else s
  }

  /** `r` is the part of `s` that starts at `i` and has only white space around it. */
  ghost predicate BlankAround(s: string, i: int, r: string)
  {
    0 <= i <= |s| - |r| && s[i..i + |r|] == r && IsBlank(s[..i]) && IsBlank(s[i + |r|..])
  }

  /** `s` neither starts nor ends with white space. */
  predicate Unpadded(s: string)
  {
    s != [] ==> !IsWhitespace(s[0]) && !IsWhitespace(s[|s| - 1])
  }

  /** `s.trim()`, never longer than `s` (`TrimIsBlankAround` says which part of `s` it is). */
  function Trim(s: string): (r: string)
    ensures |r| <= |s|
  {
    TrimEnd(TrimStart(s))
  }

  /**
   * The trim is the part of `s` left between its leading and its trailing white
   * space, and it neither starts nor ends with white space.
   */
  lemma TrimIsBlankAround(s: string)
    ensures exists i :: BlankAround(s, i, Trim(s))
    ensures Unpadded(Trim(s))
  {
    var t := TrimStart(s);
    var r := Trim(s);
    var i := |s| - |t|;
    assert s[i..i + |r|] == t[..|r|];
    assert s[i + |r|..] == t[|r|..];
    assert BlankAround(s, i, r);
  }

  lemma {:induction false} TrimStartOfBlank(s: string)
    requires IsBlank(s)
    ensures TrimStart(s) == []
  {
    if s != [] {
      TrimStartOfBlank(s[1..]);
    }
  }

  /** Trimming leaves nothing exactly when the input is blank. */
  lemma TrimEmptyIffBlank(s: string)
    ensures Trim(s) == "" <==> IsBlank(s)
  {
    var t := TrimStart(s);
    if Trim(s) == "" {
      assert t[0..] == t;
      assert t == [];
      assert s[..|s|] == s;
    }
    if IsBlank(s) {
      TrimStartOfBlank(s);
    }
  }

  /** A trimmed string is its own trim. */
  lemma TrimIdempotent(s: string)
    ensures Trim(Trim(s)) == Trim(s)
  {
    var t := Trim(s);
    if t != [] {
      assert t[0] == TrimStart(s)[0];
      assert TrimStart(t) == t;
    }
  }

  /**
   * The text form's submit handler: a blank input submits nothing (and the input
   * keeps its value); otherwise the trimmed value is submitted and the input cleared.
   */
  function FormSubmission(value: string): (r: Option<string>)
    ensures r.None? <==> IsBlank(value)
    ensures r.Some? ==> r.value == Trim(value)
    ensures r.Some? ==> r.value != "" && Trim(r.value) == r.value
  {
    var trimmed := Trim(value);
    TrimEmptyIffBlank(value);
    TrimIdempotent(value);
    if trimmed != "" then Some(trimmed) else None
  }

  /** The form submits exactly the non-empty strings that are their own trim. */
  lemma FormSubmitsExactlyTrimmedText(a: string)
    ensures (exists v :: FormSubmission(v) == Some(a)) <==> a != "" && Trim(a) == a
  {
    if a != "" && Trim(a) == a {
      assert FormSubmission(a) == Some(a);
    }
  }

  // ---------------------------------------------------------------------------
  // State transitions
  // ---------------------------------------------------------------------------

  /** The state after mounting: the first question, if any, is the only message. */
  function Initial(flow: seq<IntakeStep>, storedProfileId: Option<string>): (s: ChatState)
    ensures s.currentStep == 0 && s.answers == map[] && !s.isComplete && !s.isSaving
    ensures |flow| > 0 ==> s.messages == [Message(Assistant, flow[0].question)]
    ensures |flow| == 0 ==> s.messages == []
  {
    ChatState(0, map[], if |flow| > 0 then [Message(Assistant, flow[0].question)] else [],
              false, false, "", storedProfileId)
  }

  /** The current step exists in the catalog. */
  predicate HasCurrentStep(flow: seq<IntakeStep>, s: ChatState)
  {
    0 <= s.currentStep < |flow|
  }

  /** Answering the current step finishes the flow. */
  predicate AnswerCompletes(flow: seq<IntakeStep>, s: ChatState)
  {
    HasCurrentStep(flow, s) && s.currentStep + 1 >= |flow|
  }

  /** The name the prompt offers by default: the niche answer followed by " Project". */
  function DefaultProfileName(answers: map<string, string>): (name: string)
    ensures "niche" in answers ==> name == answers["niche"] + " Project"
    ensures "niche" !in answers ==> name == "undefined Project"
  {
    (if "niche" in answers then answers["niche"] else "undefined") + " Project"
  }

  /** The profile name the prompt yields: null when cancelled. */
  function ProfileNameFrom(answers: map<string, string>, reply: PromptReply): (name: Option<string>)
    ensures name.None? <==> reply.Cancelled?
    ensures reply.AcceptedDefault? ==> name == Some(DefaultProfileName(answers))
    ensures reply.Entered? ==> name == Some(reply.text)
  {
    match reply
    case Cancelled => None
    case AcceptedDefault => Some(DefaultProfileName(answers))
    case Entered(t) => Some(t)
  }

  /**
   * `handleAnswer(answer)` run to its first await: the user's message is appended
   * and the answer recorded under the step's key; then either the next question is
   * appended and the step advances, or the flow is marked complete and the save
   * starts (`isSaving`). Without a current step nothing happens.
   */
  function AfterAnswer(flow: seq<IntakeStep>, s: ChatState, answer: string): (r: ChatState)
    ensures !HasCurrentStep(flow, s) ==> r == s
    ensures HasCurrentStep(flow, s) ==>
      && r.answers == s.answers[flow[s.currentStep].extractKey := answer]
      && r.inputValue == s.inputValue && r.storedProfileId == s.storedProfileId
    ensures HasCurrentStep(flow, s) && !AnswerCompletes(flow, s) ==>
      && r.currentStep == s.currentStep + 1
      && r.messages == s.messages + [Message(User, answer), Message(Assistant, flow[r.currentStep].question)]
      && r.isComplete == s.isComplete && r.isSaving == s.isSaving
    ensures AnswerCompletes(flow, s) ==>
      && r.currentStep == s.currentStep
      && r.messages == s.messages + [Message(User, answer)]
      && r.isComplete && r.isSaving
  {
    if !HasCurrentStep(flow, s) then s
    else
      var newAnswers := s.answers[flow[s.currentStep].extractKey := answer];
      var nextStep := s.currentStep + 1;
      if nextStep >= |flow| then
        s.(messages := s.messages + [Message(User, answer)], answers := newAnswers,
           isComplete := true, isSaving := true)
      else
        s.(messages := s.messages + [Message(User, answer), Message(Assistant, flow[nextStep].question)],
           answers := newAnswers, currentStep := nextStep)
  }

  /** Answering changes only the answer stored under the current step's key. */
  lemma AfterAnswerKeepsOtherAnswers(flow: seq<IntakeStep>, s: ChatState, answer: string, key: string)
    requires HasCurrentStep(flow, s) && key != flow[s.currentStep].extractKey
    ensures key in AfterAnswer(flow, s, answer).answers <==> key in s.answers
    ensures key in s.answers ==> AfterAnswer(flow, s, answer).answers[key] == s.answers[key]
  {
  }

  /** The request `handleAnswer` posts: only on the last step, carrying the updated answers. */
  function SaveRequestAfter(flow: seq<IntakeStep>, s: ChatState, answer: string, reply: PromptReply)
    : (req: Option<SaveRequest>)
    ensures req.Some? <==> AnswerCompletes(flow, s)
    ensures req.Some? ==> req.value.answers == AfterAnswer(flow, s, answer).answers
    ensures req.Some? ==> req.value.profileName == ProfileNameFrom(req.value.answers, reply)
  {
    if AnswerCompletes(flow, s) then
      var finalAnswers := s.answers[flow[s.currentStep].extractKey := answer];
      Some(SaveRequest(finalAnswers, ProfileNameFrom(finalAnswers, reply)))
    else None
  }

  /**
   * The save went through: the response was ok, its body had a profile id, and
   * `localStorage.setItem` returned normally (`storageWrites`; it throws when
   * storage is full or disabled). A transport failure, a non-ok response, a body
   * without a profile or a throwing `setItem` each end in the catch block.
   */
  predicate SaveSucceeded(response: FetchResult, storageWrites: bool)
    ensures SaveSucceeded(response, storageWrites) ==> storageWrites && response != NetworkError
    ensures SaveSucceeded(response, storageWrites) <==> response.HttpResponse? && response.ok && response.profileId.Some? && storageWrites
  {
    match response
    case NetworkError => false
    case HttpResponse(ok, profileId) => ok && profileId.Some? && storageWrites
  }

  /**
   * The rest of `saveProfile` after the POST settles: on success the profile id is
   * stored; on any failure an alert is shown; either way `isSaving` is cleared.
   * Nothing else changes, so `isComplete` stays as it was, failure or not.
   */
  function AfterSave(s: ChatState, response: FetchResult, storageWrites: bool): (r: ChatState)
    ensures !r.isSaving
    ensures r.storedProfileId ==
      (if SaveSucceeded(response, storageWrites) then response.profileId else s.storedProfileId)
    ensures r.(isSaving := s.isSaving, storedProfileId := s.storedProfileId) == s
  {
    s.(isSaving := false,
       storedProfileId :=
         if SaveSucceeded(response, storageWrites) then response.profileId else s.storedProfileId)
  }

  // ---------------------------------------------------------------------------
  // Invariant
  // ---------------------------------------------------------------------------

  /** Steps answered so far: the current one too once the flow is complete. */
  function AnsweredCount(s: ChatState): int
  {
    s.currentStep + if s.isComplete then 1 else 0
  }

  /**
   * The step index stays inside the catalog, completion only happens on the last
   * step, and the answered keys are exactly those of the answered steps.
   */
  ghost predicate StateValid(flow: seq<IntakeStep>, s: ChatState)
  {
    && HasCurrentStep(flow, s)
    && (s.isComplete ==> s.currentStep == |flow| - 1)
    && s.answers.Keys == KeysBefore(flow, AnsweredCount(s))
  }

  /** The storage keys of one more step. */
  lemma KeysBeforeNext(flow: seq<IntakeStep>, n: nat)
    requires n < |flow|
    ensures KeysBefore(flow, n + 1) == KeysBefore(flow, n) + {flow[n].extractKey}
  {
    var a, b := KeysBefore(flow, n + 1), KeysBefore(flow, n) + {flow[n].extractKey};
    forall k | k in a ensures k in b {
      var i :| 0 <= i < n + 1 && flow[i].extractKey == k;
      if i < n { assert flow[i].extractKey in KeysBefore(flow, n); }
    }
  }

  lemma InitialIsValid(flow: seq<IntakeStep>, stored: Option<string>)
    requires |flow| > 0
    ensures StateValid(flow, Initial(flow, stored))
  {
    assert KeysBefore(flow, 0) == {};
  }

  /** Answering keeps the invariant, whether or not the flow was already complete. */
  lemma AfterAnswerPreservesValid(flow: seq<IntakeStep>, s: ChatState, answer: string)
    requires StateValid(flow, s)
    ensures StateValid(flow, AfterAnswer(flow, s, answer))
  {
    if !s.isComplete {
      KeysBeforeNext(flow, s.currentStep);
    } else {
      assert flow[s.currentStep].extractKey in KeysBefore(flow, AnsweredCount(s));
    }
  }

  // ---------------------------------------------------------------------------
  // Whole conversations
  // ---------------------------------------------------------------------------

  /** The state after `answers` were handed to `handleAnswer`, one after the other. */
  function Run(flow: seq<IntakeStep>, stored: Option<string>, answers: seq<string>): ChatState
  {
    if answers == [] then Initial(flow, stored)
    else AfterAnswer(flow, Run(flow, stored, answers[..|answers| - 1]), answers[|answers| - 1])
  }

  /**
   * After the first `k` steps are answered the step index is `k`, or the last
   * index with the flow complete and saving once all are answered; the text input
   * and the stored profile id are untouched.
   */
  lemma {:induction false} RunProgress(flow: seq<IntakeStep>, stored: Option<string>, answers: seq<string>)
    requires |flow| > 0 && |answers| <= |flow|
    ensures var s := Run(flow, stored, answers);
      && s.currentStep == (if |answers| < |flow| then |answers| else |flow| - 1)
      && s.isComplete == (|answers| == |flow|)
      && s.isSaving == (|answers| == |flow|)
      && s.inputValue == "" && s.storedProfileId == stored
  {
    if answers != [] {
      RunProgress(flow, stored, answers[..|answers| - 1]);
    }
  }

  /**
   * After the first `k` steps are answered, exactly their keys are present and
   * each holds the answer given to its step.
   */
  lemma {:induction false} RunAnswers(flow: seq<IntakeStep>, stored: Option<string>, answers: seq<string>)
    requires WellFormed(flow) && |answers| <= |flow|
    ensures var s := Run(flow, stored, answers);
      && s.answers.Keys == KeysBefore(flow, |answers|)
      && (forall i :: 0 <= i < |answers| ==> s.answers[flow[i].extractKey] == answers[i])
  {
    if answers == [] {
      assert KeysBefore(flow, 0) == {};
    } else {
      var n := |answers| - 1;
      var prefix := answers[..n];
      RunAnswers(flow, stored, prefix);
      RunProgress(flow, stored, prefix);
      var before := Run(flow, stored, prefix).answers;
      var key := flow[n].extractKey;
      var after := Run(flow, stored, answers).answers;
      assert after == before[key := answers[n]];
      assert after.Keys == before.Keys + {key};
      KeysBeforeNext(flow, n);
      forall i | 0 <= i < n ensures after[flow[i].extractKey] == answers[i] {
        assert prefix[i] == answers[i];
        assert flow[i].extractKey != key;
      }
    }
  }

  /**
   * After the first `k` steps are answered, the transcript alternates each step's
   * question with its answer and, while a step remains, ends with its question.
   */
  lemma {:induction false} RunTranscript(flow: seq<IntakeStep>, stored: Option<string>, answers: seq<string>)
    requires |flow| > 0 && |answers| <= |flow|
    ensures var s := Run(flow, stored, answers);
      && |s.messages| == 2 * |answers| + (if |answers| < |flow| then 1 else 0)
      && (forall i :: 0 <= i < |answers| ==>
            s.messages[2 * i] == Message(Assistant, flow[i].question) &&
            s.messages[2 * i + 1] == Message(User, answers[i]))
      && (|answers| < |flow| ==> s.messages[2 * |answers|] == Message(Assistant, flow[|answers|].question))
  {
    if answers != [] {
      var n := |answers| - 1;
      var prefix := answers[..n];
      RunTranscript(flow, stored, prefix);
      RunProgress(flow, stored, prefix);
      var p := Run(flow, stored, prefix).messages;
      var m := Run(flow, stored, answers).messages;
      assert m[..|p|] == p;
      forall i | 0 <= i < n
        ensures m[2 * i] == Message(Assistant, flow[i].question)
        ensures m[2 * i + 1] == Message(User, answers[i])
      {
        assert prefix[i] == answers[i];
        assert m[2 * i] == p[2 * i] && m[2 * i + 1] == p[2 * i + 1];
      }
    }
  }

  /**
   * Answering the last step posts the answers the whole conversation collected,
   * under the name the prompt yields.
   */
  lemma CompletedRunPosts(flow: seq<IntakeStep>, stored: Option<string>, answers: seq<string>, reply: PromptReply)
    requires |flow| > 0 && |answers| == |flow|
    ensures var req := SaveRequestAfter(flow, Run(flow, stored, answers[..|flow| - 1]), answers[|flow| - 1], reply);
      && req == Some(SaveRequest(Run(flow, stored, answers).answers,
                                 ProfileNameFrom(Run(flow, stored, answers).answers, reply)))
  {
    RunProgress(flow, stored, answers[..|flow| - 1]);
  }

  /**
   * A finished conversation over the catalog posts all seven answers, each under
   * the profile field of its step, and by default names the profile after the
   * niche answer.
   */
  lemma CompletedRunPostsEveryAnswer(stored: Option<string>, answers: seq<string>, reply: PromptReply)
    requires |answers| == 7
    ensures var req := SaveRequestAfter(Flow, Run(Flow, stored, answers[..6]), answers[6], reply);
      && req.Some?
      && req.value.answers.Keys == ProfileAnswerFields
      && req.value.answers["projectType"] == answers[0] && req.value.answers["niche"] == answers[1]
      && req.value.answers["targetAudience"] == answers[2] && req.value.answers["contentTypes"] == answers[3]
      && req.value.answers["primaryGoal"] == answers[4] && req.value.answers["brandVoice"] == answers[5]
      && req.value.answers["language"] == answers[6]
      && (reply.AcceptedDefault? ==> req.value.profileName == Some(answers[1] + " Project"))
      && (reply.Cancelled? ==> req.value.profileName.None?)
  {
    FlowKeys();
    FlowIsWellFormed();
    CompletedRunPosts(Flow, stored, answers, reply);
    RunAnswers(Flow, stored, answers);
    ExtractKeysAreProfileFields();
  }

  // ---------------------------------------------------------------------------
  // What the rendered controls let the user submit
  // ---------------------------------------------------------------------------

  /**
   * The control shown for a state: nothing once complete (the completion view),
   * option buttons on a choice step, the text form on a text step, and nothing at
   * all on a text-with-suggestions step, for which no branch renders an input.
   */
  function Offered(flow: seq<IntakeStep>, s: ChatState): (c: Control)
    ensures c.TextForm? <==> !s.isComplete && HasCurrentStep(flow, s) && flow[s.currentStep].stepType == Text
    ensures c.Buttons? <==> !s.isComplete && HasCurrentStep(flow, s) && flow[s.currentStep].stepType == Choice
    ensures c.Buttons? ==> c.options == (if flow[s.currentStep].options.Some? then flow[s.currentStep].options.value else [])
  {
    if s.isComplete || !HasCurrentStep(flow, s) then NoInput
    else
      var step := flow[s.currentStep];
      match step.stepType
      case Choice => Buttons(if step.options.Some? then step.options.value else [])
      case Text => TextForm
      case TextWithSuggestions => NoInput
  }

  /** The answers a control can hand to `handleAnswer`. */
  predicate Submittable(c: Control, answer: string)
  {
    match c
    case NoInput => false
    case Buttons(options) => answer in options
    case TextForm => answer != "" && Trim(answer) == answer
  }

  /** On a choice step exactly the listed options can be submitted. */
  lemma ChoiceStepSubmitsOnlyOptions(flow: seq<IntakeStep>, s: ChatState, answer: string)
    requires !s.isComplete && HasCurrentStep(flow, s) && flow[s.currentStep].stepType == Choice
    requires flow[s.currentStep].options.Some?
    ensures Submittable(Offered(flow, s), answer) <==> answer in flow[s.currentStep].options.value
  {
  }

  /** On a text-with-suggestions step no answer can be submitted at all. */
  lemma SuggestionStepSubmitsNothing(flow: seq<IntakeStep>, s: ChatState, answer: string)
    requires HasCurrentStep(flow, s) && flow[s.currentStep].stepType == TextWithSuggestions
    ensures !Submittable(Offered(flow, s), answer)
  {
  }

  /**
   * The control a text-with-suggestions step evidently should have had: the text
   * form (its suggestions only prefill that form). Every other state is unchanged.
   */
  function OfferedIntended(flow: seq<IntakeStep>, s: ChatState): (c: Control)
    ensures !s.isComplete && HasCurrentStep(flow, s) && flow[s.currentStep].stepType == TextWithSuggestions ==>
      c == TextForm
    ensures !(!s.isComplete && HasCurrentStep(flow, s) && flow[s.currentStep].stepType == TextWithSuggestions) ==>
      c == Offered(flow, s)
  {
    if !s.isComplete && HasCurrentStep(flow, s) && flow[s.currentStep].stepType == TextWithSuggestions
    then TextForm
    else Offered(flow, s)
  }

  /** Each answer in turn can be submitted through the control shown at that moment. */
  predicate Accepted(flow: seq<IntakeStep>, stored: Option<string>, answers: seq<string>, intended: bool)
  {
    answers == [] ||
    (Accepted(flow, stored, answers[..|answers| - 1], intended)
     && AcceptedNext(flow, stored, answers[..|answers| - 1], answers[|answers| - 1], intended))
  }

  /** After `answers`, the control on screen lets the user submit `next`. */
  predicate AcceptedNext(flow: seq<IntakeStep>, stored: Option<string>, answers: seq<string>, next: string,
                         intended: bool)
  {
    var s := Run(flow, stored, answers);
    Submittable(if intended then OfferedIntended(flow, s) else Offered(flow, s), next)
  }

  lemma {:induction false} AcceptedPrefix(flow: seq<IntakeStep>, stored: Option<string>, answers: seq<string>,
                                          intended: bool, k: nat)
    requires Accepted(flow, stored, answers, intended) && k <= |answers|
    ensures Accepted(flow, stored, answers[..k], intended)
  {
    if k < |answers| {
      var prefix := answers[..|answers| - 1];
      assert Accepted(flow, stored, prefix, intended);
      AcceptedPrefix(flow, stored, prefix, intended, k);
      assert prefix[..k] == answers[..k];
    } else {
      assert answers[..k] == answers;
    }
  }

  /**
   * As rendered, no conversation gets past the first text-with-suggestions step:
   * at most `k` answers are accepted, so the flow never completes.
   */
  lemma AsWrittenConversationStalls(flow: seq<IntakeStep>, stored: Option<string>, answers: seq<string>, k: nat)
    requires WellFormed(flow) && k < |flow| && flow[k].stepType == TextWithSuggestions
    requires Accepted(flow, stored, answers, false)
    ensures |answers| <= k
    ensures !Run(flow, stored, answers).isComplete
  {
    if |answers| > k {
      AcceptedPrefix(flow, stored, answers, false, k + 1);
      NothingAcceptedPast(flow, stored, answers[..k + 1]);
      assert false;
    }
    RunProgress(flow, stored, answers);
  }

  /** No answer sequence whose last answer is for a text-with-suggestions step is accepted as rendered. */
  lemma NothingAcceptedPast(flow: seq<IntakeStep>, stored: Option<string>, answers: seq<string>)
    requires WellFormed(flow) && 0 < |answers| <= |flow|
    requires flow[|answers| - 1].stepType == TextWithSuggestions
    ensures !Accepted(flow, stored, answers, false)
  {
    var prefix := answers[..|answers| - 1];
    RunProgress(flow, stored, prefix);
    SuggestionStepSubmitsNothing(flow, Run(flow, stored, prefix), answers[|answers| - 1]);
  }

  /** Over the catalog, the UI accepts at most two answers and never reaches completion. */
  lemma CatalogConversationStalls(stored: Option<string>, answers: seq<string>)
    requires Accepted(Flow, stored, answers, false)
    ensures |answers| <= 2
    ensures !Run(Flow, stored, answers).isComplete
  {
    FlowIsWellFormed();
    SuggestionsOnlyOnSuggestionStep();
    AsWrittenConversationStalls(Flow, stored, answers, 2);
  }

  /** An answer the intended control of step `i` accepts. */
  predicate FitsStep(flow: seq<IntakeStep>, i: int, answer: string)
    requires 0 <= i < |flow|
  {
    if flow[i].stepType == Choice then flow[i].options.Some? && answer in flow[i].options.value
    else answer != "" && Trim(answer) == answer
  }

  /**
   * With the intended control, any answers that fit their steps go through, and
   * the flow completes exactly when every step has been answered.
   */
  lemma {:induction false} IntendedConversationCompletes(flow: seq<IntakeStep>, stored: Option<string>,
                                                          answers: seq<string>)
    requires WellFormed(flow) && |answers| <= |flow|
    requires forall i :: 0 <= i < |answers| ==> FitsStep(flow, i, answers[i])
    ensures Accepted(flow, stored, answers, true)
    ensures Run(flow, stored, answers).isComplete <==> |answers| == |flow|
  {
    RunProgress(flow, stored, answers);
    if answers != [] {
      var n := |answers| - 1;
      var prefix := answers[..n];
      IntendedConversationCompletes(flow, stored, prefix);
      RunProgress(flow, stored, prefix);
      var s := Run(flow, stored, prefix);
      assert FitsStep(flow, n, answers[n]);
      assert Submittable(OfferedIntended(flow, s), answers[n]);
    }
  }

  // ---------------------------------------------------------------------------
  // The component
  // ---------------------------------------------------------------------------

  class Chat {
    /** The question catalog the component imports. */
    const flow: seq<IntakeStep>
    var currentStep: int
    var answers: map<string, string>
    var messages: seq<Message>
    var isComplete: bool
    var isSaving: bool
    /** The value of the text input element. */
    var inputValue: string
    /** The `currentProfileId` entry of local storage. */
    var storedProfileId: Option<string>

    function State(): ChatState
      reads this
    {
      ChatState(currentStep, answers, messages, isComplete, isSaving, inputValue, storedProfileId)
    }

    ghost predicate Valid()
      reads this
    {
      WellFormed(flow) && StateValid(flow, State())
    }

    /** Mounting the component: fresh state, then the first question is shown. */
    constructor (stored: Option<string>)
      ensures flow == Flow
      ensures State() == Initial(flow, stored) && Valid()
    {
      flow := Flow;
      currentStep := 0;
      answers := map[];
      messages := [];
      isComplete := false;
      isSaving := false;
      inputValue := "";
      storedProfileId := stored;
      new;
      if |flow| > 0 {
        messages := [Message(Assistant, flow[0].question)];
      }
      FlowIsWellFormed();
      InitialIsValid(flow, stored);
    }

    /**
     * `handleAnswer`, with the next question appended at once instead of after a
     * timer. On the last step it calls the first half of `saveProfile` with the
     * updated answers and returns the request that half posts.
     */
    method HandleAnswer(answer: string, reply: PromptReply) returns (request: Option<SaveRequest>)
      modifies this
      ensures State() == AfterAnswer(flow, old(State()), answer)
      ensures request == SaveRequestAfter(flow, old(State()), answer, reply)
      ensures old(Valid()) ==> Valid()
    {
      ghost var before := State();
      if !(0 <= currentStep < |flow|) {
        return None;
      }
      var userMessage := Message(User, answer);
      var newAnswers := answers[flow[currentStep].extractKey := answer];
      answers := newAnswers;
      var nextStep := currentStep + 1;
      if nextStep >= |flow| {
        messages := messages + [userMessage];
        isComplete := true;
        var sent := BeginSaveProfile(newAnswers, reply);
        request := Some(sent);
      } else {
        currentStep := nextStep;
        // the delayed append of the next question, taken as part of the same step
        messages := messages + [userMessage, Message(Assistant, flow[nextStep].question)];
        request := None;
      }
      if StateValid(flow, before) {
        AfterAnswerPreservesValid(flow, before, answer);
      }
    }

    /**
     * `saveProfile` up to the awaited POST: `isSaving` is set, the name prompt is
     * answered by `reply`, and the answers are posted with that name, null or not.
     */
    method BeginSaveProfile(finalAnswers: map<string, string>, reply: PromptReply) returns (request: SaveRequest)
      modifies this`isSaving
      ensures isSaving
      ensures old(Valid()) ==> Valid()
      ensures request == SaveRequest(finalAnswers, ProfileNameFrom(finalAnswers, reply))
    {
      isSaving := true;
      var profileName := ProfileNameFrom(finalAnswers, reply);
      request := SaveRequest(finalAnswers, profileName);
    }

    /**
     * `saveProfile` after the POST settles; `storageWrites` tells whether
     * `localStorage.setItem` returns normally, and `alerted` whether the error alert
     * was shown.
     */
    method FinishSaveProfile(response: FetchResult, storageWrites: bool) returns (alerted: bool)
      modifies this
      ensures State() == AfterSave(old(State()), response, storageWrites)
      ensures alerted <==> !SaveSucceeded(response, storageWrites)
      ensures old(Valid()) ==> Valid()
    {
      if response.HttpResponse? && response.ok && response.profileId.Some? && storageWrites {
        storedProfileId := response.profileId;
        alerted := false;
      } else {
        alerted := true;
      }
      isSaving := false;
    }

    /**
     * The user types into the text input, which the component renders on a text
     * step only.
     */
    method TypeText(value: string)
      requires Offered(flow, State()) == TextForm
      modifies this`inputValue
      ensures State() == old(State()).(inputValue := value)
      ensures old(Valid()) ==> Valid()
    {
      inputValue := value;
    }

    /** The text form's submit handler; the form is rendered on a text step only. */
    method SubmitForm(reply: PromptReply) returns (submitted: Option<string>, request: Option<SaveRequest>)
      requires Offered(flow, State()) == TextForm
      modifies this
      ensures submitted == FormSubmission(old(inputValue))
      ensures submitted.None? ==> State() == old(State()) && request.None?
      ensures submitted.Some? ==>
        && State() == AfterAnswer(flow, old(State()), submitted.value).(inputValue := "")
        && request == SaveRequestAfter(flow, old(State()), submitted.value, reply)
      ensures old(Valid()) ==> Valid()
    {
      var value := Trim(inputValue);
      TrimEmptyIffBlank(inputValue);
      if value != "" {
        assert FormSubmission(inputValue) == Some(value);
        request := AnswerAndClearInput(value, reply);
        submitted := Some(value);
      } else {
        assert FormSubmission(inputValue) == None;
        submitted := None;
        request := None;
      }
    }

    /** The two effects of a non-blank submit: `handleAnswer(value)`, then `input.value = ''`. */
    method AnswerAndClearInput(value: string, reply: PromptReply) returns (request: Option<SaveRequest>)
      modifies this
      ensures State() == AfterAnswer(flow, old(State()), value).(inputValue := "")
      ensures request == SaveRequestAfter(flow, old(State()), value, reply)
      ensures old(Valid()) ==> Valid()
    {
      request := HandleAnswer(value, reply);
      ghost var answered := State();
      inputValue := "";
      assert State() == answered.(inputValue := "");
      assert StateValid(flow, answered) ==> StateValid(flow, State());
    }

    /** A click on one of the rendered option buttons. */
    method ClickOption(option: string, reply: PromptReply) returns (request: Option<SaveRequest>)
      requires Offered(flow, State()).Buttons? && option in Offered(flow, State()).options
      modifies this
      ensures State() == AfterAnswer(flow, old(State()), option)
      ensures request == SaveRequestAfter(flow, old(State()), option, reply)
      ensures old(Valid()) ==> Valid()
    {
      request := HandleAnswer(option, reply);
    }
  }
}
