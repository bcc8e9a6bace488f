/**
  The five-question onboarding cursor `OnboardingFlowContainerView`: four choice questions
  and a final free-text question. Answers are kept in a dictionary keyed by question id;
  the final Next hands them to the shared `SynrgyViewModel` and switches tab.
 */
module OnboardingContainer {
  import opened Wrappers

  datatype OnboardingQuestion = OnboardingQuestion(
    id: string, text: string, options: Option<seq<string>>, isFreeText: bool, showRoadmapInfo: bool)

  const Questions: seq<OnboardingQuestion> := [
    OnboardingQuestion("goal", "What's one goal you're actively working toward?",
      Some(["Land an internship", "Build a brand", "Get into grad school",
            "Figure out my purpose", "Start a business"]), false, false),
    OnboardingQuestion("journey_stage", "Where are you currently on your journey?",
      Some(["In college", "Recent grad", "Early career", "Pivoting", "Exploring"]), false, false),
    OnboardingQuestion("focus_areas", "Which areas are you most focused on right now?",
      Some(["Career clarity", "Personal growth", "Financial literacy",
            "Building confidence", "Expanding my network"]), false, false),
    OnboardingQuestion("learning_style", "How do you learn best?",
      Some(["Interactive tools", "Short videos", "Peer discussion", "Structured guides"]), false, false),
    OnboardingQuestion("future_vision", "Where do you see yourself in 3\U{2013}5 years?", None, true, true)
  ]

  /** The tab the final Next switches to. */
  const RoadmapTab: int := 6

  /** Five questions with distinct ids; only the last is free text, and it alone offers roadmap info. */
  lemma QuestionsShape()
    ensures |Questions| == 5
    ensures forall i :: 0 <= i < |Questions| ==> (Questions[i].isFreeText <==> i == 4)
    ensures forall i :: 0 <= i < |Questions| ==> (Questions[i].showRoadmapInfo <==> i == 4)
    ensures forall i :: 0 <= i < |Questions| ==> (Questions[i].options.Some? <==> !Questions[i].isFreeText)
    ensures forall i, j :: 0 <= i < j < |Questions| ==> Questions[i].id != Questions[j].id
  {
    assert Questions[0].id[0] == 'g' && Questions[1].id[0] == 'j' && Questions[2].id[0] == 'f';
    assert Questions[3].id[0] == 'l' && Questions[4].id[0] == 'f' && Questions[2].id[1] != Questions[4].id[1];
  }

  /** Some question has this id. */
  ghost predicate IsQuestionId(key: string) {
    exists i :: 0 <= i < |Questions| && Questions[i].id == key
  }

  /** `canGoNext`: a typed answer or the roadmap-info flag for free text, a stored answer otherwise. */
  function CanGoNext(q: OnboardingQuestion, answers: map<string, string>, freeTextAnswer: string,
                     wantsRoadmapInfo: bool): (b: bool)
    ensures q.isFreeText ==> (b <==> freeTextAnswer != "" || wantsRoadmapInfo)
    ensures !q.isFreeText ==> (b <==> q.id in answers)
  {
    if q.isFreeText then freeTextAnswer != "" || wantsRoadmapInfo else q.id in answers
  }

  /** What Next does to the answers: the typed text is stored, under its id, only for a free-text question. */
  function SavedAnswers(q: OnboardingQuestion, answers: map<string, string>, freeTextAnswer: string): (r: map<string, string>)
    ensures q.isFreeText ==> q.id in r && r[q.id] == freeTextAnswer
    ensures forall k :: k in answers && k != q.id ==> k in r && r[k] == answers[k]
    ensures forall k :: k in r ==> k in answers || k == q.id
    ensures !q.isFreeText ==> r == answers
  {
    if q.isFreeText then answers[q.id := freeTextAnswer] else answers
  }

  /** `answers[id] ?? ""` */
  function AnswerOrEmpty(answers: map<string, string>, id: string): (s: string)
    ensures id in answers ==> s == answers[id]
    ensures id !in answers ==> s == ""
  {
    if id in answers then answers[id] else ""
  }

  /** Choosing an option on a choice question enables Next for it. */
  lemma SelectEnablesNext(q: OnboardingQuestion, answers: map<string, string>, option: string,
                          freeTextAnswer: string, wantsRoadmapInfo: bool)
    requires !q.isFreeText
    ensures CanGoNext(q, answers[q.id := option], freeTextAnswer, wantsRoadmapInfo)
  {
  }

  /** The shared view model; only the three fields this flow writes are modelled. */
  class SynrgyViewModel {
    var answers: map<string, string>
    var roadmapText: string
    var wantsRoadmapInfo: bool

    constructor ()
      ensures answers == map[] && roadmapText == "" && !wantsRoadmapInfo
    {
      answers := map[];
      roadmapText := "";
      wantsRoadmapInfo := false;
    }
  }

  class OnboardingFlowContainerView {
    const synrgyVM: SynrgyViewModel
    var currentQuestionIndex: int
    var answers: map<string, string>
    var freeTextAnswer: string
    var wantsRoadmapInfo: bool
    /** The parent's tab selection, bound into this view. */
    var selectedTab: int

    /** The cursor is on a question, and every stored answer belongs to a question. */
    ghost predicate Valid()
      reads this
    {
      0 <= currentQuestionIndex < |Questions| && forall k :: k in answers ==> IsQuestionId(k)
    }

    constructor (synrgyVM: SynrgyViewModel, selectedTab: int)
      ensures this.synrgyVM == synrgyVM && this.selectedTab == selectedTab
      ensures currentQuestionIndex == 0 && answers == map[] && freeTextAnswer == "" && !wantsRoadmapInfo
      ensures Valid()
    {
      this.synrgyVM := synrgyVM;
      this.selectedTab := selectedTab;
      currentQuestionIndex := 0;
      answers := map[];
      freeTextAnswer := "";
      wantsRoadmapInfo := false;
    }

    function CurrentQuestion(): OnboardingQuestion
      reads this
      requires 0 <= currentQuestionIndex < |Questions|
    {
      Questions[currentQuestionIndex]
    }

    function CanGoNextHere(): bool
      reads this
      requires 0 <= currentQuestionIndex < |Questions|
    {
      CanGoNext(CurrentQuestion(), answers, freeTextAnswer, wantsRoadmapInfo)
    }

    /** `canGoPrevious` */
    function CanGoPrevious(): (b: bool)
      reads this
      ensures b <==> currentQuestionIndex > 0
    {
      currentQuestionIndex > 0
    }

    /** `isFinal`: the cursor is on the last question. */
    function IsFinal(): (b: bool)
      reads this
      ensures b <==> currentQuestionIndex == 4
    {
      currentQuestionIndex == |Questions| - 1
    }

    /** An option button of the current choice question: only that question's answer changes. */
    method OnSelect(option: string)
      requires Valid()
      requires CurrentQuestion().options.Some? && option in CurrentQuestion().options.value
      modifies this
      ensures Valid()
      ensures answers == old(answers)[Questions[currentQuestionIndex].id := option]
      ensures currentQuestionIndex == old(currentQuestionIndex) && freeTextAnswer == old(freeTextAnswer)
      ensures wantsRoadmapInfo == old(wantsRoadmapInfo) && selectedTab == old(selectedTab)
      ensures CanGoNextHere()
    {
      answers := answers[CurrentQuestion().id := option];
    }

    /** The text field of the free-text question. */
    method OnFreeTextChange(text: string)
      requires Valid() && CurrentQuestion().isFreeText
      modifies this
      ensures Valid()
      ensures freeTextAnswer == text
      ensures currentQuestionIndex == old(currentQuestionIndex) && answers == old(answers)
      ensures wantsRoadmapInfo == old(wantsRoadmapInfo) && selectedTab == old(selectedTab)
    {
      freeTextAnswer := text;
    }

    /** "Tell me more about roadmaps": sets the flag, which alone enables Next on the free-text question. */
    method OnRoadmapInfo()
      requires Valid() && CurrentQuestion().showRoadmapInfo
      modifies this
      ensures Valid()
      ensures wantsRoadmapInfo
      ensures currentQuestionIndex == old(currentQuestionIndex) && answers == old(answers)
      ensures freeTextAnswer == old(freeTextAnswer) && selectedTab == old(selectedTab)
      ensures CanGoNextHere()
    {
      QuestionsShape();
      wantsRoadmapInfo := true;
    }

    /**
      Next (or Start): the answers take the free text if the question is free text. On the
      final question everything is copied to the shared view model and the tab switches; on
      any other the cursor moves forward and the text buffer is cleared.
     */
    method OnNext()
      requires Valid() && CanGoNextHere()
      modifies this, synrgyVM
      ensures Valid()
      ensures answers == SavedAnswers(Questions[old(currentQuestionIndex)], old(answers), old(freeTextAnswer))
      ensures wantsRoadmapInfo == old(wantsRoadmapInfo)
      ensures old(IsFinal()) ==>
                currentQuestionIndex == old(currentQuestionIndex) && freeTextAnswer == old(freeTextAnswer) &&
                synrgyVM.answers == answers && synrgyVM.roadmapText == freeTextAnswer &&
                synrgyVM.wantsRoadmapInfo == wantsRoadmapInfo && selectedTab == RoadmapTab
      ensures !old(IsFinal()) ==>
                currentQuestionIndex == old(currentQuestionIndex) + 1 && freeTextAnswer == "" &&
                selectedTab == old(selectedTab) &&
                synrgyVM.answers == old(synrgyVM.answers) && synrgyVM.roadmapText == old(synrgyVM.roadmapText) &&
                synrgyVM.wantsRoadmapInfo == old(synrgyVM.wantsRoadmapInfo)
    {
      if IsFinal() {
        if CurrentQuestion().isFreeText {
          answers := answers[CurrentQuestion().id := freeTextAnswer];
        }
        synrgyVM.answers := answers;
        synrgyVM.roadmapText := freeTextAnswer;
        synrgyVM.wantsRoadmapInfo := wantsRoadmapInfo;
        selectedTab := RoadmapTab;
      } else {
        if CurrentQuestion().isFreeText {
          answers := answers[CurrentQuestion().id := freeTextAnswer];
        }
        currentQuestionIndex := currentQuestionIndex + 1;
        freeTextAnswer := "";
      }
    }

    /** Previous: back one question, with the text buffer reloaded from that question's stored answer. */
    method OnPrevious()
      requires Valid() && CanGoPrevious()
      modifies this
      ensures Valid()
      ensures currentQuestionIndex == old(currentQuestionIndex) - 1
      ensures freeTextAnswer == AnswerOrEmpty(answers, Questions[currentQuestionIndex].id)
      ensures answers == old(answers) && wantsRoadmapInfo == old(wantsRoadmapInfo) && selectedTab == old(selectedTab)
    {
      currentQuestionIndex := currentQuestionIndex - 1;
      freeTextAnswer := AnswerOrEmpty(answers, CurrentQuestion().id);
    }
  }

  /**
    The final Next always leaves an answer for the free-text question, whether the user typed
    text or only asked for roadmap info.
   */
  lemma FinalNextRecordsFreeText(answers: map<string, string>, freeTextAnswer: string)
    ensures Questions[4].id in SavedAnswers(Questions[4], answers, freeTextAnswer)
    ensures SavedAnswers(Questions[4], answers, freeTextAnswer)[Questions[4].id] == freeTextAnswer
  {
  }

  /**
    Going back to a choice question loads its chosen option into the text buffer, since the
    buffer is reloaded from `answers` whatever the question kind.
   */
  lemma PreviousLoadsChosenOption(answers: map<string, string>, index: nat, option: string)
    requires index < 4
    ensures AnswerOrEmpty(answers[Questions[index].id := option], Questions[index].id) == option
  {
  }
}
