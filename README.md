# Synrgy app core, modelled in Dafny

Synrgy is a SwiftUI app for career and life "roadmaps". This project models the parts that hold logic rather than layout:

- **The roadmap store** `UnifiedRoadmapData`. It is a shared array of roadmaps, each an identified, titled list of milestones. It can set a milestone's completion, append, remove by id and look up by title.
- **The roadmap detail screen** `PrototypeRoadmapView`. Tapping a milestone writes to the store. "Save" is offered while the store lacks the roadmap. Two sheets swap places.
- **The milestone timeline** `TimelineRoadmapView`: its default milestones, the connector-line rule and the markers.
- **Two onboarding flows.**
  - A six-step form, `ComprehensiveOnboardingFlow` with `OnboardingViewModel`. Its validators cover name, birthday and hometown. It also keeps entry lists for schooling, work and hobbies.
  - A five-question questionnaire, `OnboardingFlowContainerView`.
- **Three rating screens**: a one-question-at-a-time flow, `RatingQuestionFlow`, and two six-question grids, `SixQuestionRatingView` and `RatingComparisonView`.
- **The lookup tables of `Models.swift`**: content categories and the progress line.

Each Swift value type is a `datatype`. State that a screen or store changes in place (`@State`, `@Published`) is a `class` with fields. Its methods say the whole new state, mostly in terms of a pure function of the old state, and the properties are proved about those functions. A button that is disabled or hidden under some condition becomes a method precondition.

Swift's collection algorithms (`firstIndex(where:)`, `first(where:)`, `contains(where:)`, `removeAll(where:)`) live in module `Search`. Integer interpolation and `Int(String)` live in module `Decimal`. Roadmap UUIDs are given values, of type `RoadmapId`.

Three platform services are not modelled but passed in as function parameters:

- the Unicode character classes `.whitespacesAndNewlines` and `Character.isNumber`, as `isSpace` and `isNumber`;
- the `DateFormatter` with format "MM/dd/yyyy", as `parses`.

## Model

| member | source | states |
|---|---|---|
| Search.FirstIndex | SynrgyApp/UnifiedRoadmapData.swift:190-191 | the index found satisfies the predicate and no earlier element does; nil exactly when no element does |
| Search.First | SynrgyApp/UnifiedRoadmapData.swift:208 | a value is found exactly when some element matches, and it is the first matching element |
| Search.Contains | SynrgyApp/Demo/PrototypeRoadmapView.swift:90 | true exactly when some element satisfies the predicate |
| Search.RemoveAll | SynrgyApp/UnifiedRoadmapData.swift:203 | no survivor satisfies the predicate, every survivor was in the input, and every element not satisfying it survives |
| Search.RemoveAllAppend | SynrgyApp/UnifiedRoadmapData.swift:203 | removal distributes over concatenation, so survivors keep their order |
| Search.RemoveAllNone | SynrgyApp/UnifiedRoadmapData.swift:203 | removal with no matching element returns the input |
| Search.RemoveAllIdempotent | SynrgyApp/UnifiedRoadmapData.swift:203 | removing twice equals removing once |
| Search.RemoveAllLength | SynrgyApp/UnifiedRoadmapData.swift:203 | the result is shorter by exactly the number of matching elements |
| Decimal.NatToString | SynrgyApp/Models.swift:145 | interpolating a non-negative integer gives at least one ASCII digit and no leading zero |
| Decimal.IntToString | SynrgyApp/Models.swift:145 | the text of a number starts with '-' exactly when the number is negative |
| Decimal.ParseInt | SynrgyApp/Demo/ComprehensiveOnboardingFlow.swift:265 | `Int(s)` succeeds exactly on one or more ASCII digits, optionally after one `+` or `-`, and then yields the signed decimal value of the digits, leading zeros allowed ("01" is 1); anything else, "" and a lone sign included, is nil |
| Decimal.ParseIntToString | SynrgyApp/Demo/ComprehensiveOnboardingFlow.swift:259-265 | reading an interpolated number back gives the same number |
| Timeline.WithCompletion | SynrgyApp/TimelineRoadmapView.swift:180-184 | only `isCompleted`, the one `var` of a milestone, changes; assigning the current value is a no-op |
| Timeline.NewMilestoneDefaultsToIncomplete | SynrgyApp/TimelineRoadmapView.swift:186-191 | a milestone built without `isCompleted` is not completed |
| Timeline.TimelineMilestones | SynrgyApp/TimelineRoadmapView.swift:33-71 | supplied milestones are used verbatim; otherwise five milestones with ids 1..5 in order, exactly the first two completed |
| Timeline.ConnectorOnAllButLast | SynrgyApp/TimelineRoadmapView.swift:107 | for milestones numbered 1..n the connector test `DrawsConnector` (id different from the count) holds below every milestone but the last |
| Timeline.MarkerFor | SynrgyApp/TimelineRoadmapView.swift:115 | a marker shows the milestone's id and is filled exactly when the milestone is completed |
| Timeline.DefaultMarkers | SynrgyApp/TimelineRoadmapView.swift:33-115 | with no milestones given, the timeline's i-th marker shows i + 1 and is filled exactly for the first two |
| UnifiedRoadmap.InitialStoreShape | SynrgyApp/UnifiedRoadmapData.swift:13-179 | the store starts with "Content Creator", "Software Engineer" and "Entrepreneur", each with milestone ids 1..5 in order and pairwise distinct |
| UnifiedRoadmap.NumberedIdsAreUnique | SynrgyApp/UnifiedRoadmapData.swift:13-179 | milestones numbered from one have distinct ids |
| UnifiedRoadmap.UpdatedCompletion | SynrgyApp/UnifiedRoadmapData.swift:189-194 | the first milestone with the id, in the first roadmap with the id, gets the flag; every other milestone, and every roadmap's id, title and length are unchanged |
| UnifiedRoadmap.UpdateWithoutTargetIsNoOp | SynrgyApp/UnifiedRoadmapData.swift:190-191 | with no such roadmap, or no such milestone in it, the store is unchanged |
| UnifiedRoadmap.HasUpdateTargetIff | SynrgyApp/UnifiedRoadmapData.swift:190-191 | an update target exists exactly when the first roadmap with the id has a milestone with the milestone id |
| UnifiedRoadmap.UpdateToCurrentValueIsNoOp | SynrgyApp/UnifiedRoadmapData.swift:192 | writing the value the target already has changes nothing |
| UnifiedRoadmap.UpdateIdempotent | SynrgyApp/UnifiedRoadmapData.swift:192 | the update assigns rather than toggles: twice equals once |
| UnifiedRoadmap.RoadmapsExtensional | SynrgyApp/UnifiedRoadmapData.swift:189-194 | roadmap lists agreeing on every id, title and milestone are equal |
| UnifiedRoadmap.WithoutRoadmap | SynrgyApp/UnifiedRoadmapData.swift:202-205 | no roadmap with the id remains, and every roadmap with another id remains |
| UnifiedRoadmap.WithoutRoadmapKeepsOrder | SynrgyApp/UnifiedRoadmapData.swift:203 | survivors keep their original order |
| UnifiedRoadmap.WithoutAbsentRoadmap | SynrgyApp/UnifiedRoadmapData.swift:203 | removing an absent id is a no-op |
| UnifiedRoadmap.WithoutRoadmapIdempotent | SynrgyApp/UnifiedRoadmapData.swift:203 | removing twice equals removing once |
| UnifiedRoadmap.WithoutRoadmapLength | SynrgyApp/UnifiedRoadmapData.swift:203 | the store shrinks by the number of roadmaps with the id |
| UnifiedRoadmap.RoadmapTitled | SynrgyApp/UnifiedRoadmapData.swift:207-209 | the first roadmap with the title, nil exactly when none has it |
| UnifiedRoadmap.RoadmapTitledAfterAppend | SynrgyApp/UnifiedRoadmapData.swift:197-209 | after appending a roadmap with a fresh title, looking the title up finds that roadmap |
| UnifiedRoadmap.DesignerRoundTrip | SynrgyApp/UnifiedRoadmapData.swift:197-209 | saving a "Designer" roadmap into the initial store makes four roadmaps, finds it by title, and removing it by id restores the initial store |
| UnifiedRoadmap.UnifiedRoadmapData.constructor | SynrgyApp/UnifiedRoadmapData.swift:13-187 | the store holds the sample roadmaps |
| UnifiedRoadmap.UnifiedRoadmapData.UpdateMilestoneCompletion | SynrgyApp/UnifiedRoadmapData.swift:189-194 | the new store is the updated-completion function of the old one |
| UnifiedRoadmap.UnifiedRoadmapData.AddRoadmap | SynrgyApp/UnifiedRoadmapData.swift:197-200 | one more roadmap, placed last, earlier ones untouched, no duplicate check |
| UnifiedRoadmap.UnifiedRoadmapData.RemoveRoadmap | SynrgyApp/UnifiedRoadmapData.swift:202-205 | the new store is the old one without that id, and no roadmap with the id remains |
| UnifiedRoadmap.UnifiedRoadmapData.GetRoadmap | SynrgyApp/UnifiedRoadmapData.swift:207-209 | nil exactly when no stored roadmap has the title; otherwise the first stored roadmap with it |
| PrototypeRoadmap.TapWritesNegatedSnapshot | SynrgyApp/Demo/PrototypeRoadmapView.swift:79-83 | `TapUpdate`, the store update a tap asks for, writes the negation of the view's own copy of the flag into the store's matching milestone |
| PrototypeRoadmap.TapTwiceIsTapOnce | SynrgyApp/Demo/PrototypeRoadmapView.swift:82 | repeated taps on the same snapshot write the same value, so two taps equal one |
| PrototypeRoadmap.TapAfterStoreChangedIsNoOp | SynrgyApp/Demo/PrototypeRoadmapView.swift:82 | once the store's flag differs from the snapshot's, a tap changes nothing |
| PrototypeRoadmap.PrototypeRoadmapView.constructor | SynrgyApp/Demo/PrototypeRoadmapView.swift:17-20 | the messages sheet is requested, the onboarding sheet is not, so exactly one is |
| PrototypeRoadmap.PrototypeRoadmapView.ToggleSheets | SynrgyApp/Demo/PrototypeRoadmapView.swift:41-44 | both flags flip, so `SheetsExclusive` (exactly one of the two sheets requested, as in the initial state) is preserved |
| PrototypeRoadmap.PrototypeRoadmapView.TapHeader | SynrgyApp/Demo/PrototypeRoadmapView.swift:50-57 | Back and Done both call `onBack` once |
| PrototypeRoadmap.PrototypeRoadmapView.TriggerSheets | SynrgyApp/Demo/PrototypeRoadmapView.swift:101-104 | Personalize, and the onboarding sheet's Back and Complete, all toggle both sheets |
| PrototypeRoadmap.PrototypeRoadmapView.DismissBasicInfo | SynrgyApp/Demo/PrototypeRoadmapView.swift:117-130 | the onboarding sheet leaving writes `showBasicInfo` false, then toggles both flags only while the messages sheet is requested: from messages off the result is neither sheet (exclusivity broken), from messages on it is the onboarding sheet alone |
| PrototypeRoadmap.PrototypeRoadmapView.TapMilestone | SynrgyApp/Demo/PrototypeRoadmapView.swift:79-83 | the store becomes the update for the view's roadmap id, the tapped milestone's id and its negated snapshot flag |
| PrototypeRoadmap.PrototypeRoadmapView.ShowsSaveButton | SynrgyApp/Demo/PrototypeRoadmapView.swift:90 | Save is shown exactly when no stored roadmap has this roadmap's id |
| PrototypeRoadmap.PrototypeRoadmapView.TapSave | SynrgyApp/Demo/PrototypeRoadmapView.swift:90-94 | Save appends this roadmap, hides itself, and leaves exactly one roadmap with this id |
| PrototypeRoadmap.CountAfterAppend | SynrgyApp/Demo/PrototypeRoadmapView.swift:90-94 | appending a roadmap whose id is absent leaves exactly one roadmap with that id |
| ComprehensiveOnboarding.TrimLeading | SynrgyApp/Demo/ComprehensiveOnboardingFlow.swift:56 | the result is a suffix of the input, everything dropped is whitespace, and it does not start with whitespace |
| ComprehensiveOnboarding.TrimTrailing | SynrgyApp/Demo/ComprehensiveOnboardingFlow.swift:56 | the result is a prefix of the input, everything dropped is whitespace, and it does not end with whitespace |
| ComprehensiveOnboarding.HasVisibleText | SynrgyApp/Demo/ComprehensiveOnboardingFlow.swift:55-57 | the text trimmed at both ends (`Trimmed`) is non-empty exactly when some character is not whitespace or newline |
| ComprehensiveOnboarding.CanContinueFromBirthday | SynrgyApp/Demo/ComprehensiveOnboardingFlow.swift:59-63 | false when month, day or year is empty; otherwise exactly whether the formatter accepts "month/day/year" |
| ComprehensiveOnboarding.HasSchoolingData | SynrgyApp/Demo/ComprehensiveOnboardingFlow.swift:69-71 | true exactly when some entry has award, school and start date |
| ComprehensiveOnboarding.HasWorkData | SynrgyApp/Demo/ComprehensiveOnboardingFlow.swift:73-75 | true exactly when some entry has role, company and start date |
| ComprehensiveOnboarding.HasHobbiesData | SynrgyApp/Demo/ComprehensiveOnboardingFlow.swift:77-79 | true exactly when some entry names a hobby |
| ComprehensiveOnboarding.ToggledSchooling | SynrgyApp/Demo/ComprehensiveOnboardingFlow.swift:474-477 | "Present" flips; the end date is cleared when it turns on and kept otherwise; no other field changes |
| ComprehensiveOnboarding.ToggledWork | SynrgyApp/Demo/ComprehensiveOnboardingFlow.swift:606-609 | the same rule for a work entry |
| ComprehensiveOnboarding.MinusKeepsOneRow | SynrgyApp/Demo/ComprehensiveOnboardingFlow.swift:496-519 | for an existing row, the schooling/work rule `RowMinusOffered` (not the only row) and the hobby rule `HobbyMinusOffered` (more than one row) agree, and minus is offered only when a row would remain |
| ComprehensiveOnboarding.SubjectFieldForDegrees | SynrgyApp/Demo/ComprehensiveOnboardingFlow.swift:407-441 | `ShowsSubjectField`: of the six menu degrees every one but "High School" shows the subject field, and an entry with no degree shows none |
| ComprehensiveOnboarding.RemovedAt | SynrgyApp/Demo/ComprehensiveOnboardingFlow.swift:513 | `remove(at:)` drops exactly the entry at the index and shifts the later ones |
| ComprehensiveOnboarding.NumbersOnly | SynrgyApp/Demo/ComprehensiveOnboardingFlow.swift:283 | the filtered text holds only number characters taken from the input, holds every number character of the input, and is exactly as long as the input's count of number characters; an all-number input is kept whole |
| ComprehensiveOnboarding.NumbersOnlyAppend | SynrgyApp/Demo/ComprehensiveOnboardingFlow.swift:283 | filtering distributes over concatenation, so the kept characters keep the input's order |
| ComprehensiveOnboarding.LimitedNumbers | SynrgyApp/Demo/ComprehensiveOnboardingFlow.swift:282-288 | the result is a prefix of the filtered input, of length min(limit, filtered length) |
| ComprehensiveOnboarding.LimitedNumbersIdempotent | SynrgyApp/Demo/ComprehensiveOnboardingFlow.swift:282-301 | running the day or year handler on its own output changes nothing |
| ComprehensiveOnboarding.TwoDigits | SynrgyApp/Demo/ComprehensiveOnboardingFlow.swift:259 | the month code is two ASCII digits that read back as the month number |
| ComprehensiveOnboarding.MonthLabelAsWrittenIsOffByOne | SynrgyApp/Demo/ComprehensiveOnboardingFlow.swift:265 | as written, December indexes past the twelve month names and January is labelled "February" |
| ComprehensiveOnboarding.MonthLabelMatchesMenu | SynrgyApp/Demo/ComprehensiveOnboardingFlow.swift:258-265 | corrected, every month picked from the menu is labelled with the name the menu showed for it |
| ComprehensiveOnboarding.OnboardingViewModel.constructor | SynrgyApp/Demo/ComprehensiveOnboardingFlow.swift:36-45 | empty fields and each list starting with exactly one empty entry |
| ComprehensiveOnboarding.OnboardingViewModel.CanContinueFromName | SynrgyApp/Demo/ComprehensiveOnboardingFlow.swift:55-57 | true exactly when the name has a non-whitespace character |
| ComprehensiveOnboarding.OnboardingViewModel.CanContinueFromHometown | SynrgyApp/Demo/ComprehensiveOnboardingFlow.swift:65-67 | true exactly when the hometown has a non-whitespace character |
| ComprehensiveOnboarding.OnboardingViewModel.CanContinueFromBirthdayFields | SynrgyApp/Demo/ComprehensiveOnboardingFlow.swift:59-63 | false whenever month, day or year is empty |
| ComprehensiveOnboarding.OnboardingViewModel.SelectMonth | SynrgyApp/Demo/ComprehensiveOnboardingFlow.swift:257-260 | only `month` changes, to the two-digit code |
| ComprehensiveOnboarding.OnboardingViewModel.DayChanged | SynrgyApp/Demo/ComprehensiveOnboardingFlow.swift:282-288 | only `day` changes, to the number characters cut to two |
| ComprehensiveOnboarding.OnboardingViewModel.YearChanged | SynrgyApp/Demo/ComprehensiveOnboardingFlow.swift:295-301 | only `year` changes, to the number characters cut to four |
| ComprehensiveOnboarding.OnboardingViewModel.SelectAward | SynrgyApp/Demo/ComprehensiveOnboardingFlow.swift:408-413 | only that row's award changes, to one of the six menu degrees |
| ComprehensiveOnboarding.OnboardingViewModel.ToggleSchoolingPresent | SynrgyApp/Demo/ComprehensiveOnboardingFlow.swift:474-477 | only that schooling row changes, by the Present rule |
| ComprehensiveOnboarding.OnboardingViewModel.ToggleWorkPresent | SynrgyApp/Demo/ComprehensiveOnboardingFlow.swift:606-609 | only that work row changes, by the Present rule |
| ComprehensiveOnboarding.OnboardingViewModel.AddSchoolingEntry | SynrgyApp/Demo/ComprehensiveOnboardingFlow.swift:496-510 | one empty schooling entry is appended; nothing else changes |
| ComprehensiveOnboarding.OnboardingViewModel.RemoveSchoolingEntry | SynrgyApp/Demo/ComprehensiveOnboardingFlow.swift:496-519 | offered except on a lone row; removes exactly that row, and the list stays non-empty |
| ComprehensiveOnboarding.OnboardingViewModel.AddWorkEntry | SynrgyApp/Demo/ComprehensiveOnboardingFlow.swift:627-647 | one empty work entry is appended; nothing else changes |
| ComprehensiveOnboarding.OnboardingViewModel.RemoveWorkEntry | SynrgyApp/Demo/ComprehensiveOnboardingFlow.swift:627-658 | offered except on a lone row; removes exactly that row, and the list stays non-empty |
| ComprehensiveOnboarding.OnboardingViewModel.AddHobbyEntry | SynrgyApp/Demo/ComprehensiveOnboardingFlow.swift:710-713 | one empty hobby is appended; nothing else changes |
| ComprehensiveOnboarding.OnboardingViewModel.RemoveHobbyEntry | SynrgyApp/Demo/ComprehensiveOnboardingFlow.swift:721-724 | offered only with more than one hobby; removes exactly that row, and the list stays non-empty |
| ComprehensiveOnboarding.ComprehensiveOnboardingFlow.constructor | SynrgyApp/Demo/ComprehensiveOnboardingFlow.swift:124 | the flow starts on step 0 |
| ComprehensiveOnboarding.ComprehensiveOnboardingFlow.Forward | SynrgyApp/Demo/ComprehensiveOnboardingFlow.swift:230-755 | steps 0..2 are enabled only by their validators (`ForwardEnabled`: name, birthday, hometown), steps 3..5 always; steps 0..4 advance by one; step 5 reports completion and stays; the step stays within 0..5 |
| ComprehensiveOnboarding.ComprehensiveOnboardingFlow.Back | SynrgyApp/Demo/ComprehensiveOnboardingFlow.swift:217-744 | step k > 0 goes to k - 1; step 0 leaves the flow through `onBack`; the step stays within 0..5 |
| OnboardingContainer.QuestionsShape | SynrgyApp/Scrap/OnboardingFlowContainerView.swift:26-74 | five questions with distinct ids; only the last is free text, offers roadmap info and has no options |
| OnboardingContainer.CanGoNext | SynrgyApp/Scrap/OnboardingFlowContainerView.swift:80-86 | free text: text non-empty or roadmap info asked for; choice: an answer stored under the question's id (`CanGoNextHere` applies it to the current question) |
| OnboardingContainer.SavedAnswers | SynrgyApp/Scrap/OnboardingFlowContainerView.swift:121-123 | a free-text question stores the text under its id, every other key is kept; a choice question leaves the answers alone |
| OnboardingContainer.AnswerOrEmpty | SynrgyApp/Scrap/OnboardingFlowContainerView.swift:149 | the stored answer, or "" when there is none |
| OnboardingContainer.SelectEnablesNext | SynrgyApp/Scrap/OnboardingFlowContainerView.swift:80-86 | choosing an option enables Next on a choice question |
| OnboardingContainer.FinalNextRecordsFreeText | SynrgyApp/Scrap/OnboardingFlowContainerView.swift:119-123 | the final Next always stores the typed text under the last question's id |
| OnboardingContainer.PreviousLoadsChosenOption | SynrgyApp/Scrap/OnboardingFlowContainerView.swift:146-150 | going back to a choice question loads its chosen option into the text buffer |
| OnboardingContainer.SynrgyViewModel.constructor | SynrgyApp/Scrap/OnboardingFlowContainerView.swift:126-128 | no answers, no text, no roadmap request |
| OnboardingContainer.OnboardingFlowContainerView.constructor | SynrgyApp/Scrap/OnboardingFlowContainerView.swift:20-23 | first question, no answers, empty buffer, flag off |
| OnboardingContainer.OnboardingFlowContainerView.CanGoPrevious | SynrgyApp/Scrap/OnboardingFlowContainerView.swift:88-90 | true exactly when the index is positive |
| OnboardingContainer.OnboardingFlowContainerView.IsFinal | SynrgyApp/Scrap/OnboardingFlowContainerView.swift:92-94 | true exactly on index 4 |
| OnboardingContainer.OnboardingFlowContainerView.OnSelect | SynrgyApp/Scrap/OnboardingFlowContainerView.swift:109-111 | only the current question's answer changes, and Next becomes enabled |
| OnboardingContainer.OnboardingFlowContainerView.OnFreeTextChange | SynrgyApp/Scrap/OnboardingFlowContainerView.swift:112-114 | only the text buffer changes |
| OnboardingContainer.OnboardingFlowContainerView.OnRoadmapInfo | SynrgyApp/Scrap/OnboardingFlowContainerView.swift:115-117 | the flag is set, which enables Next on the free-text question |
| OnboardingContainer.OnboardingFlowContainerView.OnNext | SynrgyApp/Scrap/OnboardingFlowContainerView.swift:118-145 | non-final: answers saved, index + 1, buffer cleared; final: answers, text and flag copied to the shared view model, tab 6, index unchanged; the index stays within 0..4 and keys stay question ids |
| OnboardingContainer.OnboardingFlowContainerView.OnPrevious | SynrgyApp/Scrap/OnboardingFlowContainerView.swift:146-150 | index - 1, and the buffer reloaded from the now-current question's stored answer or "" |
| RatingFlow.HasRating | SynrgyApp/Scrap/RatingQuestionFlow.swift:32-34 | a question counts as rated exactly when it has an entry and that entry is positive (`HasRatingHere` applies it to the current question) |
| RatingFlow.IsSelected | SynrgyApp/Scrap/RatingQuestionFlow.swift:125-127 | a button is highlighted exactly when the question has an entry equal to that button's rating |
| RatingFlow.AtMostOneSelected | SynrgyApp/Scrap/RatingQuestionFlow.swift:125-127 | at most one rating is highlighted |
| RatingFlow.SelectedOfferedMeansRated | SynrgyApp/Scrap/RatingQuestionFlow.swift:32-34 | a highlighted offered rating means the question counts as rated |
| RatingFlow.RatingsAfterSelect | SynrgyApp/Scrap/RatingQuestionFlow.swift:117-123 | the rating sits at the index, the array grows only when the index is one past its end, and other entries are kept |
| RatingFlow.RatingsPaddedTo | SynrgyApp/Scrap/RatingQuestionFlow.swift:134-137 | moving forward guarantees an entry at the new index: an existing entry leaves the array as it is, a new one appends exactly one 0; every earlier entry is kept |
| RatingFlow.SelectEnablesNext | SynrgyApp/Scrap/RatingQuestionFlow.swift:58-59 | any offered rating enables Next and highlights itself; selecting twice equals once |
| RatingFlow.FreshQuestionUnrated | SynrgyApp/Scrap/RatingQuestionFlow.swift:134-137 | a question reached for the first time has no rating |
| RatingFlow.RatingQuestionFlow.constructor | SynrgyApp/Scrap/RatingQuestionFlow.swift:17-18 | index 0, empty ratings, so Next starts disabled |
| RatingFlow.RatingQuestionFlow.IsLastQuestion | SynrgyApp/Scrap/RatingQuestionFlow.swift:36-38 | true exactly on index 3 |
| RatingFlow.RatingQuestionFlow.SelectRating | SynrgyApp/Scrap/RatingQuestionFlow.swift:117-123 | the ratings follow the select rule, the question becomes rated, and the index invariant `currentIndex <= ratings.count` is kept |
| RatingFlow.RatingQuestionFlow.GoNext | SynrgyApp/Scrap/RatingQuestionFlow.swift:100-107 | enabled only when rated; the last question switches to tab 7 and stays, others advance and pad; the invariant is kept |
| RatingFlow.RatingQuestionFlow.GoBack | SynrgyApp/Scrap/RatingQuestionFlow.swift:91-92 | offered only from index 1 on; index - 1, ratings untouched; the invariant is kept |
| QuestionRatings.NewQuestionRating | SynrgyApp/Scrap/MultiRatingQuestionView.swift:10-15 | a new question carries its texts and rating 0 |
| QuestionRatings.SixQuestionsStartUnrated | SynrgyApp/Scrap/SixQuestionRatingView.swift:18-37 | six questions, none rated, no circle filled |
| QuestionRatings.WithRating | SynrgyApp/Scrap/SixQuestionRatingView.swift:134-136 | only that question's rating changes; its text and labels and all other questions stay |
| QuestionRatings.IsSelected | SynrgyApp/Scrap/SixQuestionRatingView.swift:138-140 | a circle is filled exactly when it is that question's rating |
| QuestionRatings.WithRatingIdempotent | SynrgyApp/Scrap/SixQuestionRatingView.swift:134-136 | tapping the same circle twice equals once |
| QuestionRatings.WithRatingCommutes | SynrgyApp/Scrap/RatingComparisonView.swift:190-192 | taps on different questions are independent of order |
| QuestionRatings.TapFillsOneCircle | SynrgyApp/Scrap/SixQuestionRatingView.swift:76-82 | after a tap exactly the tapped circle of the five is filled |
| SixQuestionRating.SixQuestionRatingView.constructor | SynrgyApp/Scrap/SixQuestionRatingView.swift:18-37 | the screen starts from the six unrated questions |
| SixQuestionRating.SixQuestionRatingView.SelectRating | SynrgyApp/Scrap/SixQuestionRatingView.swift:134-136 | the questions become the single-rating update; the tab is kept |
| SixQuestionRating.SixQuestionRatingView.Continue | SynrgyApp/Scrap/SixQuestionRatingView.swift:119-121 | switches to tab 8 whatever the ratings are |
| RatingComparison.VersionOf | SynrgyApp/Scrap/RatingComparisonView.swift:37-61 | the version chosen shows the question, and it is the only version that does |
| RatingComparison.EachQuestionInExactlyOneVersion | SynrgyApp/Scrap/RatingComparisonView.swift:11-61 | versions A, B and C together show exactly the six questions, each in one version |
| RatingComparison.RatingComparisonView.constructor | SynrgyApp/Scrap/RatingComparisonView.swift:11-18 | the screen starts from the six unrated questions |
| RatingComparison.RatingComparisonView.SelectRating | SynrgyApp/Scrap/RatingComparisonView.swift:190-192 | the questions become the single-rating update; the tab is kept |
| RatingComparison.RatingComparisonView.Continue | SynrgyApp/Scrap/RatingComparisonView.swift:66-68 | switches to tab 8 without gating |
| Models.AllCasesListsEachCaseOnce | SynrgyApp/Models.swift:11-17 | `allCases` is career, ..., add and lists each of the six cases once |
| Models.RawValueInjective | SynrgyApp/Models.swift:11-19 | the raw values of `RawValue` are distinct, and `Id` is the raw value |
| Models.DisplayNameInjective | SynrgyApp/Models.swift:21-30 | the names of `DisplayName` are distinct |
| Models.IconInjective | SynrgyApp/Models.swift:32-41 | the symbol names of `Icon` are distinct |
| Models.FromRawValue | SynrgyApp/Models.swift:11-17 | `init?(rawValue:)` finds the case with that raw value, nil exactly when none has it |
| Models.FromRawValueRoundTrip | SynrgyApp/Models.swift:11-17 | every case is rebuilt from its raw value |
| Models.SampleItemCategories | SynrgyApp/Models.swift:65-98 | the samples are career, gym, trip, goal and add, covering every category but cooking |
| Models.SampleShowsMisencodedSeparator | SynrgyApp/Models.swift:144-148 | `DisplayTextAsWritten`, the line as the file spells it: the sample carries three stray characters and no bullet |
| Models.SampleDisplayText | SynrgyApp/Models.swift:144-148 | `DisplayText`, the line with a bullet: the sample reads "16 Complete • 7 Pending" |
| Models.DisplayTextInjective | SynrgyApp/Models.swift:144-146 | the corrected line `DisplayText` determines both counts |
| Models.IntToStringInjective | SynrgyApp/Models.swift:145 | different numbers interpolate differently |

## Left out

- SwiftUI layout, styling, animation, focus, sheet detents and navigation. It is presentation only; enablement and visibility conditions are kept as preconditions and predicates.
- Timers (`DispatchQueue.main.asyncAfter`) and all `print` logging, including `printAllData`. These are scheduling and console I/O.
- `DateFormatter` parsing is the parameter `parses`. The month names of `monthSymbols` are fixed to an English locale. `DatePickerSheet.swift` is not part of this model (clock and calendar dependent).
- Unicode classification is the parameters `isSpace` and `isNumber`. Strings are sequences of Unicode scalars, not grapheme clusters.
- Swift string equality is modelled as sequence equality, with no canonical-equivalence check.
- UUID generation is not modelled. Roadmap ids are given `RoadmapId` values, and resource UUIDs are dropped.
- `Int` arithmetic and `Int(String)` are unbounded, without 64-bit overflow. The parser accepts ASCII digits only.
- `ContentCategory.color`, `LibraryItem.color` and the `Achievement` samples are left out. The colors are a constant blue, and the samples are dated relative to the clock.
- The definition of `SynrgyViewModel` is not part of this model. Only the three fields the questionnaire writes are modelled.
- The definition of `Roadmap`, with its computed `currentStepIndex`, is not part of this model. Its fields are taken from their use in the store: an id, a title, and milestones that the store assigns into.
- The canonical `Milestone` adds the resource list the store passes, which `TimelineRoadmapView.swift`'s struct lacks. Duplicate definitions in other files are not modelled.
- `QuestionRating` is taken from its commented-out definition, where `rating` defaults to 0. It is not defined anywhere else.
- The onboarding sheet's `onDismiss` chooses its action when the view renders. The model decides at dismissal time, which agrees unless the flags change between the two.
- Swiping the onboarding sheet away is allowed (only the messages sheet disables interactive dismissal), and from the usual state it leaves neither sheet requested, so the messages sheet does not come back and `SheetsExclusive` no longer holds. `DismissBasicInfo` states this outcome; it is not claimed as a defect because no intended behaviour is evident from the code.
- The text-field bindings for name, hometown, dates, school, company and hobby are direct field writes. They have no methods here, only the validators that read them.
- ComprehensiveOnboarding.ComprehensiveOnboardingFlow.Forward: the Continue/Skip label, which depends on the has-data checks, is not modelled. Every step's button does the same thing whatever it reads.

## Findings

| source | as written | input that shows it | evidently intended | confidence | as-written member | corrected member |
|---|---|---|---|---|---|---|
| SynrgyApp/Demo/ComprehensiveOnboardingFlow.swift:265 | `monthSymbols[Int(viewModel.month) ?? 1 - 1]` parses as `Int(month) ?? 0`, so the label uses the month number itself as the index | pick December: month "12" indexes past the twelve names (a crash); pick January: the label reads "February" | `(Int(month) ?? 1) - 1`, matching the `monthNum - 1` of the menu at line 258 | high, not executed | ComprehensiveOnboarding.MonthLabelAsWrittenIsOffByOne | ComprehensiveOnboarding.MonthLabelMatchesMenu |
| SynrgyApp/Models.swift:145 | the separator is the three characters "â€¢", which is the UTF-8 of U+2022 decoded as Windows-1252 | `ProgressStats.sample` displays "16 Complete â€¢ 7 Pending" | a bullet: "16 Complete • 7 Pending" | high, not executed | Models.SampleShowsMisencodedSeparator | Models.SampleDisplayText |
