/**
  The roadmap detail screen `PrototypeRoadmapView`: it shows one roadmap value, lets the user
  tick milestones in the shared store, offers "Save" while the store lacks the roadmap, and
  swaps the messages sheet for the onboarding sheet.
 */
module PrototypeRoadmap {
  import opened Search
  import opened Timeline
  import opened Roadmaps
  import opened UnifiedRoadmap

  /**
    What tapping milestone `index` does to the store: it asks for the snapshot's flag negated,
    for the view's roadmap id and that milestone's id.
   */
  function TapUpdate(rs: seq<Roadmap>, roadmap: Roadmap, index: nat): seq<Roadmap>
    requires index < |roadmap.milestones|
  {
    UpdatedCompletion(rs, roadmap.id, roadmap.milestones[index].id, !roadmap.milestones[index].isCompleted)
  }

  /** When the store holds the tapped milestone, its flag becomes the negation of the view's copy. */
  lemma TapWritesNegatedSnapshot(rs: seq<Roadmap>, roadmap: Roadmap, index: nat, i: int, j: int)
    requires index < |roadmap.milestones|
    requires IsUpdateTarget(rs, roadmap.id, roadmap.milestones[index].id, i, j)
    ensures TapUpdate(rs, roadmap, index)[i].milestones[j].isCompleted == !roadmap.milestones[index].isCompleted
  {
  }

  /** The view's `roadmap` is a snapshot, so a second tap writes the same value: it adds nothing. */
  lemma TapTwiceIsTapOnce(rs: seq<Roadmap>, roadmap: Roadmap, index: nat)
    requires index < |roadmap.milestones|
    ensures TapUpdate(TapUpdate(rs, roadmap, index), roadmap, index) == TapUpdate(rs, roadmap, index)
  {
    UpdateIdempotent(rs, roadmap.id, roadmap.milestones[index].id, !roadmap.milestones[index].isCompleted);
  }

  /** Tapping does not toggle the store: if the store already differs from the snapshot, nothing changes. */
  lemma TapAfterStoreChangedIsNoOp(rs: seq<Roadmap>, roadmap: Roadmap, index: nat, i: int, j: int)
    requires index < |roadmap.milestones|
    requires IsUpdateTarget(rs, roadmap.id, roadmap.milestones[index].id, i, j)
    requires rs[i].milestones[j].isCompleted != roadmap.milestones[index].isCompleted
    ensures TapUpdate(rs, roadmap, index) == rs
  {
    UpdateToCurrentValueIsNoOp(rs, roadmap.id, roadmap.milestones[index].id,
                               !roadmap.milestones[index].isCompleted, i, j);
  }

  /** The two buttons of the navigation header. */
  datatype HeaderButton = Back | Done

  /** The callbacks of the onboarding sheet, and the "Personalize This Roadmap" button. */
  datatype SheetTrigger = PersonalizeTapped | OnboardingBack | OnboardingComplete

  class PrototypeRoadmapView {
    const roadmap: Roadmap
    const roadmapData: UnifiedRoadmapData
    var showMessages: bool
    var showBasicInfo: bool
    /** How many times the screen has called its `onBack` callback. */
    var onBackCalls: nat

    constructor (roadmap: Roadmap, roadmapData: UnifiedRoadmapData)
      ensures this.roadmap == roadmap && this.roadmapData == roadmapData
      ensures showMessages && !showBasicInfo && onBackCalls == 0
      ensures SheetsExclusive()
    {
      this.roadmap := roadmap;
      this.roadmapData := roadmapData;
      showMessages := true;
      showBasicInfo := false;
      onBackCalls := 0;
    }

    /** Exactly one of the two sheets is requested. */
    predicate SheetsExclusive()
      reads this
    {
      showMessages != showBasicInfo
    }

    /** `toggleSheets`: both flags flip, so exclusivity is kept. */
    method ToggleSheets()
      modifies this
      ensures showMessages == !old(showMessages) && showBasicInfo == !old(showBasicInfo)
      ensures onBackCalls == old(onBackCalls)
      ensures SheetsExclusive() == old(SheetsExclusive())
    {
      showMessages := !showMessages;
      showBasicInfo := !showBasicInfo;
    }

    /** Back and Done do the same thing: call `onBack` once. */
    method TapHeader(button: HeaderButton)
      modifies this
      ensures onBackCalls == old(onBackCalls) + 1
      ensures showMessages == old(showMessages) && showBasicInfo == old(showBasicInfo)
    {
      match button
      case Back => onBackCalls := onBackCalls + 1;
      case Done => onBackCalls := onBackCalls + 1;
    }

    /** Personalize, and the onboarding sheet's Back and Complete, all call `toggleSheets`. */
    method TriggerSheets(trigger: SheetTrigger)
      modifies this
      ensures showMessages == !old(showMessages) && showBasicInfo == !old(showBasicInfo)
      ensures onBackCalls == old(onBackCalls)
    {
      match trigger
      case PersonalizeTapped => ToggleSheets();
      case OnboardingBack => ToggleSheets();
      case OnboardingComplete => ToggleSheets();
    }

    /**
      The onboarding sheet goes away (a swipe, or `showBasicInfo` turned off by a toggle): the
      `isPresented` binding is written `false` first, and then `onDismiss` runs, which toggles
      the sheets only while the messages sheet is requested. A swipe from the usual state
      (messages off, onboarding on) therefore leaves neither sheet requested.
     */
    method DismissBasicInfo()
      modifies this
      ensures !old(showMessages) ==> !showMessages && !showBasicInfo && !SheetsExclusive()
      ensures old(showMessages) ==> !showMessages && showBasicInfo && SheetsExclusive()
      ensures onBackCalls == old(onBackCalls)
    {
      showBasicInfo := false;
      if showMessages {
        ToggleSheets();
      }
    }

    /** The tap closure of milestone row `index`. */
    method TapMilestone(index: nat)
      requires index < |roadmap.milestones|
      modifies roadmapData
      ensures roadmapData.sharedRoadmaps == TapUpdate(old(roadmapData.sharedRoadmaps), roadmap, index)
    {
      roadmapData.UpdateMilestoneCompletion(roadmap.id, roadmap.milestones[index].id,
                                            !roadmap.milestones[index].isCompleted);
    }

    /** "Save Roadmap" is shown exactly while the store holds no roadmap with this roadmap's id. */
    function ShowsSaveButton(): (shown: bool)
      reads this, roadmapData
      ensures shown <==> forall k :: 0 <= k < |roadmapData.sharedRoadmaps| ==>
                                     roadmapData.sharedRoadmaps[k].id != roadmap.id
    {
      !Contains(roadmapData.sharedRoadmaps, (x: Roadmap) => x.id == roadmap.id)
    }

    /** Saving appends this roadmap and hides the button, so this path stores at most one copy. */
    method TapSave()
      requires ShowsSaveButton()
      modifies roadmapData
      ensures roadmapData.sharedRoadmaps == old(roadmapData.sharedRoadmaps) + [roadmap]
      ensures !ShowsSaveButton()
      ensures CountWhere(roadmapData.sharedRoadmaps, (x: Roadmap) => x.id == roadmap.id) == 1
    {
      ghost var before := roadmapData.sharedRoadmaps;
      roadmapData.AddRoadmap(roadmap);
      assert roadmapData.sharedRoadmaps[|before|] == roadmap;
      CountAfterAppend(before, roadmap);
    }
  }

  /** Appending a roadmap whose id the list lacks leaves exactly one roadmap with that id. */
  lemma {:induction false} CountAfterAppend(rs: seq<Roadmap>, roadmap: Roadmap)
    requires forall k :: 0 <= k < |rs| ==> rs[k].id != roadmap.id
    ensures CountWhere(rs + [roadmap], (x: Roadmap) => x.id == roadmap.id) == 1
  {
    if rs == [] {
      assert [roadmap][1..] == [];
    } else {
      assert (rs + [roadmap])[1..] == rs[1..] + [roadmap];
      CountAfterAppend(rs[1..], roadmap);
    }
  }
}
