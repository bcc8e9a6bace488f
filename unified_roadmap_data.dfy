/**
  The shared in-memory roadmap store `UnifiedRoadmapData`: one mutable sequence of roadmaps,
  seeded with three sample roadmaps and changed in place by milestone updates, appends and
  removals.
 */
module UnifiedRoadmap {
  import opened Wrappers
  import opened Search
  import opened Timeline
  import opened Roadmaps

  function Resource(title: string, link: string): MilestoneResource {
    MilestoneResource(title, link)
  }

  /** The "Content Creator", "Software Engineer" and "Entrepreneur" roadmaps the store starts with. */
  function InitialRoadmaps(contentCreatorId: RoadmapId, softwareEngineerId: RoadmapId,
                           entrepreneurId: RoadmapId): seq<Roadmap>
  {
    [ Roadmap(contentCreatorId, "Content Creator", [
        NewMilestone(1, "Choose Your Niche", "Identify your unique voice and establish expertise", true, [
          Resource("Niche Research Guide", "https://example.com/niche-guide"),
          Resource("Voice Development Tips", "https://example.com/voice-tips")]),
        NewMilestone(2, "Setup Platforms", "Create branded profiles on 1-2 channels", true, [
          Resource("Platform Setup Checklist", "https://example.com/platform-checklist"),
          Resource("Branding Guidelines", "https://example.com/branding-guide")]),
        NewMilestone(3, "Content Calendar", "Produce 2-3 posts per week with batches", false, [
          Resource("Content Planning Template", "https://example.com/content-template"),
          Resource("Batch Creation Guide", "https://example.com/batch-guide")]),
        NewMilestone(4, "Engage Audience", "Use SEO, cross-promote, and reply daily", false, [
          Resource("SEO Best Practices", "https://example.com/seo-guide"),
          Resource("Community Building", "https://example.com/community-guide")]),
        NewMilestone(5, "Monetize Growth", "Test revenue streams and reinvest for growth", false, [
          Resource("Monetization Strategies", "https://example.com/monetization"),
          Resource("Revenue Tracking", "https://example.com/revenue-tracking")])]),
      Roadmap(softwareEngineerId, "Software Engineer", [
        NewMilestone(1, "Learn Fundamentals", "Master programming basics and data structures", true, [
          Resource("Programming Fundamentals Course", "https://example.com/programming-basics"),
          Resource("Data Structures Guide", "https://example.com/data-structures")]),
        NewMilestone(2, "Build Projects", "Create portfolio projects to showcase skills", false, [
          Resource("Project Ideas List", "https://example.com/project-ideas"),
          Resource("Portfolio Building Guide", "https://example.com/portfolio-guide")]),
        NewMilestone(3, "Apply for Jobs", "Network, apply, and prepare for interviews", false, [
          Resource("Job Search Strategy", "https://example.com/job-search"),
          Resource("Interview Preparation", "https://example.com/interview-prep")]),
        NewMilestone(4, "First Role", "Land your first software engineering position", false, [
          Resource("Entry-Level Job Guide", "https://example.com/entry-jobs"),
          Resource("Career Growth Tips", "https://example.com/career-growth")]),
        NewMilestone(5, "Senior Role", "Advance to senior engineering positions", false, [
          Resource("Senior Skills Development", "https://example.com/senior-skills"),
          Resource("Leadership in Tech", "https://example.com/tech-leadership")])]),
      Roadmap(entrepreneurId, "Entrepreneur", [
        NewMilestone(1, "Idea Validation", "Test and validate your business concept", true, [
          Resource("Validation Framework", "https://example.com/validation-framework"),
          Resource("Market Research Tools", "https://example.com/market-research")]),
        NewMilestone(2, "Build MVP", "Create minimum viable product", true, [
          Resource("MVP Development Guide", "https://example.com/mvp-guide"),
          Resource("Rapid Prototyping", "https://example.com/prototyping")]),
        NewMilestone(3, "Launch Product", "Go to market with your solution", true, [
          Resource("Launch Strategy", "https://example.com/launch-strategy"),
          Resource("Marketing Basics", "https://example.com/marketing-basics")]),
        NewMilestone(4, "Scale Business", "Grow and expand your business operations", false, [
          Resource("Scaling Strategies", "https://example.com/scaling"),
          Resource("Operations Management", "https://example.com/operations")]),
        NewMilestone(5, "Exit Strategy", "Plan for acquisition or IPO", false, [
          Resource("Exit Planning Guide", "https://example.com/exit-planning"),
          Resource("Valuation Methods", "https://example.com/valuation")])])
    ]
  }

  /** Milestone ids are pairwise distinct, so an id names one milestone of the roadmap. */
  ghost predicate UniqueMilestoneIds(ms: seq<Milestone>) {
    forall i, j :: 0 <= i < j < |ms| ==> ms[i].id != ms[j].id
  }

  /** Numbering from one gives every milestone its own id. */
  lemma NumberedIdsAreUnique(ms: seq<Milestone>)
    requires NumberedFromOne(ms)
    ensures UniqueMilestoneIds(ms)
  {
  }

  /** Five milestones whose ids read 1, 2, 3, 4, 5. */
  ghost predicate OneToFive(ms: seq<Milestone>) {
    |ms| == 5 && ms[0].id == 1 && ms[1].id == 2 && ms[2].id == 3 && ms[3].id == 4 && ms[4].id == 5
  }

  /** Three sample roadmaps with the listed titles, each with milestones 1..5 in order. */
  lemma InitialStoreShape(a: RoadmapId, b: RoadmapId, c: RoadmapId)
    ensures var rs := InitialRoadmaps(a, b, c);
      && |rs| == 3
      && rs[0].title == "Content Creator" && rs[1].title == "Software Engineer" && rs[2].title == "Entrepreneur"
      && rs[0].id == a && rs[1].id == b && rs[2].id == c
      && forall k :: 0 <= k < 3 ==> |rs[k].milestones| == 5 && NumberedFromOne(rs[k].milestones)
                                    && UniqueMilestoneIds(rs[k].milestones)
  {
    var rs := InitialRoadmaps(a, b, c);
    assert OneToFive(rs[0].milestones) && OneToFive(rs[1].milestones) && OneToFive(rs[2].milestones);
    forall k | 0 <= k < 3
      ensures |rs[k].milestones| == 5 && NumberedFromOne(rs[k].milestones) && UniqueMilestoneIds(rs[k].milestones)
    {
      var ms := rs[k].milestones;
      assert OneToFive(ms);
      assert forall i :: 0 <= i < 5 ==> ms[i].id == i + 1;
      NumberedIdsAreUnique(ms);
    }
  }

  /**
    Milestone `j` of roadmap `i` is what `updateMilestoneCompletion(roadmapId:milestoneId:...)`
    writes: roadmap `i` is the first with the id, and milestone `j` the first in it with the
    milestone id.
   */
  ghost predicate IsUpdateTarget(rs: seq<Roadmap>, roadmapId: RoadmapId, milestoneId: int, i: int, j: int) {
    && 0 <= i < |rs| && 0 <= j < |rs[i].milestones|
    && rs[i].id == roadmapId && (forall k :: 0 <= k < i ==> rs[k].id != roadmapId)
    && rs[i].milestones[j].id == milestoneId
    && (forall k :: 0 <= k < j ==> rs[i].milestones[k].id != milestoneId)
  }

  ghost predicate HasUpdateTarget(rs: seq<Roadmap>, roadmapId: RoadmapId, milestoneId: int) {
    exists i, j :: IsUpdateTarget(rs, roadmapId, milestoneId, i, j)
  }

  /**
    The roadmaps after `updateMilestoneCompletion`: the same roadmaps with the same ids, titles
    and milestone counts, where exactly the target milestone has `isCompleted` set to the given
    value and every other milestone is as it was.
   */
  function UpdatedCompletion(rs: seq<Roadmap>, roadmapId: RoadmapId, milestoneId: int, isCompleted: bool): (r: seq<Roadmap>)
    ensures |r| == |rs|
    ensures forall i :: 0 <= i < |rs| ==>
              r[i].id == rs[i].id && r[i].title == rs[i].title && |r[i].milestones| == |rs[i].milestones|
    ensures forall i, j :: 0 <= i < |rs| && 0 <= j < |rs[i].milestones| ==>
              r[i].milestones[j] == if IsUpdateTarget(rs, roadmapId, milestoneId, i, j)
                                    then WithCompletion(rs[i].milestones[j], isCompleted)
                                    else rs[i].milestones[j]
  {
    match FirstIndex(rs, (x: Roadmap) => x.id == roadmapId)
    case None => rs
    case Some(ri) =>
      var ms := rs[ri].milestones;
      match FirstIndex(ms, (m: Milestone) => m.id == milestoneId)
      case None => rs
      case Some(mi) =>
        assert IsUpdateTarget(rs, roadmapId, milestoneId, ri, mi);
        rs[ri := rs[ri].(milestones := ms[mi := WithCompletion(ms[mi], isCompleted)])]
  }

  /** Two roadmap lists that agree on every roadmap's id, title and milestones are equal. */
  lemma RoadmapsExtensional(r: seq<Roadmap>, rs: seq<Roadmap>)
    requires |r| == |rs|
    requires forall i :: 0 <= i < |rs| ==>
               r[i].id == rs[i].id && r[i].title == rs[i].title && |r[i].milestones| == |rs[i].milestones|
    requires forall i, j :: 0 <= i < |rs| && 0 <= j < |rs[i].milestones| ==> r[i].milestones[j] == rs[i].milestones[j]
    ensures r == rs
  {
    forall i | 0 <= i < |rs| ensures r[i] == rs[i] {
      assert r[i].milestones == rs[i].milestones;
    }
  }

  /**
    No roadmap has the id, or the first that has it has no milestone with the milestone id:
    the update changes nothing.
   */
  lemma UpdateWithoutTargetIsNoOp(rs: seq<Roadmap>, roadmapId: RoadmapId, milestoneId: int, isCompleted: bool)
    requires !HasUpdateTarget(rs, roadmapId, milestoneId)
    ensures UpdatedCompletion(rs, roadmapId, milestoneId, isCompleted) == rs
  {
    RoadmapsExtensional(UpdatedCompletion(rs, roadmapId, milestoneId, isCompleted), rs);
  }

  /** The target exists exactly when some roadmap has the id and the first such one has the milestone. */
  lemma HasUpdateTargetIff(rs: seq<Roadmap>, roadmapId: RoadmapId, milestoneId: int)
    ensures HasUpdateTarget(rs, roadmapId, milestoneId) <==>
      exists i :: 0 <= i < |rs| && rs[i].id == roadmapId && (forall k :: 0 <= k < i ==> rs[k].id != roadmapId)
                  && exists j :: 0 <= j < |rs[i].milestones| && rs[i].milestones[j].id == milestoneId
  {
    if exists i :: 0 <= i < |rs| && rs[i].id == roadmapId && (forall k :: 0 <= k < i ==> rs[k].id != roadmapId)
                   && exists j :: 0 <= j < |rs[i].milestones| && rs[i].milestones[j].id == milestoneId {
      var i :| 0 <= i < |rs| && rs[i].id == roadmapId && (forall k :: 0 <= k < i ==> rs[k].id != roadmapId)
               && exists j :: 0 <= j < |rs[i].milestones| && rs[i].milestones[j].id == milestoneId;
      var j := FirstIndex(rs[i].milestones, (m: Milestone) => m.id == milestoneId).value;
      assert IsUpdateTarget(rs, roadmapId, milestoneId, i, j);
    }
  }

  /** When the target already holds the value, the update changes nothing. */
  lemma UpdateToCurrentValueIsNoOp(rs: seq<Roadmap>, roadmapId: RoadmapId, milestoneId: int, isCompleted: bool,
                                   i: int, j: int)
    requires IsUpdateTarget(rs, roadmapId, milestoneId, i, j)
    requires rs[i].milestones[j].isCompleted == isCompleted
    ensures UpdatedCompletion(rs, roadmapId, milestoneId, isCompleted) == rs
  {
    RoadmapsExtensional(UpdatedCompletion(rs, roadmapId, milestoneId, isCompleted), rs);
  }

  /** The update assigns rather than toggles: doing it twice is doing it once. */
  lemma UpdateIdempotent(rs: seq<Roadmap>, roadmapId: RoadmapId, milestoneId: int, isCompleted: bool)
    ensures var once := UpdatedCompletion(rs, roadmapId, milestoneId, isCompleted);
      UpdatedCompletion(once, roadmapId, milestoneId, isCompleted) == once
  {
    var once := UpdatedCompletion(rs, roadmapId, milestoneId, isCompleted);
    forall i, j | 0 <= i < |rs| && 0 <= j < |rs[i].milestones|
      ensures IsUpdateTarget(once, roadmapId, milestoneId, i, j) <==> IsUpdateTarget(rs, roadmapId, milestoneId, i, j)
    {
    }
    if i, j :| IsUpdateTarget(once, roadmapId, milestoneId, i, j) {
      UpdateToCurrentValueIsNoOp(once, roadmapId, milestoneId, isCompleted, i, j);
    } else {
      UpdateWithoutTargetIsNoOp(once, roadmapId, milestoneId, isCompleted);
    }
  }

  /** The roadmaps after `removeRoadmap(withId:)`. */
  function WithoutRoadmap(rs: seq<Roadmap>, id: RoadmapId): (r: seq<Roadmap>)
    ensures forall k :: 0 <= k < |r| ==> r[k].id != id && r[k] in rs
    ensures forall k :: 0 <= k < |rs| && rs[k].id != id ==> rs[k] in r
  {
    RemoveAll(rs, (x: Roadmap) => x.id == id)
  }

  /** Removal keeps the survivors in their original order. */
  lemma WithoutRoadmapKeepsOrder(a: seq<Roadmap>, b: seq<Roadmap>, id: RoadmapId)
    ensures WithoutRoadmap(a + b, id) == WithoutRoadmap(a, id) + WithoutRoadmap(b, id)
  {
    RemoveAllAppend(a, b, (x: Roadmap) => x.id == id);
  }

  /** Removing an id no roadmap has is a no-op. */
  lemma WithoutAbsentRoadmap(rs: seq<Roadmap>, id: RoadmapId)
    requires forall k :: 0 <= k < |rs| ==> rs[k].id != id
    ensures WithoutRoadmap(rs, id) == rs
  {
    RemoveAllNone(rs, (x: Roadmap) => x.id == id);
  }

  /** Removing twice is removing once. */
  lemma WithoutRoadmapIdempotent(rs: seq<Roadmap>, id: RoadmapId)
    ensures WithoutRoadmap(WithoutRoadmap(rs, id), id) == WithoutRoadmap(rs, id)
  {
    RemoveAllIdempotent(rs, (x: Roadmap) => x.id == id);
  }

  /** Removal shrinks the list by the number of roadmaps carrying the id. */
  lemma WithoutRoadmapLength(rs: seq<Roadmap>, id: RoadmapId)
    ensures |WithoutRoadmap(rs, id)| == |rs| - CountWhere(rs, (x: Roadmap) => x.id == id)
  {
    RemoveAllLength(rs, (x: Roadmap) => x.id == id);
  }

  /** `getRoadmap(byTitle:)` over a list of roadmaps. */
  function RoadmapTitled(rs: seq<Roadmap>, title: string): (r: Option<Roadmap>)
    ensures r.None? <==> forall k :: 0 <= k < |rs| ==> rs[k].title != title
    ensures r.Some? ==> exists k :: 0 <= k < |rs| && rs[k] == r.value && rs[k].title == title &&
                                    forall j :: 0 <= j < k ==> rs[j].title != title
  {
    First(rs, (x: Roadmap) => x.title == title)
  }

  /** After appending a roadmap whose title is new, looking that title up finds the new roadmap. */
  lemma RoadmapTitledAfterAppend(rs: seq<Roadmap>, roadmap: Roadmap)
    requires forall k :: 0 <= k < |rs| ==> rs[k].title != roadmap.title
    ensures RoadmapTitled(rs + [roadmap], roadmap.title) == Some(roadmap)
  {
    var all := rs + [roadmap];
    assert all[|rs|] == roadmap;
    var k :| 0 <= k < |all| && all[k] == RoadmapTitled(all, roadmap.title).value && all[k].title == roadmap.title;
    assert k == |rs|;
  }

  /**
    A save-and-delete scenario: the store starts with three roadmaps; saving a "Designer" roadmap makes
    four, found by its title; removing it by id restores the original three.
   */
  lemma DesignerRoundTrip(a: RoadmapId, b: RoadmapId, c: RoadmapId, designer: Roadmap)
    requires designer.title == "Designer" && designer.id != a && designer.id != b && designer.id != c
    ensures var rs := InitialRoadmaps(a, b, c);
      && |rs + [designer]| == 4
      && RoadmapTitled(rs + [designer], "Designer") == Some(designer)
      && WithoutRoadmap(rs + [designer], designer.id) == rs
  {
    var rs := InitialRoadmaps(a, b, c);
    RoadmapTitledAfterAppend(rs, designer);
    WithoutRoadmapKeepsOrder(rs, [designer], designer.id);
    WithoutAbsentRoadmap(rs, designer.id);
    assert WithoutRoadmap([designer], designer.id) == [];
  }

  class UnifiedRoadmapData {
    var sharedRoadmaps: seq<Roadmap>

    /** The shared store, seeded with the sample roadmaps; the three UUIDs are given. */
    constructor (contentCreatorId: RoadmapId, softwareEngineerId: RoadmapId, entrepreneurId: RoadmapId)
      ensures sharedRoadmaps == InitialRoadmaps(contentCreatorId, softwareEngineerId, entrepreneurId)
    {
      sharedRoadmaps := InitialRoadmaps(contentCreatorId, softwareEngineerId, entrepreneurId);
    }

    method UpdateMilestoneCompletion(roadmapId: RoadmapId, milestoneId: int, isCompleted: bool)
      modifies this
      ensures sharedRoadmaps == UpdatedCompletion(old(sharedRoadmaps), roadmapId, milestoneId, isCompleted)
    {
      var roadmapIndex := FirstIndex(sharedRoadmaps, (x: Roadmap) => x.id == roadmapId);
      if roadmapIndex.Some? {
        var roadmap := sharedRoadmaps[roadmapIndex.value];
        var milestoneIndex := FirstIndex(roadmap.milestones, (m: Milestone) => m.id == milestoneId);
        if milestoneIndex.Some? {
          var ms := roadmap.milestones;
          ms := ms[milestoneIndex.value := WithCompletion(ms[milestoneIndex.value], isCompleted)];
          sharedRoadmaps := sharedRoadmaps[roadmapIndex.value := roadmap.(milestones := ms)];
        }
      }
    }

    /** Appends without checking for a duplicate id: one more roadmap, last, earlier ones untouched. */
    method AddRoadmap(roadmap: Roadmap)
      modifies this
      ensures sharedRoadmaps == old(sharedRoadmaps) + [roadmap]
      ensures |sharedRoadmaps| == |old(sharedRoadmaps)| + 1 && sharedRoadmaps[|sharedRoadmaps| - 1] == roadmap
    {
      sharedRoadmaps := sharedRoadmaps + [roadmap];
    }

    method RemoveRoadmap(id: RoadmapId)
      modifies this
      ensures sharedRoadmaps == WithoutRoadmap(old(sharedRoadmaps), id)
      ensures forall k :: 0 <= k < |sharedRoadmaps| ==> sharedRoadmaps[k].id != id
    {
      sharedRoadmaps := RemoveAll(sharedRoadmaps, (x: Roadmap) => x.id == id);
    }

    /** The first roadmap with this title, nil when none has it. */
    function GetRoadmap(title: string): (r: Option<Roadmap>)
      reads this
      ensures r.None? <==> forall k :: 0 <= k < |sharedRoadmaps| ==> sharedRoadmaps[k].title != title
      ensures r.Some? ==> exists k :: 0 <= k < |sharedRoadmaps| && sharedRoadmaps[k] == r.value &&
                                      r.value.title == title && forall j :: 0 <= j < k ==> sharedRoadmaps[j].title != title
    {
      RoadmapTitled(sharedRoadmaps, title)
    }
  }
}
