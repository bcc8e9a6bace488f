/**
  The milestone value type and the milestone timeline screen: which milestones it shows when
  none are supplied, where it draws the connector line, and what each marker displays.
 */
module Timeline {
  import opened Wrappers

  /** A link attached to a milestone (its generated UUID is not modelled). */
  datatype MilestoneResource = MilestoneResource(title: string, link: string)

  /**
    One step of a roadmap. `id`, `title`, `description` and `resources` are constants of the
    Swift struct; `isCompleted` is its one `var`, changed only through `WithCompletion`.
   */
  datatype Milestone = Milestone(
    id: int,
    title: string,
    description: string,
    isCompleted: bool,
    resources: seq<MilestoneResource>)

  /** The memberwise initializer, whose `isCompleted` defaults to false and `resources` to none. */
  function NewMilestone(id: int, title: string, description: string, isCompleted: bool := false,
                        resources: seq<MilestoneResource> := []): Milestone
  {
    Milestone(id, title, description, isCompleted, resources)
  }

  /** Assigning the mutable field: only `isCompleted` can differ afterwards. */
  function WithCompletion(m: Milestone, isCompleted: bool): (r: Milestone)
    ensures r.isCompleted == isCompleted
    ensures r.id == m.id && r.title == m.title && r.description == m.description && r.resources == m.resources
    ensures m.isCompleted == isCompleted ==> r == m
  {
    m.(isCompleted := isCompleted)
  }

  lemma NewMilestoneDefaultsToIncomplete(id: int, title: string, description: string)
    ensures !NewMilestone(id, title, description).isCompleted
    ensures NewMilestone(id, title, description).resources == []
  {
  }

  /** The five milestones `TimelineRoadmapView()` shows when it is given none. */
  const DefaultMilestones: seq<Milestone> := [
    NewMilestone(1, "Choose Your Niche",
      "Identify your unique voice and establish expertise in a targeted subject area", true),
    NewMilestone(2, "Setup Platforms", "Create branded profiles on 1-2 channels", true),
    NewMilestone(3, "Content Calendar", "Produce 2-3 posts per week with batches", false),
    NewMilestone(4, "Engage Audience", "Use SEO, cross-promote, and reply daily", false),
    NewMilestone(5, "Monetize Growth", "Test revenue streams and reinvest for growth", false)
  ]

  /** The `milestones` that `TimelineRoadmapView.init(milestones:)` stores. */
  function TimelineMilestones(milestones: Option<seq<Milestone>>): (ms: seq<Milestone>)
    ensures milestones.Some? ==> ms == milestones.value
    ensures milestones.None? ==> |ms| == 5
    ensures milestones.None? ==> forall i :: 0 <= i < |ms| ==> ms[i].id == i + 1 && (ms[i].isCompleted <==> i < 2)
  {
    match milestones
    case Some(given) => given
    case None => DefaultMilestones
  }

  /** Milestone ids are 1, 2, ..., n in order. */
  ghost predicate NumberedFromOne(ms: seq<Milestone>) {
    forall i :: 0 <= i < |ms| ==> ms[i].id == i + 1
  }

  /** The timeline draws a connector line below milestone `m` when its id is not the milestone count. */
  predicate DrawsConnector(m: Milestone, count: int) {
    m.id != count
  }

  /** For milestones numbered 1..n that means: below every milestone but the last. */
  lemma ConnectorOnAllButLast(ms: seq<Milestone>, i: int)
    requires NumberedFromOne(ms) && 0 <= i < |ms|
    ensures DrawsConnector(ms[i], |ms|) <==> i != |ms| - 1
  {
  }

  /** A marker shows a number and is either filled (black) or hollow (white). */
  datatype Marker = Marker(number: int, filled: bool)

  /** The marker drawn for a milestone: its id, filled exactly when it is completed. */
  function MarkerFor(m: Milestone): (k: Marker)
    ensures k.number == m.id
    ensures k.filled <==> m.isCompleted
  {
    Marker(m.id, m.isCompleted)
  }

  /** With no milestones given, the timeline shows markers 1..5, the first two filled. */
  lemma DefaultMarkers(i: nat)
    requires i < |TimelineMilestones(None)|
    ensures MarkerFor(TimelineMilestones(None)[i]) == Marker(i + 1, i < 2)
  {
  }
}
