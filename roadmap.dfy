/** The roadmap value type: an identified, titled sequence of milestones. */
module Roadmaps {
  import opened Timeline

  /** Roadmap identity. The source draws a fresh UUID per roadmap; here ids are given values. */
  datatype RoadmapId = RoadmapId(uuid: nat)

  datatype Roadmap = Roadmap(id: RoadmapId, title: string, milestones: seq<Milestone>)
}
