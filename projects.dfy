/**
 * The portfolio section (src/components/Projects.jsx): a fixed list of
 * projects rendered as accordion cards, of which at most one is open. The
 * only state is `openIndex`, the position of the open card or null.
 */
module Projects {
  import opened Wrappers
  import opened Accordion

  /** The three projects the section lists, in display order. */
  const Catalogue: seq<Project> := [
    Project(
      "Autonomous Mobile Robot Navigation Stack",
      "Full Nav2 implementation for warehouse logistics robot with dynamic obstacle avoidance.",
      "A logistics company needed an autonomous mobile robot capable of navigating complex warehouse environments with dynamic obstacles, tight spaces, and varying floor conditions.",
      "Developed a complete navigation stack using ROS 2 Humble and Nav2, featuring custom local planners, behavior trees for task management, and sensor fusion combining 2D LiDAR with depth cameras for robust obstacle detection.",
      "Achieved 95% navigation success rate with 40% reduction in delivery time compared to manual operations.",
      ["ROS 2 Humble", "Nav2", "Python", "C++", "Behavior Trees", "Gazebo"],
      Some("#"),
      None),
    Project(
      "Multi-Robot SLAM System",
      "Distributed mapping solution for fleet of inspection robots using graph-based SLAM.",
      "An inspection company required multiple robots to collaboratively map large industrial facilities while maintaining consistent global maps across all agents.",
      "Implemented a distributed SLAM system using Cartographer with custom inter-robot communication nodes for map merging, loop closure detection across robot observations, and centralized map optimization.",
      "Enabled 5 robots to map a 50,000 sq ft facility in under 2 hours with centimeter-level accuracy.",
      ["ROS 2 Galactic", "Cartographer", "C++", "DDS", "Docker", "PostgreSQL"],
      Some("#"),
      None),
    Project(
      "6-DOF Robotic Arm Manipulation Pipeline",
      "MoveIt2-based pick-and-place system with vision-guided grasping for manufacturing.",
      "Manufacturing client needed a flexible robotic arm system capable of identifying, picking, and placing parts of varying sizes without pre-programmed positions.",
      "Built a complete manipulation pipeline using MoveIt2 with custom grasp planners, integrated RGB-D perception for object detection and pose estimation, and collision-aware motion planning.",
      "Reduced part handling time by 60% and achieved 99.2% pick success rate on previously unseen objects.",
      ["ROS 2 Humble", "MoveIt2", "OpenCV", "PyTorch", "C++", "Isaac Sim"],
      Some("#"),
      None)
  ]

  /**
   * `openIndex === index ? null : index`: clicking the open card closes it,
   * clicking any other card opens that one and so closes the old one.
   */
  function Toggled(open: Option<nat>, index: nat): (r: Option<nat>)
    ensures r == None <==> open == Some(index)
    ensures r != None ==> r == Some(index)
  {
    if open == Some(index) then None else Some(index)
  }

  /** Clicking the same card twice, from all-closed or from that card open, restores the start. */
  lemma ToggleTwiceRestores(open: Option<nat>, index: nat)
    requires open == None || open == Some(index)
    ensures Toggled(Toggled(open, index), index) == open
  {
  }

  /** Toggling a valid position keeps `openIndex` null or a valid position. */
  lemma ToggleKeepsInRange(open: Option<nat>, index: nat, n: nat)
    requires open.Some? ==> open.value < n
    requires index < n
    ensures var r := Toggled(open, index); r.Some? ==> r.value < n
  {
  }

  /** `projects.map((project, index) => <ProjectAccordion isOpen={openIndex === index} ... />)` */
  function Cards(projects: seq<Project>, open: Option<nat>): seq<Card> {
    seq(|projects|, i requires 0 <= i < |projects| => Render(projects[i], open == Some(i)))
  }

  /** The number of cards whose details body is shown. */
  function CountExpanded(cards: seq<Card>): nat {
    if cards == [] then 0
    else CountExpanded(cards[..|cards| - 1]) + (if cards[|cards| - 1].details.Some? then 1 else 0)
  }

  /**
   * Exactly the card at `open` is expanded: the number of expanded cards is
   * one when `open` is a valid position and zero otherwise.
   */
  lemma {:induction false} ExpandedCount(cards: seq<Card>, open: Option<nat>)
    requires forall i :: 0 <= i < |cards| ==> (cards[i].details.Some? <==> open == Some(i))
    ensures CountExpanded(cards) == if open.Some? && open.value < |cards| then 1 else 0
  {
    if cards != [] {
      var prefix := cards[..|cards| - 1];
      assert forall i :: 0 <= i < |prefix| ==> prefix[i] == cards[i];
      ExpandedCount(prefix, open);
    }
  }

  /** At most one card of the section is expanded, and it is the one at `open`. */
  lemma AtMostOneExpanded(projects: seq<Project>, open: Option<nat>)
    ensures CountExpanded(Cards(projects, open)) <= 1
    ensures forall i :: 0 <= i < |projects| && Cards(projects, open)[i].details.Some? ==> open == Some(i)
  {
    ExpandedCount(Cards(projects, open), open);
  }

  /**
   * Every listed project has six technologies: the header previews three and
   * shows "+3 more"; the GitHub link ("#") is shown and the demo link is not.
   */
  lemma CatalogueCards(i: nat)
    requires i < |Catalogue|
    ensures Render(Catalogue[i], false).header.preview == Catalogue[i].techStack[..3]
    ensures Render(Catalogue[i], false).header.moreBadge == Some(3)
    ensures Render(Catalogue[i], true).details.value.githubLink == Some("#")
    ensures Render(Catalogue[i], true).details.value.demoLink == None
  {
  }

  /** The section's state: which card, if any, is open. */
  class ProjectList {
    const projects: seq<Project>
    var openIndex: Option<nat>

    ghost predicate Valid()
      reads this
    {
      openIndex.Some? ==> openIndex.value < |projects|
    }

    /** Initially no project is open. */
    constructor(projects: seq<Project>)
      ensures Valid() && this.projects == projects && openIndex == None
    {
      this.projects := projects;
      openIndex := None;
    }

    /** `handleToggle(index)`, called only from a rendered card, so with a valid index. */
    method HandleToggle(index: nat)
      requires Valid() && index < |projects|
      modifies this
      ensures Valid()
      ensures openIndex == Toggled(old(openIndex), index)
    {
      openIndex := Toggled(openIndex, index);
    }

    /** The `isOpen` prop passed to the card at `index`. */
    function IsOpen(index: nat): bool
      reads this
    {
      openIndex == Some(index)
    }

    /** The cards as currently rendered. */
    function Rendered(): seq<Card>
      reads this
    {
      Cards(projects, openIndex)
    }
  }

  /** As rendered, exactly the card at `openIndex` is expanded: one card while a project is open, none otherwise. */
  lemma RenderedExpandedCount(list: ProjectList)
    requires list.Valid()
    ensures CountExpanded(list.Rendered()) == if list.openIndex.Some? then 1 else 0
  {
    ExpandedCount(list.Rendered(), list.openIndex);
  }

  /** The two cards that report `isOpen` are the same card. */
  lemma IsOpenUnique(list: ProjectList, i: nat, j: nat)
    requires list.IsOpen(i) && list.IsOpen(j)
    ensures i == j
  {
  }
}
