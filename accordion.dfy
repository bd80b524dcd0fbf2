/**
 * One project card of the portfolio (src/components/ProjectAccordion.jsx):
 * a header that is always shown, with a preview of at most three technologies
 * and a "+k more" badge, and a details body shown only while the card is open.
 * Rendering is a pure function of the project record and the `isOpen` prop.
 */
module Accordion {
  import opened Wrappers

  /** A project record; a URL is None where the record holds `null`. */
  datatype Project = Project(
    name: string,
    summary: string,
    problem: string,
    solution: string,
    impact: string,
    techStack: seq<string>,
    githubUrl: Option<string>,
    demoUrl: Option<string>)

  /** How many technologies the header previews. */
  const PreviewLength: nat := 3

  /** What the always-visible header shows. */
  datatype Header = Header(
    title: string,
    summary: string,
    preview: seq<string>,
    moreBadge: Option<nat>,
    chevronAngle: int)

  /** What the expanded body shows; a link is None when it is not rendered. */
  datatype Details = Details(
    problem: string,
    solution: string,
    impact: string,
    techStack: seq<string>,
    githubLink: Option<string>,
    demoLink: Option<string>)

  datatype Card = Card(header: Header, details: Option<Details>)

  /** JavaScript truthiness of a string-or-null value: null and "" are falsy. */
  predicate Truthy(url: Option<string>) {
    url.Some? && url.value != ""
  }

  /**
   * A position argument of `Array.prototype.slice`: negative positions count
   * from the end, and the result is clamped to [0, n].
   */
  function SlicePosition(k: int, n: nat): (r: nat)
    ensures r <= n
  {
    if k < 0 then (if n + k < 0 then 0 else n + k)
    else if k > n then n
    else k
  }

  /**
   * `Array.prototype.slice(start, end)`: the elements from the resolved start
   * up to the resolved end, in order; empty when end falls at or before start.
   */
  function Slice<T>(s: seq<T>, start: int, end: int): (r: seq<T>)
    ensures var from, to := SlicePosition(start, |s|), SlicePosition(end, |s|);
      |r| == (if from < to then to - from else 0) &&
      forall i :: 0 <= i < |r| ==> r[i] == s[from + i]
  {
    var from := SlicePosition(start, |s|);
    var to := SlicePosition(end, |s|);
    if from < to then s[from..to] else []
  }

  /** `techStack.slice(0, 3)` */
  function Preview(techStack: seq<string>): seq<string> {
    Slice(techStack, 0, PreviewLength)
  }

  /** The count on the "+k more" badge, present only when some technologies are not previewed. */
  function MoreBadge(techStack: seq<string>): Option<nat> {
    if |techStack| > PreviewLength then Some(|techStack| - PreviewLength) else None
  }

  /** The preview is the prefix of the stack of length min(3, n), in order. */
  lemma PreviewIsPrefix(techStack: seq<string>)
    ensures |Preview(techStack)| == if |techStack| < PreviewLength then |techStack| else PreviewLength
    ensures Preview(techStack) == techStack[..|Preview(techStack)|]
  {
  }

  /**
   * The badge appears iff there are more than three technologies, its count
   * is n - 3, and preview plus badge account for every technology exactly once.
   */
  lemma BadgeAccountsForRest(techStack: seq<string>)
    ensures MoreBadge(techStack).Some? <==> |techStack| > PreviewLength
    ensures MoreBadge(techStack).Some? ==> MoreBadge(techStack).value == |techStack| - PreviewLength
    ensures |Preview(techStack)| + (if MoreBadge(techStack).Some? then MoreBadge(techStack).value else 0) == |techStack|
    ensures MoreBadge(techStack).Some? ==> Preview(techStack) + techStack[PreviewLength..] == techStack
  {
    PreviewIsPrefix(techStack);
  }

  /** The card for `project`, open or closed. */
  function Render(project: Project, isOpen: bool): (card: Card)
    ensures card.details.Some? <==> isOpen
    ensures card.header.chevronAngle == if isOpen then 180 else 0
    ensures isOpen ==> card.details.value.techStack == project.techStack
    ensures isOpen ==> (card.details.value.githubLink.Some? <==> Truthy(project.githubUrl))
    ensures isOpen ==> (card.details.value.demoLink.Some? <==> Truthy(project.demoUrl))
  {
    var header := Header(
      project.name,
      project.summary,
      Preview(project.techStack),
      MoreBadge(project.techStack),
      if isOpen then 180 else 0);
    var details :=
      if isOpen then
        Some(Details(
          project.problem,
          project.solution,
          project.impact,
          project.techStack,
          if Truthy(project.githubUrl) then project.githubUrl else None,
          if Truthy(project.demoUrl) then project.demoUrl else None))
      else None;
    Card(header, details)
  }

  /** Opening or closing a card changes only the chevron and whether the body is shown. */
  lemma HeaderIndependentOfOpen(project: Project)
    ensures Render(project, true).header == Render(project, false).header.(chevronAngle := 180)
    ensures Render(project, false).header.preview == Preview(project.techStack)
    ensures Render(project, false).header.moreBadge == MoreBadge(project.techStack)
  {
  }

  /** A link that is rendered points at the record's URL. */
  lemma LinksPointAtUrls(project: Project)
    ensures var d := Render(project, true).details.value;
      (d.githubLink.Some? ==> d.githubLink == project.githubUrl) &&
      (d.demoLink.Some? ==> d.demoLink == project.demoUrl)
  {
  }
}
