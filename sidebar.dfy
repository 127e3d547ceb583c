/**
 * The sidebar portfolio layout: profile, contact and skills in the aside,
 * then About, Projects and Experience. It has no density and shows no
 * education.
 */
module SidebarTemplate {
  import opened Wrappers
  import opened Schema
  import opened Render

  const SkillsPlaceholder := "Add skills to highlight your toolkit."
  const ProjectsPlaceholder := "Add projects to share your portfolio highlights."
  const ExperiencePlaceholder := "Add experience entries to share your impact."

  /** One project card: name, a "Featured" badge, description, stack badges in order, and the repository URL. */
  function ProjectCard(p: Project): (ns: seq<Node>)
    ensures |ns| == 4 + |p.stack|
    ensures ns[..3] == [Heading(p.name), Badge("Featured"), Line(p.description)]
    ensures forall i :: 0 <= i < |p.stack| ==> ns[3 + i] == Badge(p.stack[i])
    ensures ns[|ns| - 1] == Line(p.repoUrl)
  {
    [Heading(p.name), Badge("Featured"), Line(p.description)] + BadgeNodes(p.stack) + [Line(p.repoUrl)]
  }

  /** `SidebarTemplate`. */
  function Template(r: Resume): (p: Page)
    ensures p.header == [] && p.spacing == None
    ensures Titles(p) == ["Profile", "Contact", "Skills", "About", "Projects", "Experience"]
    ensures p.sections[0].body == Lines([Heading(r.basics.name), Line(r.basics.title), Line(r.basics.location)])
    ensures p.sections[1].body == Lines([Line(r.basics.email), Line(r.links.website), Line(r.links.github), Line(r.links.linkedin)])
    ensures p.sections[2].body.Placeholder? <==> |r.skills| == 0
    ensures |r.skills| == 0 ==> p.sections[2].body == Placeholder(SkillsPlaceholder)
    ensures |r.skills| > 0 ==> p.sections[2].body == Badges(r.skills)
    ensures p.sections[3].body == Paragraph(r.basics.summary)
    ensures ListsEntries(p.sections[4].body, r.projects, ProjectsPlaceholder, ProjectCard)
    ensures ListsEntries(p.sections[5].body, r.experience, ExperiencePlaceholder, LineRole)
  {
    Page(
      [],
      [ Section("Profile", Lines([Heading(r.basics.name), Line(r.basics.title), Line(r.basics.location)])),
        Section("Contact", Lines([Line(r.basics.email), Line(r.links.website), Line(r.links.github), Line(r.links.linkedin)])),
        Section("Skills", BadgesOr(r.skills, SkillsPlaceholder)),
        Section("About", Paragraph(r.basics.summary)),
        Section("Projects", EntriesOr(r.projects, ProjectsPlaceholder, ProjectCard)),
        Section("Experience", EntriesOr(r.experience, ExperiencePlaceholder, LineRole)) ],
      None)
  }

  /**
   * Neither the education list, nor any project's `liveUrl`, nor the `ui`
   * settings reach the page: records that differ only there render alike.
   */
  lemma {:induction false} IgnoresEducationAndLiveUrl(r: Resume, s: Resume)
    requires s.basics == r.basics && s.links == r.links && s.skills == r.skills && s.experience == r.experience
    requires |s.projects| == |r.projects|
    requires forall i :: 0 <= i < |r.projects| ==> s.projects[i].(liveUrl := r.projects[i].liveUrl) == r.projects[i]
    ensures Template(s) == Template(r)
  {
    forall i | 0 <= i < |r.projects|
      ensures ProjectCard(s.projects[i]) == ProjectCard(r.projects[i])
    {
      assert s.projects[i].name == r.projects[i].name;
    }
    assert EntriesOr(s.projects, ProjectsPlaceholder, ProjectCard) == EntriesOr(r.projects, ProjectsPlaceholder, ProjectCard);
  }
}
