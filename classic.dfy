/**
 * The classic resume layout, and the compact layout that is the classic
 * one at compact density. Density only tightens the spacing.
 */
module ClassicTemplate {
  import opened Wrappers
  import opened Schema
  import opened Render

  const ExperiencePlaceholder := "Add experience entries to highlight your roles and impact."
  const ProjectsPlaceholder := "Add projects to showcase your portfolio work."
  const SkillsPlaceholder := "List your core skills to round out the resume."
  const EducationPlaceholder := "Add education entries for degrees or certifications."

  /** The `tight` flag: an absent density prop defaults to comfortable. */
  function Tight(density: Option<Density>): (tight: bool)
    ensures tight <==> density == Some(Compact)
  {
    density.GetOr(Comfortable) == Compact
  }

  /** `mt-4` and the smaller entry gaps when tight, `mt-6` and the larger ones otherwise. */
  function SpacingFor(tight: bool): (s: Spacing)
    ensures s.sectionTop == (if tight then 4 else 6)
    ensures s.experienceGap == (if tight then 4 else 5)
    ensures s.projectsGap == (if tight then 3 else 4)
  {
    if tight then Spacing(4, 4, 3) else Spacing(6, 5, 4)
  }

  /** One role: title as a heading, company and dates, then its bullets in order. */
  function Role(e: Experience): (ns: seq<Node>)
    ensures |ns| == 3 + |e.bullets|
    ensures ns[..3] == [Heading(e.role), Line(e.company), Line(DateRange(e.startDate, e.endDate))]
    ensures forall i :: 0 <= i < |e.bullets| ==> ns[3 + i] == Bullet(e.bullets[i])
  {
    [Heading(e.role), Line(e.company), Line(DateRange(e.startDate, e.endDate))] + Bullets(e.bullets)
  }

  /** One project: name, description, then one badge per stack entry in order. */
  function ProjectEntry(p: Project): (ns: seq<Node>)
    ensures |ns| == 2 + |p.stack|
    ensures ns[..2] == [Heading(p.name), Line(p.description)]
    ensures forall i :: 0 <= i < |p.stack| ==> ns[2 + i] == Badge(p.stack[i])
  {
    [Heading(p.name), Line(p.description)] + BadgeNodes(p.stack)
  }

  /** One education entry: school, program and dates. */
  function EducationEntry(e: Education): (ns: seq<Node>)
    ensures |ns| == 3
    ensures ns[0] == Heading(e.school) && ns[1] == Line(e.program) && ns[2] == Line(DateRange(e.startDate, e.endDate))
  {
    [Heading(e.school), Line(e.program), Line(DateRange(e.startDate, e.endDate))]
  }

  /** `ClassicTemplate` with its optional `density` prop. */
  function Template(r: Resume, density: Option<Density>): (p: Page)
    ensures p.header == [Heading(r.basics.name), Line(r.basics.title), Line(r.basics.location),
                         Line("•"), Line(r.basics.email), Line("•"), Line(r.links.website)]
    ensures Titles(p) == ["Summary", "Experience", "Projects", "Skills", "Education"]
    ensures p.sections[0].body == Paragraph(r.basics.summary)
    ensures ListsEntries(p.sections[1].body, r.experience, ExperiencePlaceholder, Role)
    ensures ListsEntries(p.sections[2].body, r.projects, ProjectsPlaceholder, ProjectEntry)
    ensures p.sections[3].body.Placeholder? <==> |r.skills| == 0
    ensures |r.skills| == 0 ==> p.sections[3].body == Placeholder(SkillsPlaceholder)
    ensures |r.skills| > 0 ==> p.sections[3].body == Badges(r.skills)
    ensures ListsEntries(p.sections[4].body, r.education, EducationPlaceholder, EducationEntry)
    ensures p.spacing == Some(SpacingFor(Tight(density)))
  {
    Page(
      [Heading(r.basics.name), Line(r.basics.title), Line(r.basics.location),
       Line("•"), Line(r.basics.email), Line("•"), Line(r.links.website)],
      [ Section("Summary", Paragraph(r.basics.summary)),
        Section("Experience", EntriesOr(r.experience, ExperiencePlaceholder, Role)),
        Section("Projects", EntriesOr(r.projects, ProjectsPlaceholder, ProjectEntry)),
        Section("Skills", BadgesOr(r.skills, SkillsPlaceholder)),
        Section("Education", EntriesOr(r.education, EducationPlaceholder, EducationEntry)) ],
      Some(SpacingFor(Tight(density))))
  }

  /** Density changes the spacing and nothing else: the header and every section are the same. */
  lemma DensityOnlySpacing(r: Resume, d1: Option<Density>, d2: Option<Density>)
    ensures Template(r, d1).(spacing := None) == Template(r, d2).(spacing := None)
    ensures Template(r, d1) == Template(r, d2) <==> Tight(d1) == Tight(d2)
  {
  }

  /** `CompactTemplate`: the classic layout at compact density, whatever the record's own options say. */
  function CompactLayout(r: Resume): (p: Page)
    ensures p.spacing == Some(Spacing(4, 4, 3))
    ensures forall d :: p == Template(r, Some(d)) <==> d == Compact
  {
    Template(r, Some(Compact))
  }

  /** The compact layout ignores `ui.resume.options` entirely. */
  lemma CompactIgnoresOptions(r: Resume, options: Option<ResumeOptions>)
    ensures CompactLayout(r.(ui := r.ui.(resume := r.ui.resume.(options := options)))) == CompactLayout(r)
  {
  }
}
