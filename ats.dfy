/**
 * The plain-text (ATS) resume layout: a header, then Summary, Experience,
 * Projects, Skills and Education, with lists written out as text rather
 * than badges.
 */
module AtsTemplate {
  import opened Wrappers
  import opened Text
  import opened Schema
  import opened Render

  const ExperiencePlaceholder := "Add experience entries to highlight your roles and impact."
  const ProjectsPlaceholder := "Add projects to showcase your portfolio work."
  const SkillsPlaceholder := "List your core skills to round out the resume."
  const EducationPlaceholder := "Add education entries for degrees or certifications."

  /** `"Stack: " + stack.join(", ")`. */
  function StackLine(stack: seq<string>): (s: string)
    ensures |s| >= 7 && s[..7] == "Stack: " && s[7..] == Join(stack, ", ")
  {
    "Stack: " + Join(stack, ", ")
  }

  /** An empty stack still prints its label. */
  lemma EmptyStackLine()
    ensures StackLine([]) == "Stack: "
  {
  }

  /** One project: name, description and the comma-joined stack. */
  function ProjectEntry(p: Project): (ns: seq<Node>)
    ensures |ns| == 3
    ensures ns[0] == Line(p.name) && ns[1] == Line(p.description) && ns[2] == Line(StackLine(p.stack))
  {
    [Line(p.name), Line(p.description), Line(StackLine(p.stack))]
  }

  /** One education entry: school, program and dates. */
  function EducationEntry(e: Education): (ns: seq<Node>)
    ensures |ns| == 3
    ensures ns[0] == Line(e.school) && ns[1] == Line(e.program) && ns[2] == Line(DateRange(e.startDate, e.endDate))
  {
    [Line(e.school), Line(e.program), Line(DateRange(e.startDate, e.endDate))]
  }

  /** Skills as one comma-separated paragraph, or the placeholder. */
  function SkillsBlock(skills: seq<string>): (b: Block)
    ensures b.Placeholder? <==> |skills| == 0
    ensures |skills| == 0 ==> b == Placeholder(SkillsPlaceholder)
    ensures |skills| > 0 ==> b == Paragraph(Join(skills, ", "))
  {
    if |skills| == 0 then Placeholder(SkillsPlaceholder) else Paragraph(Join(skills, ", "))
  }

  /** `ATSTemplate`. */
  function Template(r: Resume): (p: Page)
    ensures p.header == [Heading(r.basics.name), Line(r.basics.title),
                         Line(r.basics.location + " | " + r.basics.email + " | " + r.links.website)]
    ensures Titles(p) == ["Summary", "Experience", "Projects", "Skills", "Education"]
    ensures p.sections[0].body == Paragraph(r.basics.summary)
    ensures ListsEntries(p.sections[1].body, r.experience, ExperiencePlaceholder, LineRole)
    ensures ListsEntries(p.sections[2].body, r.projects, ProjectsPlaceholder, ProjectEntry)
    ensures ListsEntries(p.sections[4].body, r.education, EducationPlaceholder, EducationEntry)
    ensures p.sections[3].body.Placeholder? <==> |r.skills| == 0
    ensures |r.skills| == 0 ==> p.sections[3].body == Placeholder(SkillsPlaceholder)
    ensures |r.skills| > 0 ==> p.sections[3].body == Paragraph(Join(r.skills, ", "))
    ensures forall k :: 0 <= k < |p.sections| ==> !p.sections[k].body.Badges?
    ensures p.spacing == Some(Spacing(4, 4, 3))
  {
    Page(
      [Heading(r.basics.name), Line(r.basics.title),
       Line(r.basics.location + " | " + r.basics.email + " | " + r.links.website)],
      [ Section("Summary", Paragraph(r.basics.summary)),
        Section("Experience", EntriesOr(r.experience, ExperiencePlaceholder, LineRole)),
        Section("Projects", EntriesOr(r.projects, ProjectsPlaceholder, ProjectEntry)),
        Section("Skills", SkillsBlock(r.skills)),
        Section("Education", EntriesOr(r.education, EducationPlaceholder, EducationEntry)) ],
      Some(Spacing(4, 4, 3)))
  }

  /** The layout reads neither the `ui` settings nor the GitHub, LinkedIn or live-demo links. */
  lemma {:induction false} TemplateIgnoresUiAndOtherLinks(r: Resume, s: Resume)
    requires s.basics == r.basics && s.links.website == r.links.website
    requires s.skills == r.skills && s.experience == r.experience && s.education == r.education
    requires |s.projects| == |r.projects|
    requires forall i :: 0 <= i < |r.projects| ==> s.projects[i].(liveUrl := r.projects[i].liveUrl, repoUrl := r.projects[i].repoUrl) == r.projects[i]
    ensures Template(s) == Template(r)
  {
    assert forall i :: 0 <= i < |r.projects| ==> ProjectEntry(s.projects[i]) == ProjectEntry(r.projects[i]) by {
      forall i | 0 <= i < |r.projects|
        ensures ProjectEntry(s.projects[i]) == ProjectEntry(r.projects[i])
      {
        assert s.projects[i].name == r.projects[i].name;
      }
    }
    assert EntriesOr(s.projects, ProjectsPlaceholder, ProjectEntry) == EntriesOr(r.projects, ProjectsPlaceholder, ProjectEntry);
  }
}
