/**
 * Which layout the live preview shows: `ResumePreview` picks the resume or
 * the portfolio renderer by target, `ResumeRenderer` switches on the
 * resume template and `PortfolioRenderer` on the portfolio template.
 */
module Dispatch {
  import opened Wrappers
  import opened Schema
  import opened Render
  import AtsTemplate
  import ClassicTemplate
  import SidebarTemplate

  /** The preview target the design panel switches between. */
  datatype Target = PortfolioTarget | ResumeTarget

  /** The component a renderer returns; `ModernLayout` is the portfolio Modern layout, whose markup is not modelled. */
  datatype Layout = ClassicLayout(density: Density) | CompactLayout | AtsLayout | SidebarLayout | ModernLayout

  /** A layout together with the record handed to it. */
  datatype Rendered = Rendered(layout: Layout, resume: Resume)

  /** `resume.ui.resume.options?.density ?? "comfortable"`. */
  function ResumeDensity(ui: ResumeUi): (d: Density)
    ensures ui.options.Some? && ui.options.value.density.Some? ==> d == ui.options.value.density.value
    ensures ui.options.None? || ui.options.value.density.None? ==> d == Comfortable
  {
    if ui.options.Some? then ui.options.value.density.GetOr(Comfortable) else Comfortable
  }

  /** `ResumeRenderer`'s `switch` on the template string. */
  function ResumeLayoutFor(template: string, density: Density): (l: Layout)
    ensures l == CompactLayout <==> template == "compact"
    ensures l == AtsLayout <==> template == "ats"
    ensures template != "compact" && template != "ats" ==> l == ClassicLayout(density)
  {
    match template
    case "compact" => CompactLayout
    case "ats" => AtsLayout
    case _ => ClassicLayout(density)
  }

  /** `FALLBACK_TEMPLATE`. */
  const FallbackTemplate := "modern"

  /** `PortfolioRenderer`: a falsy template becomes `"modern"`, then only `"sidebar"` picks the sidebar layout. */
  function PortfolioLayoutFor(template: string): (l: Layout)
    ensures l == SidebarLayout <==> template == "sidebar"
    ensures template != "sidebar" ==> l == ModernLayout
  {
    var t := if template == "" then FallbackTemplate else template;
    match t
    case "sidebar" => SidebarLayout
    case _ => ModernLayout
  }

  /** `ResumeRenderer`. */
  function ResumeRenderer(r: Resume): (v: Rendered)
    ensures v.resume == r
    ensures v.layout == ResumeLayoutFor(ResumeTemplateName(r.ui.resume.template), ResumeDensity(r.ui.resume))
  {
    Rendered(ResumeLayoutFor(ResumeTemplateName(r.ui.resume.template), ResumeDensity(r.ui.resume)), r)
  }

  /** `PortfolioRenderer`. */
  function PortfolioRenderer(r: Resume): (v: Rendered)
    ensures v.resume == r
    ensures v.layout == PortfolioLayoutFor(PortfolioTemplateName(r.ui.portfolio.template))
  {
    Rendered(PortfolioLayoutFor(PortfolioTemplateName(r.ui.portfolio.template)), r)
  }

  /** `ResumePreview`: the record goes unchanged to the renderer the target names. */
  function Preview(r: Resume, target: Target): (v: Rendered)
    ensures v.resume == r
    ensures target == ResumeTarget ==> v == ResumeRenderer(r)
    ensures target == PortfolioTarget ==> v == PortfolioRenderer(r)
  {
    if target == ResumeTarget then ResumeRenderer(r) else PortfolioRenderer(r)
  }

  /** The resume templates map to their layouts; the ATS layout ignores density. */
  lemma ResumeTemplates(r: Resume)
    ensures r.ui.resume.template == CompactResume ==> ResumeRenderer(r).layout == CompactLayout
    ensures r.ui.resume.template == Ats ==> ResumeRenderer(r).layout == AtsLayout
    ensures r.ui.resume.template == ClassicResume ==> ResumeRenderer(r).layout == ClassicLayout(ResumeDensity(r.ui.resume))
  {
  }

  /** Every portfolio template but `sidebar` shows the Modern layout, and so does a blank template name. */
  lemma PortfolioTemplates(r: Resume)
    ensures PortfolioRenderer(r).layout == SidebarLayout <==> r.ui.portfolio.template == Sidebar
    ensures r.ui.portfolio.template != Sidebar ==> PortfolioRenderer(r).layout == ModernLayout
    ensures PortfolioLayoutFor("") == ModernLayout
  {
  }

  /** For the resume target only `ui.resume` matters; for the portfolio target only `ui.portfolio.template`. */
  lemma {:induction false} LayoutDependsOnlyOnItsSettings(r: Resume, s: Resume)
    ensures r.ui.resume == s.ui.resume ==> Preview(r, ResumeTarget).layout == Preview(s, ResumeTarget).layout
    ensures r.ui.portfolio.template == s.ui.portfolio.template ==>
              Preview(r, PortfolioTarget).layout == Preview(s, PortfolioTarget).layout
  {
  }

  /** The page a layout produces; the Modern portfolio layout is not modelled. */
  function PageOf(v: Rendered): (p: Option<Page>)
    ensures p.None? <==> v.layout == ModernLayout
  {
    match v.layout
    case ClassicLayout(d) => Some(ClassicTemplate.Template(v.resume, Some(d)))
    case CompactLayout => Some(ClassicTemplate.CompactLayout(v.resume))
    case AtsLayout => Some(AtsTemplate.Template(v.resume))
    case SidebarLayout => Some(SidebarTemplate.Template(v.resume))
    case ModernLayout => None
  }

  /** Template `classic` at density `compact` shows exactly what template `compact` shows. */
  lemma ClassicCompactIsCompact(r: Resume)
    requires r.ui.resume.template == ClassicResume && ResumeDensity(r.ui.resume) == Compact
    ensures PageOf(ResumeRenderer(r)) == PageOf(ResumeRenderer(r.(ui := r.ui.(resume := r.ui.resume.(template := CompactResume)))))
  {
  }
}
