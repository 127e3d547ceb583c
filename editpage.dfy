/**
 * The edit page's own logic: the reducer over the local resume, the
 * name/title/link error map, the theme the preview shell uses, the design
 * controls' nested `ui` updates and the guard on the delete button.
 */
module EditPage {
  import opened Wrappers
  import opened Text
  import opened Schema
  import opened Dispatch

  // ------------------------------------------------------------- reducer

  /**
   * `ResumeAction`; `Unknown` stands for an action whose `type` is neither
   * `"set"` nor `"update"`, which the reducer's `default` branch handles.
   */
  datatype Action = Set(payload: Resume) | Update(updater: Resume -> Resume) | Unknown

  /** `resumeReducer`. */
  function Reduce(state: Resume, action: Action): (r: Resume)
    ensures action.Set? ==> r == action.payload
    ensures action.Update? ==> r == action.updater(state)
    ensures action.Unknown? ==> r == state
  {
    match action
    case Set(payload) => payload
    case Update(updater) => updater(state)
    case Unknown => state
  }

  /** A `"set"` forgets the earlier state: two dispatches of it equal one. */
  lemma SetOverrides(state: Resume, earlier: Action, payload: Resume)
    ensures Reduce(Reduce(state, earlier), Set(payload)) == Reduce(state, Set(payload))
  {
  }

  /** Two `"update"` dispatches equal one whose updater runs the first and then the second. */
  lemma UpdatesCompose(state: Resume, f: Resume -> Resume, g: Resume -> Resume)
    ensures Reduce(Reduce(state, Update(f)), Update(g)) == Reduce(state, Update(x => g(f(x))))
  {
  }

  // ------------------------------------------------------------ errors

  const NameRequired := "Name is required."
  const TitleRequired := "Title is required."
  const InvalidUrl := "Enter a valid URL."

  /** `BasicsErrors`: a message per failing basics field; absent means no error. */
  datatype BasicsErrors = BasicsErrors(name: Option<string>, title: Option<string>)

  /** `LinksErrors`. */
  datatype LinksErrors = LinksErrors(github: Option<string>, linkedin: Option<string>, website: Option<string>)

  datatype ValidationErrors = ValidationErrors(basics: BasicsErrors, links: LinksErrors)

  /**
   * `isValidUrl`: blank input is accepted, anything else must parse as a
   * URL (the same stand-in the schema's `.url()` uses).
   */
  function IsValidUrl(value: string): (ok: bool)
    ensures IsBlank(value) ==> ok
    ensures !IsBlank(value) ==> (ok <==> UrlParses(value))
  {
    TrimEmptyIffBlank(value);
    if Trim(value) == [] then true else UrlParses(value)
  }

  /** What the schema accepts as a URL the page accepts too; blank text is accepted by the page only. */
  lemma UrlCheckWeakerThanSchema(value: string)
    ensures UrlParses(value) ==> IsValidUrl(value)
    ensures IsBlank(value) ==> IsValidUrl(value) && !UrlParses(value)
  {
  }

  /** The error map as a value: a message for each failing check and nothing for the others. */
  function Errors(resume: Resume): (e: ValidationErrors)
    ensures e.basics.name == (if IsBlank(resume.basics.name) then Some(NameRequired) else None)
    ensures e.basics.title == (if IsBlank(resume.basics.title) then Some(TitleRequired) else None)
    ensures e.links.github == (if IsValidUrl(resume.links.github) then None else Some(InvalidUrl))
    ensures e.links.linkedin == (if IsValidUrl(resume.links.linkedin) then None else Some(InvalidUrl))
    ensures e.links.website == (if IsValidUrl(resume.links.website) then None else Some(InvalidUrl))
  {
    TrimEmptyIffBlank(resume.basics.name);
    TrimEmptyIffBlank(resume.basics.title);
    ValidationErrors(
      BasicsErrors(
        if Trim(resume.basics.name) == [] then Some(NameRequired) else None,
        if Trim(resume.basics.title) == [] then Some(TitleRequired) else None),
      LinksErrors(
        if IsValidUrl(resume.links.github) then None else Some(InvalidUrl),
        if IsValidUrl(resume.links.linkedin) then None else Some(InvalidUrl),
        if IsValidUrl(resume.links.website) then None else Some(InvalidUrl)))
  }

  /** `validateResume`: start from two empty error objects and set one field per failing check. */
  method ValidateResume(resume: Resume) returns (errors: ValidationErrors)
    ensures errors == Errors(resume)
  {
    var basics := BasicsErrors(None, None);
    var links := LinksErrors(None, None, None);
    if Trim(resume.basics.name) == [] {
      basics := basics.(name := Some(NameRequired));
    }
    if Trim(resume.basics.title) == [] {
      basics := basics.(title := Some(TitleRequired));
    }
    if !IsValidUrl(resume.links.github) {
      links := links.(github := Some(InvalidUrl));
    }
    if !IsValidUrl(resume.links.linkedin) {
      links := links.(linkedin := Some(InvalidUrl));
    }
    if !IsValidUrl(resume.links.website) {
      links := links.(website := Some(InvalidUrl));
    }
    errors := ValidationErrors(basics, links);
  }

  /** Only name, title and the three links are checked: email, location, summary and the lists never matter. */
  lemma ErrorsReadOnlyNameTitleLinks(resume: Resume, other: Resume)
    requires other.basics.name == resume.basics.name && other.basics.title == resume.basics.title
    requires other.links == resume.links
    ensures Errors(other) == Errors(resume)
  {
  }

  /** A schema-valid record never shows a link error. */
  lemma {:induction false} ValidHasNoLinkErrors(resume: Resume)
    requires Valid(resume)
    ensures Errors(resume).links == LinksErrors(None, None, None)
  {
    UrlCheckWeakerThanSchema(resume.links.github);
    UrlCheckWeakerThanSchema(resume.links.linkedin);
    UrlCheckWeakerThanSchema(resume.links.website);
  }

  /**
   * The page's checks and the schema disagree both ways: a blank name
   * satisfies `min(1)` but shows an error, and blank links show no error
   * but fail `.url()`.
   */
  lemma ErrorsAndSchemaDiffer(resume: Resume)
    ensures resume.basics.name == " " ==> NonEmpty(resume.basics.name) && Errors(resume).basics.name == Some(NameRequired)
    ensures resume.links.github == "" ==> Errors(resume).links.github == None && !ValidLinks(resume.links)
  {
    if resume.basics.name == " " {
      assert IsWhitespace(resume.basics.name[0]);
      assert TrimStart(resume.basics.name) == [];
    }
  }

  // --------------------------------------------------------------- theme

  /** `activeTheme`. */
  function ActiveTheme(resume: Resume, target: Target): (theme: string)
    ensures target == ResumeTarget ==> theme == resume.ui.resume.theme
    ensures target == PortfolioTarget ==> theme == resume.ui.portfolio.theme
  {
    if target == ResumeTarget then resume.ui.resume.theme else resume.ui.portfolio.theme
  }

  // ---------------------------------------------------- design controls

  /** The resume's content outside `ui` is the same in both records. */
  predicate SameContent(a: Resume, b: Resume) {
    a.basics == b.basics && a.links == b.links && a.skills == b.skills
    && a.experience == b.experience && a.projects == b.projects && a.education == b.education
  }

  /** `{...options}` when `options` may be undefined: a missing object spreads as no keys. */
  function PortfolioOptionsOrEmpty(o: Option<PortfolioOptions>): (r: PortfolioOptions)
    ensures o.Some? ==> r == o.value
    ensures o.None? ==> r.showPhoto.None? && r.layout.None? && r.accent.None?
  {
    o.GetOr(PortfolioOptions(None, None, None))
  }

  function ResumeOptionsOrEmpty(o: Option<ResumeOptions>): (r: ResumeOptions)
    ensures o.Some? ==> r == o.value
    ensures o.None? ==> r.density.None? && r.showIcons.None?
  {
    o.GetOr(ResumeOptions(None, None))
  }

  /** The portfolio template select. */
  function SetPortfolioTemplate(resume: Resume, template: PortfolioTemplate): (r: Resume)
    ensures SameContent(r, resume) && r.ui.resume == resume.ui.resume
    ensures r.ui.portfolio.template == template
    ensures r.ui.portfolio.theme == resume.ui.portfolio.theme && r.ui.portfolio.options == resume.ui.portfolio.options
  {
    resume.(ui := resume.ui.(portfolio := resume.ui.portfolio.(template := template)))
  }

  /** The portfolio theme select. */
  function SetPortfolioTheme(resume: Resume, theme: string): (r: Resume)
    ensures SameContent(r, resume) && r.ui.resume == resume.ui.resume
    ensures r.ui.portfolio.theme == theme
    ensures r.ui.portfolio.template == resume.ui.portfolio.template && r.ui.portfolio.options == resume.ui.portfolio.options
  {
    resume.(ui := resume.ui.(portfolio := resume.ui.portfolio.(theme := theme)))
  }

  /** The portfolio layout select: sets `options.layout`, creating `options` if it was absent. */
  function SetPortfolioLayout(resume: Resume, layout: NavLayout): (r: Resume)
    ensures SameContent(r, resume) && r.ui.resume == resume.ui.resume
    ensures r.ui.portfolio.theme == resume.ui.portfolio.theme && r.ui.portfolio.template == resume.ui.portfolio.template
    ensures r.ui.portfolio.options.Some? && r.ui.portfolio.options.value.layout == Some(layout)
    ensures r.ui.portfolio.options.value.showPhoto == (if resume.ui.portfolio.options.Some? then resume.ui.portfolio.options.value.showPhoto else None)
    ensures r.ui.portfolio.options.value.accent == (if resume.ui.portfolio.options.Some? then resume.ui.portfolio.options.value.accent else None)
  {
    var options := PortfolioOptionsOrEmpty(resume.ui.portfolio.options);
    resume.(ui := resume.ui.(portfolio := resume.ui.portfolio.(options := Some(options.(layout := Some(layout))))))
  }

  /** The portfolio photo toggle: sets `options.showPhoto`, creating `options` if it was absent. */
  function SetPortfolioShowPhoto(resume: Resume, checked: bool): (r: Resume)
    ensures SameContent(r, resume) && r.ui.resume == resume.ui.resume
    ensures r.ui.portfolio.theme == resume.ui.portfolio.theme && r.ui.portfolio.template == resume.ui.portfolio.template
    ensures r.ui.portfolio.options.Some? && r.ui.portfolio.options.value.showPhoto == Some(checked)
    ensures r.ui.portfolio.options.value.layout == (if resume.ui.portfolio.options.Some? then resume.ui.portfolio.options.value.layout else None)
    ensures r.ui.portfolio.options.value.accent == (if resume.ui.portfolio.options.Some? then resume.ui.portfolio.options.value.accent else None)
  {
    var options := PortfolioOptionsOrEmpty(resume.ui.portfolio.options);
    resume.(ui := resume.ui.(portfolio := resume.ui.portfolio.(options := Some(options.(showPhoto := Some(checked))))))
  }

  /** The resume template select. */
  function SetResumeTemplate(resume: Resume, template: ResumeTemplate): (r: Resume)
    ensures SameContent(r, resume) && r.ui.portfolio == resume.ui.portfolio
    ensures r.ui.resume.template == template
    ensures r.ui.resume.theme == resume.ui.resume.theme && r.ui.resume.options == resume.ui.resume.options
  {
    resume.(ui := resume.ui.(resume := resume.ui.resume.(template := template)))
  }

  /** The resume theme select. */
  function SetResumeTheme(resume: Resume, theme: string): (r: Resume)
    ensures SameContent(r, resume) && r.ui.portfolio == resume.ui.portfolio
    ensures r.ui.resume.theme == theme
    ensures r.ui.resume.template == resume.ui.resume.template && r.ui.resume.options == resume.ui.resume.options
  {
    resume.(ui := resume.ui.(resume := resume.ui.resume.(theme := theme)))
  }

  /** The resume density select: sets `options.density`, creating `options` if it was absent. */
  function SetResumeDensity(resume: Resume, density: Density): (r: Resume)
    ensures SameContent(r, resume) && r.ui.portfolio == resume.ui.portfolio
    ensures r.ui.resume.theme == resume.ui.resume.theme && r.ui.resume.template == resume.ui.resume.template
    ensures r.ui.resume.options.Some? && r.ui.resume.options.value.density == Some(density)
    ensures r.ui.resume.options.value.showIcons == (if resume.ui.resume.options.Some? then resume.ui.resume.options.value.showIcons else None)
  {
    var options := ResumeOptionsOrEmpty(resume.ui.resume.options);
    resume.(ui := resume.ui.(resume := resume.ui.resume.(options := Some(options.(density := Some(density))))))
  }

  /** The resume icons toggle: sets `options.showIcons`, creating `options` if it was absent. */
  function SetResumeShowIcons(resume: Resume, checked: bool): (r: Resume)
    ensures SameContent(r, resume) && r.ui.portfolio == resume.ui.portfolio
    ensures r.ui.resume.theme == resume.ui.resume.theme && r.ui.resume.template == resume.ui.resume.template
    ensures r.ui.resume.options.Some? && r.ui.resume.options.value.showIcons == Some(checked)
    ensures r.ui.resume.options.value.density == (if resume.ui.resume.options.Some? then resume.ui.resume.options.value.density else None)
  {
    var options := ResumeOptionsOrEmpty(resume.ui.resume.options);
    resume.(ui := resume.ui.(resume := resume.ui.resume.(options := Some(options.(showIcons := Some(checked))))))
  }

  /**
   * Every design control keeps a schema-valid record valid, except that a
   * theme select keeps it valid exactly when the chosen theme is non-empty.
   */
  lemma {:induction false} DesignControlsKeepValid(resume: Resume, p: PortfolioTemplate, t: ResumeTemplate, l: NavLayout, d: Density, b: bool, theme: string)
    requires Valid(resume)
    ensures Valid(SetPortfolioTemplate(resume, p)) && Valid(SetResumeTemplate(resume, t))
    ensures Valid(SetPortfolioLayout(resume, l)) && Valid(SetPortfolioShowPhoto(resume, b))
    ensures Valid(SetResumeDensity(resume, d)) && Valid(SetResumeShowIcons(resume, b))
    ensures Valid(SetPortfolioTheme(resume, theme)) <==> NonEmpty(theme)
    ensures Valid(SetResumeTheme(resume, theme)) <==> NonEmpty(theme)
  {
    KeepsValid(resume, SetPortfolioTemplate(resume, p));
    KeepsValid(resume, SetResumeTemplate(resume, t));
    KeepsValid(resume, SetPortfolioLayout(resume, l));
    KeepsValid(resume, SetPortfolioShowPhoto(resume, b));
    KeepsValid(resume, SetResumeDensity(resume, d));
    KeepsValid(resume, SetResumeShowIcons(resume, b));
    KeepsValid(resume, SetPortfolioTheme(resume, theme));
    KeepsValid(resume, SetResumeTheme(resume, theme));
  }

  /** Validity of a record with the same content is decided by its two themes alone. */
  lemma KeepsValid(resume: Resume, r: Resume)
    requires Valid(resume) && SameContent(r, resume)
    ensures Valid(r) <==> ValidUi(r.ui)
  {
  }

  /** The theme select for the shown target is what the preview shell then uses; the other target's theme stays. */
  lemma ThemeSelectShowsTheme(resume: Resume, theme: string)
    ensures ActiveTheme(SetPortfolioTheme(resume, theme), PortfolioTarget) == theme
    ensures ActiveTheme(SetPortfolioTheme(resume, theme), ResumeTarget) == ActiveTheme(resume, ResumeTarget)
    ensures ActiveTheme(SetResumeTheme(resume, theme), ResumeTarget) == theme
    ensures ActiveTheme(SetResumeTheme(resume, theme), PortfolioTarget) == ActiveTheme(resume, PortfolioTarget)
  {
  }

  // --------------------------------------------------------- delete guard

  /** The delete button: the id handed to `deleteProfile`, or nothing when the active profile is `"default"`. */
  function DeleteRequest(activeId: string): (r: Option<string>)
    ensures r.None? <==> activeId == "default"
    ensures r.Some? ==> r.value == activeId
  {
    if activeId == "default" then None else Some(activeId)
  }
}
