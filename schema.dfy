/**
 * The resume record, its zod schema and the migration of older records
 * (src/lib/schema/resume.ts). The schema is modelled twice: `Valid` states the
 * field constraints on a typed record, and `Validate` is the parser that
 * `resumeSchema.safeParse` runs on untyped JSON. `Encode` is `JSON.stringify`
 * of a typed record; the round-trip lemmas tie the three together.
 */
module Schema {
  import opened Wrappers
  import opened Json
  import opened Text

  // ---------------------------------------------------------------- enums

  datatype PortfolioTemplate = Sidebar | Landing | Grid | Modern | ClassicPortfolio
  datatype ResumeTemplate = ClassicResume | CompactResume | Ats
  datatype Density = Comfortable | Compact
  datatype NavLayout = LeftNav | TopNav | NoNav

  function PortfolioTemplateName(t: PortfolioTemplate): string {
    match t
    case Sidebar => "sidebar"
    case Landing => "landing"
    case Grid => "grid"
    case Modern => "modern"
    case ClassicPortfolio => "classic"
  }

  function ResumeTemplateName(t: ResumeTemplate): string {
    match t
    case ClassicResume => "classic"
    case CompactResume => "compact"
    case Ats => "ats"
  }

  function DensityName(d: Density): string {
    match d
    case Comfortable => "comfortable"
    case Compact => "compact"
  }

  function NavLayoutName(l: NavLayout): string {
    match l
    case LeftNav => "leftNav"
    case TopNav => "topNav"
    case NoNav => "none"
  }

  /** `portfolioTemplateSchema`: exactly the five listed names are admitted. */
  function ParsePortfolioTemplate(s: string): (r: Option<PortfolioTemplate>)
    ensures r.Some? <==> s in {"sidebar", "landing", "grid", "modern", "classic"}
    ensures r.Some? ==> PortfolioTemplateName(r.value) == s
  {
    if s == "sidebar" then Some(Sidebar)
    else if s == "landing" then Some(Landing)
    else if s == "grid" then Some(Grid)
    else if s == "modern" then Some(Modern)
    else if s == "classic" then Some(ClassicPortfolio)
    else None
  }

  /** `resumeTemplateSchema`: exactly classic, compact and ats. */
  function ParseResumeTemplate(s: string): (r: Option<ResumeTemplate>)
    ensures r.Some? <==> s in {"classic", "compact", "ats"}
    ensures r.Some? ==> ResumeTemplateName(r.value) == s
  {
    if s == "classic" then Some(ClassicResume)
    else if s == "compact" then Some(CompactResume)
    else if s == "ats" then Some(Ats)
    else None
  }

  /** The density enum: exactly comfortable and compact. */
  function ParseDensity(s: string): (r: Option<Density>)
    ensures r.Some? <==> s in {"comfortable", "compact"}
    ensures r.Some? ==> DensityName(r.value) == s
  {
    if s == "comfortable" then Some(Comfortable)
    else if s == "compact" then Some(Compact)
    else None
  }

  /** The layout enum: exactly leftNav, topNav and none. */
  function ParseNavLayout(s: string): (r: Option<NavLayout>)
    ensures r.Some? <==> s in {"leftNav", "topNav", "none"}
    ensures r.Some? ==> NavLayoutName(r.value) == s
  {
    if s == "leftNav" then Some(LeftNav)
    else if s == "topNav" then Some(TopNav)
    else if s == "none" then Some(NoNav)
    else None
  }

  lemma EnumNamesRoundTrip(p: PortfolioTemplate, t: ResumeTemplate, d: Density, l: NavLayout)
    ensures ParsePortfolioTemplate(PortfolioTemplateName(p)) == Some(p)
    ensures ParseResumeTemplate(ResumeTemplateName(t)) == Some(t)
    ensures ParseDensity(DensityName(d)) == Some(d)
    ensures ParseNavLayout(NavLayoutName(l)) == Some(l)
  {
  }

  // ---------------------------------------------------------------- record

  datatype Basics = Basics(name: string, title: string, email: string, location: string, summary: string)
  datatype Links = Links(github: string, linkedin: string, website: string)
  datatype Experience = Experience(company: string, role: string, startDate: string, endDate: string, bullets: seq<string>)
  datatype Project = Project(name: string, description: string, stack: seq<string>, repoUrl: string, liveUrl: string)
  datatype Education = Education(school: string, program: string, startDate: string, endDate: string)
  datatype PortfolioOptions = PortfolioOptions(showPhoto: Option<bool>, layout: Option<NavLayout>, accent: Option<string>)
  datatype ResumeOptions = ResumeOptions(density: Option<Density>, showIcons: Option<bool>)
  datatype PortfolioUi = PortfolioUi(theme: string, template: PortfolioTemplate, options: Option<PortfolioOptions>)
  datatype ResumeUi = ResumeUi(theme: string, template: ResumeTemplate, options: Option<ResumeOptions>)
  datatype Ui = Ui(portfolio: PortfolioUi, resume: ResumeUi)
  datatype Resume = Resume(
    basics: Basics,
    links: Links,
    skills: seq<string>,
    experience: seq<Experience>,
    projects: seq<Project>,
    education: seq<Education>,
    ui: Ui)

  // ------------------------------------------- library string formats

  predicate IsAlpha(c: char) { 'a' <= c <= 'z' || 'A' <= c <= 'Z' }

  predicate IsSchemeChar(c: char) { IsAlpha(c) || '0' <= c <= '9' || c == '+' || c == '-' || c == '.' }

  /** A URL scheme: a letter followed by letters, digits, `+`, `-` or `.`. */
  predicate IsScheme(s: string) {
    |s| > 0 && IsAlpha(s[0]) && forall i :: 1 <= i < |s| ==> IsSchemeChar(s[i])
  }

  /**
   * Stand-in for WHATWG URL parsing (`new URL(s)`, which zod's `.url()` also
   * uses): a scheme, a colon and something after it.
   */
  predicate UrlParses(s: string) {
    exists k :: 0 < k < |s| - 1 && s[k] == ':' && IsScheme(s[..k])
  }

  /**
   * Stand-in for zod's `.email()` pattern: no white space, a non-empty local
   * part, an `@`, and a domain with a dot strictly inside it.
   */
  predicate IsEmailLike(s: string) {
    && (forall i :: 0 <= i < |s| ==> !IsWhitespace(s[i]))
    && exists at, dot :: 0 < at && at + 1 < dot < |s| - 1 && s[at] == '@' && s[dot] == '.'
  }

  // ---------------------------------------------------- the constraints

  /** `z.string().min(1)`. */
  predicate NonEmpty(s: string) { |s| >= 1 }

  predicate AllNonEmpty(xs: seq<string>) {
    forall i :: 0 <= i < |xs| ==> NonEmpty(xs[i])
  }

  predicate ValidBasics(b: Basics) {
    NonEmpty(b.name) && NonEmpty(b.title) && IsEmailLike(b.email) && NonEmpty(b.location) && NonEmpty(b.summary)
  }

  predicate ValidLinks(l: Links) {
    UrlParses(l.github) && UrlParses(l.linkedin) && UrlParses(l.website)
  }

  predicate ValidExperience(e: Experience) {
    NonEmpty(e.company) && NonEmpty(e.role) && NonEmpty(e.startDate) && NonEmpty(e.endDate) && AllNonEmpty(e.bullets)
  }

  predicate ValidProject(p: Project) {
    NonEmpty(p.name) && NonEmpty(p.description) && AllNonEmpty(p.stack) && UrlParses(p.repoUrl) && UrlParses(p.liveUrl)
  }

  predicate ValidEducation(e: Education) {
    NonEmpty(e.school) && NonEmpty(e.program) && NonEmpty(e.startDate) && NonEmpty(e.endDate)
  }

  predicate ValidUi(u: Ui) {
    NonEmpty(u.portfolio.theme) && NonEmpty(u.resume.theme)
  }

  /** The record satisfies `resumeSchema`. */
  predicate Valid(r: Resume) {
    && ValidBasics(r.basics)
    && ValidLinks(r.links)
    && AllNonEmpty(r.skills)
    && (forall i :: 0 <= i < |r.experience| ==> ValidExperience(r.experience[i]))
    && (forall i :: 0 <= i < |r.projects| ==> ValidProject(r.projects[i]))
    && (forall i :: 0 <= i < |r.education| ==> ValidEducation(r.education[i]))
    && ValidUi(r.ui)
  }

  // ------------------------------------------------------------ parsing

  /** A required key: `undefined` fails. */
  function Required<T>(v: Option<Json>, dec: Json -> Option<T>): Option<T> {
    if v.None? then None else dec(v.value)
  }

  /** `.optional()`: `undefined` succeeds with no value; anything else must parse. */
  function Optional<T>(v: Option<Json>, dec: Json -> Option<T>): Option<Option<T>> {
    if v.None? then Some(None)
    else match dec(v.value)
      case Some(x) => Some(Some(x))
      case None => None
  }

  function DecodeString(j: Json): (r: Option<string>)
    ensures r.Some? <==> j.JStr?
    ensures r.Some? ==> r.value == j.s
  {
    if j.JStr? then Some(j.s) else None
  }

  function DecodeNonEmpty(j: Json): (r: Option<string>)
    ensures r.Some? ==> j == JStr(r.value) && NonEmpty(r.value)
  {
    if j.JStr? && NonEmpty(j.s) then Some(j.s) else None
  }

  function DecodeEmail(j: Json): (r: Option<string>)
    ensures r.Some? ==> j == JStr(r.value) && IsEmailLike(r.value)
  {
    if j.JStr? && IsEmailLike(j.s) then Some(j.s) else None
  }

  function DecodeUrl(j: Json): (r: Option<string>)
    ensures r.Some? ==> j == JStr(r.value) && UrlParses(r.value)
  {
    if j.JStr? && UrlParses(j.s) then Some(j.s) else None
  }

  function DecodeBool(j: Json): Option<bool> {
    if j.JBool? then Some(j.b) else None
  }

  function DecodeEnum<T>(j: Json, parse: string -> Option<T>): Option<T> {
    if j.JStr? then parse(j.s) else None
  }

  /** `z.array(item)`: an array all of whose elements parse, in order. */
  function DecodeAll<T>(items: seq<Json>, dec: Json -> Option<T>): (r: Option<seq<T>>)
    ensures r.Some? <==> forall i :: 0 <= i < |items| ==> dec(items[i]).Some?
    ensures r.Some? ==> |r.value| == |items| && forall i :: 0 <= i < |items| ==> dec(items[i]) == Some(r.value[i])
  {
    if forall i :: 0 <= i < |items| ==> dec(items[i]).Some? then
      Some(seq(|items|, i requires 0 <= i < |items| && dec(items[i]).Some? => dec(items[i]).value))
    else None
  }

  function DecodeArray<T>(j: Json, dec: Json -> Option<T>): Option<seq<T>> {
    if j.JArr? then DecodeAll(j.items, dec) else None
  }

  function DecodeStrings(j: Json): (r: Option<seq<string>>)
    ensures r.Some? ==> AllNonEmpty(r.value)
  {
    DecodeArray(j, DecodeNonEmpty)
  }

  function DecodeBasics(j: Json): (r: Option<Basics>)
    ensures r.Some? ==> ValidBasics(r.value)
  {
    if !j.JObj? then None
    else
      var m := j.fields;
      var name :- Required(Field(m, "name"), DecodeNonEmpty);
      var title :- Required(Field(m, "title"), DecodeNonEmpty);
      var email :- Required(Field(m, "email"), DecodeEmail);
      var location :- Required(Field(m, "location"), DecodeNonEmpty);
      var summary :- Required(Field(m, "summary"), DecodeNonEmpty);
      Some(Basics(name, title, email, location, summary))
  }

  function DecodeLinks(j: Json): (r: Option<Links>)
    ensures r.Some? ==> ValidLinks(r.value)
  {
    if !j.JObj? then None
    else
      var m := j.fields;
      var github :- Required(Field(m, "github"), DecodeUrl);
      var linkedin :- Required(Field(m, "linkedin"), DecodeUrl);
      var website :- Required(Field(m, "website"), DecodeUrl);
      Some(Links(github, linkedin, website))
  }

  function DecodeExperience(j: Json): (r: Option<Experience>)
    ensures r.Some? ==> ValidExperience(r.value)
  {
    if !j.JObj? then None
    else
      var m := j.fields;
      var company :- Required(Field(m, "company"), DecodeNonEmpty);
      var role :- Required(Field(m, "role"), DecodeNonEmpty);
      var startDate :- Required(Field(m, "startDate"), DecodeNonEmpty);
      var endDate :- Required(Field(m, "endDate"), DecodeNonEmpty);
      var bullets :- Required(Field(m, "bullets"), DecodeStrings);
      Some(Experience(company, role, startDate, endDate, bullets))
  }

  function DecodeProject(j: Json): (r: Option<Project>)
    ensures r.Some? ==> ValidProject(r.value)
  {
    if !j.JObj? then None
    else
      var m := j.fields;
      var name :- Required(Field(m, "name"), DecodeNonEmpty);
      var description :- Required(Field(m, "description"), DecodeNonEmpty);
      var stack :- Required(Field(m, "stack"), DecodeStrings);
      var repoUrl :- Required(Field(m, "repoUrl"), DecodeUrl);
      var liveUrl :- Required(Field(m, "liveUrl"), DecodeUrl);
      Some(Project(name, description, stack, repoUrl, liveUrl))
  }

  function DecodeEducation(j: Json): (r: Option<Education>)
    ensures r.Some? ==> ValidEducation(r.value)
  {
    if !j.JObj? then None
    else
      var m := j.fields;
      var school :- Required(Field(m, "school"), DecodeNonEmpty);
      var program :- Required(Field(m, "program"), DecodeNonEmpty);
      var startDate :- Required(Field(m, "startDate"), DecodeNonEmpty);
      var endDate :- Required(Field(m, "endDate"), DecodeNonEmpty);
      Some(Education(school, program, startDate, endDate))
  }

  function DecodePortfolioOptions(j: Json): Option<PortfolioOptions> {
    if !j.JObj? then None
    else
      var m := j.fields;
      var showPhoto :- Optional(Field(m, "showPhoto"), DecodeBool);
      var layout :- Optional(Field(m, "layout"), j => DecodeEnum(j, ParseNavLayout));
      var accent :- Optional(Field(m, "accent"), DecodeString);
      Some(PortfolioOptions(showPhoto, layout, accent))
  }

  function DecodeResumeOptions(j: Json): Option<ResumeOptions> {
    if !j.JObj? then None
    else
      var m := j.fields;
      var density :- Optional(Field(m, "density"), j => DecodeEnum(j, ParseDensity));
      var showIcons :- Optional(Field(m, "showIcons"), DecodeBool);
      Some(ResumeOptions(density, showIcons))
  }

  function DecodePortfolioUi(j: Json): (r: Option<PortfolioUi>)
    ensures r.Some? ==> NonEmpty(r.value.theme)
  {
    if !j.JObj? then None
    else
      var m := j.fields;
      var theme :- Required(Field(m, "theme"), DecodeNonEmpty);
      var template :- Required(Field(m, "template"), j => DecodeEnum(j, ParsePortfolioTemplate));
      var options :- Optional(Field(m, "options"), DecodePortfolioOptions);
      Some(PortfolioUi(theme, template, options))
  }

  function DecodeResumeUi(j: Json): (r: Option<ResumeUi>)
    ensures r.Some? ==> NonEmpty(r.value.theme)
  {
    if !j.JObj? then None
    else
      var m := j.fields;
      var theme :- Required(Field(m, "theme"), DecodeNonEmpty);
      var template :- Required(Field(m, "template"), j => DecodeEnum(j, ParseResumeTemplate));
      var options :- Optional(Field(m, "options"), DecodeResumeOptions);
      Some(ResumeUi(theme, template, options))
  }

  function DecodeUi(j: Json): (r: Option<Ui>)
    ensures r.Some? ==> ValidUi(r.value)
  {
    if !j.JObj? then None
    else
      var m := j.fields;
      var portfolio :- Required(Field(m, "portfolio"), DecodePortfolioUi);
      var resume :- Required(Field(m, "resume"), DecodeResumeUi);
      Some(Ui(portfolio, resume))
  }

  /**
   * `resumeSchema.safeParse(raw)`: the typed record on success. Keys the schema
   * does not name are dropped, as zod's object schemas strip them.
   */
  function Validate(raw: Json): (r: Option<Resume>)
    ensures r.Some? ==> Valid(r.value)
    ensures r.Some? ==> raw.JObj? && Required(Field(raw.fields, "ui"), DecodeUi) == Some(r.value.ui)
  {
    if !raw.JObj? then None
    else
      var m := raw.fields;
      var basics :- Required(Field(m, "basics"), DecodeBasics);
      var links :- Required(Field(m, "links"), DecodeLinks);
      var skills :- Required(Field(m, "skills"), DecodeStrings);
      var experience :- Required(Field(m, "experience"), j => DecodeArray(j, DecodeExperience));
      var projects :- Required(Field(m, "projects"), j => DecodeArray(j, DecodeProject));
      var education :- Required(Field(m, "education"), j => DecodeArray(j, DecodeEducation));
      var ui :- Required(Field(m, "ui"), DecodeUi);
      Some(Resume(basics, links, skills, experience, projects, education, ui))
  }

  // ----------------------------------------------------------- encoding

  function EncodeAll<T>(xs: seq<T>, enc: T -> Json): (r: seq<Json>)
    ensures |r| == |xs| && forall i :: 0 <= i < |xs| ==> r[i] == enc(xs[i])
  {
    seq(|xs|, i requires 0 <= i < |xs| => enc(xs[i]))
  }

  function EncodeString(s: string): Json { JStr(s) }

  function EncodeStrings(xs: seq<string>): Json { JArr(EncodeAll(xs, EncodeString)) }

  function EncodeBasics(b: Basics): Json {
    JObj(map["name" := JStr(b.name), "title" := JStr(b.title), "email" := JStr(b.email),
             "location" := JStr(b.location), "summary" := JStr(b.summary)])
  }

  function EncodeLinks(l: Links): Json {
    JObj(map["github" := JStr(l.github), "linkedin" := JStr(l.linkedin), "website" := JStr(l.website)])
  }

  function EncodeExperience(e: Experience): Json {
    JObj(map["company" := JStr(e.company), "role" := JStr(e.role), "startDate" := JStr(e.startDate),
             "endDate" := JStr(e.endDate), "bullets" := EncodeStrings(e.bullets)])
  }

  function EncodeProject(p: Project): Json {
    JObj(map["name" := JStr(p.name), "description" := JStr(p.description), "stack" := EncodeStrings(p.stack),
             "repoUrl" := JStr(p.repoUrl), "liveUrl" := JStr(p.liveUrl)])
  }

  function EncodeEducation(e: Education): Json {
    JObj(map["school" := JStr(e.school), "program" := JStr(e.program), "startDate" := JStr(e.startDate),
             "endDate" := JStr(e.endDate)])
  }

  /** `JSON.stringify` leaves out keys whose value is `undefined`. */
  function WithOptional<T>(m: map<string, Json>, key: string, v: Option<T>, enc: T -> Json): map<string, Json> {
    if v.Some? then m[key := enc(v.value)] else m
  }

  function EncodePortfolioOptions(o: PortfolioOptions): Json {
    var m0: map<string, Json> := map[];
    var m1 := WithOptional(m0, "showPhoto", o.showPhoto, b => JBool(b));
    var m2 := WithOptional(m1, "layout", o.layout, l => JStr(NavLayoutName(l)));
    JObj(WithOptional(m2, "accent", o.accent, EncodeString))
  }

  function EncodeResumeOptions(o: ResumeOptions): Json {
    var m0: map<string, Json> := map[];
    var m1 := WithOptional(m0, "density", o.density, d => JStr(DensityName(d)));
    JObj(WithOptional(m1, "showIcons", o.showIcons, b => JBool(b)))
  }

  function EncodePortfolioUi(p: PortfolioUi): Json {
    var m := map["theme" := JStr(p.theme), "template" := JStr(PortfolioTemplateName(p.template))];
    JObj(WithOptional(m, "options", p.options, EncodePortfolioOptions))
  }

  function EncodeResumeUi(p: ResumeUi): Json {
    var m := map["theme" := JStr(p.theme), "template" := JStr(ResumeTemplateName(p.template))];
    JObj(WithOptional(m, "options", p.options, EncodeResumeOptions))
  }

  function EncodeUi(u: Ui): Json {
    JObj(map["portfolio" := EncodePortfolioUi(u.portfolio), "resume" := EncodeResumeUi(u.resume)])
  }

  function EncodeFields(r: Resume): map<string, Json> {
    map[
      "basics" := EncodeBasics(r.basics),
      "links" := EncodeLinks(r.links),
      "skills" := EncodeStrings(r.skills),
      "experience" := JArr(EncodeAll(r.experience, EncodeExperience)),
      "projects" := JArr(EncodeAll(r.projects, EncodeProject)),
      "education" := JArr(EncodeAll(r.education, EncodeEducation)),
      "ui" := EncodeUi(r.ui)
    ]
  }

  /** The JSON value of a typed record (`JSON.stringify` followed by `JSON.parse`). */
  function Encode(r: Resume): Json { JObj(EncodeFields(r)) }

  // --------------------------------------------------------- round trips

  /** Parsing an encoded array gives back the list exactly when every element is admitted. */
  lemma DecodeAllEncodeAll<T>(xs: seq<T>, enc: T -> Json, dec: Json -> Option<T>, ok: T -> bool)
    requires forall x :: dec(enc(x)) == if ok(x) then Some(x) else None
    ensures DecodeAll(EncodeAll(xs, enc), dec) == if forall i :: 0 <= i < |xs| ==> ok(xs[i]) then Some(xs) else None
  {
    var js := EncodeAll(xs, enc);
    if forall i :: 0 <= i < |xs| ==> ok(xs[i]) {
      assert forall i :: 0 <= i < |js| ==> dec(js[i]) == Some(xs[i]);
      assert DecodeAll(js, dec).value == xs;
    } else {
      var i :| 0 <= i < |xs| && !ok(xs[i]);
      assert dec(js[i]).None?;
    }
  }

  lemma StringsRoundTrip(xs: seq<string>)
    ensures DecodeStrings(EncodeStrings(xs)) == if AllNonEmpty(xs) then Some(xs) else None
  {
    forall x ensures DecodeNonEmpty(EncodeString(x)) == if NonEmpty(x) then Some(x) else None {}
    DecodeAllEncodeAll(xs, EncodeString, DecodeNonEmpty, NonEmpty);
  }

  lemma BasicsRoundTrip(b: Basics)
    ensures DecodeBasics(EncodeBasics(b)) == if ValidBasics(b) then Some(b) else None
  {
  }

  lemma LinksRoundTrip(l: Links)
    ensures DecodeLinks(EncodeLinks(l)) == if ValidLinks(l) then Some(l) else None
  {
  }

  lemma ExperienceRoundTrip(e: Experience)
    ensures DecodeExperience(EncodeExperience(e)) == if ValidExperience(e) then Some(e) else None
  {
    StringsRoundTrip(e.bullets);
  }

  lemma ProjectRoundTrip(p: Project)
    ensures DecodeProject(EncodeProject(p)) == if ValidProject(p) then Some(p) else None
  {
    StringsRoundTrip(p.stack);
  }

  lemma EducationRoundTrip(e: Education)
    ensures DecodeEducation(EncodeEducation(e)) == if ValidEducation(e) then Some(e) else None
  {
  }

  lemma PortfolioOptionsRoundTrip(o: PortfolioOptions)
    ensures DecodePortfolioOptions(EncodePortfolioOptions(o)) == Some(o)
  {
    EnumNamesRoundTrip(Sidebar, ClassicResume, Comfortable, if o.layout.Some? then o.layout.value else LeftNav);
  }

  lemma ResumeOptionsRoundTrip(o: ResumeOptions)
    ensures DecodeResumeOptions(EncodeResumeOptions(o)) == Some(o)
  {
    EnumNamesRoundTrip(Sidebar, ClassicResume, if o.density.Some? then o.density.value else Comfortable, LeftNav);
  }

  lemma PortfolioUiRoundTrip(p: PortfolioUi)
    ensures DecodePortfolioUi(EncodePortfolioUi(p)) == if NonEmpty(p.theme) then Some(p) else None
  {
    EnumNamesRoundTrip(p.template, ClassicResume, Comfortable, LeftNav);
    if p.options.Some? { PortfolioOptionsRoundTrip(p.options.value); }
  }

  lemma ResumeUiRoundTrip(p: ResumeUi)
    ensures DecodeResumeUi(EncodeResumeUi(p)) == if NonEmpty(p.theme) then Some(p) else None
  {
    EnumNamesRoundTrip(Sidebar, p.template, Comfortable, LeftNav);
    if p.options.Some? { ResumeOptionsRoundTrip(p.options.value); }
  }

  lemma UiRoundTrip(u: Ui)
    ensures DecodeUi(EncodeUi(u)) == if ValidUi(u) then Some(u) else None
  {
    PortfolioUiRoundTrip(u.portfolio);
    ResumeUiRoundTrip(u.resume);
  }

  lemma ExperienceListRoundTrip(xs: seq<Experience>)
    ensures DecodeArray(JArr(EncodeAll(xs, EncodeExperience)), DecodeExperience)
         == if forall i :: 0 <= i < |xs| ==> ValidExperience(xs[i]) then Some(xs) else None
  {
    forall e ensures DecodeExperience(EncodeExperience(e)) == if ValidExperience(e) then Some(e) else None {
      ExperienceRoundTrip(e);
    }
    DecodeAllEncodeAll(xs, EncodeExperience, DecodeExperience, ValidExperience);
  }

  lemma ProjectListRoundTrip(xs: seq<Project>)
    ensures DecodeArray(JArr(EncodeAll(xs, EncodeProject)), DecodeProject)
         == if forall i :: 0 <= i < |xs| ==> ValidProject(xs[i]) then Some(xs) else None
  {
    forall p ensures DecodeProject(EncodeProject(p)) == if ValidProject(p) then Some(p) else None {
      ProjectRoundTrip(p);
    }
    DecodeAllEncodeAll(xs, EncodeProject, DecodeProject, ValidProject);
  }

  lemma EducationListRoundTrip(xs: seq<Education>)
    ensures DecodeArray(JArr(EncodeAll(xs, EncodeEducation)), DecodeEducation)
         == if forall i :: 0 <= i < |xs| ==> ValidEducation(xs[i]) then Some(xs) else None
  {
    forall e ensures DecodeEducation(EncodeEducation(e)) == if ValidEducation(e) then Some(e) else None {
      EducationRoundTrip(e);
    }
    DecodeAllEncodeAll(xs, EncodeEducation, DecodeEducation, ValidEducation);
  }

  /**
   * Serialising a record and parsing it again gives the record back exactly
   * when it satisfies the schema, and fails otherwise.
   */
  lemma ValidateEncode(r: Resume)
    ensures Validate(Encode(r)) == if Valid(r) then Some(r) else None
  {
    var m := EncodeFields(r);
    assert Field(m, "basics") == Some(EncodeBasics(r.basics));
    assert Field(m, "links") == Some(EncodeLinks(r.links));
    assert Field(m, "skills") == Some(EncodeStrings(r.skills));
    assert Field(m, "experience") == Some(JArr(EncodeAll(r.experience, EncodeExperience)));
    assert Field(m, "projects") == Some(JArr(EncodeAll(r.projects, EncodeProject)));
    assert Field(m, "education") == Some(JArr(EncodeAll(r.education, EncodeEducation)));
    assert Field(m, "ui") == Some(EncodeUi(r.ui));
    BasicsRoundTrip(r.basics);
    LinksRoundTrip(r.links);
    StringsRoundTrip(r.skills);
    ExperienceListRoundTrip(r.experience);
    ProjectListRoundTrip(r.projects);
    EducationListRoundTrip(r.education);
    UiRoundTrip(r.ui);
  }

  // ------------------------------------------------------- the defaults

  const DefaultPortfolioUi := PortfolioUi("night", Sidebar, Some(PortfolioOptions(Some(false), Some(LeftNav), Some("sky"))))
  const DefaultResumeUi := ResumeUi("light", ClassicResume, Some(ResumeOptions(Some(Comfortable), Some(false))))

  const DefaultBasics := Basics(
    "Alex Rivera",
    "Product Designer & Front-End Developer",
    "alex.rivera@example.com",
    "Austin, TX",
    "Designs and ships clean, accessible interfaces for SaaS teams. Focused on design systems, rapid prototyping, and thoughtful UX writing.")

  const DefaultLinks := Links(Https("github.com/alexrivera"), Https("www.linkedin.com/in/alexrivera"), Https("alexrivera.design"))

  const DefaultSkills := ["Product design", "Design systems", "Figma", "Next.js", "TypeScript", "Accessibility"]

  const DefaultExperience := [
    Experience("Nimbus Labs", "Senior Product Designer", "2021", "Present",
      [ "Led a redesign of the billing flow, improving completion rate by 24%.",
        "Partnered with engineering to ship a reusable component library.",
        "Introduced content design guidelines across the product suite." ]),
    Experience("Studio Harbor", "UX Designer", "2018", "2021",
      [ "Designed responsive onboarding for a fintech app used by 50k customers.",
        "Facilitated user research and turned insights into product briefs." ]) ]

  const DefaultProject1 := Project("Resume Builder", "An open-source resume and portfolio generator.", ["Next.js", "DaisyUI", "Zod"],
    Https("github.com/alexrivera/resume-builder"), Https("resume-builder.example.com"))

  const DefaultProject2 := Project("Portfolio Kit", "A lightweight site template for designers and founders.", ["TypeScript", "Tailwind", "Vercel"],
    Https("github.com/alexrivera/portfolio-kit"), Https("portfolio-kit.example.com"))

  const DefaultEducation := [Education("University of Texas", "BFA, Interaction Design", "2014", "2018")]

  /** `defaultResume`: the sample record every new profile starts from. */
  const DefaultResume := Resume(DefaultBasics, DefaultLinks, DefaultSkills, DefaultExperience,
    [DefaultProject1, DefaultProject2], DefaultEducation, Ui(DefaultPortfolioUi, DefaultResumeUi))

  /** An `https://` address. */
  function Https(rest: string): string {
    "https://" + rest
  }

  /** Every `https://` address satisfies `UrlParses`. */
  lemma HttpsUrl(rest: string)
    ensures UrlParses(Https(rest))
  {
    var s := Https(rest);
    assert s[5] == ':' && s[..5] == "https";
    assert IsScheme(s[..5]);
  }

  lemma DefaultBasicsValid()
    ensures ValidBasics(DefaultBasics)
  {
    var e := DefaultBasics.email;
    assert forall i :: 0 <= i < |e| ==> '!' <= e[i] <= '~';
    VisibleHasNoWhitespace(e);
    assert e[11] == '@' && e[19] == '.';
  }

  /** Printable ASCII other than the space is not white space. */
  lemma VisibleHasNoWhitespace(s: string)
    requires forall i :: 0 <= i < |s| ==> '!' <= s[i] <= '~'
    ensures forall i :: 0 <= i < |s| ==> !IsWhitespace(s[i])
  {
  }

  lemma DefaultLinksValid()
    ensures ValidLinks(DefaultLinks)
  {
    HttpsUrl("github.com/alexrivera");
    HttpsUrl("www.linkedin.com/in/alexrivera");
    HttpsUrl("alexrivera.design");
  }

  lemma DefaultProject1Valid()
    ensures ValidProject(DefaultProject1)
  {
    HttpsUrl("github.com/alexrivera/resume-builder");
    HttpsUrl("resume-builder.example.com");
  }

  lemma DefaultProject2Valid()
    ensures ValidProject(DefaultProject2)
  {
    HttpsUrl("github.com/alexrivera/portfolio-kit");
    HttpsUrl("portfolio-kit.example.com");
  }

  lemma DefaultListsValid()
    ensures AllNonEmpty(DefaultSkills)
    ensures forall i :: 0 <= i < |DefaultExperience| ==> ValidExperience(DefaultExperience[i])
    ensures forall i :: 0 <= i < |DefaultEducation| ==> ValidEducation(DefaultEducation[i])
  {
  }

  /** The sample record satisfies the schema, so building it never throws. */
  lemma DefaultResumeValid()
    ensures Valid(DefaultResume)
  {
    DefaultBasicsValid();
    DefaultLinksValid();
    DefaultProject1Valid();
    DefaultProject2Valid();
    DefaultListsValid();
    ValidFromParts(DefaultBasics, DefaultLinks, DefaultSkills, DefaultExperience, DefaultProject1, DefaultProject2,
                   DefaultEducation, Ui(DefaultPortfolioUi, DefaultResumeUi));
  }

  lemma ValidFromParts(b: Basics, l: Links, skills: seq<string>, experience: seq<Experience>, p1: Project, p2: Project,
                       education: seq<Education>, u: Ui)
    requires ValidBasics(b) && ValidLinks(l) && AllNonEmpty(skills) && ValidProject(p1) && ValidProject(p2) && ValidUi(u)
    requires forall i :: 0 <= i < |experience| ==> ValidExperience(experience[i])
    requires forall i :: 0 <= i < |education| ==> ValidEducation(education[i])
    ensures Valid(Resume(b, l, skills, experience, [p1, p2], education, u))
  {
  }

  /** The stored form of the sample record parses back to it. */
  lemma DefaultResumeRoundTrip()
    ensures Validate(Encode(DefaultResume)) == Some(DefaultResume)
  {
    DefaultResumeValid();
    ValidateEncode(DefaultResume);
  }

  // ---------------------------------------------------------- migration

  /** `legacyUiSchema`: an object whose `theme` and `template`, when present, are strings. */
  datatype LegacyUi = LegacyUi(theme: Option<string>, template: Option<string>)

  function ParseLegacyUi(v: Option<Json>): (r: Option<LegacyUi>)
    ensures r.Some? <==> (v.Some? && v.value.JObj?
                          && (Field(v.value.fields, "theme").None? || Field(v.value.fields, "theme").value.JStr?)
                          && (Field(v.value.fields, "template").None? || Field(v.value.fields, "template").value.JStr?))
    ensures r.Some? ==> r.value.theme == (if Field(v.value.fields, "theme").None? then None
                                          else Some(Field(v.value.fields, "theme").value.s))
    ensures r.Some? ==> r.value.template == (if Field(v.value.fields, "template").None? then None
                                             else Some(Field(v.value.fields, "template").value.s))
  {
    if !(v.Some? && v.value.JObj?) then None
    else
      var m := v.value.fields;
      var theme :- Optional(Field(m, "theme"), DecodeString);
      var template :- Optional(Field(m, "template"), DecodeString);
      Some(LegacyUi(theme, template))
  }

  /** The legacy template when it names a portfolio template, else the default one. */
  function LegacyTemplate(legacy: Option<LegacyUi>): (t: PortfolioTemplate)
    ensures t != DefaultPortfolioUi.template ==> legacy.Some? && legacy.value.template == Some(PortfolioTemplateName(t))
    ensures forall p: PortfolioTemplate :: legacy.Some? && legacy.value.template == Some(PortfolioTemplateName(p)) ==> t == p
  {
    if legacy.Some? && legacy.value.template.Some? then
      ParsePortfolioTemplate(legacy.value.template.value).GetOr(DefaultPortfolioUi.template)
    else DefaultPortfolioUi.template
  }

  /** `legacyUi?.theme ?? defaultResume.ui.portfolio.theme`: an empty string is kept. */
  function LegacyTheme(legacy: Option<LegacyUi>): (theme: string)
    ensures legacy.Some? && legacy.value.theme.Some? ==> theme == legacy.value.theme.value
    ensures legacy.None? || legacy.value.theme.None? ==> theme == DefaultPortfolioUi.theme
  {
    if legacy.Some? && legacy.value.theme.Some? then legacy.value.theme.value else DefaultPortfolioUi.theme
  }

  /** The `ui` the fallback record carries: legacy theme and template, default options, default resume settings. */
  function MigratedUi(legacy: Option<LegacyUi>): Ui {
    Ui(PortfolioUi(LegacyTheme(legacy), LegacyTemplate(legacy), DefaultPortfolioUi.options), DefaultResumeUi)
  }

  /**
   * `typeof raw === "object" && raw !== null ? raw : {}`. An array passes that
   * test, but its index keys are never schema keys, so it spreads like `{}`.
   */
  function Base(raw: Json): map<string, Json> {
    if raw.JObj? then raw.fields else map[]
  }

  function LegacyOf(raw: Json): Option<LegacyUi> {
    ParseLegacyUi(Field(Base(raw), "ui"))
  }

  /** `{ ...defaultResume, ...base, ui: … }`. */
  function FallbackJson(raw: Json): Json {
    JObj((EncodeFields(DefaultResume) + Base(raw))["ui" := EncodeUi(MigratedUi(LegacyOf(raw)))])
  }

  /** The error `resumeSchema.parse` throws when the fallback record is rejected. */
  const MigrationRejected := "ZodError: migrated resume does not match the schema"

  /**
   * `migrateResumeData`: a record that already parses is returned as parsed;
   * otherwise the fallback record is parsed, and a failure there is an error.
   */
  function Migrate(raw: Json): (r: Result<Resume>)
    ensures Validate(raw).Some? ==> r == Ok(Validate(raw).value)
    ensures r.Ok? ==> Valid(r.value)
    ensures r.Failure? ==> Validate(raw).None? && Validate(FallbackJson(raw)).None?
    ensures Validate(raw).None? ==> (r.Ok? <==> Validate(FallbackJson(raw)).Some?)
    ensures Validate(raw).None? && r.Ok? ==> r.value == Validate(FallbackJson(raw)).value
  {
    match Validate(raw)
    case Some(parsed) => Ok(parsed)
    case None =>
      match Validate(FallbackJson(raw))
      case Some(migrated) => Ok(migrated)
      case None => Failure(MigrationRejected)
  }

  /** The parsed record's `ui` is the parse of the `ui` key; a `ui` the schema rejects fails the whole parse. */
  lemma ValidateUiKey(m: map<string, Json>, u: Ui)
    requires Field(m, "ui") == Some(EncodeUi(u))
    ensures Validate(JObj(m)).Some? ==> Validate(JObj(m)).value.ui == u
    ensures !ValidUi(u) ==> Validate(JObj(m)).None?
  {
    UiRoundTrip(u);
    if Validate(JObj(m)).Some? {
      assert DecodeUi(EncodeUi(u)) == Some(Validate(JObj(m)).value.ui);
    }
  }

  /** A record migrated from an older shape carries the legacy theme and template and the default options. */
  lemma MigrateLegacyUi(raw: Json)
    requires Validate(raw).None? && Migrate(raw).Ok?
    ensures Migrate(raw).value.ui == MigratedUi(LegacyOf(raw))
    ensures Migrate(raw).value.ui.resume == DefaultResume.ui.resume
  {
    var u := MigratedUi(LegacyOf(raw));
    ValidateUiKey((EncodeFields(DefaultResume) + Base(raw))["ui" := EncodeUi(u)], u);
  }

  /** The legacy theme `""` passes the legacy schema but not the current one, so migration fails. */
  lemma MigrateEmptyLegacyTheme(raw: Json)
    requires Validate(raw).None?
    requires LegacyOf(raw).Some? && LegacyOf(raw).value.theme == Some("")
    ensures Migrate(raw).Failure?
  {
    var u := MigratedUi(LegacyOf(raw));
    ValidateUiKey((EncodeFields(DefaultResume) + Base(raw))["ui" := EncodeUi(u)], u);
  }

  /** A concrete input that makes `migrateResumeData` throw. */
  lemma MigrateEmptyLegacyThemeExample()
    ensures Migrate(JObj(map["ui" := JObj(map["theme" := JStr("")])])).Failure?
  {
    var raw := JObj(map["ui" := JObj(map["theme" := JStr("")])]);
    assert Field(raw.fields, "basics").None?;
    assert LegacyOf(raw) == Some(LegacyUi(Some(""), None));
    MigrateEmptyLegacyTheme(raw);
  }

  /** Replacing `ui` by the encoding of the record's own `ui` leaves its stored form as it was. */
  lemma FallbackOfEmptyBase(r: Resume)
    ensures (EncodeFields(r) + map[])["ui" := EncodeUi(r.ui)] == EncodeFields(r)
  {
  }

  /** Anything that is not an object migrates to the sample record. */
  lemma MigrateNonObject(raw: Json)
    requires !raw.JObj?
    ensures Migrate(raw) == Ok(DefaultResume)
  {
    assert LegacyOf(raw) == None;
    assert MigratedUi(None) == DefaultResume.ui;
    FallbackOfEmptyBase(DefaultResume);
    assert FallbackJson(raw) == Encode(DefaultResume);
    DefaultResumeRoundTrip();
  }

  /** Migrating the stored form of a migrated record changes nothing. */
  lemma MigrateIdempotent(raw: Json)
    requires Migrate(raw).Ok?
    ensures Migrate(Encode(Migrate(raw).value)) == Migrate(raw)
  {
    ValidateEncode(Migrate(raw).value);
  }
}
