/**
 * The viewer's page: the template literals `renderClassic` and
 * `renderModern` fill from a validated record, and the document state that
 * `setTheme`, `render` and `loadResume` change.
 *
 * A template literal is kept as JavaScript sees it: its fixed strings and
 * the values interpolated between them. Every interpolated user value goes
 * through `escapeHtml`; the HTML of a nested `map(...).join("")` is spliced
 * in as it is.
 */
module ViewerPage {
  import opened Wrappers
  import opened Text
  import opened Json
  import opened Schema
  import opened Viewer

  // ------------------------------------------------- template literals

  /** The fixed strings of a template literal and the values interpolated between them. */
  datatype Literal = Literal(strings: seq<string>, values: seq<string>)

  /** A literal with one more fixed string than values, as every template literal has. */
  type Fragment = t: Literal | |t.strings| == |t.values| + 1 witness Literal([""], [])

  /** Fixed markup with nothing interpolated. */
  function Fixed(s: string): Fragment { Literal([s], []) }

  /** Splicing one fragment's string after another's: the values of both, in order. */
  function Cat(a: Fragment, b: Fragment): (c: Fragment)
    ensures c.values == a.values + b.values
    ensures |c.strings| == |a.strings| + |b.strings| - 1
  {
    Literal(a.strings[..|a.strings| - 1] + [a.strings[|a.strings| - 1] + b.strings[0]] + b.strings[1..],
            a.values + b.values)
  }

  /** A template literal evaluated with `escape` applied to every interpolated value. */
  function Interpolate(t: Fragment, escape: string -> string): string
    decreases |t.values|
  {
    if |t.values| == 0 then t.strings[0]
    else t.strings[0] + escape(t.values[0]) + Interpolate(Literal(t.strings[1..], t.values[1..]), escape)
  }

  /** The string a template literal evaluates to when every value goes through `escapeHtml`. */
  function Html(t: Fragment): string {
    Interpolate(t, EscapeHtml)
  }

  /** The fixed strings alone, concatenated. */
  function Markup(strings: seq<string>): string {
    if |strings| == 0 then "" else strings[0] + Markup(strings[1..])
  }

  lemma {:induction false} MarkupConcat(a: seq<string>, b: seq<string>)
    ensures Markup(a + b) == Markup(a) + Markup(b)
  {
    if |a| > 0 {
      assert (a + b)[0] == a[0];
      assert (a + b)[1..] == a[1..] + b;
      MarkupConcat(a[1..], b);
    } else {
      assert a + b == b;
    }
  }

  /** Splicing is string concatenation: nested `join("")` output lands between the outer literal's strings. */
  lemma {:induction false} InterpolateCat(a: Fragment, b: Fragment, escape: string -> string)
    ensures Interpolate(Cat(a, b), escape) == Interpolate(a, escape) + Interpolate(b, escape)
    decreases |a.values|
  {
    if |a.values| == 0 {
      InterpolateCatFixed(a.strings[0], b, escape);
    } else {
      var a' := Literal(a.strings[1..], a.values[1..]);
      var x, y := a.strings[0], escape(a.values[0]);
      assert Interpolate(Cat(a, b), escape) == x + y + Interpolate(Cat(a', b), escape) by { CatStep(a, b); }
      InterpolateCat(a', b, escape);
      assert x + y + (Interpolate(a', escape) + Interpolate(b, escape))
          == (x + y + Interpolate(a', escape)) + Interpolate(b, escape);
    }
  }

  lemma InterpolateCatFixed(s: string, b: Fragment, escape: string -> string)
    ensures Interpolate(Cat(Fixed(s), b), escape) == s + Interpolate(b, escape)
  {
    var c := Cat(Fixed(s), b);
    assert c.strings == [s + b.strings[0]] + b.strings[1..];
    if |b.values| > 0 {
      var rest := Literal(b.strings[1..], b.values[1..]);
      assert Literal(c.strings[1..], c.values[1..]) == rest;
    }
  }

  /** The same for the page's own escaping. */
  lemma HtmlCat(a: Fragment, b: Fragment)
    ensures Html(Cat(a, b)) == Html(a) + Html(b)
  {
    InterpolateCat(a, b, EscapeHtml);
  }

  /** Splicing after a fragment with a value: its first string and value come first, then the rest spliced. */
  lemma CatStep(a: Fragment, b: Fragment)
    requires |a.values| > 0
    ensures Cat(a, b).strings[0] == a.strings[0] && Cat(a, b).values[0] == a.values[0]
    ensures Literal(Cat(a, b).strings[1..], Cat(a, b).values[1..]) == Cat(Literal(a.strings[1..], a.values[1..]), b)
  {
    var n := |a.strings|;
    var a' := Literal(a.strings[1..], a.values[1..]);
    assert a.strings[..n - 1] == [a.strings[0]] + a.strings[1..n - 1];
    assert a'.strings[..n - 2] == a.strings[1..n - 1];
  }

  /** Splicing keeps the fixed markup of both fragments, in order. */
  lemma MarkupCat(a: Fragment, b: Fragment)
    ensures Markup(Cat(a, b).strings) == Markup(a.strings) + Markup(b.strings)
  {
    var n := |a.strings|;
    var head, last := a.strings[..n - 1], a.strings[n - 1];
    assert a.strings == head + [last];
    assert b.strings == [b.strings[0]] + b.strings[1..];
    MarkupConcat(head, [last]);
    MarkupConcat([b.strings[0]], b.strings[1..]);
    MarkupConcat(head, [last + b.strings[0]]);
    MarkupConcat(head + [last + b.strings[0]], b.strings[1..]);
  }

  // ------------------------------------------------------ no injection

  function Count(s: string, c: char): nat {
    if |s| == 0 then 0 else (if s[0] == c then 1 else 0) + Count(s[1..], c)
  }

  lemma {:induction false} CountConcat(a: string, b: string, c: char)
    ensures Count(a + b, c) == Count(a, c) + Count(b, c)
  {
    if |a| > 0 {
      assert (a + b)[0] == a[0];
      assert (a + b)[1..] == a[1..] + b;
      CountConcat(a[1..], b, c);
    } else {
      assert a + b == b;
    }
  }

  lemma {:induction false} CountAbsent(s: string, c: char)
    requires forall i :: 0 <= i < |s| ==> s[i] != c
    ensures Count(s, c) == 0
  {
    if |s| > 0 {
      CountAbsent(s[1..], c);
    }
  }

  /** The characters that open or close a tag or an attribute value. */
  predicate IsMarkupChar(c: char) {
    c == '<' || c == '>' || c == '"' || c == '\''
  }

  /**
   * Every `<`, `>`, `"` and `'` on the page was written by the template
   * itself: interpolated values contribute none, whatever they contain.
   */
  lemma {:induction false} NoInjection(t: Fragment, c: char)
    requires IsMarkupChar(c)
    ensures Count(Html(t), c) == Count(Markup(t.strings), c)
    decreases |t.values|
  {
    if |t.values| > 0 {
      var rest := Literal(t.strings[1..], t.values[1..]);
      var e := EscapeHtml(t.values[0]);
      assert Html(t) == t.strings[0] + e + Html(rest);
      EscapedHasNoMarkupChars(t.values[0]);
      CountAbsent(e, c);
      CountConcat(t.strings[0] + e, Html(rest), c);
      CountConcat(t.strings[0], e, c);
      NoInjection(rest, c);
      assert Markup(t.strings) == t.strings[0] + Markup(rest.strings);
      CountConcat(t.strings[0], Markup(rest.strings), c);
    } else {
      assert Markup(t.strings) == t.strings[0] + Markup([]);
      assert t.strings[0] + Markup([]) == t.strings[0];
    }
  }

  // ------------------------------------------------ JavaScript strings

  function Digit(d: nat): char
    requires d < 10
  {
    "0123456789"[d]
  }

  /** The decimal digits of a natural number. */
  function NatString(n: nat): (s: string)
    ensures |s| >= 1 && forall i :: 0 <= i < |s| ==> '0' <= s[i] <= '9'
    decreases n
  {
    if n < 10 then [Digit(n)] else NatString(n / 10) + [Digit(n % 10)]
  }

  /** `String(v)` for a value `JSON.parse` produces (numbers are integers in this model). */
  function ValueString(v: Json): (s: string)
    ensures v.JStr? ==> s == v.s
    ensures v.JNull? ==> s == "null"
    ensures v.JInt? && v.i >= 0 ==> s == NatString(v.i)
    decreases v
  {
    match v
    case JNull => "null"
    case JBool(b) => if b then "true" else "false"
    case JInt(i) => if i < 0 then "-" + NatString(-i) else NatString(i)
    case JStr(s) => s
    case JArr(items) =>
      // `Array.prototype.toString`: elements joined by commas, `null` as the empty string
      Join(seq(|items|, k requires 0 <= k < |items| => if items[k].JNull? then "" else ValueString(items[k])), ",")
    case JObj(_) => "[object Object]"
  }

  /** `String(v[key])` for a value that is not `null`: a missing property reads as `"undefined"`. */
  function Prop(v: Json, key: string): (s: string)
    ensures Get(Some(v), key).None? ==> s == "undefined"
    ensures Get(Some(v), key).Some? && Get(Some(v), key).value.JStr? ==> s == Get(Some(v), key).value.s
  {
    match Get(Some(v), key)
    case None => "undefined"
    case Some(x) => ValueString(x)
  }

  /** The elements of `v[key]` when it is an array, and none otherwise. */
  function Items(v: Json, key: string): (items: seq<Json>)
    ensures IsArray(Get(Some(v), key)) ==> items == Get(Some(v), key).value.items
    ensures !IsArray(Get(Some(v), key)) ==> items == []
  {
    var x := Get(Some(v), key);
    if IsArray(x) then x.value.items else []
  }

  /** `String` of each element, in order. */
  function ValueStrings(items: seq<Json>): (r: seq<string>)
    ensures |r| == |items| && forall k :: 0 <= k < |items| ==> r[k] == ValueString(items[k])
  {
    seq(|items|, k requires 0 <= k < |items| => ValueString(items[k]))
  }

  // -------------------------------------------------- map and join

  /** `items.map(f).join("")`; `f` answers None where the callback would throw. */
  function Each(items: seq<Json>, f: Json -> Option<Fragment>): (r: Option<Fragment>)
    ensures r.Some? <==> forall k :: 0 <= k < |items| ==> f(items[k]).Some?
    decreases |items|
  {
    if |items| == 0 then Some(Fixed(""))
    else
      var rest := Each(items[1..], f);
      assert rest.Some? <==> forall k :: 1 <= k < |items| ==> f(items[k]).Some? by {
        assert forall k :: 1 <= k < |items| ==> items[k] == items[1..][k - 1];
      }
      match f(items[0])
      case None => None
      case Some(head) =>
        match rest
        case None => None
        case Some(tail) => Some(Cat(head, tail))
  }

  /** `v.map(f).join("")`: calling `map` on anything but an array throws. */
  function MapJoin(v: Option<Json>, f: Json -> Option<Fragment>): (r: Option<Fragment>)
    ensures r.Some? <==> IsArray(v) && forall k :: 0 <= k < |v.value.items| ==> f(v.value.items[k]).Some?
  {
    if IsArray(v) then Each(v.value.items, f) else None
  }

  /** `g` applied to each element, concatenated in order. */
  function Flat<T>(xs: seq<T>, g: T -> seq<string>): seq<string>
    decreases |xs|
  {
    if |xs| == 0 then [] else g(xs[0]) + Flat(xs[1..], g)
  }

  /** The values `map(f).join("")` interpolates are those of each entry, in stored order. */
  lemma {:induction false} EachValues(items: seq<Json>, f: Json -> Option<Fragment>, g: Json -> seq<string>)
    requires forall x :: f(x).Some? ==> f(x).value.values == g(x)
    requires Each(items, f).Some?
    ensures Each(items, f).value.values == Flat(items, g)
    decreases |items|
  {
    if |items| > 0 {
      EachValues(items[1..], f, g);
    }
  }

  /** One value per element, for callbacks that interpolate the element itself. */
  lemma {:induction false} FlatSingle(items: seq<Json>)
    ensures Flat(items, Single) == ValueStrings(items)
    decreases |items|
  {
    if |items| > 0 {
      FlatSingle(items[1..]);
    }
  }

  function Single(x: Json): seq<string> { [ValueString(x)] }

  /** `Flat` over encoded elements is `Flat` over the elements themselves when the two views agree. */
  lemma {:induction false} FlatEncoded<T>(xs: seq<T>, enc: T -> Json, g: Json -> seq<string>, h: T -> seq<string>)
    requires forall x :: g(enc(x)) == h(x)
    ensures Flat(EncodeAll(xs, enc), g) == Flat(xs, h)
    decreases |xs|
  {
    if |xs| > 0 {
      assert EncodeAll(xs, enc)[1..] == EncodeAll(xs[1..], enc);
      FlatEncoded(xs[1..], enc, g, h);
    }
  }

  lemma {:induction false} ValueStringsEncoded(xs: seq<string>)
    ensures ValueStrings(EncodeAll(xs, EncodeString)) == xs
  {
  }

  /** Each element's `String` value, for callbacks that interpolate only the element. */
  lemma ItemValues(items: seq<Json>, f: Json -> Option<Fragment>)
    requires forall x :: f(x).Some? && f(x).value.values == [ValueString(x)]
    ensures Each(items, f).Some? && Each(items, f).value.values == ValueStrings(items)
  {
    EachValues(items, f, Single);
    FlatSingle(items);
  }

  /**
   * `items.map(f).join("")` for a callback that succeeds exactly on the
   * elements `ok` admits and then interpolates `g` of the element.
   */
  function MapEntries(items: seq<Json>, f: Json -> Option<Fragment>, ok: Json -> bool, g: Json -> seq<string>): (r: Option<Fragment>)
    requires forall x :: (f(x).Some? <==> ok(x)) && (f(x).Some? ==> f(x).value.values == g(x))
    ensures r.Some? <==> forall k :: 0 <= k < |items| ==> ok(items[k])
    ensures r.Some? ==> r.value.values == Flat(items, g)
  {
    var r := Each(items, f);
    if r.Some? then EachValues(items, f, g); r else r
  }

  predicate HasBullets(role: Json) { IsArray(Get(Some(role), "bullets")) }
  predicate HasStack(project: Json) { IsArray(Get(Some(project), "stack")) }
  predicate NotNull(item: Json) { !item.JNull? }
  predicate Anything(x: Json) { true }

  // ---------------------------------------------------------- markup

  // The fixed strings of the two layouts' template literals, with their
  // class attributes and white space left out.
  const RoleOpenClassic := "<div><div><div><h2>"
  const RoleOpenModern := "<div><div><div><h3>"
  const RoleTitleEndClassic := "</h2><p>"
  const RoleTitleEndModern := "</h3><p>"
  const RoleDatesOpen := "</p></div><span>"
  const DateSeparator := " - "
  const RoleBulletsOpen := "</span></div><ul>"
  const RoleClose := "</ul></div>"
  const ProjectOpenClassic := "<div><h3>"
  const ProjectOpenModern := "<div><div><h3>"
  const ProjectNameEnd := "</h3><p>"
  const ProjectStackOpen := "</p><div>"
  const ProjectCloseClassic := "</div></div>"
  const ProjectLinksOpen := "</div><div><span>"
  const ProjectLinkSeparator := "</span><span>"
  const ProjectCloseModern := "</span></div></div></div>"
  const EducationOpenClassic := "<div><div><div><h3>"
  const EducationSchoolEndClassic := "</h3><p>"
  const EducationDatesOpenClassic := "</p></div><span>"
  const EducationCloseClassic := "</span></div></div>"
  const EducationOpenModern := "<div><p>"
  const ParagraphBreak := "</p><p>"
  const EducationCloseModern := "</p></div>"
  const ClassicHeaderOpen := "<div><header><h1>"
  const NameEnd := "</h1><p>"
  const ClassicContactOpen := "</p><div><span>"
  const ClassicContactSeparator := "</span><span>•</span><span>"
  const ClassicSummaryOpen := "</span></div></header><section><p>Summary</p><p>"
  const ClassicExperienceOpen := "</p></section><section><p>Experience</p><div>"
  const ClassicProjectsOpen := "</div></section><section><p>Projects</p><div>"
  const ClassicSkillsOpen := "</div></section><section><p>Skills</p><div>"
  const ClassicEducationOpen := "</div></section><section><p>Education</p><div>"
  const ClassicClose := "</div></section></div>"
  const ModernAsideOpen := "<div><aside><div><h1>"
  const ModernContactOpen := "</p></div><div><div><p>Contact</p><div><p>"
  const ModernLinksOpen := "</p></div></div><div><p>Links</p><div><p>"
  const ModernSkillsOpen := "</p></div></div></div><div><p>Skills</p><div>"
  const ModernEducationOpen := "</div></div><div><p>Education</p><div>"
  const ModernAboutOpen := "</div></div></aside><section><div><div><p>About</p><p>"
  const ModernProjectsOpen := "</p></div></div><div><div><h2>Featured Projects</h2><span>Portfolio</span></div><div>"
  const ModernExperienceOpen := "</div></div><div><div><div><h2>Experience</h2><span>Resume</span></div><div>"
  const ModernClose := "</div></div></div></section></div>"

  // ------------------------------------------------------- renderers

  /** `<li>${escapeHtml(bullet)}</li>`. */
  function Bullet(b: Json): (r: Option<Fragment>)
    ensures r.Some? && r.value.values == [ValueString(b)]
  {
    Some(Literal(["<li>", "</li>"], [ValueString(b)]))
  }

  /** `<span class="badge ...">${escapeHtml(tech)}</span>`, for skills and stack entries. */
  function Badge(x: Json): (r: Option<Fragment>)
    ensures r.Some? && r.value.values == [ValueString(x)]
  {
    Some(Literal(["<span>", "</span>"], [ValueString(x)]))
  }

  /** What a role shows, in order: title, company, the two dates, then every bullet. */
  function RoleTexts(role: Json): seq<string> {
    [Prop(role, "role"), Prop(role, "company"), Prop(role, "startDate"), Prop(role, "endDate")]
      + ValueStrings(Items(role, "bullets"))
  }

  /** What an education entry shows: school, program and the two dates. */
  function EducationTexts(item: Json): seq<string> {
    [Prop(item, "school"), Prop(item, "program"), Prop(item, "startDate"), Prop(item, "endDate")]
  }

  /** What a classic project entry shows: name, description and the stack. */
  function ClassicProjectTexts(project: Json): seq<string> {
    [Prop(project, "name"), Prop(project, "description")] + ValueStrings(Items(project, "stack"))
  }

  /** What a modern project card shows: name, description, the stack, then both URLs. */
  function ModernProjectTexts(project: Json): seq<string> {
    [Prop(project, "name"), Prop(project, "description")] + ValueStrings(Items(project, "stack"))
      + [Prop(project, "repoUrl"), Prop(project, "liveUrl")]
  }

  /** One role of either layout: `role.bullets.map` throws unless the role is an object holding an array of bullets. */
  function RoleEntry(role: Json, open: string, titleEnd: string): (r: Option<Fragment>)
    ensures r.Some? <==> IsArray(Get(Some(role), "bullets"))
    ensures r.Some? ==> r.value.values == RoleTexts(role)
  {
    var bullets :- MapJoin(Get(Some(role), "bullets"), Bullet);
    ItemValues(Items(role, "bullets"), Bullet);
    var head := Literal([open, titleEnd, RoleDatesOpen, DateSeparator, RoleBulletsOpen],
                        [Prop(role, "role"), Prop(role, "company"), Prop(role, "startDate"), Prop(role, "endDate")]);
    Some(Cat(Cat(head, bullets), Fixed(RoleClose)))
  }

  function ClassicRole(role: Json): (r: Option<Fragment>)
    ensures r.Some? <==> IsArray(Get(Some(role), "bullets"))
    ensures r.Some? ==> r.value.values == RoleTexts(role)
  {
    RoleEntry(role, RoleOpenClassic, RoleTitleEndClassic)
  }

  function ModernRole(role: Json): (r: Option<Fragment>)
    ensures r.Some? <==> IsArray(Get(Some(role), "bullets"))
    ensures r.Some? ==> r.value.values == RoleTexts(role)
  {
    RoleEntry(role, RoleOpenModern, RoleTitleEndModern)
  }

  /** A classic project: `project.stack.map` throws unless the project is an object holding an array. */
  function ClassicProject(project: Json): (r: Option<Fragment>)
    ensures r.Some? <==> IsArray(Get(Some(project), "stack"))
    ensures r.Some? ==> r.value.values == ClassicProjectTexts(project)
  {
    var stack :- MapJoin(Get(Some(project), "stack"), Badge);
    ItemValues(Items(project, "stack"), Badge);
    var head := Literal([ProjectOpenClassic, ProjectNameEnd, ProjectStackOpen], [Prop(project, "name"), Prop(project, "description")]);
    Some(Cat(Cat(head, stack), Fixed(ProjectCloseClassic)))
  }

  /** A modern project card, which also shows both URLs. */
  function ModernProject(project: Json): (r: Option<Fragment>)
    ensures r.Some? <==> IsArray(Get(Some(project), "stack"))
    ensures r.Some? ==> r.value.values == ModernProjectTexts(project)
  {
    var stack :- MapJoin(Get(Some(project), "stack"), Badge);
    ItemValues(Items(project, "stack"), Badge);
    var head := Literal([ProjectOpenModern, ProjectNameEnd, ProjectStackOpen], [Prop(project, "name"), Prop(project, "description")]);
    var tail := Literal([ProjectLinksOpen, ProjectLinkSeparator, ProjectCloseModern],
                        [Prop(project, "repoUrl"), Prop(project, "liveUrl")]);
    Some(Cat(Cat(head, stack), tail))
  }

  /** An education entry: reading a property of `null` throws. */
  function EducationEntry(item: Json, strings: seq<string>): (r: Option<Fragment>)
    requires |strings| == 5
    ensures r.Some? <==> !item.JNull?
    ensures r.Some? ==> r.value.values == EducationTexts(item)
  {
    if item.JNull? then None
    else Some(Literal(strings, EducationTexts(item)))
  }

  function ClassicEducation(item: Json): (r: Option<Fragment>)
    ensures r.Some? <==> !item.JNull?
    ensures r.Some? ==> r.value.values == EducationTexts(item)
  {
    EducationEntry(item, [EducationOpenClassic, EducationSchoolEndClassic, EducationDatesOpenClassic, DateSeparator, EducationCloseClassic])
  }

  function ModernEducation(item: Json): (r: Option<Fragment>)
    ensures r.Some? <==> !item.JNull?
    ensures r.Some? ==> r.value.values == EducationTexts(item)
  {
    EducationEntry(item, [EducationOpenModern, ParagraphBreak, ParagraphBreak, DateSeparator, EducationCloseModern])
  }

  /** `resume[key]`, with a missing property read as `null`: reading a field of either throws. */
  function Member(resume: Json, key: string): Json {
    Get(Some(resume), key).GetOr(JNull)
  }

  /**
   * The sections the renderers read are there: `resume.basics.name` and
   * `resume.links.website` throw when the object is missing or `null`, and
   * `.map` throws on anything but an array.
   */
  predicate Readable(resume: Json) {
    && !Member(resume, "basics").JNull? && !Member(resume, "links").JNull?
    && IsArray(Get(Some(resume), "experience")) && IsArray(Get(Some(resume), "projects"))
    && IsArray(Get(Some(resume), "skills")) && IsArray(Get(Some(resume), "education"))
  }

  /** Every role and project holds an array, and no education entry is `null`. */
  predicate EntriesRenderable(resume: Json) {
    (forall k :: 0 <= k < |Items(resume, "experience")| ==> HasBullets(Items(resume, "experience")[k]))
    && (forall k :: 0 <= k < |Items(resume, "projects")| ==> HasStack(Items(resume, "projects")[k]))
    && (forall k :: 0 <= k < |Items(resume, "education")| ==> NotNull(Items(resume, "education")[k]))
  }

  /** Neither renderer throws: the sections are readable and every entry holds what its callback reads. */
  predicate Renderable(resume: Json) {
    Readable(resume) && EntriesRenderable(resume)
  }

  /** The classic header and summary: name, title, location, email, website, summary. */
  function ClassicHeaderTexts(resume: Json): seq<string> {
    var basics, links := Member(resume, "basics"), Member(resume, "links");
    [Prop(basics, "name"), Prop(basics, "title"), Prop(basics, "location"), Prop(basics, "email"),
     Prop(links, "website"), Prop(basics, "summary")]
  }

  /** Everything `renderClassic` shows, in page order. */
  function ClassicTexts(resume: Json): seq<string> {
    ClassicHeaderTexts(resume)
      + Flat(Items(resume, "experience"), RoleTexts)
      + Flat(Items(resume, "projects"), ClassicProjectTexts)
      + ValueStrings(Items(resume, "skills"))
      + Flat(Items(resume, "education"), EducationTexts)
  }

  /** The modern aside's header, contact and links: name, title, location, email, website, GitHub, LinkedIn. */
  function ModernHeaderTexts(resume: Json): seq<string> {
    var basics, links := Member(resume, "basics"), Member(resume, "links");
    [Prop(basics, "name"), Prop(basics, "title"), Prop(basics, "location"), Prop(basics, "email"),
     Prop(links, "website"), Prop(links, "github"), Prop(links, "linkedin")]
  }

  /** Everything `renderModern` shows, in page order. */
  function ModernTexts(resume: Json): seq<string> {
    ModernHeaderTexts(resume)
      + ValueStrings(Items(resume, "skills"))
      + Flat(Items(resume, "education"), EducationTexts)
      + [Prop(Member(resume, "basics"), "summary")]
      + Flat(Items(resume, "projects"), ModernProjectTexts)
      + Flat(Items(resume, "experience"), RoleTexts)
  }

  /** The classic header, with the Summary section and the opening of Experience. */
  function ClassicHead(resume: Json): (t: Fragment)
    ensures t.values == ClassicHeaderTexts(resume)
  {
    var basics, links := Member(resume, "basics"), Member(resume, "links");
    Literal(
      [ClassicHeaderOpen, NameEnd, ClassicContactOpen, ClassicContactSeparator, ClassicContactSeparator,
       ClassicSummaryOpen, ClassicExperienceOpen],
      [Prop(basics, "name"), Prop(basics, "title"), Prop(basics, "location"), Prop(basics, "email"),
       Prop(links, "website"), Prop(basics, "summary")])
  }

  /** The classic page around its four lists. */
  function ClassicPage(head: Fragment, experience: Fragment, projects: Fragment, skills: Fragment, education: Fragment): (t: Fragment)
    ensures t.values == head.values + experience.values + projects.values + skills.values + education.values
  {
    var page := Cat(head, experience);
    var page := Cat(Cat(page, Fixed(ClassicProjectsOpen)), projects);
    var page := Cat(Cat(page, Fixed(ClassicSkillsOpen)), skills);
    var page := Cat(Cat(page, Fixed(ClassicEducationOpen)), education);
    Cat(page, Fixed(ClassicClose))
  }

  /**
   * `renderClassic`: header, Summary, Experience, Projects, Skills and
   * Education, every value escaped and every list in stored order; it
   * throws (None) exactly when `basics` or `links` is missing or `null`, a
   * section is not an array, or an entry lacks the array it maps over or is
   * `null`.
   */
  function RenderClassic(resume: Json): (r: Option<Fragment>)
    ensures r.Some? <==> Renderable(resume)
    ensures r.Some? ==> r.value.values == ClassicTexts(resume)
  {
    if Readable(resume) then ClassicMarkup(resume) else None
  }

  /** The classic template literal over readable sections: it fails only on an entry its callback cannot read. */
  function ClassicMarkup(resume: Json): (r: Option<Fragment>)
    ensures r.Some? <==> EntriesRenderable(resume)
    ensures r.Some? ==> r.value.values == ClassicTexts(resume)
  {
    var experience := MapEntries(Items(resume, "experience"), ClassicRole, HasBullets, RoleTexts);
    var projects := MapEntries(Items(resume, "projects"), ClassicProject, HasStack, ClassicProjectTexts);
    var skills := MapEntries(Items(resume, "skills"), Badge, Anything, Single);
    var education := MapEntries(Items(resume, "education"), ClassicEducation, NotNull, EducationTexts);
    if experience.None? || projects.None? || education.None? then None
    else
    FlatSingle(Items(resume, "skills"));
    Some(ClassicPage(ClassicHead(resume), experience.value, projects.value, skills.value, education.value))
  }

  /** The modern aside up to its skills. */
  function ModernHead(resume: Json): (t: Fragment)
    ensures t.values == ModernHeaderTexts(resume)
  {
    var basics, links := Member(resume, "basics"), Member(resume, "links");
    Literal(
      [ModernAsideOpen, NameEnd, ParagraphBreak, ModernContactOpen, ParagraphBreak,
       ModernLinksOpen, ParagraphBreak, ModernSkillsOpen],
      [Prop(basics, "name"), Prop(basics, "title"), Prop(basics, "location"), Prop(basics, "email"),
       Prop(links, "website"), Prop(links, "github"), Prop(links, "linkedin")])
  }

  /** The end of the aside, About, and the opening of Featured Projects. */
  function ModernAbout(resume: Json): (t: Fragment)
    ensures t.values == [Prop(Member(resume, "basics"), "summary")]
  {
    Literal(
      [ModernAboutOpen, ModernProjectsOpen],
      [Prop(Member(resume, "basics"), "summary")])
  }

  /** The modern page around its lists. */
  function ModernPage(head: Fragment, skills: Fragment, education: Fragment, about: Fragment, projects: Fragment, experience: Fragment): (t: Fragment)
    ensures t.values == head.values + skills.values + education.values + about.values + projects.values + experience.values
  {
    var page := Cat(head, skills);
    var page := Cat(Cat(page, Fixed(ModernEducationOpen)), education);
    var page := Cat(Cat(page, about), projects);
    var page := Cat(Cat(page, Fixed(ModernExperienceOpen)), experience);
    Cat(page, Fixed(ModernClose))
  }

  /**
   * `renderModern`: an aside with name, contact, links, skills and
   * education, then About, Featured Projects (with both URLs) and
   * Experience; it throws on exactly the records `renderClassic` throws on.
   */
  function RenderModern(resume: Json): (r: Option<Fragment>)
    ensures r.Some? <==> Renderable(resume)
    ensures r.Some? ==> r.value.values == ModernTexts(resume)
  {
    if Readable(resume) then ModernMarkup(resume) else None
  }

  /** The modern template literal over readable sections: it fails only on an entry its callback cannot read. */
  function ModernMarkup(resume: Json): (r: Option<Fragment>)
    ensures r.Some? <==> EntriesRenderable(resume)
    ensures r.Some? ==> r.value.values == ModernTexts(resume)
  {
    var skills := MapEntries(Items(resume, "skills"), Badge, Anything, Single);
    var education := MapEntries(Items(resume, "education"), ModernEducation, NotNull, EducationTexts);
    var projects := MapEntries(Items(resume, "projects"), ModernProject, HasStack, ModernProjectTexts);
    var experience := MapEntries(Items(resume, "experience"), ModernRole, HasBullets, RoleTexts);
    if education.None? || projects.None? || experience.None? then None
    else
    FlatSingle(Items(resume, "skills"));
    Some(ModernPage(ModernHead(resume), skills.value, education.value, ModernAbout(resume), projects.value, experience.value))
  }

  /** `render`: the modern layout for `ui.template === "modern"`, the classic one otherwise. */
  function PageFor(resume: Json): (r: Option<Fragment>)
    ensures r.Some? <==> Renderable(resume)
    ensures r.Some? && TemplateChoice(resume) == ModernView ==> r.value.values == ModernTexts(resume)
    ensures r.Some? && TemplateChoice(resume) == ClassicView ==> r.value.values == ClassicTexts(resume)
  {
    if TemplateChoice(resume) == ModernView then RenderModern(resume) else RenderClassic(resume)
  }

  // ---------------------------------------------------------- loading

  const AlertOpen := "<div><span>"
  const AlertClose := "</span></div>"

  /** The load-failure alert: its sentence is part of the template, not an interpolated value. */
  const LoadFailedMarkup := "<div><span>Unable to load resume.json. Upload the JSON file next to index.html.</span></div>"

  /** `<div class="alert alert-error"><span>${escapeHtml(errorMessage)}</span></div>`. */
  function ErrorAlert(message: string): (t: Fragment)
    ensures t.values == [message]
  {
    Literal([AlertOpen, AlertClose], [message])
  }

  /** Whether `loadResume` gets as far as `setTheme` and `render`. */
  predicate Accepted(fetched: Option<Json>) {
    fetched.Some? && ValidateResume(fetched.value).None?
  }

  /**
   * What `loadResume` leaves in `#app`, given what the fetch and the JSON
   * parse produced (None when either fails or the response is not ok): the
   * load-failure alert, the validation message, or the rendered page; a
   * renderer that throws lands in the same `catch` as a failed fetch.
   */
  function Loaded(fetched: Option<Json>): (t: Fragment)
    ensures fetched.None? ==> t == Fixed(LoadFailedMarkup)
    ensures fetched.Some? && ValidateResume(fetched.value).Some? ==> t == ErrorAlert(ValidateResume(fetched.value).value)
    ensures Accepted(fetched) && !Renderable(fetched.value) ==> t == Fixed(LoadFailedMarkup)
    ensures Accepted(fetched) && Renderable(fetched.value) && TemplateChoice(fetched.value) == ModernView ==>
              t.values == ModernTexts(fetched.value)
    ensures Accepted(fetched) && Renderable(fetched.value) && TemplateChoice(fetched.value) == ClassicView ==>
              t.values == ClassicTexts(fetched.value)
  {
    if fetched.None? then Fixed(LoadFailedMarkup)
    else
      match ValidateResume(fetched.value)
      case Some(message) => ErrorAlert(message)
      case None => PageFor(fetched.value).GetOr(Fixed(LoadFailedMarkup))
  }

  /** The part of the document the viewer writes: `#app`'s HTML and the root element's `data-theme`. */
  class Document {
    var appHtml: string
    var dataTheme: Option<string>

    constructor()
      ensures appHtml == "" && dataTheme == None
    {
      appHtml := "";
      dataTheme := None;
    }

    /** `setTheme`: a falsy theme leaves the attribute as it was. */
    method SetTheme(theme: Json)
      modifies this
      ensures dataTheme == (if Truthy(Some(theme)) then Some(ValueString(theme)) else old(dataTheme))
      ensures appHtml == old(appHtml)
    {
      if Truthy(Some(theme)) {
        dataTheme := Some(ValueString(theme));
      }
    }

    /** `render`: the chosen layout replaces the app's contents, unless building it throws first. */
    method Render(resume: Json) returns (thrown: bool)
      modifies this
      ensures thrown <==> !Renderable(resume)
      ensures appHtml == if thrown then old(appHtml) else Html(PageFor(resume).value)
      ensures dataTheme == old(dataTheme)
    {
      var page := PageFor(resume);
      if page.None? {
        thrown := true;
      } else {
        thrown := false;
        appHtml := Html(page.value);
      }
    }

    /** `loadResume`, with the outcome of `fetch` and `response.json()` as its parameter. */
    method LoadResume(fetched: Option<Json>)
      modifies this
      ensures appHtml == Html(Loaded(fetched))
      ensures dataTheme == if Accepted(fetched) then Some(ValueString(ThemeChoice(fetched.value))) else old(dataTheme)
    {
      if fetched.None? {
        appHtml := Html(Fixed(LoadFailedMarkup));
        return;
      }
      var resume := fetched.value;
      var message := ValidateResume(resume);
      if message.Some? {
        appHtml := Html(ErrorAlert(message.value));
        return;
      }
      SetTheme(ThemeChoice(resume));
      var thrown := Render(resume);
      if thrown {
        appHtml := Html(Fixed(LoadFailedMarkup));
      }
    }
  }

  // ------------------------------------------------- exported records

  /** What the classic layout shows of a typed record, in page order. */
  function ExperienceTexts(e: Experience): seq<string> {
    [e.role, e.company, e.startDate, e.endDate] + e.bullets
  }

  function ProjectTexts(p: Project): seq<string> {
    [p.name, p.description] + p.stack
  }

  function EducationRecordTexts(e: Education): seq<string> {
    [e.school, e.program, e.startDate, e.endDate]
  }

  /** What a modern project card shows of a typed project: the classic texts, then both URLs. */
  function ModernProjectRecordTexts(p: Project): seq<string> {
    ProjectTexts(p) + [p.repoUrl, p.liveUrl]
  }

  /** What the modern layout shows of a typed record, in page order. */
  function ModernRecordTexts(r: Resume): seq<string> {
    [r.basics.name, r.basics.title, r.basics.location, r.basics.email, r.links.website, r.links.github, r.links.linkedin]
      + r.skills + Flat(r.education, EducationRecordTexts) + [r.basics.summary]
      + Flat(r.projects, ModernProjectRecordTexts) + Flat(r.experience, ExperienceTexts)
  }

  function RecordTexts(r: Resume): seq<string> {
    [r.basics.name, r.basics.title, r.basics.location, r.basics.email, r.links.website, r.basics.summary]
      + Flat(r.experience, ExperienceTexts) + Flat(r.projects, ProjectTexts) + r.skills
      + Flat(r.education, EducationRecordTexts)
  }

  lemma EncodedRole(e: Experience)
    ensures HasBullets(EncodeExperience(e))
    ensures RoleTexts(EncodeExperience(e)) == ExperienceTexts(e)
  {
    var j := EncodeExperience(e);
    assert Items(j, "bullets") == EncodeAll(e.bullets, EncodeString);
    ValueStringsEncoded(e.bullets);
  }

  lemma EncodedProject(p: Project)
    ensures HasStack(EncodeProject(p))
    ensures ClassicProjectTexts(EncodeProject(p)) == ProjectTexts(p)
    ensures ModernProjectTexts(EncodeProject(p)) == ModernProjectRecordTexts(p)
  {
    var j := EncodeProject(p);
    assert Items(j, "stack") == EncodeAll(p.stack, EncodeString);
    ValueStringsEncoded(p.stack);
  }

  lemma EncodedEducation(e: Education)
    ensures NotNull(EncodeEducation(e))
    ensures EducationTexts(EncodeEducation(e)) == EducationRecordTexts(e)
  {
  }

  /** Where an exported record's sections and header fields land in its JSON. */
  lemma EncodedLists(r: Resume)
    ensures Items(Encode(r), "experience") == EncodeAll(r.experience, EncodeExperience)
    ensures Items(Encode(r), "projects") == EncodeAll(r.projects, EncodeProject)
    ensures Items(Encode(r), "education") == EncodeAll(r.education, EncodeEducation)
    ensures Items(Encode(r), "skills") == EncodeAll(r.skills, EncodeString)
    ensures ClassicHeaderTexts(Encode(r)) == [r.basics.name, r.basics.title, r.basics.location, r.basics.email,
                                             r.links.website, r.basics.summary]
  {
    EncodedSections(r);
  }

  /** Where an exported record's modern header fields land in its JSON. */
  lemma EncodedModernHeader(r: Resume)
    ensures ModernHeaderTexts(Encode(r)) == [r.basics.name, r.basics.title, r.basics.location, r.basics.email,
                                            r.links.website, r.links.github, r.links.linkedin]
    ensures Prop(Member(Encode(r), "basics"), "summary") == r.basics.summary
  {
    EncodedSections(r);
  }

  /** The modern texts of any JSON whose sections are those of `r`, encoded. */
  lemma {:induction false} ModernTextsOfEncodedSections(j: Json, r: Resume)
    requires Items(j, "experience") == EncodeAll(r.experience, EncodeExperience)
    requires Items(j, "projects") == EncodeAll(r.projects, EncodeProject)
    requires Items(j, "education") == EncodeAll(r.education, EncodeEducation)
    requires Items(j, "skills") == EncodeAll(r.skills, EncodeString)
    requires ModernHeaderTexts(j) == [r.basics.name, r.basics.title, r.basics.location, r.basics.email,
                                     r.links.website, r.links.github, r.links.linkedin]
    requires Prop(Member(j, "basics"), "summary") == r.basics.summary
    ensures ModernTexts(j) == ModernRecordTexts(r)
  {
    forall e: Experience ensures RoleTexts(EncodeExperience(e)) == ExperienceTexts(e) {
      EncodedRole(e);
    }
    forall p: Project ensures ModernProjectTexts(EncodeProject(p)) == ModernProjectRecordTexts(p) {
      EncodedProject(p);
    }
    forall e: Education ensures EducationTexts(EncodeEducation(e)) == EducationRecordTexts(e) {
      EncodedEducation(e);
    }
    FlatEncoded(r.experience, EncodeExperience, RoleTexts, ExperienceTexts);
    FlatEncoded(r.projects, EncodeProject, ModernProjectTexts, ModernProjectRecordTexts);
    FlatEncoded(r.education, EncodeEducation, EducationTexts, EducationRecordTexts);
    ValueStringsEncoded(r.skills);
  }

  /** The classic texts of any JSON whose sections are those of `r`, encoded. */
  lemma {:induction false} TextsOfEncodedSections(j: Json, r: Resume)
    requires Items(j, "experience") == EncodeAll(r.experience, EncodeExperience)
    requires Items(j, "projects") == EncodeAll(r.projects, EncodeProject)
    requires Items(j, "education") == EncodeAll(r.education, EncodeEducation)
    requires Items(j, "skills") == EncodeAll(r.skills, EncodeString)
    requires ClassicHeaderTexts(j) == [r.basics.name, r.basics.title, r.basics.location, r.basics.email,
                                      r.links.website, r.basics.summary]
    ensures EntriesRenderable(j)
    ensures ClassicTexts(j) == RecordTexts(r)
  {
    forall e: Experience
      ensures HasBullets(EncodeExperience(e)) && RoleTexts(EncodeExperience(e)) == ExperienceTexts(e)
    {
      EncodedRole(e);
    }
    forall p: Project
      ensures HasStack(EncodeProject(p)) && ClassicProjectTexts(EncodeProject(p)) == ProjectTexts(p)
    {
      EncodedProject(p);
    }
    forall e: Education
      ensures NotNull(EncodeEducation(e)) && EducationTexts(EncodeEducation(e)) == EducationRecordTexts(e)
    {
      EncodedEducation(e);
    }
    FlatEncoded(r.experience, EncodeExperience, RoleTexts, ExperienceTexts);
    FlatEncoded(r.projects, EncodeProject, ClassicProjectTexts, ProjectTexts);
    FlatEncoded(r.education, EncodeEducation, EducationTexts, EducationRecordTexts);
    ValueStringsEncoded(r.skills);
  }

  /**
   * A record the editor exports renders without throwing, and each layout
   * shows every field it lists, each list in stored order.
   */
  lemma ExportedRecordRenders(r: Resume)
    ensures Renderable(Encode(r))
    ensures ClassicTexts(Encode(r)) == RecordTexts(r)
    ensures ModernTexts(Encode(r)) == ModernRecordTexts(r)
  {
    EncodedSections(r);
    EncodedLists(r);
    TextsOfEncodedSections(Encode(r), r);
    EncodedModernHeader(r);
    ModernTextsOfEncodedSections(Encode(r), r);
  }

  /**
   * Loading an exported record with a name and a title shows the classic
   * page with all of its fields and sets the `"corporate"` theme.
   */
  lemma ExportedRecordLoads(r: Resume)
    requires !IsBlank(r.basics.name) && !IsBlank(r.basics.title)
    ensures Accepted(Some(Encode(r)))
    ensures RenderClassic(Encode(r)).Some?
    ensures Loaded(Some(Encode(r))) == RenderClassic(Encode(r)).value
    ensures Loaded(Some(Encode(r))).values == RecordTexts(r)
    ensures ThemeChoice(Encode(r)) == JStr("corporate")
  {
    ExportedRecordsPass(r);
    ExportedRecordsUseFallbacks(r);
    ExportedRecordRenders(r);
  }
}
