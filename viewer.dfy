/**
 * The static viewer shipped next to an exported `resume.json`: HTML
 * escaping, the structural check it runs before rendering, the choice of
 * theme and layout, and the two string-building renderers.
 */
module Viewer {
  import opened Wrappers
  import opened Text
  import opened Json
  import opened Schema

  // ------------------------------------------------------------ escaping

  /** `s.replaceAll(c, rep)` for a one-character pattern. */
  function ReplaceAll(s: string, c: char, rep: string): (r: string)
    ensures c !in s ==> r == s
  {
    if |s| == 0 then "" else (if s[0] == c then rep else [s[0]]) + ReplaceAll(s[1..], c, rep)
  }

  lemma {:induction false} ReplaceAllConcat(a: string, b: string, c: char, rep: string)
    ensures ReplaceAll(a + b, c, rep) == ReplaceAll(a, c, rep) + ReplaceAll(b, c, rep)
  {
    if |a| > 0 {
      assert (a + b)[0] == a[0];
      assert (a + b)[1..] == a[1..] + b;
      ReplaceAllConcat(a[1..], b, c, rep);
    } else {
      assert a + b == b;
    }
  }

  /** `escapeHtml`: five `replaceAll` passes, `&` first. */
  function EscapeHtml(s: string): string {
    ReplaceAll(ReplaceAll(ReplaceAll(ReplaceAll(ReplaceAll(s, '&', "&amp;"), '<', "&lt;"), '>', "&gt;"), '"', "&quot;"), '\'', "&#39;")
  }

  /** The entity a single character becomes. */
  function EscapeChar(c: char): string {
    match c
    case '&' => "&amp;"
    case '<' => "&lt;"
    case '>' => "&gt;"
    case '"' => "&quot;"
    case '\'' => "&#39;"
    case _ => [c]
  }

  /** The reference escaper: each character mapped on its own. */
  function EscapeEach(s: string): string {
    if |s| == 0 then "" else EscapeChar(s[0]) + EscapeEach(s[1..])
  }

  lemma {:induction false} EscapeHtmlConcat(a: string, b: string)
    ensures EscapeHtml(a + b) == EscapeHtml(a) + EscapeHtml(b)
  {
    var a1, b1 := ReplaceAll(a, '&', "&amp;"), ReplaceAll(b, '&', "&amp;");
    ReplaceAllConcat(a, b, '&', "&amp;");
    var a2, b2 := ReplaceAll(a1, '<', "&lt;"), ReplaceAll(b1, '<', "&lt;");
    ReplaceAllConcat(a1, b1, '<', "&lt;");
    var a3, b3 := ReplaceAll(a2, '>', "&gt;"), ReplaceAll(b2, '>', "&gt;");
    ReplaceAllConcat(a2, b2, '>', "&gt;");
    var a4, b4 := ReplaceAll(a3, '"', "&quot;"), ReplaceAll(b3, '"', "&quot;");
    ReplaceAllConcat(a3, b3, '"', "&quot;");
    ReplaceAllConcat(a4, b4, '\'', "&#39;");
  }

  lemma ReplaceAllSingle(x: char, c: char, rep: string)
    ensures ReplaceAll([x], c, rep) == if x == c then rep else [x]
  {
    assert [x][1..] == [];
  }

  /** Escaping one character yields its entity; the entities of earlier passes hold none of the later characters. */
  lemma EscapeHtmlChar(c: char)
    ensures EscapeHtml([c]) == EscapeChar(c)
  {
    ReplaceAllSingle(c, '&', "&amp;");
    if c == '&' {
      assert '<' !in "&amp;" && '>' !in "&amp;" && '"' !in "&amp;" && '\'' !in "&amp;";
      return;
    }
    ReplaceAllSingle(c, '<', "&lt;");
    if c == '<' {
      assert '>' !in "&lt;" && '"' !in "&lt;" && '\'' !in "&lt;";
      return;
    }
    ReplaceAllSingle(c, '>', "&gt;");
    if c == '>' {
      assert '"' !in "&gt;" && '\'' !in "&gt;";
      return;
    }
    ReplaceAllSingle(c, '"', "&quot;");
    if c == '"' {
      assert '\'' !in "&quot;";
      return;
    }
    ReplaceAllSingle(c, '\'', "&#39;");
  }

  /**
   * Because `&` is replaced first, no entity produced by a later pass is
   * escaped again: the five passes together map each character on its own.
   */
  lemma {:induction false} EscapeHtmlIsPerCharacter(s: string)
    ensures EscapeHtml(s) == EscapeEach(s)
    decreases |s|
  {
    if |s| == 0 {
    } else {
      assert s == [s[0]] + s[1..];
      EscapeHtmlConcat([s[0]], s[1..]);
      EscapeHtmlChar(s[0]);
      EscapeHtmlIsPerCharacter(s[1..]);
    }
  }

  /** None of the characters that open a tag or end an attribute value. */
  predicate NoMarkupChars(t: string) {
    forall i :: 0 <= i < |t| ==> t[i] != '<' && t[i] != '>' && t[i] != '"' && t[i] != '\''
  }

  /** The five characters `escapeHtml` rewrites. */
  predicate IsSpecial(c: char) {
    c == '&' || c == '<' || c == '>' || c == '"' || c == '\''
  }

  lemma {:induction false} EscapeEachFacts(s: string)
    ensures NoMarkupChars(EscapeEach(s))
    ensures (forall i :: 0 <= i < |s| ==> !IsSpecial(s[i])) ==> EscapeEach(s) == s
    decreases |s|
  {
    if |s| > 0 {
      EscapeEachFacts(s[1..]);
      var head, tail := EscapeChar(s[0]), EscapeEach(s[1..]);
      assert NoMarkupChars(head);
      assert forall i :: |head| <= i < |head + tail| ==> (head + tail)[i] == tail[i - |head|];
    }
  }

  /** The output of `escapeHtml` contains no `<`, `>`, `"` or `'`. */
  lemma EscapedHasNoMarkupChars(s: string)
    ensures NoMarkupChars(EscapeHtml(s))
  {
    EscapeHtmlIsPerCharacter(s);
    EscapeEachFacts(s);
  }

  /** Text without any of the five special characters is left as it is. */
  lemma EscapeIdentity(s: string)
    requires forall i :: 0 <= i < |s| ==> !IsSpecial(s[i])
    ensures EscapeHtml(s) == s
  {
    EscapeHtmlIsPerCharacter(s);
    EscapeEachFacts(s);
  }

  /** Whether `t` starts with the five characters `c0`..`c4`. */
  predicate Starts5(t: string, c0: char, c1: char, c2: char, c3: char, c4: char) {
    |t| >= 5 && t[0] == c0 && t[1] == c1 && t[2] == c2 && t[3] == c3 && t[4] == c4
  }

  /** Decoding the five entities back to their characters. */
  function Unescape(t: string): string
    decreases |t|
  {
    if |t| == 0 then ""
    else if Starts5(t, '&', 'a', 'm', 'p', ';') then "&" + Unescape(t[5..])
    else if |t| >= 4 && t[0] == '&' && t[1] == 'l' && t[2] == 't' && t[3] == ';' then "<" + Unescape(t[4..])
    else if |t| >= 4 && t[0] == '&' && t[1] == 'g' && t[2] == 't' && t[3] == ';' then ">" + Unescape(t[4..])
    else if |t| >= 6 && Starts5(t, '&', 'q', 'u', 'o', 't') && t[5] == ';' then "\"" + Unescape(t[6..])
    else if Starts5(t, '&', '#', '3', '9', ';') then "'" + Unescape(t[5..])
    else [t[0]] + Unescape(t[1..])
  }

  lemma UnescapeStep(c: char, rest: string)
    ensures Unescape(EscapeChar(c) + rest) == [c] + Unescape(rest)
  {
    var e := EscapeChar(c);
    var t := e + rest;
    assert t[|e|..] == rest;
    assert forall i :: 0 <= i < |e| ==> t[i] == e[i];
  }

  /** Escaping loses nothing: decoding the entities gives the original text back. */
  lemma {:induction false} UnescapeEscape(s: string)
    ensures Unescape(EscapeHtml(s)) == s
    decreases |s|
  {
    EscapeHtmlIsPerCharacter(s);
    if |s| > 0 {
      UnescapeStep(s[0], EscapeEach(s[1..]));
      UnescapeEscape(s[1..]);
      EscapeHtmlIsPerCharacter(s[1..]);
    }
  }

  // ---------------------------------------------------------- validation

  /** `isNonEmptyString`: a string with something other than white space in it. */
  predicate IsNonEmptyString(v: Option<Json>) {
    v.Some? && v.value.JStr? && !IsBlank(v.value.s)
  }

  /** The predicate is the source's `typeof value === "string" && value.trim().length > 0`. */
  lemma IsNonEmptyStringTrims(v: Option<Json>)
    ensures IsNonEmptyString(v) <==> v.Some? && v.value.JStr? && |Trim(v.value.s)| > 0
  {
    if v.Some? && v.value.JStr? {
      TrimEmptyIffBlank(v.value.s);
    }
  }

  /** The nine ways `validateResume` can reject a document, in the order it checks them. */
  datatype Problem =
    | NotAnObject | MissingBasics | NameRequired | TitleRequired | MissingLinks
    | SkillsNotArray | ExperienceNotArray | ProjectsNotArray | EducationNotArray

  /** The message `validateResume` returns for each problem. */
  function Message(p: Problem): string {
    match p
    case NotAnObject => "resume.json is not a valid object."
    case MissingBasics => "Missing basics section."
    case NameRequired => "Name is required."
    case TitleRequired => "Title is required."
    case MissingLinks => "Missing links section."
    case SkillsNotArray => "Skills must be an array."
    case ExperienceNotArray => "Experience must be an array."
    case ProjectsNotArray => "Projects must be an array."
    case EducationNotArray => "Education must be an array."
  }

  /** `Array.isArray(v)`. */
  predicate IsArray(v: Option<Json>) { v.Some? && v.value.JArr? }

  /** The nine checks in the order the viewer runs them. */
  function Checks(resume: Json): (cs: seq<bool>)
    ensures |cs| == 9
  {
    var basics := Get(Some(resume), "basics");
    [ IsObjectLike(Some(resume)), IsObjectLike(basics),
      IsNonEmptyString(Get(basics, "name")), IsNonEmptyString(Get(basics, "title")),
      IsObjectLike(Get(Some(resume), "links")),
      IsArray(Get(Some(resume), "skills")), IsArray(Get(Some(resume), "experience")),
      IsArray(Get(Some(resume), "projects")), IsArray(Get(Some(resume), "education")) ]
  }

  /** The early returns of `validateResume`, one per check, in order. */
  function Reported(cs: seq<bool>): Option<Problem>
    requires |cs| == 9
  {
    if !cs[0] then Some(NotAnObject)
    else if !cs[1] then Some(MissingBasics)
    else if !cs[2] then Some(NameRequired)
    else if !cs[3] then Some(TitleRequired)
    else if !cs[4] then Some(MissingLinks)
    else if !cs[5] then Some(SkillsNotArray)
    else if !cs[6] then Some(ExperienceNotArray)
    else if !cs[7] then Some(ProjectsNotArray)
    else if !cs[8] then Some(EducationNotArray)
    else None
  }

  /** The problem `validateResume` reports first, if any. */
  function FirstProblem(resume: Json): Option<Problem> {
    Reported(Checks(resume))
  }

  /** `validateResume`: the message of the first failing check, or `null` (None) when all pass. */
  function ValidateResume(resume: Json): (r: Option<string>)
    ensures r.None? <==> FirstProblem(resume).None?
    ensures r.Some? ==> r.value == Message(FirstProblem(resume).value)
  {
    match FirstProblem(resume)
    case None => None
    case Some(p) => Some(Message(p))
  }

  /** The problem each check reports. */
  const Problems := [NotAnObject, MissingBasics, NameRequired, TitleRequired, MissingLinks,
                     SkillsNotArray, ExperienceNotArray, ProjectsNotArray, EducationNotArray]

  /** The message of the first false entry, or None when every entry holds. */
  function FirstFailure<T>(checks: seq<bool>, messages: seq<T>): Option<T>
    requires |checks| == |messages|
  {
    if |checks| == 0 then None
    else if !checks[0] then Some(messages[0])
    else FirstFailure(checks[1..], messages[1..])
  }

  /** `FirstFailure` reports nothing exactly when every check holds, and otherwise the message of the first check that fails. */
  lemma {:induction false} FirstFailureFindsFirst<T>(checks: seq<bool>, messages: seq<T>)
    requires |checks| == |messages|
    ensures FirstFailure(checks, messages).None? <==> forall i :: 0 <= i < |checks| ==> checks[i]
    ensures FirstFailure(checks, messages).Some? ==>
              exists k :: 0 <= k < |checks| && !checks[k] && FirstFailure(checks, messages).value == messages[k]
                          && forall j :: 0 <= j < k ==> checks[j]
  {
    if |checks| > 0 && checks[0] {
      var rest := FirstFailure(checks[1..], messages[1..]);
      FirstFailureFindsFirst(checks[1..], messages[1..]);
      assert forall i :: 1 <= i < |checks| ==> checks[i] == checks[1..][i - 1];
      if rest.Some? {
        var k :| 0 <= k < |checks| - 1 && !checks[1..][k] && rest.value == messages[1..][k]
                 && forall j :: 0 <= j < k ==> checks[1..][j];
        assert !checks[k + 1] && rest.value == messages[k + 1];
      }
    }
  }

  /** `validateResume` reports the first failing check in the fixed order, and `null` exactly when all pass. */
  lemma ValidateIsFirstFailure(resume: Json)
    ensures FirstProblem(resume) == FirstFailure(Checks(resume), Problems)
  {
    ReportedIsFirstFailure(Checks(resume));
  }

  /** The early returns are `FirstFailure` over the messages in order. */
  lemma ReportedIsFirstFailure(cs: seq<bool>)
    requires |cs| == 9
    ensures Reported(cs) == FirstFailure(cs, Problems)
  {
    var ms := Problems;
    assert ms[0] == NotAnObject && ms[1] == MissingBasics && ms[2] == NameRequired;
    assert ms[3] == TitleRequired && ms[4] == MissingLinks && ms[5] == SkillsNotArray;
    assert ms[6] == ExperienceNotArray && ms[7] == ProjectsNotArray && ms[8] == EducationNotArray;
    FirstFailureChain(cs, ms);
  }

  /** `FirstFailure` on nine checks, written out as the `if` chain it amounts to. */
  lemma FirstFailureChain<T>(cs: seq<bool>, ms: seq<T>)
    requires |cs| == |ms| == 9
    ensures FirstFailure(cs, ms) ==
      if !cs[0] then Some(ms[0]) else if !cs[1] then Some(ms[1])
      else if !cs[2] then Some(ms[2]) else if !cs[3] then Some(ms[3])
      else if !cs[4] then Some(ms[4]) else if !cs[5] then Some(ms[5])
      else if !cs[6] then Some(ms[6]) else if !cs[7] then Some(ms[7])
      else if !cs[8] then Some(ms[8]) else None
  {
    assert cs[9..] == [] && ms[9..] == [];
    FirstFailureStep(cs, ms, 8);
    FirstFailureStep(cs, ms, 7);
    FirstFailureStep(cs, ms, 6);
    FirstFailureStep(cs, ms, 5);
    FirstFailureStep(cs, ms, 4);
    FirstFailureStep(cs, ms, 3);
    FirstFailureStep(cs, ms, 2);
    FirstFailureStep(cs, ms, 1);
    FirstFailureStep(cs, ms, 0);
    assert cs[0..] == cs && ms[0..] == ms;
  }

  lemma FirstFailureStep<T>(cs: seq<bool>, ms: seq<T>, k: nat)
    requires k < |cs| == |ms|
    ensures FirstFailure(cs[k..], ms[k..]) == if !cs[k] then Some(ms[k]) else FirstFailure(cs[k + 1..], ms[k + 1..])
  {
    assert cs[k..][1..] == cs[k + 1..] && ms[k..][1..] == ms[k + 1..];
  }

  /** Every record the editor can export, with a non-blank name and title, passes the viewer's check. */
  lemma {:induction false} ExportedRecordsPass(r: Resume)
    requires !IsBlank(r.basics.name) && !IsBlank(r.basics.title)
    ensures ValidateResume(Encode(r)) == None
  {
    EncodedSections(r);
    var basics := Some(EncodeBasics(r.basics));
    assert Get(basics, "name") == Some(JStr(r.basics.name));
    assert Get(basics, "title") == Some(JStr(r.basics.title));
    assert IsNonEmptyString(Get(basics, "name")) && IsNonEmptyString(Get(basics, "title"));
    PassesAllChecks(Encode(r));
  }

  lemma PassesAllChecks(j: Json)
    requires IsObjectLike(Some(j)) && IsObjectLike(Get(Some(j), "basics")) && IsObjectLike(Get(Some(j), "links"))
    requires IsNonEmptyString(Get(Get(Some(j), "basics"), "name"))
    requires IsNonEmptyString(Get(Get(Some(j), "basics"), "title"))
    requires IsArray(Get(Some(j), "skills")) && IsArray(Get(Some(j), "experience"))
    requires IsArray(Get(Some(j), "projects")) && IsArray(Get(Some(j), "education"))
    ensures FirstProblem(j) == None
  {
    var cs := Checks(j);
    assert cs[0] && cs[1] && cs[2] && cs[3] && cs[4] && cs[5] && cs[6] && cs[7] && cs[8];
  }

  /** Where an encoded record keeps its sections. */
  lemma EncodedSections(r: Resume)
    ensures Get(Some(Encode(r)), "basics") == Some(EncodeBasics(r.basics))
    ensures Get(Some(Encode(r)), "links") == Some(EncodeLinks(r.links))
    ensures Get(Some(Encode(r)), "skills") == Some(EncodeStrings(r.skills))
    ensures Get(Some(Encode(r)), "experience") == Some(JArr(EncodeAll(r.experience, EncodeExperience)))
    ensures Get(Some(Encode(r)), "projects") == Some(JArr(EncodeAll(r.projects, EncodeProject)))
    ensures Get(Some(Encode(r)), "education") == Some(JArr(EncodeAll(r.education, EncodeEducation)))
    ensures Get(Some(Encode(r)), "ui") == Some(EncodeUi(r.ui))
  {
  }


  // ------------------------------------------------- theme and template

  /** `resume.ui?.theme || "corporate"`: the value handed to `setTheme`. */
  function ThemeChoice(resume: Json): (theme: Json)
    ensures Truthy(Some(theme))
    ensures Get(Get(Some(resume), "ui"), "theme") == Some(JStr("")) ==> theme == JStr("corporate")
    ensures Get(Get(Some(resume), "ui"), "theme").None? ==> theme == JStr("corporate")
    ensures forall s :: s != "" && Get(Get(Some(resume), "ui"), "theme") == Some(JStr(s)) ==> theme == JStr(s)
  {
    var theme := Get(Get(Some(resume), "ui"), "theme");
    if Truthy(theme) then theme.value else JStr("corporate")
  }

  datatype ViewerLayout = ClassicView | ModernView

  /** `render`'s choice: `resume.ui?.template || "classic"`, then modern only for exactly `"modern"`. */
  function TemplateChoice(resume: Json): (l: ViewerLayout)
    ensures l == ModernView <==> Get(Get(Some(resume), "ui"), "template") == Some(JStr("modern"))
  {
    var t := Get(Get(Some(resume), "ui"), "template");
    var template := if Truthy(t) then t.value else JStr("classic");
    if template == JStr("modern") then ModernView else ClassicView
  }

  /**
   * A record in the current shape keeps its themes and templates under
   * `ui.portfolio` and `ui.resume`, so the viewer shows it with the classic
   * layout and the `"corporate"` theme.
   */
  lemma {:induction false} ExportedRecordsUseFallbacks(r: Resume)
    ensures TemplateChoice(Encode(r)) == ClassicView
    ensures ThemeChoice(Encode(r)) == JStr("corporate")
  {
    var ui := EncodeUi(r.ui);
    assert Field(EncodeFields(r), "ui") == Some(ui);
    assert "template" !in ui.fields && "theme" !in ui.fields;
  }
}
