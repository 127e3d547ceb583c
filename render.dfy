/**
 * What the preview templates put on the page, with the markup abstracted
 * away: a header of text nodes and a list of titled sections, each holding
 * a placeholder sentence, one node block per entry, a paragraph or a row
 * of badges. Only the spacing classes that depend on density are kept.
 */
module Render {
  import opened Wrappers
  import opened Schema

  datatype Node =
    | Heading(text: string)   // an `h1`/`h2`/`h3`
    | Line(text: string)      // a `p` or `span` of text
    | Badge(text: string)     // a `badge` span
    | Bullet(text: string)    // an `li`

  datatype Block =
    | Placeholder(sentence: string)
    | Entries(entries: seq<seq<Node>>)
    | Paragraph(text: string)
    | Badges(labels: seq<string>)
    | Lines(nodes: seq<Node>)

  datatype Section = Section(title: string, body: Block)

  /**
   * The Tailwind spacing a layout chooses: the top margin of each section
   * (`mt-4`/`mt-6`) and the gaps between experience and project entries
   * (`space-y-N`).
   */
  datatype Spacing = Spacing(sectionTop: nat, experienceGap: nat, projectsGap: nat)

  datatype Page = Page(header: seq<Node>, sections: seq<Section>, spacing: Option<Spacing>)

  /** The section titles in page order. */
  function Titles(p: Page): (ts: seq<string>)
    ensures |ts| == |p.sections| && forall i :: 0 <= i < |ts| ==> ts[i] == p.sections[i].title
  {
    seq(|p.sections|, i requires 0 <= i < |p.sections| => p.sections[i].title)
  }

  /** `xs.map(x => <li>{x}</li>)`. */
  function Bullets(xs: seq<string>): (r: seq<Node>)
    ensures |r| == |xs| && forall i :: 0 <= i < |xs| ==> r[i] == Bullet(xs[i])
  {
    seq(|xs|, i requires 0 <= i < |xs| => Bullet(xs[i]))
  }

  /** `xs.map(x => <span className="badge">{x}</span>)`. */
  function BadgeNodes(xs: seq<string>): (r: seq<Node>)
    ensures |r| == |xs| && forall i :: 0 <= i < |xs| ==> r[i] == Badge(xs[i])
  {
    seq(|xs|, i requires 0 <= i < |xs| => Badge(xs[i]))
  }

  /** `{start} - {end}`. */
  function DateRange(start: string, end: string): (s: string)
    ensures |s| == |start| + 3 + |end|
    ensures s[..|start|] == start && s[|start|..|start| + 3] == " - " && s[|start| + 3..] == end
  {
    start + " - " + end
  }

  /**
   * One role written as plain lines, as the ATS and sidebar layouts do:
   * title, company and dates, then its bullets in order.
   */
  function LineRole(e: Experience): (ns: seq<Node>)
    ensures |ns| == 3 + |e.bullets|
    ensures ns[..3] == [Line(e.role), Line(e.company), Line(DateRange(e.startDate, e.endDate))]
    ensures forall i :: 0 <= i < |e.bullets| ==> ns[3 + i] == Bullet(e.bullets[i])
  {
    [Line(e.role), Line(e.company), Line(DateRange(e.startDate, e.endDate))] + Bullets(e.bullets)
  }

  /**
   * `b` is what `xs.length === 0 ? <placeholder> : xs.map(entry)` renders:
   * the placeholder exactly when the list is empty, and otherwise one block
   * per element, in stored order.
   */
  ghost predicate ListsEntries<T>(b: Block, xs: seq<T>, placeholder: string, entry: T -> seq<Node>) {
    && (b.Placeholder? <==> |xs| == 0)
    && (|xs| == 0 ==> b.sentence == placeholder)
    && (|xs| > 0 ==> b.Entries? && |b.entries| == |xs| && forall i :: 0 <= i < |xs| ==> b.entries[i] == entry(xs[i]))
  }

  function EntriesOr<T>(xs: seq<T>, placeholder: string, entry: T -> seq<Node>): (b: Block)
    ensures ListsEntries(b, xs, placeholder, entry)
  {
    if |xs| == 0 then Placeholder(placeholder)
    else Entries(seq(|xs|, i requires 0 <= i < |xs| => entry(xs[i])))
  }

  /** The badge row of a non-empty list, or its placeholder: one badge per element, in order. */
  function BadgesOr(xs: seq<string>, placeholder: string): (b: Block)
    ensures b.Placeholder? <==> |xs| == 0
    ensures |xs| == 0 ==> b.sentence == placeholder
    ensures |xs| > 0 ==> b.Badges? && b.labels == xs
  {
    if |xs| == 0 then Placeholder(placeholder) else Badges(xs)
  }
}
