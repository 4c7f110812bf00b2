/**
 * The structural index of an act: its table of contents and the lookup of a
 * subcomponent such as `chapter/2`, computed over an abstract element tree.
 */
module Structure {
  import opened Wrappers
  import opened Strings

  /**
   * An element of the document tree: its tag (without namespace), its `id`
   * attribute, its string content and its children in document order.
   */
  datatype Element = Element(tag: string, id: Option<string>, text: string, children: seq<Element>)

  /** The structural kinds that appear in a table of contents. */
  datatype Kind = Coverpage | Preface | Preamble | Part | Chapter | Section | Conclusions | Doc

  function KindName(k: Kind): string {
    match k
    case Coverpage => "coverpage"
    case Preface => "preface"
    case Preamble => "preamble"
    case Part => "part"
    case Chapter => "chapter"
    case Section => "section"
    case Conclusions => "conclusions"
    case Doc => "doc"
  }

  /** The kind an element's tag gives it in the table of contents; `doc` is not one of them. */
  function KindOf(tag: string): (r: Option<Kind>)
    ensures r.Some? ==> r.value != Doc && KindName(r.value) == tag
  {
    if tag == "coverpage" then Some(Coverpage)
    else if tag == "preface" then Some(Preface)
    else if tag == "preamble" then Some(Preamble)
    else if tag == "part" then Some(Part)
    else if tag == "chapter" then Some(Chapter)
    else if tag == "section" then Some(Section)
    else if tag == "conclusions" then Some(Conclusions)
    else None
  }

  /** Chapters and parts: the kinds whose paths nest. */
  predicate IsContainer(k: Kind) {
    k == Chapter || k == Part
  }

  /** The blocks before and after the body: one entry each, named by their kind. */
  predicate IsFrontMatter(k: Kind) {
    k == Coverpage || k == Preface || k == Preamble || k == Conclusions
  }

  /** An element that yields a table-of-contents entry. */
  predicate IsInteresting(e: Element) {
    KindOf(e.tag).Some?
  }

  /** The string content of the first child tagged `tag`, if there is one. */
  function ChildText(children: seq<Element>, tag: string): (r: Option<string>)
    ensures r.None? <==> forall i :: 0 <= i < |children| ==> children[i].tag != tag
    ensures r.Some? ==>
      exists i :: (&& 0 <= i < |children| && children[i].tag == tag && children[i].text == r.value
                   && forall j :: 0 <= j < i ==> children[j].tag != tag)
  {
    if children == [] then None
    else if children[0].tag == tag then Some(children[0].text)
    else
      var r := ChildText(children[1..], tag);
      if r.Some? then
        var i :| (&& 0 <= i < |children[1..]| && children[1..][i].tag == tag && children[1..][i].text == r.value
                  && forall j :: 0 <= j < i ==> children[1..][j].tag != tag);
        assert children[i + 1].tag == tag && children[i + 1].text == r.value;
        assert forall j :: 0 <= j < i + 1 ==> children[j].tag != tag by {
          forall j | 0 <= j < i + 1 ensures children[j].tag != tag {
            if j > 0 { assert children[j] == children[1..][j - 1]; }
          }
        }
        r
      else
        assert forall i :: 0 <= i < |children| ==> children[i].tag != tag by {
          forall i | 0 <= i < |children| ensures children[i].tag != tag {
            if i > 0 { assert children[i] == children[1..][i - 1]; }
          }
        }
        r
  }

  function NumOf(e: Element): Option<string> {
    ChildText(e.children, "num")
  }

  function HeadingOf(e: Element): Option<string> {
    ChildText(e.children, "heading")
  }

  /** Python truthiness of an optional string: present and not empty. */
  predicate Present(o: Option<string>) {
    o.Some? && o.value != ""
  }

  /** A number as it appears in a path: every trailing `.` removed (`1.` becomes `1`). */
  function PathNum(num: string): string {
    StripTrailing(num, '.')
  }

  /** `kind` or `kind/num`: the step a chapter or part adds to its parent's path. */
  function Step(k: Kind, num: Option<string>): string {
    KindName(k) + (if Present(num) then "/" + PathNum(num.value) else "")
  }

  /** The path of a section: `section/num`, or `section` when it has no number. */
  function SectionPath(num: Option<string>): string {
    Step(Section, num)
  }

  /** The path locating an entry, given the path of the directly enclosing chapter or part, if any. */
  function SubcomponentPath(k: Kind, num: Option<string>, prefix: Option<string>): (r: string)
    requires k != Doc
    ensures k == Section ==> r == SectionPath(num)
    ensures IsContainer(k) && prefix.None? ==> r == Step(k, num)
    ensures IsContainer(k) && prefix.Some? ==> r == prefix.value + "/" + Step(k, num)
    ensures IsFrontMatter(k) ==> r == KindName(k)
  {
    match k
    case Section => SectionPath(num)
    case Chapter | Part => if prefix.Some? then prefix.value + "/" + Step(k, num) else Step(k, num)
    case _ => KindName(k)
  }

  /**
   * The title of an entry: chapters and parts read `Chapter 1. - Heading`,
   * sections `1. Heading` (or `Section 1` without a heading), the other
   * blocks their capitalised kind name.
   */
  function Title(k: Kind, num: Option<string>, heading: Option<string>): (r: string)
    requires k != Doc
    ensures IsContainer(k) ==> |r| >= |KindName(k)| && r[..|KindName(k)|] == Capitalize(KindName(k))
    ensures IsFrontMatter(k) ==> r == Capitalize(KindName(k))
    ensures k == Section && Present(heading) ==> |r| >= |heading.value| && r[|r| - |heading.value|..] == heading.value
    ensures k == Section && !Present(heading) && !Present(num) ==> r == "Section"
  {
    match k
    case Chapter | Part =>
      var word := Capitalize(KindName(k));
      var rest := (if Present(num) then " " + num.value else "") + (if Present(heading) then " - " + heading.value else "");
      assert (word + rest)[..|word|] == word;
      word + rest
    case Section =>
      if Present(heading) then
        var lead := if Present(num) then num.value + " " else "";
        assert (lead + heading.value)[|lead|..] == heading.value;
        lead + heading.value
      else "Section" + (if Present(num) then " " + num.value else "")
    case _ => Capitalize(KindName(k))
  }

  /** One entry of the table of contents, with the element it was built from. */
  datatype TocEntry = TocEntry(
    kind: Kind,
    id: Option<string>,
    num: Option<string>,
    heading: Option<string>,
    title: string,
    component: string,
    subcomponent: Option<string>,
    element: Element,
    children: seq<TocEntry>)

  /**
   * The entries for the elements `elems` of component `component`, in
   * document order; `prefix` is the path of the directly enclosing TOC
   * entry when that entry is a chapter or part, and none when it is a
   * section or front-matter block or there is none. Elements of other
   * kinds are looked through: their descendants are listed in their place.
   */
  function Toc(component: string, prefix: Option<string>, elems: seq<Element>): seq<TocEntry>
    decreases elems
  {
    if elems == [] then []
    else TocOf(component, prefix, elems[0]) + Toc(component, prefix, elems[1..])
  }

  function TocOf(component: string, prefix: Option<string>, e: Element): seq<TocEntry>
    decreases e
  {
    match KindOf(e.tag)
    case None => Toc(component, prefix, e.children)
    case Some(k) =>
      var num := NumOf(e);
      var heading := HeadingOf(e);
      var path := SubcomponentPath(k, num, prefix);
      var inner := if IsContainer(k) then Some(path) else None;
      [TocEntry(k, e.id, num, heading, Title(k, num, heading), component, Some(path), e,
                Toc(component, inner, e.children))]
  }

  /** A named sub-document such as a schedule, with the alias its identification gives it. */
  datatype Component = Component(name: string, alias: Option<string>, doc: Element)

  /** A component name made readable: `_` becomes a space, digits after a letter are set apart. */
  function Spaced(name: string): (r: string)
    ensures |r| >= |name|
  {
    if name == [] then []
    else
      var c := if name[0] == '_' then ' ' else name[0];
      if |name| >= 2 && IsLetter(name[0]) && IsDigit(name[1]) then [c, ' '] + Spaced(name[1..])
      else [c] + Spaced(name[1..])
  }

  /**
   * The default title of a component: the spaced name, title-cased, so
   * `schedule2` reads `Schedule 2` and `annex_b` reads `Annex B`.
   */
  function Humanise(name: string): (r: string)
    ensures |r| == |Spaced(name)|
    ensures forall i :: 0 <= i < |r| ==> Lower(r[i]) == Lower(Spaced(name)[i])
    ensures forall i :: 0 <= i < |r| && IsLetter(r[i]) ==> (IsUpper(r[i]) <==> StartsWord(r, i))
  {
    var s := Spaced(name);
    var r := TitleCase(s);
    assert forall i :: 0 <= i < |r| ==> (StartsWord(r, i) <==> StartsWord(s, i));
    r
  }

  /** The `doc` entry of a component: its alias or humanised name, then its own entries. */
  function DocEntry(c: Component): (r: TocEntry)
    ensures r.kind == Doc && r.component == c.name && r.subcomponent.None?
    ensures r.heading == Some(r.title)
    ensures c.alias.Some? ==> r.title == c.alias.value
    ensures c.alias.None? ==> r.title == Humanise(c.name)
    ensures r.element == c.doc && r.children == Toc(c.name, None, c.doc.children)
  {
    var title := c.alias.GetOr(Humanise(c.name));
    TocEntry(Doc, None, None, Some(title), title, c.name, None, c.doc, Toc(c.name, None, c.doc.children))
  }

  /** The component name of the primary document. */
  const MainComponent := "main"

  /** The whole table of contents: the main document's entries, then one `doc` entry per component. */
  function TableOfContents(main: seq<Element>, components: seq<Component>): (r: seq<TocEntry>)
    ensures |r| == |Toc(MainComponent, None, main)| + |components|
    ensures r[..|Toc(MainComponent, None, main)|] == Toc(MainComponent, None, main)
    ensures forall i :: 0 <= i < |components| ==> r[|Toc(MainComponent, None, main)| + i] == DocEntry(components[i])
  {
    var t := Toc(MainComponent, None, main);
    var d := seq(|components|, i requires 0 <= i < |components| => DocEntry(components[i]));
    assert (t + d)[..|t|] == t;
    assert forall i :: 0 <= i < |components| ==> (t + d)[|t| + i] == d[i];
    t + d
  }

  // ---------------------------------------------------------------------------
  // Lookup
  // ---------------------------------------------------------------------------

  /** True when `x` is the entry `component`/`path` names. */
  predicate Names(x: TocEntry, component: string, path: string) {
    x.component == component && x.subcomponent == Some(path)
  }

  /** Depth-first search of the entries for the first one named `component`/`path`. */
  function Search(entries: seq<TocEntry>, component: string, path: string): Option<Element>
    decreases entries
  {
    if entries == [] then None
    else if Names(entries[0], component, path) then Some(entries[0].element)
    else
      var inner := Search(entries[0].children, component, path);
      if inner.Some? then inner else Search(entries[1..], component, path)
  }

  /** `get_subcomponent`: the element of the first entry with that component and path, if any. */
  function GetSubcomponent(main: seq<Element>, components: seq<Component>, component: string, path: string): Option<Element> {
    Search(TableOfContents(main, components), component, path)
  }

  // ---------------------------------------------------------------------------
  // Reference definitions: the tree read as a list in document order
  // ---------------------------------------------------------------------------

  /** Every entry, each followed by its descendants, in document order. */
  function Flatten(entries: seq<TocEntry>): seq<TocEntry>
    decreases entries
  {
    if entries == [] then []
    else [entries[0]] + Flatten(entries[0].children) + Flatten(entries[1..])
  }

  /** Every interesting element among `elems` and their descendants, in document order. */
  function Interesting(elems: seq<Element>): seq<Element>
    decreases elems
  {
    if elems == [] then []
    else
      (if IsInteresting(elems[0]) then [elems[0]] else [])
      + Interesting(elems[0].children) + Interesting(elems[1..])
  }

  /** The elements the entries were built from. */
  function ElementsOf(entries: seq<TocEntry>): (r: seq<Element>)
    ensures |r| == |entries| && forall i :: 0 <= i < |entries| ==> r[i] == entries[i].element
  {
    seq(|entries|, i requires 0 <= i < |entries| => entries[i].element)
  }

  /** The element of the first entry of a list named `component`/`path`. */
  function FirstMatch(entries: seq<TocEntry>, component: string, path: string): (r: Option<Element>)
    ensures r.None? <==> forall i :: 0 <= i < |entries| ==> !Names(entries[i], component, path)
    ensures r.Some? ==>
      exists i :: (&& 0 <= i < |entries| && Names(entries[i], component, path)
                   && entries[i].element == r.value
                   && forall j :: 0 <= j < i ==> !Names(entries[j], component, path))
  {
    if entries == [] then None
    else if Names(entries[0], component, path) then Some(entries[0].element)
    else
      var r := FirstMatch(entries[1..], component, path);
      if r.Some? then
        var i :| 1 <= i + 1 <= |entries| && 0 <= i < |entries[1..]| && Names(entries[1..][i], component, path)
          && entries[1..][i].element == r.value
          && forall j :: 0 <= j < i ==> !Names(entries[1..][j], component, path);
        assert Names(entries[i + 1], component, path) && entries[i + 1].element == r.value;
        assert forall j :: 0 <= j < i + 1 ==> !Names(entries[j], component, path) by {
          forall j | 0 <= j < i + 1 ensures !Names(entries[j], component, path) {
            if j > 0 { assert entries[j] == entries[1..][j - 1]; }
          }
        }
        r
      else
        assert forall i :: 1 <= i < |entries| ==> entries[i] == entries[1..][i - 1];
        r
  }
}
