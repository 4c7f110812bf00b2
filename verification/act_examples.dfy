/**
 * The worked examples of the act tests: the identification block after
 * assigning a URI, the tables of contents of three documents, subcomponent
 * lookups, and the lifecycle ledger after assigning amendments and a repeal.
 */
module ActExamples {
  import opened Wrappers
  import opened Strings
  import opened FrbrUris
  import opened FrbrUriProofs
  import opened FrbrUriExamples
  import opened Structure
  import opened StructureProofs
  import opened Lifecycle
  import opened LifecycleProofs
  import opened Acts

  /** An element with text and no attributes or children, such as `<num>1.</num>`. */
  function Leaf(tag: string, text: string): Element {
    Element(tag, None, text, [])
  }

  /** `<content><p>text</p></content>`. */
  function Content(text: string): Element {
    Element("content", None, "", [Leaf("p", text)])
  }

  lemma ContentToc(component: string, prefix: Option<string>, text: string)
    ensures Toc(component, prefix, [Content(text)]) == []
  {
    assert Toc(component, prefix, [Leaf("p", text)]) == [];
  }

  /** Numbered and headed: the entries below a `num` and a `heading` are those of the rest. */
  lemma NumHeadingToc(component: string, prefix: Option<string>, num: string, heading: string, rest: seq<Element>)
    ensures Toc(component, prefix, [Leaf("num", num), Leaf("heading", heading)] + rest) == Toc(component, prefix, rest)
  {
    var elems := [Leaf("num", num), Leaf("heading", heading)] + rest;
    assert elems[1..][1..] == rest;
    assert TocOf(component, prefix, Leaf("num", num)) == [];
    assert TocOf(component, prefix, Leaf("heading", heading)) == [];
  }

  lemma NumHeadingFields(num: string, heading: string, rest: seq<Element>)
    ensures ChildText([Leaf("num", num), Leaf("heading", heading)] + rest, "num") == Some(num)
    ensures ChildText([Leaf("num", num), Leaf("heading", heading)] + rest, "heading") == Some(heading)
  {
    var elems := [Leaf("num", num), Leaf("heading", heading)] + rest;
    assert elems[1..][0] == Leaf("heading", heading);
  }

  /** The entries of a list: those of its head, then those of the rest. */
  lemma TocCons(component: string, prefix: Option<string>, e: Element, rest: seq<Element>,
                head: seq<TocEntry>, tail: seq<TocEntry>)
    requires TocOf(component, prefix, e) == head && Toc(component, prefix, rest) == tail
    ensures Toc(component, prefix, [e] + rest) == head + tail
  {
    assert ([e] + rest)[0] == e && ([e] + rest)[1..] == rest;
  }

  /** The entries of a two-element list. */
  lemma TocPair(component: string, prefix: Option<string>, a: Element, b: Element, ea: seq<TocEntry>, eb: seq<TocEntry>)
    requires TocOf(component, prefix, a) == ea && TocOf(component, prefix, b) == eb
    ensures Toc(component, prefix, [a, b]) == ea + eb
  {
    TocCons(component, prefix, b, [], eb, []);
    assert [b] + [] == [b];
    TocCons(component, prefix, a, [b], ea, eb);
    assert [a] + [b] == [a, b];
    assert ea + (eb + []) == ea + eb;
  }

  /** Without components, the table of contents is that of the main document. */
  lemma MainOnlyToc(main: seq<Element>, entries: seq<TocEntry>)
    requires Toc(MainComponent, None, main) == entries
    ensures Structure.TableOfContents(main, []) == entries
  {
  }

  /** A `body` element is transparent: its entries are those of its children. */
  lemma BodyElementToc(children: seq<Element>, entries: seq<TocEntry>)
    requires Toc(MainComponent, None, children) == entries
    ensures Toc(MainComponent, None, [Element("body", None, "", children)]) == entries
  {
    var body := Element("body", None, "", children);
    assert KindOf(body.tag).None?;
    TocCons(MainComponent, None, body, [], entries, []);
    assert [body] + [] == [body];
  }

  /** The path of a numbered chapter or part. */
  lemma ContainerPath(k: Kind, num: string, prefix: Option<string>, path: string)
    requires IsContainer(k) && num != ""
    requires prefix.None? ==> path == KindName(k) + "/" + PathNum(num)
    requires prefix.Some? ==> path == prefix.value + "/" + KindName(k) + "/" + PathNum(num)
    ensures SubcomponentPath(k, Some(num), prefix) == path
  {
    var step := Step(k, Some(num));
    assert step == KindName(k) + ("/" + PathNum(num));
    AppendAssoc(KindName(k), "/", PathNum(num));
    if prefix.Some? {
      AppendAssoc(prefix.value + "/", KindName(k) + "/", PathNum(num));
      AppendAssoc(prefix.value + "/", KindName(k), "/");
    }
  }

  /** The title of a numbered, headed chapter or part. */
  lemma ContainerTitle(k: Kind, num: string, heading: string, title: string)
    requires IsContainer(k) && num != "" && heading != ""
    requires title == Capitalize(KindName(k)) + " " + num + " - " + heading
    ensures Title(k, Some(num), Some(heading)) == title
  {
    var word := Capitalize(KindName(k));
    assert Title(k, Some(num), Some(heading)) == word + (" " + num) + (" - " + heading);
    AppendAssoc(word, " ", num);
  }

  lemma PartWord()
    ensures Capitalize(KindName(Part)) == "Part"
  {
    assert Upper('p') == 'P';
    assert Capitalize("part") == ['P'] + "art";
  }

  lemma ChapterWord()
    ensures Capitalize(KindName(Chapter)) == "Chapter"
  {
    assert Upper('c') == 'C';
    assert Capitalize("chapter") == ['C'] + "hapter";
  }

  // ---------------------------------------------------------------------------
  // test_act.py:84-128: a section, then a chapter holding a part holding a section
  // ---------------------------------------------------------------------------

  const Section1: Element := Element("section", Some("section-1"), "", [Leaf("num", "1."), Leaf("heading", "Foo"), Content("hello")])
  const Section2: Element := Element("section", Some("section-2"), "", [Leaf("num", "2."), Leaf("heading", "Other"), Content("hi")])
  const PartA: Element := Element("part", Some("part-A"), "", [Leaf("num", "A"), Leaf("heading", "The Part"), Section2])
  const Chapter1: Element := Element("chapter", Some("chapter-1"), "", [Leaf("num", "1."), Leaf("heading", "The Chapter"), PartA])
  const TocBody: seq<Element> := [Element("body", None, "", [Section1, Chapter1])]

  const Section1Entry: TocEntry := TocEntry(Section, Some("section-1"), Some("1."), Some("Foo"), "1. Foo", "main", Some("section/1"), Section1, [])
  const Section2Entry: TocEntry := TocEntry(Section, Some("section-2"), Some("2."), Some("Other"), "2. Other", "main", Some("section/2"), Section2, [])
  const PartAEntry: TocEntry := TocEntry(Part, Some("part-A"), Some("A"), Some("The Part"), "Part A - The Part", "main", Some("chapter/1/part/A"), PartA, [Section2Entry])
  const Chapter1Entry: TocEntry := TocEntry(Chapter, Some("chapter-1"), Some("1."), Some("The Chapter"), "Chapter 1. - The Chapter", "main", Some("chapter/1"), Chapter1, [PartAEntry])

  /** The entry of an element of kind `k` whose first children are its `num` and `heading`. */
  function NumberedEntry(component: string, prefix: Option<string>, k: Kind, e: Element, num: string, heading: string,
                         children: seq<TocEntry>): TocEntry
    requires k != Doc
  {
    TocEntry(k, e.id, Some(num), Some(heading), Title(k, Some(num), Some(heading)), component,
             Some(SubcomponentPath(k, Some(num), prefix)), e, children)
  }

  lemma NumberedToc(component: string, prefix: Option<string>, k: Kind, e: Element, num: string, heading: string, rest: seq<Element>)
    requires KindOf(e.tag) == Some(k)
    requires e.children == [Leaf("num", num), Leaf("heading", heading)] + rest
    ensures var inner := if IsContainer(k) then Some(SubcomponentPath(k, Some(num), prefix)) else None;
      TocOf(component, prefix, e) == [NumberedEntry(component, prefix, k, e, num, heading, Toc(component, inner, rest))]
  {
    NumHeadingFields(num, heading, rest);
    var inner := if IsContainer(k) then Some(SubcomponentPath(k, Some(num), prefix)) else None;
    NumHeadingToc(component, inner, num, heading, rest);
  }

  /** A number written with a trailing dot appears without it in a path. */
  lemma PathNumDot(d: string)
    requires d != [] && d[|d| - 1] != '.'
    ensures PathNum(d + ".") == d
  {
    assert (d + ".")[..|d|] == d;
  }

  lemma SectionText(prefix: Option<string>, num: string, heading: string, path: string, title: string)
    requires num != [] && num[|num| - 1] != '.'
    requires heading != [] && path == "section/" + num && title == num + ". " + heading
    ensures SubcomponentPath(Section, Some(num + "."), prefix) == path
    ensures Title(Section, Some(num + "."), Some(heading)) == title
  {
    PathNumDot(num);
  }

  lemma Section1EntryText(prefix: Option<string>)
    ensures NumberedEntry("main", prefix, Section, Section1, "1.", "Foo", []) == Section1Entry
  {
    SectionText(prefix, "1", "Foo", "section/1", "1. Foo");
    assert "1" + "." == "1.";
  }

  lemma Section2EntryText(prefix: Option<string>)
    ensures NumberedEntry("main", prefix, Section, Section2, "2.", "Other", []) == Section2Entry
  {
    SectionText(prefix, "2", "Other", "section/2", "2. Other");
    assert "2" + "." == "2.";
  }

  lemma Section1Toc(prefix: Option<string>)
    ensures TocOf("main", prefix, Section1) == [Section1Entry]
  {
    NumberedToc("main", prefix, Section, Section1, "1.", "Foo", [Content("hello")]);
    ContentToc("main", None, "hello");
    Section1EntryText(prefix);
  }

  lemma Section2Toc(prefix: Option<string>)
    ensures TocOf("main", prefix, Section2) == [Section2Entry]
  {
    NumberedToc("main", prefix, Section, Section2, "2.", "Other", [Content("hi")]);
    ContentToc("main", None, "hi");
    Section2EntryText(prefix);
  }

  lemma PartAPath()
    ensures SubcomponentPath(Part, Some("A"), Some("chapter/1")) == "chapter/1/part/A"
    ensures Title(Part, Some("A"), Some("The Part")) == "Part A - The Part"
  {
    assert PathNum("A") == "A";
    PartWord();
    assert "chapter/1" + "/" == "chapter/1/";
    assert "chapter/1/" + "part" == "chapter/1/part";
    assert "chapter/1/part" + "/" == "chapter/1/part/";
    assert "chapter/1/part/" + "A" == "chapter/1/part/A";
    assert "Part" + " " + "A" == "Part A";
    assert "Part A" + " - " + "The Part" == "Part A - The Part";
    ContainerPath(Part, "A", Some("chapter/1"), "chapter/1/part/A");
    ContainerTitle(Part, "A", "The Part", "Part A - The Part");
  }

  lemma PartAToc()
    ensures TocOf("main", Some("chapter/1"), PartA) == [PartAEntry]
  {
    NumberedToc("main", Some("chapter/1"), Part, PartA, "A", "The Part", [Section2]);
    PartAPath();
    Section2Toc(Some("chapter/1/part/A"));
    assert Toc("main", Some("chapter/1/part/A"), [Section2]) == [Section2Entry];
  }

  lemma Chapter1Path()
    ensures SubcomponentPath(Chapter, Some("1."), None) == "chapter/1"
    ensures Title(Chapter, Some("1."), Some("The Chapter")) == "Chapter 1. - The Chapter"
  {
    PathNumDot("1");
    assert "1" + "." == "1.";
    ChapterWord();
    assert "chapter" + "/" + "1" == "chapter/1";
    assert "Chapter" + " " + "1." == "Chapter 1.";
    assert "Chapter 1." + " - " + "The Chapter" == "Chapter 1. - The Chapter";
    ContainerPath(Chapter, "1.", None, "chapter/1");
    ContainerTitle(Chapter, "1.", "The Chapter", "Chapter 1. - The Chapter");
  }

  lemma Chapter1Toc()
    ensures TocOf("main", None, Chapter1) == [Chapter1Entry]
  {
    NumberedToc("main", None, Chapter, Chapter1, "1.", "The Chapter", [PartA]);
    Chapter1Path();
    PartAToc();
    assert Toc("main", Some("chapter/1"), [PartA]) == [PartAEntry];
  }

  lemma BodyToc()
    ensures Toc("main", None, [Section1, Chapter1]) == [Section1Entry, Chapter1Entry]
  {
    Chapter1Toc();
    Section1Toc(None);
    TocPair("main", None, Section1, Chapter1, [Section1Entry], [Chapter1Entry]);
  }

  /** test_act.py:84-128: the nested table of contents, with paths and titles. */
  lemma NestedTableOfContents()
    ensures Acts.TableOfContents(DefaultAct.(body := TocBody)) == [Section1Entry, Chapter1Entry]
  {
    BodyToc();
    BodyElementToc([Section1, Chapter1], [Section1Entry, Chapter1Entry]);
    MainOnlyToc(TocBody, [Section1Entry, Chapter1Entry]);
  }

  // ---------------------------------------------------------------------------
  // test_act.py:130-246: two schedules, one with an alias
  // ---------------------------------------------------------------------------

  /** `<content>` with two paragraphs. */
  function Paragraphs(a: string, b: string): Element {
    Element("content", None, "", [Leaf("p", a), Leaf("p", b)])
  }

  /** A component document: its `mainBody` holding one element. */
  function ComponentDoc(e: Element): Element {
    Element("doc", None, "", [Element("mainBody", None, "", [e])])
  }

  const ScheduleSection1: Element := Element("section", Some("schedule-1.section-0"), "", [Paragraphs("1. Foo", "2. Bar")])
  const ScheduleSection2: Element := Element("section", Some("schedule-2.section-0"), "", [Paragraphs("Baz", "Boom")])
  const Schedule1: Component := Component("schedule1", Some("A Title"), ComponentDoc(ScheduleSection1))
  const Schedule2: Component := Component("schedule2", None, ComponentDoc(ScheduleSection2))

  /** The entry of a section with neither number nor heading. */
  function BareSectionEntry(component: string, e: Element): TocEntry {
    TocEntry(Section, e.id, None, None, "Section", component, Some("section"), e, [])
  }

  lemma BareSectionToc(component: string, e: Element, a: string, b: string)
    requires e.tag == "section" && e.children == [Paragraphs(a, b)]
    ensures Toc(component, None, ComponentDoc(e).children) == [BareSectionEntry(component, e)]
  {
    assert ChildText(e.children, "num").None? && ChildText(e.children, "heading").None?;
    assert Toc(component, None, [Leaf("p", b)]) == [];
    assert Toc(component, None, [Leaf("p", a), Leaf("p", b)]) == [];
    assert Toc(component, None, e.children) == [];
    assert KindOf(e.tag) == Some(Section);
    assert SubcomponentPath(Section, None, None) == "section" && Title(Section, None, None) == "Section";
    assert TocOf(component, None, e) == [BareSectionEntry(component, e)];
    assert Toc(component, None, [e]) == [BareSectionEntry(component, e)];
  }

  /** `schedule2` reads `Schedule 2`. */
  lemma SpacedSchedule2()
    ensures Spaced("schedule2") == "schedule 2"
  {
    assert Spaced("2") == "2";
    assert Spaced("e2") == "e 2";
    assert "schedul" + "e2" == "schedule2";
    SpacedLetters("schedul", "e2");
    assert "schedul" + "e 2" == "schedule 2";
  }

  /** Title-casing `schedule 2` upper-cases only the `s` that starts the first word. */
  lemma TitleCaseSchedule2()
    ensures TitleCase("schedule 2") == "Schedule 2"
  {
    var s, r := "schedule 2", "Schedule 2";
    forall i | 0 <= i < |s| ensures TitleCase(s)[i] == r[i] {
      if i == 0 { assert Upper(Lower('s')) == 'S'; }
    }
  }

  lemma HumaniseIs(name: string, spaced: string, r: string)
    requires Spaced(name) == spaced && TitleCase(spaced) == r
    ensures Humanise(name) == r
  {
  }

  lemma HumaniseSchedule2()
    ensures Humanise("schedule2") == "Schedule 2"
  {
    SpacedSchedule2();
    TitleCaseSchedule2();
    HumaniseIs("schedule2", "schedule 2", "Schedule 2");
  }

  lemma SpacedAnnexB()
    ensures Spaced("annex_b") == "annex b"
  {
    assert Spaced("b") == "b";
    assert Spaced("_b") == " b";
  }

  lemma TitleCaseAnnexB()
    ensures TitleCase("annex b") == "Annex B"
  {
    var s, r := "annex b", "Annex B";
    forall i | 0 <= i < |s| ensures TitleCase(s)[i] == r[i] {
      if i == 0 { assert Upper(Lower('a')) == 'A'; }
      if i == 6 { assert StartsWord(s, 6) && Upper(Lower('b')) == 'B'; }
    }
  }

  /** An underscore separates words, and each word is title-cased: `annex_b` reads `Annex B`. */
  lemma HumaniseAnnexB()
    ensures Humanise("annex_b") == "Annex B"
  {
    SpacedAnnexB();
    TitleCaseAnnexB();
    HumaniseIs("annex_b", "annex b", "Annex B");
  }

  const Schedule1Entry: TocEntry := TocEntry(Doc, None, None, Some("A Title"), "A Title", "schedule1", None,
    ComponentDoc(ScheduleSection1), [BareSectionEntry("schedule1", ScheduleSection1)])
  const Schedule2Entry: TocEntry := TocEntry(Doc, None, None, Some("Schedule 2"), "Schedule 2", "schedule2", None,
    ComponentDoc(ScheduleSection2), [BareSectionEntry("schedule2", ScheduleSection2)])

  lemma Schedule1Doc()
    ensures DocEntry(Schedule1) == Schedule1Entry
  {
    BareSectionToc("schedule1", ScheduleSection1, "1. Foo", "2. Bar");
  }

  lemma Schedule2Doc()
    ensures DocEntry(Schedule2) == Schedule2Entry
  {
    BareSectionToc("schedule2", ScheduleSection2, "Baz", "Boom");
    HumaniseSchedule2();
  }

  lemma TwoDocEntries(main: seq<Element>, c: Component, d: Component)
    ensures Structure.TableOfContents(main, [c, d]) == Toc(MainComponent, None, main) + [DocEntry(c), DocEntry(d)]
  {
  }

  lemma ComponentEntries()
    ensures Structure.TableOfContents([Element("body", None, "", [])], [Schedule1, Schedule2]) == [Schedule1Entry, Schedule2Entry]
  {
    TwoDocEntries([Element("body", None, "", [])], Schedule1, Schedule2);
    Schedule1Doc();
    Schedule2Doc();
    assert Toc(MainComponent, None, [Element("body", None, "", [])]) == [];
  }

  /**
   * test_act.py:130-246: an empty body contributes nothing; each schedule
   * gives a `doc` entry titled by its alias, or by its humanised name, whose
   * one child is a section titled `Section` at path `section`.
   */
  lemma ComponentTableOfContents()
    ensures Acts.TableOfContents(DefaultAct.(body := [Element("body", None, "", [])], components := [Schedule1, Schedule2]))
      == [Schedule1Entry, Schedule2Entry]
  {
    ComponentEntries();
  }

  // ---------------------------------------------------------------------------
  // test_act.py:248-275: front matter
  // ---------------------------------------------------------------------------

  /** A block holding only `<content><p>text</p></content>`. */
  function Block(tag: string, text: string): Element {
    Element(tag, None, "", [Content(text)])
  }

  function FrontMatterEntry(k: Kind, text: string): TocEntry
    requires k != Doc
  {
    TocEntry(k, None, None, None, Capitalize(KindName(k)), "main", Some(KindName(k)), Block(KindName(k), text), [])
  }

  lemma FrontMatterToc(k: Kind, text: string)
    requires IsFrontMatter(k)
    ensures TocOf("main", None, Block(KindName(k), text)) == [FrontMatterEntry(k, text)]
  {
    ContentToc("main", None, text);
    assert ChildText([Content(text)], "num").None? && ChildText([Content(text)], "heading").None?;
  }

  const FrontMatter: seq<Element> := [
    Block("coverpage", "hi"), Block("preface", "hi"), Block("preamble", "hi"),
    Block("body", "hi"), Block("conclusions", "hi>")]

  /** The entries of a three-element list whose middle element contributes none. */
  lemma TocThree(component: string, prefix: Option<string>, c: Element, d: Element, e: Element, ec: TocEntry, ee: TocEntry)
    requires TocOf(component, prefix, c) == [ec] && TocOf(component, prefix, d) == [] && TocOf(component, prefix, e) == [ee]
    ensures Toc(component, prefix, [c, d, e]) == [ec, ee]
  {
    TocPair(component, prefix, d, e, [], [ee]);
    TocCons(component, prefix, c, [d, e], [ec], [ee]);
    assert [c] + [d, e] == [c, d, e];
  }

  /** The entries of a five-element list whose fourth element contributes none. */
  lemma TocFive(component: string, prefix: Option<string>, a: Element, b: Element, c: Element, d: Element, e: Element,
                ea: TocEntry, eb: TocEntry, ec: TocEntry, ee: TocEntry)
    requires TocOf(component, prefix, a) == [ea] && TocOf(component, prefix, b) == [eb]
    requires TocOf(component, prefix, c) == [ec] && TocOf(component, prefix, d) == []
    requires TocOf(component, prefix, e) == [ee]
    ensures Toc(component, prefix, [a, b, c, d, e]) == [ea, eb, ec, ee]
  {
    TocThree(component, prefix, c, d, e, ec, ee);
    TocCons(component, prefix, b, [c, d, e], [eb], [ec, ee]);
    assert [b] + [c, d, e] == [b, c, d, e];
    TocCons(component, prefix, a, [b, c, d, e], [ea], [eb, ec, ee]);
    assert [a] + [b, c, d, e] == [a, b, c, d, e];
  }

  lemma FrontMatterMainToc()
    ensures Toc("main", None, FrontMatter) == [
      FrontMatterEntry(Coverpage, "hi"), FrontMatterEntry(Preface, "hi"),
      FrontMatterEntry(Preamble, "hi"), FrontMatterEntry(Conclusions, "hi>")]
  {
    FrontMatterToc(Coverpage, "hi");
    FrontMatterToc(Preface, "hi");
    FrontMatterToc(Preamble, "hi");
    FrontMatterToc(Conclusions, "hi>");
    ContentToc("main", None, "hi");
    assert TocOf("main", None, Block("body", "hi")) == [];
    TocFive("main", None, Block("coverpage", "hi"), Block("preface", "hi"), Block("preamble", "hi"),
      Block("body", "hi"), Block("conclusions", "hi>"),
      FrontMatterEntry(Coverpage, "hi"), FrontMatterEntry(Preface, "hi"),
      FrontMatterEntry(Preamble, "hi"), FrontMatterEntry(Conclusions, "hi>"));
  }

  /**
   * test_act.py:248-275: coverpage, preface, preamble and conclusions give
   * one entry each, in order, named and titled by their kind; a body with
   * no sections, chapters or parts gives none.
   */
  lemma FrontMatterTableOfContents()
    ensures Acts.TableOfContents(DefaultAct.(body := FrontMatter)) == [
      FrontMatterEntry(Coverpage, "hi"), FrontMatterEntry(Preface, "hi"),
      FrontMatterEntry(Preamble, "hi"), FrontMatterEntry(Conclusions, "hi>")]
  {
    FrontMatterMainToc();
    MainOnlyToc(FrontMatter, [
      FrontMatterEntry(Coverpage, "hi"), FrontMatterEntry(Preface, "hi"),
      FrontMatterEntry(Preamble, "hi"), FrontMatterEntry(Conclusions, "hi>")]);
  }

  // ---------------------------------------------------------------------------
  // test_act.py:277-306: looking up subcomponents
  // ---------------------------------------------------------------------------

  const Chapter2: Element := Element("chapter", Some("chapter-2"), "", [Leaf("num", "2."), Leaf("heading", "The Chapter"), Content("hi")])
  const LookupBody: seq<Element> := [Element("body", None, "", [Section1, Chapter2])]

  const Chapter2Entry: TocEntry := TocEntry(Chapter, Some("chapter-2"), Some("2."), Some("The Chapter"), "Chapter 2. - The Chapter",
    "main", Some("chapter/2"), Chapter2, [])

  lemma Chapter2Path()
    ensures SubcomponentPath(Chapter, Some("2."), None) == "chapter/2"
    ensures Title(Chapter, Some("2."), Some("The Chapter")) == "Chapter 2. - The Chapter"
  {
    PathNumDot("2");
    assert "2" + "." == "2.";
    ChapterWord();
    assert "chapter" + "/" + "2" == "chapter/2";
    assert "Chapter" + " " + "2." == "Chapter 2.";
    assert "Chapter 2." + " - " + "The Chapter" == "Chapter 2. - The Chapter";
    ContainerPath(Chapter, "2.", None, "chapter/2");
    ContainerTitle(Chapter, "2.", "The Chapter", "Chapter 2. - The Chapter");
  }

  lemma Chapter2Text()
    ensures NumberedEntry("main", None, Chapter, Chapter2, "2.", "The Chapter", []) == Chapter2Entry
  {
    Chapter2Path();
  }

  lemma Chapter2Toc()
    ensures TocOf("main", None, Chapter2) == [Chapter2Entry]
  {
    NumberedToc("main", None, Chapter, Chapter2, "2.", "The Chapter", [Content("hi")]);
    ContentToc("main", Some("chapter/2"), "hi");
    Chapter2Text();
  }

  lemma LookupToc()
    ensures Structure.TableOfContents(LookupBody, []) == [Section1Entry, Chapter2Entry]
  {
    Chapter2Toc();
    Section1Toc(None);
    TocPair("main", None, Section1, Chapter2, [Section1Entry], [Chapter2Entry]);
    BodyElementToc([Section1, Chapter2], [Section1Entry, Chapter2Entry]);
    MainOnlyToc(LookupBody, [Section1Entry, Chapter2Entry]);
  }

  /** A search of the two entries that passes over the section and its (empty) children. */
  lemma SearchPastSection(path: string)
    requires path != "section/1"
    ensures Search([Section1Entry, Chapter2Entry], "main", path) == Search([Chapter2Entry], "main", path)
  {
    assert !Names(Section1Entry, "main", path);
    assert [Section1Entry, Chapter2Entry][1..] == [Chapter2Entry];
  }

  lemma SearchChapter2(path: string)
    ensures Search([Chapter2Entry], "main", path) == if path == "chapter/2" then Some(Chapter2) else None
  {
    assert [Chapter2Entry][1..] == [];
  }

  /**
   * test_act.py:277-306: `chapter/2` and `section/1` find the chapter and
   * the section; numbers that do not occur find nothing.
   */
  lemma LookupExamples()
    ensures var a := DefaultAct.(body := LookupBody);
      && Acts.GetSubcomponent(a, "main", "chapter/2") == Some(Chapter2)
      && Acts.GetSubcomponent(a, "main", "section/1") == Some(Section1)
      && Acts.GetSubcomponent(a, "main", "chapter/99").None?
      && Acts.GetSubcomponent(a, "main", "section/99").None?
    ensures Chapter2.id == Some("chapter-2") && Section1.id == Some("section-1")
  {
    LookupToc();
    SearchPastSection("chapter/2");
    SearchPastSection("chapter/99");
    SearchPastSection("section/99");
    SearchChapter2("chapter/2");
    SearchChapter2("chapter/99");
    SearchChapter2("section/99");
  }

  // ---------------------------------------------------------------------------
  // test_act.py:14-30: assigning a URI
  // ---------------------------------------------------------------------------

  const Zambian: FrbrUri := FrbrUri("zm", None, "act", None, None, "2007", "01", None, "eng", None, None, None, None)

  lemma ZambianSegments()
    ensures UriSegments(Zambian) == ["zm", "act", "2007", "01"]
  {
    assert CountryToken(Zambian) == "zm";
  }

  lemma ZambianUriJoin()
    ensures Join(["", "zm", "act", "2007", "01"], '/') == "/zm/act/2007/01"
  {
    JoinAppend([""], "zm", ["", "zm"], "", "/zm");
    JoinAppend(["", "zm"], "act", ["", "zm", "act"], "/zm", "/zm/act");
    JoinAppend(["", "zm", "act"], "2007", ["", "zm", "act", "2007"], "/zm/act", "/zm/act/2007");
    JoinAppend(["", "zm", "act", "2007"], "01", ["", "zm", "act", "2007", "01"], "/zm/act/2007", "/zm/act/2007/01");
  }

  lemma ZambianUriText()
    ensures Uri(Zambian) == "/zm/act/2007/01"
  {
    ZambianSegments();
    ZambianUriJoin();
    UriIs(Zambian, ["zm", "act", "2007", "01"], "/zm/act/2007/01");
  }

  lemma ZambianWorkWellFormed()
    ensures WorkWellFormed(Zambian)
  {
    assert IsDate("2007");
  }

  /** A work whose `work_uri()` is `s` is what `s` parses to. */
  lemma ParsesAs(u: FrbrUri, s: string)
    requires WorkWellFormed(u) && WorkPart(u) == u && WorkUri(u) == s
    ensures Parse(s) == Success(u)
  {
    WorkUriRoundTrip(u);
  }

  lemma ParsesZambian()
    ensures Parse("/zm/act/2007/01") == Success(Zambian)
  {
    ZambianUriText();
    ZambianWorkWellFormed();
    ParsesAs(Zambian, "/zm/act/2007/01");
  }

  const ZambianIdentification: Identification := Identification(
    "/zm/act/2007/01/main", "/zm/act/2007/01", "zm",
    "/zm/act/2007/01/eng@2012-01-01/main", "/zm/act/2007/01/eng@2012-01-01",
    "/zm/act/2007/01/eng@2012-01-01/main", "/zm/act/2007/01/eng@2012-01-01")

  /** The identification block `frbr_uri = s` writes, given its URIs spelled out. */
  lemma IdentificationIs(a: Act, s: string, work: string, expr: string, workThis: string, exprThis: string)
    requires Parse(s).Success? && Uri(Parse(s).value) == work
    requires expr == work + "/" + a.language + "@" + a.expressionDate
    requires workThis == work + "/" + Structure.MainComponent
    requires exprThis == expr + "/" + Structure.MainComponent
    ensures SetFrbrUri(a, s) == Success(a.(ident := Identification(
      workThis, work, Parse(s).value.country, exprThis, expr, exprThis, expr)))
  {
  }

  lemma ZambianExpressionText(a: Act)
    requires a.language == "eng" && a.expressionDate == "2012-01-01"
    ensures "/zm/act/2007/01" + "/" + a.language + "@" + a.expressionDate == "/zm/act/2007/01/eng@2012-01-01"
  {
    assert "/zm/act/2007/01" + "/" == "/zm/act/2007/01/";
    assert "/zm/act/2007/01/" + "eng" == "/zm/act/2007/01/eng";
    assert "/zm/act/2007/01/eng" + "@" == "/zm/act/2007/01/eng@";
    assert "/zm/act/2007/01/eng@" + "2012-01-01" == "/zm/act/2007/01/eng@2012-01-01";
  }

  lemma ZambianThisText()
    ensures "/zm/act/2007/01" + "/" + Structure.MainComponent == "/zm/act/2007/01/main"
    ensures "/zm/act/2007/01/eng@2012-01-01" + "/" + Structure.MainComponent == "/zm/act/2007/01/eng@2012-01-01/main"
  {
    assert "/zm/act/2007/01" + "/" == "/zm/act/2007/01/";
    assert "/zm/act/2007/01/eng@2012-01-01" + "/" == "/zm/act/2007/01/eng@2012-01-01/";
  }

  lemma ZambianProjection(a: Act, s: string)
    requires a.language == "eng" && a.expressionDate == "2012-01-01"
    requires Parse(s) == Success(Zambian)
    ensures SetFrbrUri(a, s) == Success(a.(ident := ZambianIdentification))
  {
    ZambianUriText();
    ZambianExpressionText(a);
    ZambianThisText();
    IdentificationIs(a, s, "/zm/act/2007/01", "/zm/act/2007/01/eng@2012-01-01",
      "/zm/act/2007/01/main", "/zm/act/2007/01/eng@2012-01-01/main");
  }

  lemma ZambianReadBack(a: Act)
    requires a.language == "eng"
    ensures FrbrUriOf(a.(ident := ZambianIdentification)) == Success(Zambian)
    ensures WorkUri(Zambian) == "/zm/act/2007/01"
  {
    ParsesZambian();
    ZambianUriText();
  }

  /**
   * test_act.py:14-30: with expression date 2012-01-01, assigning
   * `/zm/act/2007/01` writes the identification block below; the URI then
   * reads back with that work URI and number `01`.
   */
  lemma AssignUri()
    ensures var a := DefaultAct.(expressionDate := "2012-01-01");
      && SetFrbrUri(a, "/zm/act/2007/01") == Success(a.(ident := ZambianIdentification))
      && WorkUri(FrbrUriOf(a.(ident := ZambianIdentification)).value) == "/zm/act/2007/01"
      && Number(a.(ident := ZambianIdentification)) == Success("01")
  {
    var a := DefaultAct.(expressionDate := "2012-01-01");
    ParsesZambian();
    ZambianProjection(a, "/zm/act/2007/01");
    ZambianReadBack(a);
  }
}
