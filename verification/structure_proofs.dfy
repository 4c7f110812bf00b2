/**
 * What the table of contents promises: it lists exactly the interesting
 * elements in document order, every entry is built from its own element,
 * paths nest only through chapters and parts, and the subcomponent lookup
 * is the first match in document order.
 */
module StructureProofs {
  import opened Wrappers
  import opened Strings
  import opened Structure

  // ---------------------------------------------------------------------------
  // Kinds
  // ---------------------------------------------------------------------------

  /** Every kind but `doc` is read back from its own tag name. */
  lemma KindNameRoundTrip(k: Kind)
    requires k != Doc
    ensures KindOf(KindName(k)) == Some(k)
  {
    match k
    case Coverpage =>
    case Preface =>
    case Preamble =>
    case Part =>
    case Chapter =>
    case Section =>
    case Conclusions =>
  }

  // ---------------------------------------------------------------------------
  // Document order
  // ---------------------------------------------------------------------------

  lemma {:induction false} FlattenConcat(a: seq<TocEntry>, b: seq<TocEntry>)
    ensures Flatten(a + b) == Flatten(a) + Flatten(b)
    decreases a
  {
    if a == [] {
      assert a + b == b;
    } else {
      assert (a + b)[0] == a[0];
      assert (a + b)[1..] == a[1..] + b;
      FlattenConcat(a[1..], b);
    }
  }

  lemma ElementsOfConcat(a: seq<TocEntry>, b: seq<TocEntry>)
    ensures ElementsOf(a + b) == ElementsOf(a) + ElementsOf(b)
  {
  }

  /** The entries of a list of elements cover exactly its interesting elements, in document order. */
  lemma {:induction false} TocElements(component: string, prefix: Option<string>, elems: seq<Element>)
    ensures ElementsOf(Flatten(Toc(component, prefix, elems))) == Interesting(elems)
    decreases elems
  {
    if elems != [] {
      var head := TocOf(component, prefix, elems[0]);
      var tail := Toc(component, prefix, elems[1..]);
      FlattenConcat(head, tail);
      ElementsOfConcat(Flatten(head), Flatten(tail));
      TocOfElements(component, prefix, elems[0]);
      TocElements(component, prefix, elems[1..]);
    }
  }

  lemma {:induction false} TocOfElements(component: string, prefix: Option<string>, e: Element)
    ensures ElementsOf(Flatten(TocOf(component, prefix, e)))
         == (if IsInteresting(e) then [e] else []) + Interesting(e.children)
    decreases e
  {
    match KindOf(e.tag)
    case None =>
      TocElements(component, prefix, e.children);
    case Some(k) =>
      var x := TocOf(component, prefix, e)[0];
      var inner := if IsContainer(k) then x.subcomponent else None;
      assert x.element == e && x.children == Toc(component, inner, e.children);
      TocElements(component, inner, e.children);
      EntryElements(x);
  }

  lemma EntryElements(x: TocEntry)
    ensures ElementsOf(Flatten([x])) == [x.element] + ElementsOf(Flatten(x.children))
  {
    assert Flatten([x]) == [x] + Flatten(x.children) + Flatten([]);
    ElementsOfConcat([x], Flatten(x.children));
  }

  // ---------------------------------------------------------------------------
  // Entries are built from their elements, and their paths nest
  // ---------------------------------------------------------------------------

  /** `parent/step`, or just `step` at the top. */
  function Nest(prefix: Option<string>, step: string): string {
    if prefix.Some? then prefix.value + "/" + step else step
  }

  /** The path an entry hands to the chapters and parts directly under it: its own for a chapter or part, none otherwise. */
  function ChildPrefix(x: TocEntry): Option<string> {
    if IsContainer(x.kind) then x.subcomponent else None
  }

  /** The chapters and parts in `entries` extend `prefix` by their own step. */
  predicate Extends(entries: seq<TocEntry>, prefix: Option<string>) {
    forall i :: 0 <= i < |entries| && IsContainer(entries[i].kind) ==>
      entries[i].subcomponent == Some(Nest(prefix, Step(entries[i].kind, entries[i].num)))
  }

  /**
   * An entry of component `component` as its element dictates: kind from
   * the tag, id, num and heading from the element, the title they give, a
   * section path that ignores nesting, a block named by its kind, and the
   * chapters and parts directly below it extending its path when it is a
   * chapter or part, starting afresh otherwise.
   */
  predicate Placed(x: TocEntry, component: string) {
    && x.kind != Doc
    && KindOf(x.element.tag) == Some(x.kind)
    && x.id == x.element.id
    && x.num == NumOf(x.element)
    && x.heading == HeadingOf(x.element)
    && x.title == Title(x.kind, x.num, x.heading)
    && x.component == component
    && x.subcomponent.Some?
    && (x.kind == Section ==> x.subcomponent == Some(SectionPath(x.num)))
    && (IsFrontMatter(x.kind) ==> x.subcomponent == Some(KindName(x.kind)))
    && Extends(x.children, ChildPrefix(x))
  }

  predicate AllPlaced(entries: seq<TocEntry>, component: string) {
    forall i :: 0 <= i < |entries| ==> Placed(entries[i], component)
  }

  lemma AllPlacedConcat(a: seq<TocEntry>, b: seq<TocEntry>, component: string)
    requires AllPlaced(a, component) && AllPlaced(b, component)
    ensures AllPlaced(a + b, component)
  {
    assert forall i :: |a| <= i < |a + b| ==> (a + b)[i] == b[i - |a|];
  }

  lemma ExtendsConcat(a: seq<TocEntry>, b: seq<TocEntry>, prefix: Option<string>)
    requires Extends(a, prefix) && Extends(b, prefix)
    ensures Extends(a + b, prefix)
  {
    assert forall i :: |a| <= i < |a + b| ==> (a + b)[i] == b[i - |a|];
  }

  /**
   * Every entry of the table of contents of `elems`, at any depth, is placed
   * as its element dictates, and the chapters and parts at the top extend
   * `prefix`.
   */
  lemma {:induction false} TocPlaced(component: string, prefix: Option<string>, elems: seq<Element>)
    ensures AllPlaced(Flatten(Toc(component, prefix, elems)), component)
    ensures Extends(Toc(component, prefix, elems), prefix)
    decreases elems
  {
    if elems != [] {
      var head := TocOf(component, prefix, elems[0]);
      var tail := Toc(component, prefix, elems[1..]);
      TocOfPlaced(component, prefix, elems[0]);
      TocPlaced(component, prefix, elems[1..]);
      FlattenConcat(head, tail);
      AllPlacedConcat(Flatten(head), Flatten(tail), component);
      ExtendsConcat(head, tail, prefix);
    }
  }

  lemma {:induction false} TocOfPlaced(component: string, prefix: Option<string>, e: Element)
    ensures AllPlaced(Flatten(TocOf(component, prefix, e)), component)
    ensures Extends(TocOf(component, prefix, e), prefix)
    decreases e
  {
    match KindOf(e.tag)
    case None =>
      TocPlaced(component, prefix, e.children);
    case Some(k) =>
      var x := TocOf(component, prefix, e)[0];
      TocPlaced(component, ChildPrefix(x), e.children);
      assert Placed(x, component);
      assert Flatten([x]) == [x] + Flatten(x.children) + Flatten([]);
      AllPlacedConcat([x], Flatten(x.children), component);
  }

  // ---------------------------------------------------------------------------
  // Lookup is the first match in document order
  // ---------------------------------------------------------------------------

  lemma {:induction false} FirstMatchConcat(a: seq<TocEntry>, b: seq<TocEntry>, component: string, path: string)
    ensures FirstMatch(a + b, component, path)
         == (if FirstMatch(a, component, path).Some? then FirstMatch(a, component, path) else FirstMatch(b, component, path))
    decreases a
  {
    if a == [] {
      assert a + b == b;
    } else {
      assert (a + b)[0] == a[0];
      assert (a + b)[1..] == a[1..] + b;
      FirstMatchConcat(a[1..], b, component, path);
    }
  }

  /** The depth-first search finds what a scan of the flattened entries finds. */
  lemma {:induction false} SearchIsFirstMatch(entries: seq<TocEntry>, component: string, path: string)
    ensures Search(entries, component, path) == FirstMatch(Flatten(entries), component, path)
    decreases entries
  {
    if entries != [] {
      var x := entries[0];
      var inner := Flatten(x.children);
      var rest := Flatten(entries[1..]);
      assert Flatten(entries) == [x] + (inner + rest);
      SearchIsFirstMatch(x.children, component, path);
      SearchIsFirstMatch(entries[1..], component, path);
      FirstMatchConcat(inner, rest, component, path);
      FirstMatchConcat([x], inner + rest, component, path);
    }
  }

  /**
   * `get_subcomponent` returns the element of the first entry, in document
   * order, with that component and path, and nothing exactly when no entry
   * has them.
   */
  lemma GetSubcomponentSpec(main: seq<Element>, components: seq<Component>, component: string, path: string)
    ensures var toc := Flatten(TableOfContents(main, components));
      && GetSubcomponent(main, components, component, path) == FirstMatch(toc, component, path)
      && (GetSubcomponent(main, components, component, path).None?
          <==> forall i :: 0 <= i < |toc| ==> !Names(toc[i], component, path))
  {
    SearchIsFirstMatch(TableOfContents(main, components), component, path);
  }

  /**
   * In the main document, the element found for `section/n` is a section
   * of the body whose number reads `n`, and one found for a top-level
   * chapter path is a chapter.
   */
  lemma MainSectionFound(main: seq<Element>, components: seq<Component>, path: string)
    requires forall i :: 0 <= i < |components| ==> components[i].name != MainComponent
    requires GetSubcomponent(main, components, MainComponent, path).Some?
    ensures var e := GetSubcomponent(main, components, MainComponent, path).value;
      && e in Interesting(main)
      && exists x :: x in Flatten(Toc(MainComponent, None, main)) && x.element == e && Placed(x, MainComponent)
           && x.subcomponent == Some(path)
  {
    var toc := TableOfContents(main, components);
    var own := Toc(MainComponent, None, main);
    var docs := seq(|components|, i requires 0 <= i < |components| => DocEntry(components[i]));
    assert toc == own + docs;
    GetSubcomponentSpec(main, components, MainComponent, path);
    FlattenConcat(own, docs);
    FirstMatchConcat(Flatten(own), Flatten(docs), MainComponent, path);
    DocsElsewhere(components, MainComponent, path);
    var e := GetSubcomponent(main, components, MainComponent, path).value;
    assert FirstMatch(Flatten(own), MainComponent, path) == Some(e);
    var f := Flatten(own);
    var i :| 0 <= i < |f| && Names(f[i], MainComponent, path) && f[i].element == e
      && forall j :: 0 <= j < i ==> !Names(f[j], MainComponent, path);
    TocElements(MainComponent, None, main);
    assert ElementsOf(f)[i] == e;
    TocPlaced(MainComponent, None, main);
    assert Placed(f[i], MainComponent);
  }

  /** No entry under a component's `doc` entry belongs to another component. */
  lemma DocsElsewhere(components: seq<Component>, component: string, path: string)
    requires forall i :: 0 <= i < |components| ==> components[i].name != component
    ensures FirstMatch(Flatten(seq(|components|, i requires 0 <= i < |components| => DocEntry(components[i]))), component, path).None?
    decreases |components|
  {
    var docs := seq(|components|, i requires 0 <= i < |components| => DocEntry(components[i]));
    if components != [] {
      var rest := seq(|components| - 1, i requires 0 <= i < |components| - 1 => DocEntry(components[1..][i]));
      assert docs == [docs[0]] + rest;
      DocsElsewhere(components[1..], component, path);
      var c := components[0];
      TocPlaced(c.name, None, c.doc.children);
      var inner := Flatten(docs[0].children);
      assert forall k :: 0 <= k < |inner| ==> inner[k].component == c.name by {
        assert AllPlaced(inner, c.name);
      }
      FirstMatchConcat([docs[0]] + inner, Flatten(rest), component, path);
      FirstMatchConcat([docs[0]], inner, component, path);
      FlattenConcat([docs[0]], rest);
      assert Flatten([docs[0]]) == [docs[0]] + inner + Flatten([]);
    }
  }

  // ---------------------------------------------------------------------------
  // Humanised names
  // ---------------------------------------------------------------------------

  /** The characters of `s` not in `drop`, in order. */
  function Without(s: string, drop: set<char>): (r: string)
    ensures |r| <= |s|
  {
    if s == [] then [] else (if s[0] in drop then [] else [s[0]]) + Without(s[1..], drop)
  }

  lemma WithoutCons(c: char, t: string, drop: set<char>)
    ensures Without([c] + t, drop) == (if c in drop then [] else [c]) + Without(t, drop)
  {
    assert ([c] + t)[1..] == t;
  }

  /** The first character of a name, as humanising writes it. */
  function SpacedHead(x: char): char {
    if x == '_' then ' ' else x
  }

  lemma SpacedHeadKept(x: char)
    ensures (if SpacedHead(x) in {' '} then [] else [SpacedHead(x)]) == (if x in {' ', '_'} then [] else [x])
  {
  }

  lemma SpacedCons(name: string)
    requires name != []
    ensures |name| >= 2 && IsLetter(name[0]) && IsDigit(name[1]) ==>
      Spaced(name) == [SpacedHead(name[0])] + ([' '] + Spaced(name[1..]))
    ensures !(|name| >= 2 && IsLetter(name[0]) && IsDigit(name[1])) ==>
      Spaced(name) == [SpacedHead(name[0])] + Spaced(name[1..])
  {
  }

  /** Humanising a name only turns underscores into spaces and inserts spaces. */
  lemma {:induction false} SpacedOnlyAddsSpaces(name: string)
    ensures Without(Spaced(name), {' '}) == Without(name, {' ', '_'})
  {
    if name != [] {
      SpacedOnlyAddsSpaces(name[1..]);
      var c := SpacedHead(name[0]);
      var tail := Spaced(name[1..]);
      var head := if name[0] in {' ', '_'} then [] else [name[0]];
      assert name == [name[0]] + name[1..];
      WithoutCons(name[0], name[1..], {' ', '_'});
      assert Without(name, {' ', '_'}) == head + Without(name[1..], {' ', '_'});
      SpacedHeadKept(name[0]);
      SpacedCons(name);
      if |name| >= 2 && IsLetter(name[0]) && IsDigit(name[1]) {
        WithoutCons(c, [' '] + tail, {' '});
        WithoutCons(' ', tail, {' '});
        assert Without([' '] + tail, {' '}) == Without(tail, {' '});
        assert Without(Spaced(name), {' '}) == head + Without(tail, {' '});
      } else {
        WithoutCons(c, tail, {' '});
        assert Without(Spaced(name), {' '}) == head + Without(tail, {' '});
      }
    }
  }

  /** A run of letters followed by anything but a digit is copied unchanged: only letter-digit boundaries gain a space. */
  lemma {:induction false} SpacedLetters(w: string, t: string)
    requires forall i :: 0 <= i < |w| ==> IsLetter(w[i])
    requires t != [] && !IsDigit(t[0])
    ensures Spaced(w + t) == w + Spaced(t)
  {
    if w == [] {
      assert w + t == t;
    } else {
      var name := w + t;
      var rest := w[1..];
      assert name[1..] == rest + t;
      assert forall i :: 0 <= i < |rest| ==> IsLetter(rest[i]) by {
        forall i | 0 <= i < |rest| ensures IsLetter(rest[i]) {
          assert rest[i] == w[i + 1];
        }
      }
      SpacedLetters(rest, t);
      assert Spaced(name) == [w[0]] + Spaced(rest + t) by {
        assert !IsDigit(name[1]) by {
          if rest == [] {
            assert name[1] == t[0];
          } else {
            assert name[1] == w[1];
          }
        }
        SpacedCons(name);
        assert SpacedHead(w[0]) == w[0] by {
          assert IsLetter(w[0]);
        }
      }
      AppendAssoc([w[0]], rest, Spaced(t));
      assert [w[0]] + rest == w;
    }
  }

  /** What humanising writes for the first character of a name: the character, then a space before a digit. */
  function SpacedFront(name: string): string
    requires name != []
  {
    [SpacedHead(name[0])] + (if |name| >= 2 && IsLetter(name[0]) && IsDigit(name[1]) then " " else "")
  }

  lemma SpacedFrontSplit(name: string)
    requires name != []
    ensures Spaced(name) == SpacedFront(name) + Spaced(name[1..])
  {
    SpacedCons(name);
  }

  /** A letter followed by a digit gains a space between them, whatever comes before and after. */
  lemma {:induction false} SpacedBoundary(w: string, d: char, t: string)
    requires w != [] && IsLetter(w[|w| - 1]) && IsDigit(d)
    ensures Spaced(w + [d] + t) == Spaced(w) + " " + Spaced([d] + t)
  {
    var name := w + [d] + t;
    SpacedFrontSplit(name);
    SpacedFrontSplit(w);
    if |w| == 1 {
      assert name[1] == d && name[1..] == [d] + t;
      assert SpacedFront(name) == Spaced(w) + " ";
    } else {
      var rest := w[1..];
      assert name[1] == w[1] && name[1..] == rest + [d] + t;
      assert SpacedFront(name) == SpacedFront(w);
      assert rest[|rest| - 1] == w[|w| - 1];
      SpacedBoundary(rest, d, t);
      var f := SpacedFront(w);
      calc {
        Spaced(name);
        f + Spaced(rest + [d] + t);
        f + (Spaced(rest) + " " + Spaced([d] + t));
        { AppendAssoc(f, Spaced(rest), " "); }
        (f + Spaced(rest)) + " " + Spaced([d] + t);
        Spaced(w) + " " + Spaced([d] + t);
      }
    }
  }

  /** Every kind name is a lower-case word, so capitalising it is the same as title-casing it. */
  lemma KindTitleIsTitleCase(k: Kind)
    ensures Capitalize(KindName(k)) == TitleCase(KindName(k))
  {
    var n := KindName(k);
    assert forall i :: 0 <= i < |n| ==> IsLower(n[i]);
    CapitalizeLowerWord(n);
  }

  /** The path segments a chapter or part adds: its kind, then its number's segments if it has one. */
  function StepSegments(k: Kind, num: Option<string>): seq<string> {
    [KindName(k)] + (if Present(num) then Split(PathNum(num.value), '/') else [])
  }

  /** No kind name contains a `/`. */
  lemma KindNameSlashFree(k: Kind)
    ensures '/' !in KindName(k)
  {
    match k case _ =>
  }

  /** A slash-free name, optionally followed by `/` and a tail, splits into the name and the tail's pieces. */
  lemma NameTailSplit(n: string, tail: Option<string>)
    requires '/' !in n
    ensures Split(n + (if tail.Some? then "/" + tail.value else ""), '/') ==
      [n] + (if tail.Some? then Split(tail.value, '/') else [])
  {
    if tail.Some? {
      SplitConcat(n, tail.value, '/');
      assert n + ("/" + tail.value) == n + ['/'] + tail.value;
    } else {
      assert n + "" == n;
    }
  }

  lemma StepSplit(k: Kind, num: Option<string>)
    ensures Split(Step(k, num), '/') == StepSegments(k, num)
  {
    KindNameSlashFree(k);
    var tail := if Present(num) then Some(PathNum(num.value)) else None;
    NameTailSplit(KindName(k), tail);
    assert Step(k, num) == KindName(k) + (if tail.Some? then "/" + tail.value else "");
  }

  /**
   * Read as `/`-separated segments, a path is: for a section, `section` and
   * its number whatever encloses it; for a chapter or part, the enclosing
   * path's segments followed by its own kind and number; for a front-matter
   * block, its kind alone.
   */
  lemma SubcomponentPathSegments(k: Kind, num: Option<string>, prefix: Option<string>)
    requires k != Doc
    ensures k == Section ==> Split(SubcomponentPath(k, num, prefix), '/') == StepSegments(Section, num)
    ensures IsContainer(k) ==>
      Split(SubcomponentPath(k, num, prefix), '/') == (if prefix.Some? then Split(prefix.value, '/') else []) + StepSegments(k, num)
    ensures IsFrontMatter(k) ==> Split(SubcomponentPath(k, num, prefix), '/') == [KindName(k)]
  {
    var path := SubcomponentPath(k, num, prefix);
    if k == Section {
      assert path == Step(Section, num);
      StepSplit(Section, num);
    } else if IsContainer(k) {
      StepSplit(k, num);
      if prefix.Some? {
        assert path == prefix.value + ['/'] + Step(k, num);
        SplitConcat(prefix.value, Step(k, num), '/');
      } else {
        assert path == Step(k, num);
      }
    } else {
      assert path == KindName(k);
      assert '/' !in KindName(k) by { match k case _ => }
    }
  }

  /**
   * A TOC element yields exactly one entry, and that entry has no children
   * exactly when nothing below the element is itself a TOC element: a leaf
   * section's children are empty.
   */
  lemma LeafEntry(component: string, prefix: Option<string>, e: Element)
    requires KindOf(e.tag).Some?
    ensures |TocOf(component, prefix, e)| == 1
    ensures TocOf(component, prefix, e)[0].children == [] <==> Interesting(e.children) == []
  {
    var k := KindOf(e.tag).value;
    var inner := if IsContainer(k) then Some(SubcomponentPath(k, NumOf(e), prefix)) else None;
    var kids := Toc(component, inner, e.children);
    assert TocOf(component, prefix, e)[0].children == kids;
    TocElements(component, inner, e.children);
    assert |Flatten(kids)| == |Interesting(e.children)|;
  }

  /**
   * The path a TOC element hands down: below a chapter or part, the chapters
   * and parts directly under its entry extend that entry's path; below a
   * section or front-matter block they start afresh from their own step.
   */
  lemma NestedPaths(component: string, prefix: Option<string>, e: Element)
    requires KindOf(e.tag).Some?
    ensures var x := TocOf(component, prefix, e)[0];
      IsContainer(x.kind) ==> Extends(x.children, x.subcomponent)
    ensures var x := TocOf(component, prefix, e)[0];
      !IsContainer(x.kind) ==> Extends(x.children, None)
  {
    var k := KindOf(e.tag).value;
    var inner := if IsContainer(k) then Some(SubcomponentPath(k, NumOf(e), prefix)) else None;
    assert TocOf(component, prefix, e)[0].children == Toc(component, inner, e.children);
    TocPlaced(component, inner, e.children);
  }
}
