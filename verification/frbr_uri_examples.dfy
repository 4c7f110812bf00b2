/**
 * The worked examples of the FRBR URI tests: each is a record together with
 * the literal text it serialises to, and parsing that text gives the record
 * back by the round-trip theorems.
 */
module FrbrUriExamples {
  import opened Wrappers
  import opened Strings
  import opened FrbrUris
  import opened FrbrUriProofs

  /** `a/b` is a readable subcomponent path when `a` and `b` are expression segments. */
  lemma TwoPartPath(a: string, b: string)
    requires IsExpressionSegment(a) && IsExpressionSegment(b)
    ensures IsExpressionPath(a + "/" + b)
  {
    assert Join([a, b], '/') == a + "/" + b;
    SplitJoin([a, b], '/');
  }

  /** A single expression segment is a readable subcomponent path. */
  lemma OneSegmentPath(a: string)
    requires IsExpressionSegment(a)
    ensures IsExpressionPath(a)
  {
    assert Split(a, '/') == [a];
  }

  /**
   * A path is written left to right: joining one more segment onto a run
   * appends `/` and the segment to the run's text.
   */
  lemma JoinAppend(a: seq<string>, x: string, b: seq<string>, aText: string, text: string)
    requires |a| >= 1 && b == a + [x]
    requires Join(a, '/') == aText && text == aText + "/" + x
    ensures Join(b, '/') == text
  {
    JoinConcat(a, [x], '/');
  }

  /** A leading empty segment gives the leading `/` of a URI. */
  lemma JoinLeadingSlash(segs: seq<string>)
    requires |segs| >= 1
    ensures Join([""] + segs, '/') == "/" + Join(segs, '/')
  {
    JoinConcat([""], segs, '/');
  }

  /** `work_uri()` is `uri()`, followed by `/` and the work component when there is one. */
  lemma WorkUriIs(u: FrbrUri, uri: string, r: string)
    requires Uri(u) == uri
    requires u.workComponent.None? ==> r == uri
    requires u.workComponent.Some? ==> r == uri + "/" + u.workComponent.value
    ensures WorkUri(u) == r
  {
  }

  /** The work URI text, from its segments written left to right. */
  lemma UriIs(u: FrbrUri, segs: seq<string>, text: string)
    requires UriSegments(u) == segs && Join([""] + segs, '/') == text
    ensures Uri(u) == text
  {
    JoinLeadingSlash(segs);
  }

  /** The expression URI text, from the work and expression segments written left to right. */
  lemma ExpressionUriIs(u: FrbrUri, segs: seq<string>, esegs: seq<string>, text: string)
    requires UriSegments(u) == segs && ExpressionSegments(u, ShownComponent(u)) == esegs
    requires Join([""] + segs + esegs, '/') == text
    ensures ExpressionUri(u) == text
  {
    JoinLeadingSlash(segs + esegs);
    assert [""] + segs + esegs == [""] + (segs + esegs);
  }

  const Simple: FrbrUri := FrbrUri("za", None, "act", None, None, "1980", "01", None, "eng", None, None, None, None)

  lemma SimpleSegments()
    ensures UriSegments(Simple) == ["za", "act", "1980", "01"]
  {
    assert CountryToken(Simple) == "za";
  }

  lemma SimpleUriJoin()
    ensures Join(["", "za", "act", "1980", "01"], '/') == "/za/act/1980/01"
  {
    JoinAppend([""], "za", ["", "za"], "", "/za");
    JoinAppend(["", "za"], "act", ["", "za", "act"], "/za", "/za/act");
    JoinAppend(["", "za", "act"], "1980", ["", "za", "act", "1980"], "/za/act", "/za/act/1980");
    JoinAppend(["", "za", "act", "1980"], "01", ["", "za", "act", "1980", "01"], "/za/act/1980", "/za/act/1980/01");
  }


  lemma SimpleUriText()
    ensures Uri(Simple) == "/za/act/1980/01"
  {
    SimpleSegments();
    SimpleUriJoin();
    UriIs(Simple, ["za", "act", "1980", "01"], "/za/act/1980/01");
  }


  lemma SimpleWorkUriText()
    ensures WorkUri(Simple) == "/za/act/1980/01"
  {
    SimpleUriText();
    WorkUriIs(Simple, "/za/act/1980/01", "/za/act/1980/01");
  }

  lemma SimpleWorkWellFormed()
    ensures WorkWellFormed(Simple)
  {
    assert IsDate("1980");
  }

  /** test_uri.py:10-22: `/za/act/1980/01`. */
  lemma ParsesSimple()
    ensures Parse("/za/act/1980/01") == Success(Simple)
    ensures WorkUri(Simple) == "/za/act/1980/01"
  {
    SimpleWorkUriText();
    SimpleWorkWellFormed();
    WorkUriRoundTrip(Simple);
  }

  const WithSubtype: FrbrUri := FrbrUri("za", None, "act", Some("by-law"), None, "1980", "01", None, "eng", None, None, None, None)

  lemma WithSubtypeSegments()
    ensures UriSegments(WithSubtype) == ["za", "act", "by-law", "1980", "01"]
  {
    assert CountryToken(WithSubtype) == "za";
  }

  lemma WithSubtypeUriJoin()
    ensures Join(["", "za", "act", "by-law", "1980", "01"], '/') == "/za/act/by-law/1980/01"
  {
    JoinAppend([""], "za", ["", "za"], "", "/za");
    JoinAppend(["", "za"], "act", ["", "za", "act"], "/za", "/za/act");
    JoinAppend(["", "za", "act"], "by-law", ["", "za", "act", "by-law"], "/za/act", "/za/act/by-law");
    JoinAppend(["", "za", "act", "by-law"], "1980", ["", "za", "act", "by-law", "1980"], "/za/act/by-law", "/za/act/by-law/1980");
    JoinAppend(["", "za", "act", "by-law", "1980"], "01", ["", "za", "act", "by-law", "1980", "01"], "/za/act/by-law/1980", "/za/act/by-law/1980/01");
  }


  lemma WithSubtypeUriText()
    ensures Uri(WithSubtype) == "/za/act/by-law/1980/01"
  {
    WithSubtypeSegments();
    WithSubtypeUriJoin();
    UriIs(WithSubtype, ["za", "act", "by-law", "1980", "01"], "/za/act/by-law/1980/01");
  }


  lemma WithSubtypeWorkUriText()
    ensures WorkUri(WithSubtype) == "/za/act/by-law/1980/01"
  {
    WithSubtypeUriText();
    WorkUriIs(WithSubtype, "/za/act/by-law/1980/01", "/za/act/by-law/1980/01");
  }

  lemma WithSubtypeWorkWellFormed()
    ensures WorkWellFormed(WithSubtype)
  {
    assert IsDate("1980");
  }

  /** test_uri.py:24-36: `/za/act/by-law/1980/01`. */
  lemma ParsesWithSubtype()
    ensures Parse("/za/act/by-law/1980/01") == Success(WithSubtype)
    ensures WorkUri(WithSubtype) == "/za/act/by-law/1980/01"
  {
    WithSubtypeWorkUriText();
    WithSubtypeWorkWellFormed();
    WorkUriRoundTrip(WithSubtype);
  }

  const WithLocality: FrbrUri := FrbrUri("za", Some("cpt"), "act", Some("by-law"), None, "1980", "01", None, "eng", None, None, None, None)

  lemma WithLocalitySegments()
    ensures UriSegments(WithLocality) == ["za-cpt", "act", "by-law", "1980", "01"]
  {
    assert CountryToken(WithLocality) == "za-cpt";
  }

  lemma WithLocalityUriJoin()
    ensures Join(["", "za-cpt", "act", "by-law", "1980", "01"], '/') == "/za-cpt/act/by-law/1980/01"
  {
    JoinAppend([""], "za-cpt", ["", "za-cpt"], "", "/za-cpt");
    JoinAppend(["", "za-cpt"], "act", ["", "za-cpt", "act"], "/za-cpt", "/za-cpt/act");
    JoinAppend(["", "za-cpt", "act"], "by-law", ["", "za-cpt", "act", "by-law"], "/za-cpt/act", "/za-cpt/act/by-law");
    JoinAppend(["", "za-cpt", "act", "by-law"], "1980", ["", "za-cpt", "act", "by-law", "1980"], "/za-cpt/act/by-law", "/za-cpt/act/by-law/1980");
    JoinAppend(["", "za-cpt", "act", "by-law", "1980"], "01", ["", "za-cpt", "act", "by-law", "1980", "01"], "/za-cpt/act/by-law/1980", "/za-cpt/act/by-law/1980/01");
  }


  lemma WithLocalityUriText()
    ensures Uri(WithLocality) == "/za-cpt/act/by-law/1980/01"
  {
    WithLocalitySegments();
    WithLocalityUriJoin();
    UriIs(WithLocality, ["za-cpt", "act", "by-law", "1980", "01"], "/za-cpt/act/by-law/1980/01");
  }


  lemma WithLocalityWorkUriText()
    ensures WorkUri(WithLocality) == "/za-cpt/act/by-law/1980/01"
  {
    WithLocalityUriText();
    WorkUriIs(WithLocality, "/za-cpt/act/by-law/1980/01", "/za-cpt/act/by-law/1980/01");
  }

  lemma WithLocalityWorkWellFormed()
    ensures WorkWellFormed(WithLocality)
  {
    assert IsDate("1980");
  }

  /** test_uri.py:38-50: `/za-cpt/act/by-law/1980/01`. */
  lemma ParsesWithLocality()
    ensures Parse("/za-cpt/act/by-law/1980/01") == Success(WithLocality)
    ensures WorkUri(WithLocality) == "/za-cpt/act/by-law/1980/01"
  {
    WithLocalityWorkUriText();
    WithLocalityWorkWellFormed();
    WorkUriRoundTrip(WithLocality);
  }

  const WithActor: FrbrUri := FrbrUri("za", None, "act", Some("by-law"), Some("actor"), "1980", "01", None, "eng", None, None, None, None)

  lemma WithActorSegments()
    ensures UriSegments(WithActor) == ["za", "act", "by-law", "actor", "1980", "01"]
  {
    assert CountryToken(WithActor) == "za";
  }

  lemma WithActorUriJoin()
    ensures Join(["", "za", "act", "by-law", "actor", "1980", "01"], '/') == "/za/act/by-law/actor/1980/01"
  {
    JoinAppend([""], "za", ["", "za"], "", "/za");
    JoinAppend(["", "za"], "act", ["", "za", "act"], "/za", "/za/act");
    JoinAppend(["", "za", "act"], "by-law", ["", "za", "act", "by-law"], "/za/act", "/za/act/by-law");
    JoinAppend(["", "za", "act", "by-law"], "actor", ["", "za", "act", "by-law", "actor"], "/za/act/by-law", "/za/act/by-law/actor");
    JoinAppend(["", "za", "act", "by-law", "actor"], "1980", ["", "za", "act", "by-law", "actor", "1980"], "/za/act/by-law/actor", "/za/act/by-law/actor/1980");
    JoinAppend(["", "za", "act", "by-law", "actor", "1980"], "01", ["", "za", "act", "by-law", "actor", "1980", "01"], "/za/act/by-law/actor/1980", "/za/act/by-law/actor/1980/01");
  }


  lemma WithActorUriText()
    ensures Uri(WithActor) == "/za/act/by-law/actor/1980/01"
  {
    WithActorSegments();
    WithActorUriJoin();
    UriIs(WithActor, ["za", "act", "by-law", "actor", "1980", "01"], "/za/act/by-law/actor/1980/01");
  }


  lemma WithActorWorkUriText()
    ensures WorkUri(WithActor) == "/za/act/by-law/actor/1980/01"
  {
    WithActorUriText();
    WorkUriIs(WithActor, "/za/act/by-law/actor/1980/01", "/za/act/by-law/actor/1980/01");
  }

  lemma WithActorWorkWellFormed()
    ensures WorkWellFormed(WithActor)
  {
    assert IsDate("1980");
    assert !IsDate("by-law") && !IsDate("actor");
  }

  /** test_uri.py:52-63: `/za/act/by-law/actor/1980/01`. */
  lemma ParsesWithActor()
    ensures Parse("/za/act/by-law/actor/1980/01") == Success(WithActor)
    ensures WorkUri(WithActor) == "/za/act/by-law/actor/1980/01"
  {
    WithActorWorkUriText();
    WithActorWorkWellFormed();
    WorkUriRoundTrip(WithActor);
  }

  const LongDate: FrbrUri := FrbrUri("za", None, "act", None, None, "1980-02-01", "01", None, "eng", None, None, None, None)

  lemma LongDateSegments()
    ensures UriSegments(LongDate) == ["za", "act", "1980-02-01", "01"]
  {
    assert CountryToken(LongDate) == "za";
  }

  lemma LongDateUriJoin()
    ensures Join(["", "za", "act", "1980-02-01", "01"], '/') == "/za/act/1980-02-01/01"
  {
    JoinAppend([""], "za", ["", "za"], "", "/za");
    JoinAppend(["", "za"], "act", ["", "za", "act"], "/za", "/za/act");
    JoinAppend(["", "za", "act"], "1980-02-01", ["", "za", "act", "1980-02-01"], "/za/act", "/za/act/1980-02-01");
    JoinAppend(["", "za", "act", "1980-02-01"], "01", ["", "za", "act", "1980-02-01", "01"], "/za/act/1980-02-01", "/za/act/1980-02-01/01");
  }


  lemma LongDateUriText()
    ensures Uri(LongDate) == "/za/act/1980-02-01/01"
  {
    LongDateSegments();
    LongDateUriJoin();
    UriIs(LongDate, ["za", "act", "1980-02-01", "01"], "/za/act/1980-02-01/01");
  }


  lemma LongDateWorkUriText()
    ensures WorkUri(LongDate) == "/za/act/1980-02-01/01"
  {
    LongDateUriText();
    WorkUriIs(LongDate, "/za/act/1980-02-01/01", "/za/act/1980-02-01/01");
  }

  lemma LongDateWorkWellFormed()
    ensures WorkWellFormed(LongDate)
  {
    assert IsDate("1980-02-01");
  }

  /** test_uri.py:65-76: `/za/act/1980-02-01/01`. */
  lemma ParsesLongDate()
    ensures Parse("/za/act/1980-02-01/01") == Success(LongDate)
    ensures WorkUri(LongDate) == "/za/act/1980-02-01/01"
  {
    LongDateWorkUriText();
    LongDateWorkWellFormed();
    WorkUriRoundTrip(LongDate);
  }

  const NonNumeric: FrbrUri := FrbrUri("za", None, "act", None, None, "1980", "nn", None, "eng", None, None, None, None)

  lemma NonNumericSegments()
    ensures UriSegments(NonNumeric) == ["za", "act", "1980", "nn"]
  {
    assert CountryToken(NonNumeric) == "za";
  }

  lemma NonNumericUriJoin()
    ensures Join(["", "za", "act", "1980", "nn"], '/') == "/za/act/1980/nn"
  {
    JoinAppend([""], "za", ["", "za"], "", "/za");
    JoinAppend(["", "za"], "act", ["", "za", "act"], "/za", "/za/act");
    JoinAppend(["", "za", "act"], "1980", ["", "za", "act", "1980"], "/za/act", "/za/act/1980");
    JoinAppend(["", "za", "act", "1980"], "nn", ["", "za", "act", "1980", "nn"], "/za/act/1980", "/za/act/1980/nn");
  }


  lemma NonNumericUriText()
    ensures Uri(NonNumeric) == "/za/act/1980/nn"
  {
    NonNumericSegments();
    NonNumericUriJoin();
    UriIs(NonNumeric, ["za", "act", "1980", "nn"], "/za/act/1980/nn");
  }


  lemma NonNumericWorkUriText()
    ensures WorkUri(NonNumeric) == "/za/act/1980/nn"
  {
    NonNumericUriText();
    WorkUriIs(NonNumeric, "/za/act/1980/nn", "/za/act/1980/nn");
  }

  lemma NonNumericWorkWellFormed()
    ensures WorkWellFormed(NonNumeric)
  {
    assert IsDate("1980");
  }

  /** test_uri.py:78-89: `/za/act/1980/nn`. */
  lemma ParsesNonNumeric()
    ensures Parse("/za/act/1980/nn") == Success(NonNumeric)
    ensures WorkUri(NonNumeric) == "/za/act/1980/nn"
  {
    NonNumericWorkUriText();
    NonNumericWorkWellFormed();
    WorkUriRoundTrip(NonNumeric);
  }

  const WorkComponent: FrbrUri := FrbrUri("za", None, "act", None, None, "1980", "2", Some("schedule1"), "eng", None, None, None, None)

  lemma WorkComponentSegments()
    ensures UriSegments(WorkComponent) == ["za", "act", "1980", "2"]
  {
    assert CountryToken(WorkComponent) == "za";
  }

  lemma WorkComponentUriJoin()
    ensures Join(["", "za", "act", "1980", "2"], '/') == "/za/act/1980/2"
  {
    JoinAppend([""], "za", ["", "za"], "", "/za");
    JoinAppend(["", "za"], "act", ["", "za", "act"], "/za", "/za/act");
    JoinAppend(["", "za", "act"], "1980", ["", "za", "act", "1980"], "/za/act", "/za/act/1980");
    JoinAppend(["", "za", "act", "1980"], "2", ["", "za", "act", "1980", "2"], "/za/act/1980", "/za/act/1980/2");
  }


  lemma WorkComponentUriText()
    ensures Uri(WorkComponent) == "/za/act/1980/2"
  {
    WorkComponentSegments();
    WorkComponentUriJoin();
    UriIs(WorkComponent, ["za", "act", "1980", "2"], "/za/act/1980/2");
  }


  lemma WorkComponentExpressionSegments()
    ensures ExpressionSegments(WorkComponent, ShownComponent(WorkComponent)) == ["eng", "schedule1"]
  {
    assert LanguageToken(WorkComponent) == "eng";
  }

  lemma WorkComponentLanguageJoin()
    ensures Join(["", "za", "act", "1980", "2", "eng"], '/') == "/za/act/1980/2/eng"
  {
    WorkComponentUriJoin();
    JoinAppend(["", "za", "act", "1980", "2"], "eng", ["", "za", "act", "1980", "2", "eng"], "/za/act/1980/2", "/za/act/1980/2/eng");
  }

  lemma WorkComponentExpressionJoin()
    ensures Join(["", "za", "act", "1980", "2", "eng", "schedule1"], '/') == "/za/act/1980/2/eng/schedule1"
  {
    WorkComponentLanguageJoin();
    JoinAppend(["", "za", "act", "1980", "2", "eng"], "schedule1", ["", "za", "act", "1980", "2", "eng", "schedule1"], "/za/act/1980/2/eng", "/za/act/1980/2/eng/schedule1");
  }


  lemma WorkComponentWorkUriText()
    ensures WorkUri(WorkComponent) == "/za/act/1980/2/schedule1"
  {
    WorkComponentUriText();
    WorkUriIs(WorkComponent, "/za/act/1980/2", "/za/act/1980/2/schedule1");
  }

  lemma WorkComponentExpressionUriText()
    ensures ExpressionUri(WorkComponent) == "/za/act/1980/2/eng/schedule1"
  {
    WorkComponentSegments();
    WorkComponentExpressionSegments();
    WorkComponentExpressionJoin();
    assert [""] + ["za", "act", "1980", "2"] + ["eng", "schedule1"] == ["", "za", "act", "1980", "2", "eng", "schedule1"];
    ExpressionUriIs(WorkComponent, ["za", "act", "1980", "2"], ["eng", "schedule1"], "/za/act/1980/2/eng/schedule1");
  }


  lemma WorkComponentWorkWellFormed()
    ensures WorkWellFormed(WorkComponent)
  {
    assert IsDate("1980");
    assert !IsLanguageToken("schedule1");
  }

  /** test_uri.py:91-106: `/za/act/1980/2/schedule1`. */
  lemma ParsesWorkComponent()
    ensures Parse("/za/act/1980/2/schedule1") == Success(WorkComponent)
    ensures WorkUri(WorkComponent) == "/za/act/1980/2/schedule1"
    ensures Uri(WorkComponent) == "/za/act/1980/2"
    ensures ExpressionUri(WorkComponent) == "/za/act/1980/2/eng/schedule1"
  {
    WorkComponentWorkUriText();
    WorkComponentUriText();
    WorkComponentExpressionUriText();
    WorkComponentWorkWellFormed();
    WorkUriRoundTrip(WorkComponent);
  }

  const AfrFirst: FrbrUri := FrbrUri("za", None, "act", None, None, "1980", "02", None, "afr", Some("@"), None, None, None)

  lemma AfrFirstSegments()
    ensures UriSegments(AfrFirst) == ["za", "act", "1980", "02"]
  {
    assert CountryToken(AfrFirst) == "za";
  }

  lemma AfrFirstUriJoin()
    ensures Join(["", "za", "act", "1980", "02"], '/') == "/za/act/1980/02"
  {
    JoinAppend([""], "za", ["", "za"], "", "/za");
    JoinAppend(["", "za"], "act", ["", "za", "act"], "/za", "/za/act");
    JoinAppend(["", "za", "act"], "1980", ["", "za", "act", "1980"], "/za/act", "/za/act/1980");
    JoinAppend(["", "za", "act", "1980"], "02", ["", "za", "act", "1980", "02"], "/za/act/1980", "/za/act/1980/02");
  }


  lemma AfrFirstUriText()
    ensures Uri(AfrFirst) == "/za/act/1980/02"
  {
    AfrFirstSegments();
    AfrFirstUriJoin();
    UriIs(AfrFirst, ["za", "act", "1980", "02"], "/za/act/1980/02");
  }


  lemma AfrFirstExpressionSegments()
    ensures ExpressionSegments(AfrFirst, ShownComponent(AfrFirst)) == ["afr@"]
  {
    assert LanguageToken(AfrFirst) == "afr@";
  }

  lemma AfrFirstExpressionJoin()
    ensures Join(["", "za", "act", "1980", "02", "afr@"], '/') == "/za/act/1980/02/afr@"
  {
    AfrFirstUriJoin();
    JoinAppend(["", "za", "act", "1980", "02"], "afr@", ["", "za", "act", "1980", "02", "afr@"], "/za/act/1980/02", "/za/act/1980/02/afr@");
  }


  lemma AfrFirstExpressionUriText()
    ensures ExpressionUri(AfrFirst) == "/za/act/1980/02/afr@"
  {
    AfrFirstSegments();
    AfrFirstExpressionSegments();
    AfrFirstExpressionJoin();
    assert [""] + ["za", "act", "1980", "02"] + ["afr@"] == ["", "za", "act", "1980", "02", "afr@"];
    ExpressionUriIs(AfrFirst, ["za", "act", "1980", "02"], ["afr@"], "/za/act/1980/02/afr@");
  }


  lemma AfrFirstWorkUriText()
    ensures WorkUri(AfrFirst) == "/za/act/1980/02"
  {
    AfrFirstUriText();
    WorkUriIs(AfrFirst, "/za/act/1980/02", "/za/act/1980/02");
  }

  lemma AfrFirstWorkWellFormed()
    ensures WorkWellFormed(AfrFirst)
  {
    assert IsDate("1980");
  }

  lemma AfrFirstDateMarker()
    ensures AfrFirst.expressionDate.Some? ==> var d := AfrFirst.expressionDate.value;
      |d| >= 1 && (d[0] == '@' || d[0] == ':') && '/' !in d && '.' !in d
  {
    assert '/' !in "@" && '.' !in "@";
  }

  lemma AfrFirstSubcomponent()
    ensures AfrFirst.expressionSubcomponent.Some? ==>
      ShownComponent(AfrFirst).Some? && IsExpressionPath(AfrFirst.expressionSubcomponent.value)
  {
  }

  lemma AfrFirstComponentShape()
    ensures ShownComponent(AfrFirst).Some? ==> IsExpressionSegment(ShownComponent(AfrFirst).value)
    ensures AfrFirst.format.Some? ==> IsExpressionSegment(AfrFirst.format.value)
  {
  }

  lemma AfrFirstReadable()
    ensures ExpressionReadable(AfrFirst, ShownComponent(AfrFirst))
  {
    AfrFirstDateMarker();
    AfrFirstSubcomponent();
    AfrFirstComponentShape();
  }

  lemma AfrFirstWellFormed()
    ensures ExpressionRoundTrips(AfrFirst)
  {
    AfrFirstWorkWellFormed();
    AfrFirstReadable();
  }

  /** test_uri.py:119-123: `/za/act/1980/02/afr@`. */
  lemma ParsesAfrFirst()
    ensures Parse("/za/act/1980/02/afr@") == Success(AfrFirst)
    ensures ExpressionUri(AfrFirst) == "/za/act/1980/02/afr@"
    ensures WorkUri(AfrFirst) == "/za/act/1980/02"
  {
    AfrFirstExpressionUriText();
    AfrFirstWorkUriText();
    AfrFirstWellFormed();
    ExpressionUriRoundTrip(AfrFirst);
  }

  const AfrDated: FrbrUri := FrbrUri("za", None, "act", None, None, "1980", "02", None, "afr", Some("@2014-01-01"), None, None, None)

  lemma AfrDatedSegments()
    ensures UriSegments(AfrDated) == ["za", "act", "1980", "02"]
  {
    assert CountryToken(AfrDated) == "za";
  }

  lemma AfrDatedUriJoin()
    ensures Join(["", "za", "act", "1980", "02"], '/') == "/za/act/1980/02"
  {
    JoinAppend([""], "za", ["", "za"], "", "/za");
    JoinAppend(["", "za"], "act", ["", "za", "act"], "/za", "/za/act");
    JoinAppend(["", "za", "act"], "1980", ["", "za", "act", "1980"], "/za/act", "/za/act/1980");
    JoinAppend(["", "za", "act", "1980"], "02", ["", "za", "act", "1980", "02"], "/za/act/1980", "/za/act/1980/02");
  }


  lemma AfrDatedUriText()
    ensures Uri(AfrDated) == "/za/act/1980/02"
  {
    AfrDatedSegments();
    AfrDatedUriJoin();
    UriIs(AfrDated, ["za", "act", "1980", "02"], "/za/act/1980/02");
  }


  lemma AfrDatedExpressionSegments()
    ensures ExpressionSegments(AfrDated, ShownComponent(AfrDated)) == ["afr@2014-01-01"]
  {
    assert LanguageToken(AfrDated) == "afr@2014-01-01";
  }

  lemma AfrDatedExpressionJoin()
    ensures Join(["", "za", "act", "1980", "02", "afr@2014-01-01"], '/') == "/za/act/1980/02/afr@2014-01-01"
  {
    AfrDatedUriJoin();
    JoinAppend(["", "za", "act", "1980", "02"], "afr@2014-01-01", ["", "za", "act", "1980", "02", "afr@2014-01-01"], "/za/act/1980/02", "/za/act/1980/02/afr@2014-01-01");
  }


  lemma AfrDatedExpressionUriText()
    ensures ExpressionUri(AfrDated) == "/za/act/1980/02/afr@2014-01-01"
  {
    AfrDatedSegments();
    AfrDatedExpressionSegments();
    AfrDatedExpressionJoin();
    assert [""] + ["za", "act", "1980", "02"] + ["afr@2014-01-01"] == ["", "za", "act", "1980", "02", "afr@2014-01-01"];
    ExpressionUriIs(AfrDated, ["za", "act", "1980", "02"], ["afr@2014-01-01"], "/za/act/1980/02/afr@2014-01-01");
  }


  lemma AfrDatedWorkUriText()
    ensures WorkUri(AfrDated) == "/za/act/1980/02"
  {
    AfrDatedUriText();
    WorkUriIs(AfrDated, "/za/act/1980/02", "/za/act/1980/02");
  }

  lemma AfrDatedWorkWellFormed()
    ensures WorkWellFormed(AfrDated)
  {
    assert IsDate("1980");
  }

  lemma AfrDatedDateMarker()
    ensures AfrDated.expressionDate.Some? ==> var d := AfrDated.expressionDate.value;
      |d| >= 1 && (d[0] == '@' || d[0] == ':') && '/' !in d && '.' !in d
  {
    assert '/' !in "@2014-01-01" && '.' !in "@2014-01-01";
  }

  lemma AfrDatedSubcomponent()
    ensures AfrDated.expressionSubcomponent.Some? ==>
      ShownComponent(AfrDated).Some? && IsExpressionPath(AfrDated.expressionSubcomponent.value)
  {
  }

  lemma AfrDatedComponentShape()
    ensures ShownComponent(AfrDated).Some? ==> IsExpressionSegment(ShownComponent(AfrDated).value)
    ensures AfrDated.format.Some? ==> IsExpressionSegment(AfrDated.format.value)
  {
  }

  lemma AfrDatedReadable()
    ensures ExpressionReadable(AfrDated, ShownComponent(AfrDated))
  {
    AfrDatedDateMarker();
    AfrDatedSubcomponent();
    AfrDatedComponentShape();
  }

  lemma AfrDatedWellFormed()
    ensures ExpressionRoundTrips(AfrDated)
  {
    AfrDatedWorkWellFormed();
    AfrDatedReadable();
  }

  /** test_uri.py:125-129: `/za/act/1980/02/afr@2014-01-01`. */
  lemma ParsesAfrDated()
    ensures Parse("/za/act/1980/02/afr@2014-01-01") == Success(AfrDated)
    ensures ExpressionUri(AfrDated) == "/za/act/1980/02/afr@2014-01-01"
    ensures WorkUri(AfrDated) == "/za/act/1980/02"
  {
    AfrDatedExpressionUriText();
    AfrDatedWorkUriText();
    AfrDatedWellFormed();
    ExpressionUriRoundTrip(AfrDated);
  }

  const AfrHtml: FrbrUri := FrbrUri("za", None, "act", None, None, "1980", "02", None, "afr", None, None, None, Some("html"))

  lemma AfrHtmlSegments()
    ensures UriSegments(AfrHtml) == ["za", "act", "1980", "02"]
  {
    assert CountryToken(AfrHtml) == "za";
  }

  lemma AfrHtmlUriJoin()
    ensures Join(["", "za", "act", "1980", "02"], '/') == "/za/act/1980/02"
  {
    JoinAppend([""], "za", ["", "za"], "", "/za");
    JoinAppend(["", "za"], "act", ["", "za", "act"], "/za", "/za/act");
    JoinAppend(["", "za", "act"], "1980", ["", "za", "act", "1980"], "/za/act", "/za/act/1980");
    JoinAppend(["", "za", "act", "1980"], "02", ["", "za", "act", "1980", "02"], "/za/act/1980", "/za/act/1980/02");
  }


  lemma AfrHtmlUriText()
    ensures Uri(AfrHtml) == "/za/act/1980/02"
  {
    AfrHtmlSegments();
    AfrHtmlUriJoin();
    UriIs(AfrHtml, ["za", "act", "1980", "02"], "/za/act/1980/02");
  }


  lemma AfrHtmlExpressionSegments()
    ensures ExpressionSegments(AfrHtml, ShownComponent(AfrHtml)) == ["afr"]
  {
    assert LanguageToken(AfrHtml) == "afr";
  }

  lemma AfrHtmlExpressionJoin()
    ensures Join(["", "za", "act", "1980", "02", "afr"], '/') == "/za/act/1980/02/afr"
  {
    AfrHtmlUriJoin();
    JoinAppend(["", "za", "act", "1980", "02"], "afr", ["", "za", "act", "1980", "02", "afr"], "/za/act/1980/02", "/za/act/1980/02/afr");
  }


  lemma AfrHtmlExpressionUriText()
    ensures ExpressionUri(AfrHtml) == "/za/act/1980/02/afr"
  {
    AfrHtmlSegments();
    AfrHtmlExpressionSegments();
    AfrHtmlExpressionJoin();
    assert [""] + ["za", "act", "1980", "02"] + ["afr"] == ["", "za", "act", "1980", "02", "afr"];
    ExpressionUriIs(AfrHtml, ["za", "act", "1980", "02"], ["afr"], "/za/act/1980/02/afr");
  }

  lemma AfrHtmlManifestationUriText()
    ensures ManifestationUri(AfrHtml) == "/za/act/1980/02/afr.html"
  {
    AfrHtmlExpressionUriText();
    assert FormatSuffix(AfrHtml) == ".html";
  }


  lemma AfrHtmlWorkWellFormed()
    ensures WorkWellFormed(AfrHtml)
  {
    assert IsDate("1980");
  }

  lemma AfrHtmlDateMarker()
    ensures AfrHtml.expressionDate.None?
  {
  }

  lemma AfrHtmlSubcomponent()
    ensures AfrHtml.expressionSubcomponent.Some? ==>
      ShownComponent(AfrHtml).Some? && IsExpressionPath(AfrHtml.expressionSubcomponent.value)
  {
  }

  lemma AfrHtmlComponentShape()
    ensures ShownComponent(AfrHtml).Some? ==> IsExpressionSegment(ShownComponent(AfrHtml).value)
    ensures AfrHtml.format.Some? ==> IsExpressionSegment(AfrHtml.format.value)
  {
  }

  lemma AfrHtmlReadable()
    ensures ExpressionReadable(AfrHtml, ShownComponent(AfrHtml))
  {
    AfrHtmlDateMarker();
    AfrHtmlSubcomponent();
    AfrHtmlComponentShape();
  }

  lemma AfrHtmlWellFormed()
    ensures ExpressionRoundTrips(AfrHtml)
  {
    AfrHtmlWorkWellFormed();
    AfrHtmlReadable();
  }

  /** test_uri.py:131-133: `/za/act/1980/02/afr.html`. */
  lemma ParsesAfrHtml()
    ensures Parse("/za/act/1980/02/afr.html") == Success(AfrHtml)
    ensures ManifestationUri(AfrHtml) == "/za/act/1980/02/afr.html"
  {
    AfrHtmlManifestationUriText();
    AfrHtmlWellFormed();
    ManifestationUriRoundTrip(AfrHtml);
  }

  const EngMain: FrbrUri := FrbrUri("za", None, "act", None, None, "1980", "02", None, "eng", None, Some("main"), None, None)

  lemma EngMainSegments()
    ensures UriSegments(EngMain) == ["za", "act", "1980", "02"]
  {
    assert CountryToken(EngMain) == "za";
  }

  lemma EngMainUriJoin()
    ensures Join(["", "za", "act", "1980", "02"], '/') == "/za/act/1980/02"
  {
    JoinAppend([""], "za", ["", "za"], "", "/za");
    JoinAppend(["", "za"], "act", ["", "za", "act"], "/za", "/za/act");
    JoinAppend(["", "za", "act"], "1980", ["", "za", "act", "1980"], "/za/act", "/za/act/1980");
    JoinAppend(["", "za", "act", "1980"], "02", ["", "za", "act", "1980", "02"], "/za/act/1980", "/za/act/1980/02");
  }


  lemma EngMainUriText()
    ensures Uri(EngMain) == "/za/act/1980/02"
  {
    EngMainSegments();
    EngMainUriJoin();
    UriIs(EngMain, ["za", "act", "1980", "02"], "/za/act/1980/02");
  }


  lemma EngMainExpressionSegments()
    ensures ExpressionSegments(EngMain, ShownComponent(EngMain)) == ["eng", "main"]
  {
    assert LanguageToken(EngMain) == "eng";
  }

  lemma EngMainLanguageJoin()
    ensures Join(["", "za", "act", "1980", "02", "eng"], '/') == "/za/act/1980/02/eng"
  {
    EngMainUriJoin();
    JoinAppend(["", "za", "act", "1980", "02"], "eng", ["", "za", "act", "1980", "02", "eng"], "/za/act/1980/02", "/za/act/1980/02/eng");
  }

  lemma EngMainExpressionJoin()
    ensures Join(["", "za", "act", "1980", "02", "eng", "main"], '/') == "/za/act/1980/02/eng/main"
  {
    EngMainLanguageJoin();
    JoinAppend(["", "za", "act", "1980", "02", "eng"], "main", ["", "za", "act", "1980", "02", "eng", "main"], "/za/act/1980/02/eng", "/za/act/1980/02/eng/main");
  }


  lemma EngMainExpressionUriText()
    ensures ExpressionUri(EngMain) == "/za/act/1980/02/eng/main"
  {
    EngMainSegments();
    EngMainExpressionSegments();
    EngMainExpressionJoin();
    assert [""] + ["za", "act", "1980", "02"] + ["eng", "main"] == ["", "za", "act", "1980", "02", "eng", "main"];
    ExpressionUriIs(EngMain, ["za", "act", "1980", "02"], ["eng", "main"], "/za/act/1980/02/eng/main");
  }


  lemma EngMainWorkWellFormed()
    ensures WorkWellFormed(EngMain)
  {
    assert IsDate("1980");
  }

  lemma EngMainDateMarker()
    ensures EngMain.expressionDate.None?
  {
  }

  lemma EngMainSubcomponent()
    ensures EngMain.expressionSubcomponent.Some? ==>
      ShownComponent(EngMain).Some? && IsExpressionPath(EngMain.expressionSubcomponent.value)
  {
    assert ShownComponent(EngMain) == Some("main");
  }

  lemma EngMainComponentShape()
    ensures ShownComponent(EngMain).Some? ==> IsExpressionSegment(ShownComponent(EngMain).value)
    ensures EngMain.format.Some? ==> IsExpressionSegment(EngMain.format.value)
  {
    assert ShownComponent(EngMain) == Some("main");
  }

  lemma EngMainReadable()
    ensures ExpressionReadable(EngMain, ShownComponent(EngMain))
  {
    EngMainDateMarker();
    EngMainSubcomponent();
    EngMainComponentShape();
  }

  lemma EngMainWellFormed()
    ensures ExpressionRoundTrips(EngMain)
  {
    EngMainWorkWellFormed();
    EngMainReadable();
  }

  /** test_uri.py:136-139: `/za/act/1980/02/eng/main`. */
  lemma ParsesEngMain()
    ensures Parse("/za/act/1980/02/eng/main") == Success(EngMain)
    ensures ExpressionUri(EngMain) == "/za/act/1980/02/eng/main"
  {
    EngMainExpressionUriText();
    EngMainWellFormed();
    ExpressionUriRoundTrip(EngMain);
  }

  const EngMainChapter: FrbrUri := FrbrUri("za", None, "act", None, None, "1980", "02", None, "eng", None, Some("main"), Some("chapter/2"), None)

  lemma EngMainChapterSubcomponentPath()
    ensures IsExpressionPath("chapter/2")
  {
    assert "chapter" + "/" + "2" == "chapter/2";
    TwoPartPath("chapter", "2");
  }

  lemma EngMainChapterSegments()
    ensures UriSegments(EngMainChapter) == ["za", "act", "1980", "02"]
  {
    assert CountryToken(EngMainChapter) == "za";
  }

  lemma EngMainChapterUriJoin()
    ensures Join(["", "za", "act", "1980", "02"], '/') == "/za/act/1980/02"
  {
    JoinAppend([""], "za", ["", "za"], "", "/za");
    JoinAppend(["", "za"], "act", ["", "za", "act"], "/za", "/za/act");
    JoinAppend(["", "za", "act"], "1980", ["", "za", "act", "1980"], "/za/act", "/za/act/1980");
    JoinAppend(["", "za", "act", "1980"], "02", ["", "za", "act", "1980", "02"], "/za/act/1980", "/za/act/1980/02");
  }


  lemma EngMainChapterUriText()
    ensures Uri(EngMainChapter) == "/za/act/1980/02"
  {
    EngMainChapterSegments();
    EngMainChapterUriJoin();
    UriIs(EngMainChapter, ["za", "act", "1980", "02"], "/za/act/1980/02");
  }


  lemma EngMainChapterExpressionSegments()
    ensures ExpressionSegments(EngMainChapter, ShownComponent(EngMainChapter)) == ["eng", "main", "chapter/2"]
  {
    assert LanguageToken(EngMainChapter) == "eng";
  }

  lemma EngMainChapterLanguageJoin()
    ensures Join(["", "za", "act", "1980", "02", "eng"], '/') == "/za/act/1980/02/eng"
  {
    EngMainChapterUriJoin();
    JoinAppend(["", "za", "act", "1980", "02"], "eng", ["", "za", "act", "1980", "02", "eng"], "/za/act/1980/02", "/za/act/1980/02/eng");
  }

  lemma EngMainChapterExpressionJoin()
    ensures Join(["", "za", "act", "1980", "02", "eng", "main", "chapter/2"], '/') == "/za/act/1980/02/eng/main/chapter/2"
  {
    EngMainChapterLanguageJoin();
    JoinAppend(["", "za", "act", "1980", "02", "eng"], "main", ["", "za", "act", "1980", "02", "eng", "main"], "/za/act/1980/02/eng", "/za/act/1980/02/eng/main");
    JoinAppend(["", "za", "act", "1980", "02", "eng", "main"], "chapter/2", ["", "za", "act", "1980", "02", "eng", "main", "chapter/2"], "/za/act/1980/02/eng/main", "/za/act/1980/02/eng/main/chapter/2");
  }


  lemma EngMainChapterExpressionUriText()
    ensures ExpressionUri(EngMainChapter) == "/za/act/1980/02/eng/main/chapter/2"
  {
    EngMainChapterSegments();
    EngMainChapterExpressionSegments();
    EngMainChapterExpressionJoin();
    assert [""] + ["za", "act", "1980", "02"] + ["eng", "main", "chapter/2"] == ["", "za", "act", "1980", "02", "eng", "main", "chapter/2"];
    ExpressionUriIs(EngMainChapter, ["za", "act", "1980", "02"], ["eng", "main", "chapter/2"], "/za/act/1980/02/eng/main/chapter/2");
  }


  lemma EngMainChapterWorkWellFormed()
    ensures WorkWellFormed(EngMainChapter)
  {
    assert IsDate("1980");
  }

  lemma EngMainChapterDateMarker()
    ensures EngMainChapter.expressionDate.None?
  {
  }

  lemma EngMainChapterSubcomponent()
    ensures EngMainChapter.expressionSubcomponent.Some? ==>
      ShownComponent(EngMainChapter).Some? && IsExpressionPath(EngMainChapter.expressionSubcomponent.value)
  {
    assert ShownComponent(EngMainChapter) == Some("main");
    EngMainChapterSubcomponentPath();
  }

  lemma EngMainChapterComponentShape()
    ensures ShownComponent(EngMainChapter).Some? ==> IsExpressionSegment(ShownComponent(EngMainChapter).value)
    ensures EngMainChapter.format.Some? ==> IsExpressionSegment(EngMainChapter.format.value)
  {
    assert ShownComponent(EngMainChapter) == Some("main");
  }

  lemma EngMainChapterReadable()
    ensures ExpressionReadable(EngMainChapter, ShownComponent(EngMainChapter))
  {
    EngMainChapterDateMarker();
    EngMainChapterSubcomponent();
    EngMainChapterComponentShape();
  }

  lemma EngMainChapterWellFormed()
    ensures ExpressionRoundTrips(EngMainChapter)
  {
    EngMainChapterWorkWellFormed();
    EngMainChapterReadable();
  }

  /** test_uri.py:141-145: `/za/act/1980/02/eng/main/chapter/2`. */
  lemma ParsesEngMainChapter()
    ensures Parse("/za/act/1980/02/eng/main/chapter/2") == Success(EngMainChapter)
    ensures ExpressionUri(EngMainChapter) == "/za/act/1980/02/eng/main/chapter/2"
  {
    EngMainChapterExpressionUriText();
    EngMainChapterWellFormed();
    ExpressionUriRoundTrip(EngMainChapter);
  }

  const FirstMainChapter: FrbrUri := FrbrUri("za", None, "act", None, None, "1980", "02", None, "eng", Some("@"), Some("main"), Some("chapter/2"), None)

  lemma FirstMainChapterSubcomponentPath()
    ensures IsExpressionPath("chapter/2")
  {
    assert "chapter" + "/" + "2" == "chapter/2";
    TwoPartPath("chapter", "2");
  }

  lemma FirstMainChapterSegments()
    ensures UriSegments(FirstMainChapter) == ["za", "act", "1980", "02"]
  {
    assert CountryToken(FirstMainChapter) == "za";
  }

  lemma FirstMainChapterUriJoin()
    ensures Join(["", "za", "act", "1980", "02"], '/') == "/za/act/1980/02"
  {
    JoinAppend([""], "za", ["", "za"], "", "/za");
    JoinAppend(["", "za"], "act", ["", "za", "act"], "/za", "/za/act");
    JoinAppend(["", "za", "act"], "1980", ["", "za", "act", "1980"], "/za/act", "/za/act/1980");
    JoinAppend(["", "za", "act", "1980"], "02", ["", "za", "act", "1980", "02"], "/za/act/1980", "/za/act/1980/02");
  }


  lemma FirstMainChapterUriText()
    ensures Uri(FirstMainChapter) == "/za/act/1980/02"
  {
    FirstMainChapterSegments();
    FirstMainChapterUriJoin();
    UriIs(FirstMainChapter, ["za", "act", "1980", "02"], "/za/act/1980/02");
  }


  lemma FirstMainChapterExpressionSegments()
    ensures ExpressionSegments(FirstMainChapter, ShownComponent(FirstMainChapter)) == ["eng@", "main", "chapter/2"]
  {
    assert LanguageToken(FirstMainChapter) == "eng@";
  }

  lemma FirstMainChapterLanguageJoin()
    ensures Join(["", "za", "act", "1980", "02", "eng@"], '/') == "/za/act/1980/02/eng@"
  {
    FirstMainChapterUriJoin();
    JoinAppend(["", "za", "act", "1980", "02"], "eng@", ["", "za", "act", "1980", "02", "eng@"], "/za/act/1980/02", "/za/act/1980/02/eng@");
  }

  lemma FirstMainChapterExpressionJoin()
    ensures Join(["", "za", "act", "1980", "02", "eng@", "main", "chapter/2"], '/') == "/za/act/1980/02/eng@/main/chapter/2"
  {
    FirstMainChapterLanguageJoin();
    JoinAppend(["", "za", "act", "1980", "02", "eng@"], "main", ["", "za", "act", "1980", "02", "eng@", "main"], "/za/act/1980/02/eng@", "/za/act/1980/02/eng@/main");
    JoinAppend(["", "za", "act", "1980", "02", "eng@", "main"], "chapter/2", ["", "za", "act", "1980", "02", "eng@", "main", "chapter/2"], "/za/act/1980/02/eng@/main", "/za/act/1980/02/eng@/main/chapter/2");
  }


  lemma FirstMainChapterExpressionUriText()
    ensures ExpressionUri(FirstMainChapter) == "/za/act/1980/02/eng@/main/chapter/2"
  {
    FirstMainChapterSegments();
    FirstMainChapterExpressionSegments();
    FirstMainChapterExpressionJoin();
    assert [""] + ["za", "act", "1980", "02"] + ["eng@", "main", "chapter/2"] == ["", "za", "act", "1980", "02", "eng@", "main", "chapter/2"];
    ExpressionUriIs(FirstMainChapter, ["za", "act", "1980", "02"], ["eng@", "main", "chapter/2"], "/za/act/1980/02/eng@/main/chapter/2");
  }


  lemma FirstMainChapterWorkWellFormed()
    ensures WorkWellFormed(FirstMainChapter)
  {
    assert IsDate("1980");
  }

  lemma FirstMainChapterDateMarker()
    ensures FirstMainChapter.expressionDate.Some? ==> var d := FirstMainChapter.expressionDate.value;
      |d| >= 1 && (d[0] == '@' || d[0] == ':') && '/' !in d && '.' !in d
  {
    assert '/' !in "@" && '.' !in "@";
  }

  lemma FirstMainChapterSubcomponent()
    ensures FirstMainChapter.expressionSubcomponent.Some? ==>
      ShownComponent(FirstMainChapter).Some? && IsExpressionPath(FirstMainChapter.expressionSubcomponent.value)
  {
    assert ShownComponent(FirstMainChapter) == Some("main");
    FirstMainChapterSubcomponentPath();
  }

  lemma FirstMainChapterComponentShape()
    ensures ShownComponent(FirstMainChapter).Some? ==> IsExpressionSegment(ShownComponent(FirstMainChapter).value)
    ensures FirstMainChapter.format.Some? ==> IsExpressionSegment(FirstMainChapter.format.value)
  {
    assert ShownComponent(FirstMainChapter) == Some("main");
  }

  lemma FirstMainChapterReadable()
    ensures ExpressionReadable(FirstMainChapter, ShownComponent(FirstMainChapter))
  {
    FirstMainChapterDateMarker();
    FirstMainChapterSubcomponent();
    FirstMainChapterComponentShape();
  }

  lemma FirstMainChapterWellFormed()
    ensures ExpressionRoundTrips(FirstMainChapter)
  {
    FirstMainChapterWorkWellFormed();
    FirstMainChapterReadable();
  }

  /** test_uri.py:147-151: `/za/act/1980/02/eng@/main/chapter/2`. */
  lemma ParsesFirstMainChapter()
    ensures Parse("/za/act/1980/02/eng@/main/chapter/2") == Success(FirstMainChapter)
    ensures ExpressionUri(FirstMainChapter) == "/za/act/1980/02/eng@/main/chapter/2"
  {
    FirstMainChapterExpressionUriText();
    FirstMainChapterWellFormed();
    ExpressionUriRoundTrip(FirstMainChapter);
  }

  const DatedMainSchedule: FrbrUri := FrbrUri("za", None, "act", None, None, "1980", "02", None, "eng", Some("@2014-01-01"), Some("main"), Some("schedule1"), None)

  lemma DatedMainScheduleSegments()
    ensures UriSegments(DatedMainSchedule) == ["za", "act", "1980", "02"]
  {
    assert CountryToken(DatedMainSchedule) == "za";
  }

  lemma DatedMainScheduleUriJoin()
    ensures Join(["", "za", "act", "1980", "02"], '/') == "/za/act/1980/02"
  {
    JoinAppend([""], "za", ["", "za"], "", "/za");
    JoinAppend(["", "za"], "act", ["", "za", "act"], "/za", "/za/act");
    JoinAppend(["", "za", "act"], "1980", ["", "za", "act", "1980"], "/za/act", "/za/act/1980");
    JoinAppend(["", "za", "act", "1980"], "02", ["", "za", "act", "1980", "02"], "/za/act/1980", "/za/act/1980/02");
  }


  lemma DatedMainScheduleUriText()
    ensures Uri(DatedMainSchedule) == "/za/act/1980/02"
  {
    DatedMainScheduleSegments();
    DatedMainScheduleUriJoin();
    UriIs(DatedMainSchedule, ["za", "act", "1980", "02"], "/za/act/1980/02");
  }


  lemma DatedMainScheduleExpressionSegments()
    ensures ExpressionSegments(DatedMainSchedule, ShownComponent(DatedMainSchedule)) == ["eng@2014-01-01", "main", "schedule1"]
  {
    assert LanguageToken(DatedMainSchedule) == "eng@2014-01-01";
  }

  lemma DatedMainScheduleLanguageJoin()
    ensures Join(["", "za", "act", "1980", "02", "eng@2014-01-01"], '/') == "/za/act/1980/02/eng@2014-01-01"
  {
    DatedMainScheduleUriJoin();
    JoinAppend(["", "za", "act", "1980", "02"], "eng@2014-01-01", ["", "za", "act", "1980", "02", "eng@2014-01-01"], "/za/act/1980/02", "/za/act/1980/02/eng@2014-01-01");
  }

  lemma DatedMainScheduleExpressionJoin()
    ensures Join(["", "za", "act", "1980", "02", "eng@2014-01-01", "main", "schedule1"], '/') == "/za/act/1980/02/eng@2014-01-01/main/schedule1"
  {
    DatedMainScheduleLanguageJoin();
    JoinAppend(["", "za", "act", "1980", "02", "eng@2014-01-01"], "main", ["", "za", "act", "1980", "02", "eng@2014-01-01", "main"], "/za/act/1980/02/eng@2014-01-01", "/za/act/1980/02/eng@2014-01-01/main");
    JoinAppend(["", "za", "act", "1980", "02", "eng@2014-01-01", "main"], "schedule1", ["", "za", "act", "1980", "02", "eng@2014-01-01", "main", "schedule1"], "/za/act/1980/02/eng@2014-01-01/main", "/za/act/1980/02/eng@2014-01-01/main/schedule1");
  }


  lemma DatedMainScheduleExpressionUriText()
    ensures ExpressionUri(DatedMainSchedule) == "/za/act/1980/02/eng@2014-01-01/main/schedule1"
  {
    DatedMainScheduleSegments();
    DatedMainScheduleExpressionSegments();
    DatedMainScheduleExpressionJoin();
    assert [""] + ["za", "act", "1980", "02"] + ["eng@2014-01-01", "main", "schedule1"] == ["", "za", "act", "1980", "02", "eng@2014-01-01", "main", "schedule1"];
    ExpressionUriIs(DatedMainSchedule, ["za", "act", "1980", "02"], ["eng@2014-01-01", "main", "schedule1"], "/za/act/1980/02/eng@2014-01-01/main/schedule1");
  }


  lemma DatedMainScheduleWorkWellFormed()
    ensures WorkWellFormed(DatedMainSchedule)
  {
    assert IsDate("1980");
  }

  lemma DatedMainScheduleDateMarker()
    ensures DatedMainSchedule.expressionDate.Some? ==> var d := DatedMainSchedule.expressionDate.value;
      |d| >= 1 && (d[0] == '@' || d[0] == ':') && '/' !in d && '.' !in d
  {
    assert '/' !in "@2014-01-01" && '.' !in "@2014-01-01";
  }

  lemma DatedMainScheduleSubcomponent()
    ensures DatedMainSchedule.expressionSubcomponent.Some? ==>
      ShownComponent(DatedMainSchedule).Some? && IsExpressionPath(DatedMainSchedule.expressionSubcomponent.value)
  {
    assert ShownComponent(DatedMainSchedule) == Some("main");
    OneSegmentPath("schedule1");
  }

  lemma DatedMainScheduleComponentShape()
    ensures ShownComponent(DatedMainSchedule).Some? ==> IsExpressionSegment(ShownComponent(DatedMainSchedule).value)
    ensures DatedMainSchedule.format.Some? ==> IsExpressionSegment(DatedMainSchedule.format.value)
  {
    assert ShownComponent(DatedMainSchedule) == Some("main");
  }

  lemma DatedMainScheduleReadable()
    ensures ExpressionReadable(DatedMainSchedule, ShownComponent(DatedMainSchedule))
  {
    DatedMainScheduleDateMarker();
    DatedMainScheduleSubcomponent();
    DatedMainScheduleComponentShape();
  }

  lemma DatedMainScheduleWellFormed()
    ensures ExpressionRoundTrips(DatedMainSchedule)
  {
    DatedMainScheduleWorkWellFormed();
    DatedMainScheduleReadable();
  }

  /** test_uri.py:153-163: `/za/act/1980/02/eng@2014-01-01/main/schedule1`. */
  lemma ParsesDatedMainSchedule()
    ensures Parse("/za/act/1980/02/eng@2014-01-01/main/schedule1") == Success(DatedMainSchedule)
    ensures ExpressionUri(DatedMainSchedule) == "/za/act/1980/02/eng@2014-01-01/main/schedule1"
  {
    DatedMainScheduleExpressionUriText();
    DatedMainScheduleWellFormed();
    ExpressionUriRoundTrip(DatedMainSchedule);
  }

  const EngChapter: FrbrUri := FrbrUri("za", None, "act", None, None, "1980", "02", None, "eng", None, Some("chapter"), Some("2"), None)

  lemma EngChapterSegments()
    ensures UriSegments(EngChapter) == ["za", "act", "1980", "02"]
  {
    assert CountryToken(EngChapter) == "za";
  }

  lemma EngChapterUriJoin()
    ensures Join(["", "za", "act", "1980", "02"], '/') == "/za/act/1980/02"
  {
    JoinAppend([""], "za", ["", "za"], "", "/za");
    JoinAppend(["", "za"], "act", ["", "za", "act"], "/za", "/za/act");
    JoinAppend(["", "za", "act"], "1980", ["", "za", "act", "1980"], "/za/act", "/za/act/1980");
    JoinAppend(["", "za", "act", "1980"], "02", ["", "za", "act", "1980", "02"], "/za/act/1980", "/za/act/1980/02");
  }


  lemma EngChapterUriText()
    ensures Uri(EngChapter) == "/za/act/1980/02"
  {
    EngChapterSegments();
    EngChapterUriJoin();
    UriIs(EngChapter, ["za", "act", "1980", "02"], "/za/act/1980/02");
  }


  lemma EngChapterExpressionSegments()
    ensures ExpressionSegments(EngChapter, ShownComponent(EngChapter)) == ["eng", "chapter", "2"]
  {
    assert LanguageToken(EngChapter) == "eng";
  }

  lemma EngChapterLanguageJoin()
    ensures Join(["", "za", "act", "1980", "02", "eng"], '/') == "/za/act/1980/02/eng"
  {
    EngChapterUriJoin();
    JoinAppend(["", "za", "act", "1980", "02"], "eng", ["", "za", "act", "1980", "02", "eng"], "/za/act/1980/02", "/za/act/1980/02/eng");
  }

  lemma EngChapterExpressionJoin()
    ensures Join(["", "za", "act", "1980", "02", "eng", "chapter", "2"], '/') == "/za/act/1980/02/eng/chapter/2"
  {
    EngChapterLanguageJoin();
    JoinAppend(["", "za", "act", "1980", "02", "eng"], "chapter", ["", "za", "act", "1980", "02", "eng", "chapter"], "/za/act/1980/02/eng", "/za/act/1980/02/eng/chapter");
    JoinAppend(["", "za", "act", "1980", "02", "eng", "chapter"], "2", ["", "za", "act", "1980", "02", "eng", "chapter", "2"], "/za/act/1980/02/eng/chapter", "/za/act/1980/02/eng/chapter/2");
  }


  lemma EngChapterExpressionUriText()
    ensures ExpressionUri(EngChapter) == "/za/act/1980/02/eng/chapter/2"
  {
    EngChapterSegments();
    EngChapterExpressionSegments();
    EngChapterExpressionJoin();
    assert [""] + ["za", "act", "1980", "02"] + ["eng", "chapter", "2"] == ["", "za", "act", "1980", "02", "eng", "chapter", "2"];
    ExpressionUriIs(EngChapter, ["za", "act", "1980", "02"], ["eng", "chapter", "2"], "/za/act/1980/02/eng/chapter/2");
  }


  lemma EngChapterWorkWellFormed()
    ensures WorkWellFormed(EngChapter)
  {
    assert IsDate("1980");
  }

  lemma EngChapterDateMarker()
    ensures EngChapter.expressionDate.None?
  {
  }

  lemma EngChapterSubcomponent()
    ensures EngChapter.expressionSubcomponent.Some? ==>
      ShownComponent(EngChapter).Some? && IsExpressionPath(EngChapter.expressionSubcomponent.value)
  {
    assert ShownComponent(EngChapter) == Some("chapter");
    OneSegmentPath("2");
  }

  lemma EngChapterComponentShape()
    ensures ShownComponent(EngChapter).Some? ==> IsExpressionSegment(ShownComponent(EngChapter).value)
    ensures EngChapter.format.Some? ==> IsExpressionSegment(EngChapter.format.value)
  {
    assert ShownComponent(EngChapter) == Some("chapter");
  }

  lemma EngChapterReadable()
    ensures ExpressionReadable(EngChapter, ShownComponent(EngChapter))
  {
    EngChapterDateMarker();
    EngChapterSubcomponent();
    EngChapterComponentShape();
  }

  lemma EngChapterWellFormed()
    ensures ExpressionRoundTrips(EngChapter)
  {
    EngChapterWorkWellFormed();
    EngChapterReadable();
  }

  /** test_uri.py:171-176: `/za/act/1980/02/eng/chapter/2`. */
  lemma ParsesEngChapter()
    ensures Parse("/za/act/1980/02/eng/chapter/2") == Success(EngChapter)
    ensures ExpressionUri(EngChapter) == "/za/act/1980/02/eng/chapter/2"
  {
    EngChapterExpressionUriText();
    EngChapterWellFormed();
    ExpressionUriRoundTrip(EngChapter);
  }

  const Eng: FrbrUri := FrbrUri("za", None, "act", None, None, "1980", "02", None, "eng", None, None, None, None)

  lemma EngSegments()
    ensures UriSegments(Eng) == ["za", "act", "1980", "02"]
  {
    assert CountryToken(Eng) == "za";
  }

  lemma EngUriJoin()
    ensures Join(["", "za", "act", "1980", "02"], '/') == "/za/act/1980/02"
  {
    JoinAppend([""], "za", ["", "za"], "", "/za");
    JoinAppend(["", "za"], "act", ["", "za", "act"], "/za", "/za/act");
    JoinAppend(["", "za", "act"], "1980", ["", "za", "act", "1980"], "/za/act", "/za/act/1980");
    JoinAppend(["", "za", "act", "1980"], "02", ["", "za", "act", "1980", "02"], "/za/act/1980", "/za/act/1980/02");
  }


  lemma EngUriText()
    ensures Uri(Eng) == "/za/act/1980/02"
  {
    EngSegments();
    EngUriJoin();
    UriIs(Eng, ["za", "act", "1980", "02"], "/za/act/1980/02");
  }


  lemma EngExpressionSegments()
    ensures ExpressionSegments(Eng, ShownComponent(Eng)) == ["eng"]
  {
    assert LanguageToken(Eng) == "eng";
  }

  lemma EngExpressionJoin()
    ensures Join(["", "za", "act", "1980", "02", "eng"], '/') == "/za/act/1980/02/eng"
  {
    EngUriJoin();
    JoinAppend(["", "za", "act", "1980", "02"], "eng", ["", "za", "act", "1980", "02", "eng"], "/za/act/1980/02", "/za/act/1980/02/eng");
  }


  lemma EngExpressionUriText()
    ensures ExpressionUri(Eng) == "/za/act/1980/02/eng"
  {
    EngSegments();
    EngExpressionSegments();
    EngExpressionJoin();
    assert [""] + ["za", "act", "1980", "02"] + ["eng"] == ["", "za", "act", "1980", "02", "eng"];
    ExpressionUriIs(Eng, ["za", "act", "1980", "02"], ["eng"], "/za/act/1980/02/eng");
  }


  lemma EngWorkWellFormed()
    ensures WorkWellFormed(Eng)
  {
    assert IsDate("1980");
  }

  lemma EngDateMarker()
    ensures Eng.expressionDate.None?
  {
  }

  lemma EngSubcomponent()
    ensures Eng.expressionSubcomponent.Some? ==>
      ShownComponent(Eng).Some? && IsExpressionPath(Eng.expressionSubcomponent.value)
  {
  }

  lemma EngComponentShape()
    ensures ShownComponent(Eng).Some? ==> IsExpressionSegment(ShownComponent(Eng).value)
    ensures Eng.format.Some? ==> IsExpressionSegment(Eng.format.value)
  {
  }

  lemma EngReadable()
    ensures ExpressionReadable(Eng, ShownComponent(Eng))
  {
    EngDateMarker();
    EngSubcomponent();
    EngComponentShape();
  }

  lemma EngWellFormed()
    ensures ExpressionRoundTrips(Eng)
  {
    EngWorkWellFormed();
    EngReadable();
  }

  /** test_uri.py:184-187: `/za/act/1980/02/eng`. */
  lemma ParsesEng()
    ensures Parse("/za/act/1980/02/eng") == Success(Eng)
    ensures ExpressionUri(Eng) == "/za/act/1980/02/eng"
  {
    EngExpressionUriText();
    EngWellFormed();
    ExpressionUriRoundTrip(Eng);
  }

  const EngFirst: FrbrUri := FrbrUri("za", None, "act", None, None, "1980", "02", None, "eng", Some("@"), None, None, None)

  lemma EngFirstSegments()
    ensures UriSegments(EngFirst) == ["za", "act", "1980", "02"]
  {
    assert CountryToken(EngFirst) == "za";
  }

  lemma EngFirstUriJoin()
    ensures Join(["", "za", "act", "1980", "02"], '/') == "/za/act/1980/02"
  {
    JoinAppend([""], "za", ["", "za"], "", "/za");
    JoinAppend(["", "za"], "act", ["", "za", "act"], "/za", "/za/act");
    JoinAppend(["", "za", "act"], "1980", ["", "za", "act", "1980"], "/za/act", "/za/act/1980");
    JoinAppend(["", "za", "act", "1980"], "02", ["", "za", "act", "1980", "02"], "/za/act/1980", "/za/act/1980/02");
  }


  lemma EngFirstUriText()
    ensures Uri(EngFirst) == "/za/act/1980/02"
  {
    EngFirstSegments();
    EngFirstUriJoin();
    UriIs(EngFirst, ["za", "act", "1980", "02"], "/za/act/1980/02");
  }


  lemma EngFirstExpressionSegments()
    ensures ExpressionSegments(EngFirst, ShownComponent(EngFirst)) == ["eng@"]
  {
    assert LanguageToken(EngFirst) == "eng@";
  }

  lemma EngFirstExpressionJoin()
    ensures Join(["", "za", "act", "1980", "02", "eng@"], '/') == "/za/act/1980/02/eng@"
  {
    EngFirstUriJoin();
    JoinAppend(["", "za", "act", "1980", "02"], "eng@", ["", "za", "act", "1980", "02", "eng@"], "/za/act/1980/02", "/za/act/1980/02/eng@");
  }


  lemma EngFirstExpressionUriText()
    ensures ExpressionUri(EngFirst) == "/za/act/1980/02/eng@"
  {
    EngFirstSegments();
    EngFirstExpressionSegments();
    EngFirstExpressionJoin();
    assert [""] + ["za", "act", "1980", "02"] + ["eng@"] == ["", "za", "act", "1980", "02", "eng@"];
    ExpressionUriIs(EngFirst, ["za", "act", "1980", "02"], ["eng@"], "/za/act/1980/02/eng@");
  }


  lemma EngFirstWorkWellFormed()
    ensures WorkWellFormed(EngFirst)
  {
    assert IsDate("1980");
  }

  lemma EngFirstDateMarker()
    ensures EngFirst.expressionDate.Some? ==> var d := EngFirst.expressionDate.value;
      |d| >= 1 && (d[0] == '@' || d[0] == ':') && '/' !in d && '.' !in d
  {
    assert '/' !in "@" && '.' !in "@";
  }

  lemma EngFirstSubcomponent()
    ensures EngFirst.expressionSubcomponent.Some? ==>
      ShownComponent(EngFirst).Some? && IsExpressionPath(EngFirst.expressionSubcomponent.value)
  {
  }

  lemma EngFirstComponentShape()
    ensures ShownComponent(EngFirst).Some? ==> IsExpressionSegment(ShownComponent(EngFirst).value)
    ensures EngFirst.format.Some? ==> IsExpressionSegment(EngFirst.format.value)
  {
  }

  lemma EngFirstReadable()
    ensures ExpressionReadable(EngFirst, ShownComponent(EngFirst))
  {
    EngFirstDateMarker();
    EngFirstSubcomponent();
    EngFirstComponentShape();
  }

  lemma EngFirstWellFormed()
    ensures ExpressionRoundTrips(EngFirst)
  {
    EngFirstWorkWellFormed();
    EngFirstReadable();
  }

  /** test_uri.py:193-196: `/za/act/1980/02/eng@`. */
  lemma ParsesEngFirst()
    ensures Parse("/za/act/1980/02/eng@") == Success(EngFirst)
    ensures ExpressionUri(EngFirst) == "/za/act/1980/02/eng@"
  {
    EngFirstExpressionUriText();
    EngFirstWellFormed();
    ExpressionUriRoundTrip(EngFirst);
  }

  const EngFirstMain: FrbrUri := FrbrUri("za", None, "act", None, None, "1980", "02", None, "eng", Some("@"), Some("main"), None, None)

  lemma EngFirstMainSegments()
    ensures UriSegments(EngFirstMain) == ["za", "act", "1980", "02"]
  {
    assert CountryToken(EngFirstMain) == "za";
  }

  lemma EngFirstMainUriJoin()
    ensures Join(["", "za", "act", "1980", "02"], '/') == "/za/act/1980/02"
  {
    JoinAppend([""], "za", ["", "za"], "", "/za");
    JoinAppend(["", "za"], "act", ["", "za", "act"], "/za", "/za/act");
    JoinAppend(["", "za", "act"], "1980", ["", "za", "act", "1980"], "/za/act", "/za/act/1980");
    JoinAppend(["", "za", "act", "1980"], "02", ["", "za", "act", "1980", "02"], "/za/act/1980", "/za/act/1980/02");
  }


  lemma EngFirstMainUriText()
    ensures Uri(EngFirstMain) == "/za/act/1980/02"
  {
    EngFirstMainSegments();
    EngFirstMainUriJoin();
    UriIs(EngFirstMain, ["za", "act", "1980", "02"], "/za/act/1980/02");
  }


  lemma EngFirstMainExpressionSegments()
    ensures ExpressionSegments(EngFirstMain, ShownComponent(EngFirstMain)) == ["eng@", "main"]
  {
    assert LanguageToken(EngFirstMain) == "eng@";
  }

  lemma EngFirstMainLanguageJoin()
    ensures Join(["", "za", "act", "1980", "02", "eng@"], '/') == "/za/act/1980/02/eng@"
  {
    EngFirstMainUriJoin();
    JoinAppend(["", "za", "act", "1980", "02"], "eng@", ["", "za", "act", "1980", "02", "eng@"], "/za/act/1980/02", "/za/act/1980/02/eng@");
  }

  lemma EngFirstMainExpressionJoin()
    ensures Join(["", "za", "act", "1980", "02", "eng@", "main"], '/') == "/za/act/1980/02/eng@/main"
  {
    EngFirstMainLanguageJoin();
    JoinAppend(["", "za", "act", "1980", "02", "eng@"], "main", ["", "za", "act", "1980", "02", "eng@", "main"], "/za/act/1980/02/eng@", "/za/act/1980/02/eng@/main");
  }


  lemma EngFirstMainExpressionUriText()
    ensures ExpressionUri(EngFirstMain) == "/za/act/1980/02/eng@/main"
  {
    EngFirstMainSegments();
    EngFirstMainExpressionSegments();
    EngFirstMainExpressionJoin();
    assert [""] + ["za", "act", "1980", "02"] + ["eng@", "main"] == ["", "za", "act", "1980", "02", "eng@", "main"];
    ExpressionUriIs(EngFirstMain, ["za", "act", "1980", "02"], ["eng@", "main"], "/za/act/1980/02/eng@/main");
  }


  lemma EngFirstMainWorkWellFormed()
    ensures WorkWellFormed(EngFirstMain)
  {
    assert IsDate("1980");
  }

  lemma EngFirstMainDateMarker()
    ensures EngFirstMain.expressionDate.Some? ==> var d := EngFirstMain.expressionDate.value;
      |d| >= 1 && (d[0] == '@' || d[0] == ':') && '/' !in d && '.' !in d
  {
    assert '/' !in "@" && '.' !in "@";
  }

  lemma EngFirstMainSubcomponent()
    ensures EngFirstMain.expressionSubcomponent.Some? ==>
      ShownComponent(EngFirstMain).Some? && IsExpressionPath(EngFirstMain.expressionSubcomponent.value)
  {
    assert ShownComponent(EngFirstMain) == Some("main");
  }

  lemma EngFirstMainComponentShape()
    ensures ShownComponent(EngFirstMain).Some? ==> IsExpressionSegment(ShownComponent(EngFirstMain).value)
    ensures EngFirstMain.format.Some? ==> IsExpressionSegment(EngFirstMain.format.value)
  {
    assert ShownComponent(EngFirstMain) == Some("main");
  }

  lemma EngFirstMainReadable()
    ensures ExpressionReadable(EngFirstMain, ShownComponent(EngFirstMain))
  {
    EngFirstMainDateMarker();
    EngFirstMainSubcomponent();
    EngFirstMainComponentShape();
  }

  lemma EngFirstMainWellFormed()
    ensures ExpressionRoundTrips(EngFirstMain)
  {
    EngFirstMainWorkWellFormed();
    EngFirstMainReadable();
  }

  /** test_uri.py:198-200: `/za/act/1980/02/eng@/main`. */
  lemma ParsesEngFirstMain()
    ensures Parse("/za/act/1980/02/eng@/main") == Success(EngFirstMain)
    ensures ExpressionUri(EngFirstMain) == "/za/act/1980/02/eng@/main"
  {
    EngFirstMainExpressionUriText();
    EngFirstMainWellFormed();
    ExpressionUriRoundTrip(EngFirstMain);
  }

  const EngColonMain: FrbrUri := FrbrUri("za", None, "act", None, None, "1980", "02", None, "eng", Some(":"), Some("main"), None, None)

  lemma EngColonMainSegments()
    ensures UriSegments(EngColonMain) == ["za", "act", "1980", "02"]
  {
    assert CountryToken(EngColonMain) == "za";
  }

  lemma EngColonMainUriJoin()
    ensures Join(["", "za", "act", "1980", "02"], '/') == "/za/act/1980/02"
  {
    JoinAppend([""], "za", ["", "za"], "", "/za");
    JoinAppend(["", "za"], "act", ["", "za", "act"], "/za", "/za/act");
    JoinAppend(["", "za", "act"], "1980", ["", "za", "act", "1980"], "/za/act", "/za/act/1980");
    JoinAppend(["", "za", "act", "1980"], "02", ["", "za", "act", "1980", "02"], "/za/act/1980", "/za/act/1980/02");
  }


  lemma EngColonMainUriText()
    ensures Uri(EngColonMain) == "/za/act/1980/02"
  {
    EngColonMainSegments();
    EngColonMainUriJoin();
    UriIs(EngColonMain, ["za", "act", "1980", "02"], "/za/act/1980/02");
  }


  lemma EngColonMainExpressionSegments()
    ensures ExpressionSegments(EngColonMain, ShownComponent(EngColonMain)) == ["eng:", "main"]
  {
    assert LanguageToken(EngColonMain) == "eng:";
  }

  lemma EngColonMainLanguageJoin()
    ensures Join(["", "za", "act", "1980", "02", "eng:"], '/') == "/za/act/1980/02/eng:"
  {
    EngColonMainUriJoin();
    JoinAppend(["", "za", "act", "1980", "02"], "eng:", ["", "za", "act", "1980", "02", "eng:"], "/za/act/1980/02", "/za/act/1980/02/eng:");
  }

  lemma EngColonMainExpressionJoin()
    ensures Join(["", "za", "act", "1980", "02", "eng:", "main"], '/') == "/za/act/1980/02/eng:/main"
  {
    EngColonMainLanguageJoin();
    JoinAppend(["", "za", "act", "1980", "02", "eng:"], "main", ["", "za", "act", "1980", "02", "eng:", "main"], "/za/act/1980/02/eng:", "/za/act/1980/02/eng:/main");
  }


  lemma EngColonMainExpressionUriText()
    ensures ExpressionUri(EngColonMain) == "/za/act/1980/02/eng:/main"
  {
    EngColonMainSegments();
    EngColonMainExpressionSegments();
    EngColonMainExpressionJoin();
    assert [""] + ["za", "act", "1980", "02"] + ["eng:", "main"] == ["", "za", "act", "1980", "02", "eng:", "main"];
    ExpressionUriIs(EngColonMain, ["za", "act", "1980", "02"], ["eng:", "main"], "/za/act/1980/02/eng:/main");
  }


  lemma EngColonMainWorkWellFormed()
    ensures WorkWellFormed(EngColonMain)
  {
    assert IsDate("1980");
  }

  lemma EngColonMainDateMarker()
    ensures EngColonMain.expressionDate.Some? ==> var d := EngColonMain.expressionDate.value;
      |d| >= 1 && (d[0] == '@' || d[0] == ':') && '/' !in d && '.' !in d
  {
    assert '/' !in ":" && '.' !in ":";
  }

  lemma EngColonMainSubcomponent()
    ensures EngColonMain.expressionSubcomponent.Some? ==>
      ShownComponent(EngColonMain).Some? && IsExpressionPath(EngColonMain.expressionSubcomponent.value)
  {
    assert ShownComponent(EngColonMain) == Some("main");
  }

  lemma EngColonMainComponentShape()
    ensures ShownComponent(EngColonMain).Some? ==> IsExpressionSegment(ShownComponent(EngColonMain).value)
    ensures EngColonMain.format.Some? ==> IsExpressionSegment(EngColonMain.format.value)
  {
    assert ShownComponent(EngColonMain) == Some("main");
  }

  lemma EngColonMainReadable()
    ensures ExpressionReadable(EngColonMain, ShownComponent(EngColonMain))
  {
    EngColonMainDateMarker();
    EngColonMainSubcomponent();
    EngColonMainComponentShape();
  }

  lemma EngColonMainWellFormed()
    ensures ExpressionRoundTrips(EngColonMain)
  {
    EngColonMainWorkWellFormed();
    EngColonMainReadable();
  }

  /** test_uri.py:202-204: `/za/act/1980/02/eng:/main`. */
  lemma ParsesEngColonMain()
    ensures Parse("/za/act/1980/02/eng:/main") == Success(EngColonMain)
    ensures ExpressionUri(EngColonMain) == "/za/act/1980/02/eng:/main"
  {
    EngColonMainExpressionUriText();
    EngColonMainWellFormed();
    ExpressionUriRoundTrip(EngColonMain);
  }

  const EngColonDatedMain: FrbrUri := FrbrUri("za", None, "act", None, None, "1980", "02", None, "eng", Some(":2012-01-01"), Some("main"), None, None)

  lemma EngColonDatedMainSegments()
    ensures UriSegments(EngColonDatedMain) == ["za", "act", "1980", "02"]
  {
    assert CountryToken(EngColonDatedMain) == "za";
  }

  lemma EngColonDatedMainUriJoin()
    ensures Join(["", "za", "act", "1980", "02"], '/') == "/za/act/1980/02"
  {
    JoinAppend([""], "za", ["", "za"], "", "/za");
    JoinAppend(["", "za"], "act", ["", "za", "act"], "/za", "/za/act");
    JoinAppend(["", "za", "act"], "1980", ["", "za", "act", "1980"], "/za/act", "/za/act/1980");
    JoinAppend(["", "za", "act", "1980"], "02", ["", "za", "act", "1980", "02"], "/za/act/1980", "/za/act/1980/02");
  }


  lemma EngColonDatedMainUriText()
    ensures Uri(EngColonDatedMain) == "/za/act/1980/02"
  {
    EngColonDatedMainSegments();
    EngColonDatedMainUriJoin();
    UriIs(EngColonDatedMain, ["za", "act", "1980", "02"], "/za/act/1980/02");
  }


  lemma EngColonDatedMainExpressionSegments()
    ensures ExpressionSegments(EngColonDatedMain, ShownComponent(EngColonDatedMain)) == ["eng:2012-01-01", "main"]
  {
    assert LanguageToken(EngColonDatedMain) == "eng:2012-01-01";
  }

  lemma EngColonDatedMainLanguageJoin()
    ensures Join(["", "za", "act", "1980", "02", "eng:2012-01-01"], '/') == "/za/act/1980/02/eng:2012-01-01"
  {
    EngColonDatedMainUriJoin();
    JoinAppend(["", "za", "act", "1980", "02"], "eng:2012-01-01", ["", "za", "act", "1980", "02", "eng:2012-01-01"], "/za/act/1980/02", "/za/act/1980/02/eng:2012-01-01");
  }

  lemma EngColonDatedMainExpressionJoin()
    ensures Join(["", "za", "act", "1980", "02", "eng:2012-01-01", "main"], '/') == "/za/act/1980/02/eng:2012-01-01/main"
  {
    EngColonDatedMainLanguageJoin();
    JoinAppend(["", "za", "act", "1980", "02", "eng:2012-01-01"], "main", ["", "za", "act", "1980", "02", "eng:2012-01-01", "main"], "/za/act/1980/02/eng:2012-01-01", "/za/act/1980/02/eng:2012-01-01/main");
  }


  lemma EngColonDatedMainExpressionUriText()
    ensures ExpressionUri(EngColonDatedMain) == "/za/act/1980/02/eng:2012-01-01/main"
  {
    EngColonDatedMainSegments();
    EngColonDatedMainExpressionSegments();
    EngColonDatedMainExpressionJoin();
    assert [""] + ["za", "act", "1980", "02"] + ["eng:2012-01-01", "main"] == ["", "za", "act", "1980", "02", "eng:2012-01-01", "main"];
    ExpressionUriIs(EngColonDatedMain, ["za", "act", "1980", "02"], ["eng:2012-01-01", "main"], "/za/act/1980/02/eng:2012-01-01/main");
  }


  lemma EngColonDatedMainWorkWellFormed()
    ensures WorkWellFormed(EngColonDatedMain)
  {
    assert IsDate("1980");
  }

  lemma EngColonDatedMainDateMarker()
    ensures EngColonDatedMain.expressionDate.Some? ==> var d := EngColonDatedMain.expressionDate.value;
      |d| >= 1 && (d[0] == '@' || d[0] == ':') && '/' !in d && '.' !in d
  {
    assert '/' !in ":2012-01-01" && '.' !in ":2012-01-01";
  }

  lemma EngColonDatedMainSubcomponent()
    ensures EngColonDatedMain.expressionSubcomponent.Some? ==>
      ShownComponent(EngColonDatedMain).Some? && IsExpressionPath(EngColonDatedMain.expressionSubcomponent.value)
  {
    assert ShownComponent(EngColonDatedMain) == Some("main");
  }

  lemma EngColonDatedMainComponentShape()
    ensures ShownComponent(EngColonDatedMain).Some? ==> IsExpressionSegment(ShownComponent(EngColonDatedMain).value)
    ensures EngColonDatedMain.format.Some? ==> IsExpressionSegment(EngColonDatedMain.format.value)
  {
    assert ShownComponent(EngColonDatedMain) == Some("main");
  }

  lemma EngColonDatedMainReadable()
    ensures ExpressionReadable(EngColonDatedMain, ShownComponent(EngColonDatedMain))
  {
    EngColonDatedMainDateMarker();
    EngColonDatedMainSubcomponent();
    EngColonDatedMainComponentShape();
  }

  lemma EngColonDatedMainWellFormed()
    ensures ExpressionRoundTrips(EngColonDatedMain)
  {
    EngColonDatedMainWorkWellFormed();
    EngColonDatedMainReadable();
  }

  /** test_uri.py:206-208: `/za/act/1980/02/eng:2012-01-01/main`. */
  lemma ParsesEngColonDatedMain()
    ensures Parse("/za/act/1980/02/eng:2012-01-01/main") == Success(EngColonDatedMain)
    ensures ExpressionUri(EngColonDatedMain) == "/za/act/1980/02/eng:2012-01-01/main"
  {
    EngColonDatedMainExpressionUriText();
    EngColonDatedMainWellFormed();
    ExpressionUriRoundTrip(EngColonDatedMain);
  }

  const Act1980Two: FrbrUri := FrbrUri("za", None, "act", None, None, "1980", "2", None, "eng", None, None, None, None)

  lemma Act1980TwoSegments()
    ensures UriSegments(Act1980Two) == ["za", "act", "1980", "2"]
  {
    assert CountryToken(Act1980Two) == "za";
  }

  lemma Act1980TwoUriJoin()
    ensures Join(["", "za", "act", "1980", "2"], '/') == "/za/act/1980/2"
  {
    JoinAppend([""], "za", ["", "za"], "", "/za");
    JoinAppend(["", "za"], "act", ["", "za", "act"], "/za", "/za/act");
    JoinAppend(["", "za", "act"], "1980", ["", "za", "act", "1980"], "/za/act", "/za/act/1980");
    JoinAppend(["", "za", "act", "1980"], "2", ["", "za", "act", "1980", "2"], "/za/act/1980", "/za/act/1980/2");
  }


  lemma Act1980TwoUriText()
    ensures Uri(Act1980Two) == "/za/act/1980/2"
  {
    Act1980TwoSegments();
    Act1980TwoUriJoin();
    UriIs(Act1980Two, ["za", "act", "1980", "2"], "/za/act/1980/2");
  }


  lemma Act1980TwoWorkUriText()
    ensures WorkUri(Act1980Two) == "/za/act/1980/2"
  {
    Act1980TwoUriText();
    WorkUriIs(Act1980Two, "/za/act/1980/2", "/za/act/1980/2");
  }

  lemma Act1980TwoWorkWellFormed()
    ensures WorkWellFormed(Act1980Two)
  {
    assert IsDate("1980");
  }

  /** test_uri.py:108-109: `/za/act/1980/2`. */
  lemma ParsesAct1980Two()
    ensures Parse("/za/act/1980/2") == Success(Act1980Two)
    ensures WorkUri(Act1980Two) == "/za/act/1980/2"
  {
    Act1980TwoWorkUriText();
    Act1980TwoWorkWellFormed();
    WorkUriRoundTrip(Act1980Two);
  }

  const Components: FrbrUri := FrbrUri("za", None, "act", None, None, "1980", "2", Some("main"), "eng", None, Some("schedule1"), Some("chapter/2"), None)

  lemma ComponentsSegments()
    ensures UriSegments(Components) == ["za", "act", "1980", "2"]
  {
    assert CountryToken(Components) == "za";
  }

  lemma ComponentsUriJoin()
    ensures Join(["", "za", "act", "1980", "2"], '/') == "/za/act/1980/2"
  {
    JoinAppend([""], "za", ["", "za"], "", "/za");
    JoinAppend(["", "za"], "act", ["", "za", "act"], "/za", "/za/act");
    JoinAppend(["", "za", "act"], "1980", ["", "za", "act", "1980"], "/za/act", "/za/act/1980");
    JoinAppend(["", "za", "act", "1980"], "2", ["", "za", "act", "1980", "2"], "/za/act/1980", "/za/act/1980/2");
  }


  lemma ComponentsUriText()
    ensures Uri(Components) == "/za/act/1980/2"
  {
    ComponentsSegments();
    ComponentsUriJoin();
    UriIs(Components, ["za", "act", "1980", "2"], "/za/act/1980/2");
  }


  lemma ComponentsExpressionSegments()
    ensures ExpressionSegments(Components, ShownComponent(Components)) == ["eng", "schedule1", "chapter/2"]
  {
    assert LanguageToken(Components) == "eng";
  }

  lemma ComponentsLanguageJoin()
    ensures Join(["", "za", "act", "1980", "2", "eng"], '/') == "/za/act/1980/2/eng"
  {
    ComponentsUriJoin();
    JoinAppend(["", "za", "act", "1980", "2"], "eng", ["", "za", "act", "1980", "2", "eng"], "/za/act/1980/2", "/za/act/1980/2/eng");
  }

  lemma ComponentsExpressionJoin()
    ensures Join(["", "za", "act", "1980", "2", "eng", "schedule1", "chapter/2"], '/') == "/za/act/1980/2/eng/schedule1/chapter/2"
  {
    ComponentsLanguageJoin();
    JoinAppend(["", "za", "act", "1980", "2", "eng"], "schedule1", ["", "za", "act", "1980", "2", "eng", "schedule1"], "/za/act/1980/2/eng", "/za/act/1980/2/eng/schedule1");
    JoinAppend(["", "za", "act", "1980", "2", "eng", "schedule1"], "chapter/2", ["", "za", "act", "1980", "2", "eng", "schedule1", "chapter/2"], "/za/act/1980/2/eng/schedule1", "/za/act/1980/2/eng/schedule1/chapter/2");
  }


  lemma ComponentsWorkUriText()
    ensures WorkUri(Components) == "/za/act/1980/2/main"
  {
    ComponentsUriText();
    WorkUriIs(Components, "/za/act/1980/2", "/za/act/1980/2/main");
  }

  lemma ComponentsExpressionUriText()
    ensures ExpressionUri(Components) == "/za/act/1980/2/eng/schedule1/chapter/2"
  {
    ComponentsSegments();
    ComponentsExpressionSegments();
    ComponentsExpressionJoin();
    assert [""] + ["za", "act", "1980", "2"] + ["eng", "schedule1", "chapter/2"] == ["", "za", "act", "1980", "2", "eng", "schedule1", "chapter/2"];
    ExpressionUriIs(Components, ["za", "act", "1980", "2"], ["eng", "schedule1", "chapter/2"], "/za/act/1980/2/eng/schedule1/chapter/2");
  }


  const DatedMainHtml: FrbrUri := FrbrUri("za", None, "act", None, None, "1980", "02", None, "eng", Some("@2014-01-01"), Some("main"), None, Some("html"))

  lemma DatedMainHtmlSegments()
    ensures UriSegments(DatedMainHtml) == ["za", "act", "1980", "02"]
  {
    assert CountryToken(DatedMainHtml) == "za";
  }

  lemma DatedMainHtmlUriJoin()
    ensures Join(["", "za", "act", "1980", "02"], '/') == "/za/act/1980/02"
  {
    JoinAppend([""], "za", ["", "za"], "", "/za");
    JoinAppend(["", "za"], "act", ["", "za", "act"], "/za", "/za/act");
    JoinAppend(["", "za", "act"], "1980", ["", "za", "act", "1980"], "/za/act", "/za/act/1980");
    JoinAppend(["", "za", "act", "1980"], "02", ["", "za", "act", "1980", "02"], "/za/act/1980", "/za/act/1980/02");
  }


  lemma DatedMainHtmlUriText()
    ensures Uri(DatedMainHtml) == "/za/act/1980/02"
  {
    DatedMainHtmlSegments();
    DatedMainHtmlUriJoin();
    UriIs(DatedMainHtml, ["za", "act", "1980", "02"], "/za/act/1980/02");
  }


  lemma DatedMainHtmlExpressionSegments()
    ensures ExpressionSegments(DatedMainHtml, ShownComponent(DatedMainHtml)) == ["eng@2014-01-01", "main"]
  {
    assert LanguageToken(DatedMainHtml) == "eng@2014-01-01";
  }

  lemma DatedMainHtmlLanguageJoin()
    ensures Join(["", "za", "act", "1980", "02", "eng@2014-01-01"], '/') == "/za/act/1980/02/eng@2014-01-01"
  {
    DatedMainHtmlUriJoin();
    JoinAppend(["", "za", "act", "1980", "02"], "eng@2014-01-01", ["", "za", "act", "1980", "02", "eng@2014-01-01"], "/za/act/1980/02", "/za/act/1980/02/eng@2014-01-01");
  }

  lemma DatedMainHtmlExpressionJoin()
    ensures Join(["", "za", "act", "1980", "02", "eng@2014-01-01", "main"], '/') == "/za/act/1980/02/eng@2014-01-01/main"
  {
    DatedMainHtmlLanguageJoin();
    JoinAppend(["", "za", "act", "1980", "02", "eng@2014-01-01"], "main", ["", "za", "act", "1980", "02", "eng@2014-01-01", "main"], "/za/act/1980/02/eng@2014-01-01", "/za/act/1980/02/eng@2014-01-01/main");
  }


  lemma DatedMainHtmlExpressionUriText()
    ensures ExpressionUri(DatedMainHtml) == "/za/act/1980/02/eng@2014-01-01/main"
  {
    DatedMainHtmlSegments();
    DatedMainHtmlExpressionSegments();
    DatedMainHtmlExpressionJoin();
    assert [""] + ["za", "act", "1980", "02"] + ["eng@2014-01-01", "main"] == ["", "za", "act", "1980", "02", "eng@2014-01-01", "main"];
    ExpressionUriIs(DatedMainHtml, ["za", "act", "1980", "02"], ["eng@2014-01-01", "main"], "/za/act/1980/02/eng@2014-01-01/main");
  }


  lemma DatedMainHtmlManifestationUriText()
    ensures ManifestationUri(DatedMainHtml) == "/za/act/1980/02/eng@2014-01-01/main.html"
  {
    DatedMainHtmlExpressionUriText();
    assert FormatSuffix(DatedMainHtml) == ".html";
  }

  const DatedMainHtmlChapter: FrbrUri := FrbrUri("za", None, "act", None, None, "1980", "02", None, "eng", Some("@2014-01-01"), Some("main"), Some("chapter/2"), Some("html"))

  lemma DatedMainHtmlChapterSegments()
    ensures UriSegments(DatedMainHtmlChapter) == ["za", "act", "1980", "02"]
  {
    assert CountryToken(DatedMainHtmlChapter) == "za";
  }

  lemma DatedMainHtmlChapterUriJoin()
    ensures Join(["", "za", "act", "1980", "02"], '/') == "/za/act/1980/02"
  {
    JoinAppend([""], "za", ["", "za"], "", "/za");
    JoinAppend(["", "za"], "act", ["", "za", "act"], "/za", "/za/act");
    JoinAppend(["", "za", "act"], "1980", ["", "za", "act", "1980"], "/za/act", "/za/act/1980");
    JoinAppend(["", "za", "act", "1980"], "02", ["", "za", "act", "1980", "02"], "/za/act/1980", "/za/act/1980/02");
  }


  lemma DatedMainHtmlChapterUriText()
    ensures Uri(DatedMainHtmlChapter) == "/za/act/1980/02"
  {
    DatedMainHtmlChapterSegments();
    DatedMainHtmlChapterUriJoin();
    UriIs(DatedMainHtmlChapter, ["za", "act", "1980", "02"], "/za/act/1980/02");
  }


  lemma DatedMainHtmlChapterExpressionSegments()
    ensures ExpressionSegments(DatedMainHtmlChapter, ShownComponent(DatedMainHtmlChapter)) == ["eng@2014-01-01", "main", "chapter/2"]
  {
    assert LanguageToken(DatedMainHtmlChapter) == "eng@2014-01-01";
  }

  lemma DatedMainHtmlChapterLanguageJoin()
    ensures Join(["", "za", "act", "1980", "02", "eng@2014-01-01"], '/') == "/za/act/1980/02/eng@2014-01-01"
  {
    DatedMainHtmlChapterUriJoin();
    JoinAppend(["", "za", "act", "1980", "02"], "eng@2014-01-01", ["", "za", "act", "1980", "02", "eng@2014-01-01"], "/za/act/1980/02", "/za/act/1980/02/eng@2014-01-01");
  }

  lemma DatedMainHtmlChapterExpressionJoin()
    ensures Join(["", "za", "act", "1980", "02", "eng@2014-01-01", "main", "chapter/2"], '/') == "/za/act/1980/02/eng@2014-01-01/main/chapter/2"
  {
    DatedMainHtmlChapterLanguageJoin();
    JoinAppend(["", "za", "act", "1980", "02", "eng@2014-01-01"], "main", ["", "za", "act", "1980", "02", "eng@2014-01-01", "main"], "/za/act/1980/02/eng@2014-01-01", "/za/act/1980/02/eng@2014-01-01/main");
    JoinAppend(["", "za", "act", "1980", "02", "eng@2014-01-01", "main"], "chapter/2", ["", "za", "act", "1980", "02", "eng@2014-01-01", "main", "chapter/2"], "/za/act/1980/02/eng@2014-01-01/main", "/za/act/1980/02/eng@2014-01-01/main/chapter/2");
  }


  lemma DatedMainHtmlChapterExpressionUriText()
    ensures ExpressionUri(DatedMainHtmlChapter) == "/za/act/1980/02/eng@2014-01-01/main/chapter/2"
  {
    DatedMainHtmlChapterSegments();
    DatedMainHtmlChapterExpressionSegments();
    DatedMainHtmlChapterExpressionJoin();
    assert [""] + ["za", "act", "1980", "02"] + ["eng@2014-01-01", "main", "chapter/2"] == ["", "za", "act", "1980", "02", "eng@2014-01-01", "main", "chapter/2"];
    ExpressionUriIs(DatedMainHtmlChapter, ["za", "act", "1980", "02"], ["eng@2014-01-01", "main", "chapter/2"], "/za/act/1980/02/eng@2014-01-01/main/chapter/2");
  }


  const SubcomponentOnly: FrbrUri := FrbrUri("za", None, "act", None, None, "1980", "02", None, "eng", None, None, Some("chapter/2"), None)

  lemma SubcomponentOnlySegments()
    ensures UriSegments(SubcomponentOnly) == ["za", "act", "1980", "02"]
  {
    assert CountryToken(SubcomponentOnly) == "za";
  }

  lemma SubcomponentOnlyUriJoin()
    ensures Join(["", "za", "act", "1980", "02"], '/') == "/za/act/1980/02"
  {
    JoinAppend([""], "za", ["", "za"], "", "/za");
    JoinAppend(["", "za"], "act", ["", "za", "act"], "/za", "/za/act");
    JoinAppend(["", "za", "act"], "1980", ["", "za", "act", "1980"], "/za/act", "/za/act/1980");
    JoinAppend(["", "za", "act", "1980"], "02", ["", "za", "act", "1980", "02"], "/za/act/1980", "/za/act/1980/02");
  }


  lemma SubcomponentOnlyUriText()
    ensures Uri(SubcomponentOnly) == "/za/act/1980/02"
  {
    SubcomponentOnlySegments();
    SubcomponentOnlyUriJoin();
    UriIs(SubcomponentOnly, ["za", "act", "1980", "02"], "/za/act/1980/02");
  }


  lemma SubcomponentOnlyExpressionSegments()
    ensures ExpressionSegments(SubcomponentOnly, ShownComponent(SubcomponentOnly)) == ["eng", "chapter/2"]
  {
    assert LanguageToken(SubcomponentOnly) == "eng";
  }

  lemma SubcomponentOnlyLanguageJoin()
    ensures Join(["", "za", "act", "1980", "02", "eng"], '/') == "/za/act/1980/02/eng"
  {
    SubcomponentOnlyUriJoin();
    JoinAppend(["", "za", "act", "1980", "02"], "eng", ["", "za", "act", "1980", "02", "eng"], "/za/act/1980/02", "/za/act/1980/02/eng");
  }

  lemma SubcomponentOnlyExpressionJoin()
    ensures Join(["", "za", "act", "1980", "02", "eng", "chapter/2"], '/') == "/za/act/1980/02/eng/chapter/2"
  {
    SubcomponentOnlyLanguageJoin();
    JoinAppend(["", "za", "act", "1980", "02", "eng"], "chapter/2", ["", "za", "act", "1980", "02", "eng", "chapter/2"], "/za/act/1980/02/eng", "/za/act/1980/02/eng/chapter/2");
  }


  lemma SubcomponentOnlyExpressionUriText()
    ensures ExpressionUri(SubcomponentOnly) == "/za/act/1980/02/eng/chapter/2"
  {
    SubcomponentOnlySegments();
    SubcomponentOnlyExpressionSegments();
    SubcomponentOnlyExpressionJoin();
    assert [""] + ["za", "act", "1980", "02"] + ["eng", "chapter/2"] == ["", "za", "act", "1980", "02", "eng", "chapter/2"];
    ExpressionUriIs(SubcomponentOnly, ["za", "act", "1980", "02"], ["eng", "chapter/2"], "/za/act/1980/02/eng/chapter/2");
  }

  /** test_uri.py:108-116: setting the components of a parsed work URI. */
  lemma SetComponents()
    ensures Parse("/za/act/1980/2") == Success(Act1980Two)
    ensures var u := Act1980Two.(workComponent := Some("main"), expressionComponent := Some("schedule1"),
                                 expressionSubcomponent := Some("chapter/2"));
      && Uri(u) == "/za/act/1980/2"
      && WorkUri(u) == "/za/act/1980/2/main"
      && ExpressionUri(u) == "/za/act/1980/2/eng/schedule1/chapter/2"
  {
    ParsesAct1980Two();
    ComponentsUriText();
    ComponentsWorkUriText();
    ComponentsExpressionUriText();
    assert Act1980Two.(workComponent := Some("main"), expressionComponent := Some("schedule1"),
                       expressionSubcomponent := Some("chapter/2")) == Components;
  }

  /** test_uri.py:210-227: setting the expression fields of a parsed expression URI. */
  lemma SetExpressionFields()
    ensures Parse("/za/act/1980/02/eng") == Success(Eng)
    ensures var u := Eng.(expressionDate := Some("@2014-01-01"), expressionComponent := Some("main"),
                          format := Some("html"));
      && ExpressionUri(u) == "/za/act/1980/02/eng@2014-01-01/main"
      && ExpressionUri(u.(expressionSubcomponent := Some("chapter/2"))) == "/za/act/1980/02/eng@2014-01-01/main/chapter/2"
      && ManifestationUri(u) == "/za/act/1980/02/eng@2014-01-01/main.html"
  {
    ParsesEng();
    DatedMainHtmlExpressionUriText();
    DatedMainHtmlManifestationUriText();
    DatedMainHtmlChapterExpressionUriText();
    var u := Eng.(expressionDate := Some("@2014-01-01"), expressionComponent := Some("main"), format := Some("html"));
    assert u == DatedMainHtml;
    assert u.(expressionSubcomponent := Some("chapter/2")) == DatedMainHtmlChapter;
  }

  /**
   * test_uri.py:171-176: a subcomponent set without a component is written
   * exactly like the component `chapter` with subcomponent `2`, so reading
   * the expression URI back splits the path at its first `/`.
   */
  lemma SubcomponentWithoutComponent()
    ensures ExpressionUri(SubcomponentOnly) == ExpressionUri(EngChapter)
    ensures Parse(ExpressionUri(SubcomponentOnly)) == Success(EngChapter)
    ensures EngChapter != SubcomponentOnly
  {
    SubcomponentOnlyExpressionUriText();
    ParsesEngChapter();
  }

  /** test_uri.py:7-8: a path with too few segments is rejected. */
  lemma RejectsBadness()
    ensures Parse("/badness").Failure?
  {
  }

  /** A path whose first segment is neither a country code nor a code with a locality is rejected. */
  lemma RejectsBadCountry(segs: seq<string>, path: string)
    requires |segs| >= 1 && NoSeparator(segs, '/') && Join([""] + segs, '/') == path
    requires !IsCountry(segs[0]) && '-' !in segs[0]
    ensures Parse(path).Failure?
  {
    JoinLeadingSlash(segs);
    ParseJoined(segs, path);
  }

  /** `badness` is not a two-letter country code, so four segments alone do not make a URI. */
  lemma RejectsLongCountry()
    ensures Parse("/badness/act/1980/01").Failure?
  {
    var segs := ["badness", "act", "1980", "01"];
    JoinAppend([""], "badness", ["", "badness"], "", "/badness");
    JoinAppend(["", "badness"], "act", ["", "badness", "act"], "/badness", "/badness/act");
    JoinAppend(["", "badness", "act"], "1980", ["", "badness", "act", "1980"], "/badness/act", "/badness/act/1980");
    JoinAppend(["", "badness", "act", "1980"], "01", [""] + segs, "/badness/act/1980", "/badness/act/1980/01");
    RejectsBadCountry(segs, "/badness/act/1980/01");
  }
}
