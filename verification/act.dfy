/**
 * An act: its identification block (the `FRBRthis`/`FRBRuri` values of the
 * work, expression and manifestation), its title, language and expression
 * date, its lifecycle ledger, and its body and components as element trees.
 * Assigning a URI to the act rewrites the identification block from it.
 */
module Acts {
  import opened Wrappers
  import Strings
  import opened FrbrUris
  import opened FrbrUriProofs
  import Structure
  import Lifecycle

  /** The URI values of the identification block, with the work's country. */
  datatype Identification = Identification(
    workThis: string,
    workUri: string,
    country: string,
    expressionThis: string,
    expressionUri: string,
    manifestationThis: string,
    manifestationUri: string)

  datatype Act = Act(
    ident: Identification,
    title: string,
    language: string,
    expressionDate: string,
    ledger: Lifecycle.Ledger,
    body: seq<Structure.Element>,
    components: seq<Structure.Component>)

  /** A new act: the default skeleton for act 1 of 1900 in South Africa, untitled, in English. */
  const DefaultAct: Act := Act(
    Identification(
      "/za/act/1900/1/main", "/za/act/1900/1", "za",
      "/za/act/1900/1/eng@/main", "/za/act/1900/1/eng@",
      "/za/act/1900/1/eng@/main", "/za/act/1900/1/eng@"),
    "Untitled", "eng", "1900-01-01", Lifecycle.EmptyLedger, [], [])

  // ---------------------------------------------------------------------------
  // The URI
  // ---------------------------------------------------------------------------

  /**
   * The URI of the act's main document as the setter projects it: the work
   * fields of `p`, the `main` component, and the act's language with its
   * expression date behind an `@`.
   */
  function Projected(p: FrbrUri, language: string, expressionDate: string): (u: FrbrUri)
    ensures WorkPart(u.(language := DefaultLanguage, expressionDate := None, workComponent := p.workComponent)) == WorkPart(p)
    ensures u.workComponent == Some(Structure.MainComponent)
    ensures u.expressionComponent.None? && u.expressionSubcomponent.None? && u.format.None?
  {
    WorkPart(p).(workComponent := Some(Structure.MainComponent), language := language,
                 expressionDate := Some("@" + expressionDate))
  }

  /**
   * The identification block written for the main document with URI `u`:
   * each `FRBRthis` names the component, each `FRBRuri` leaves it out, and
   * the manifestation repeats the expression.
   */
  function IdentificationOf(u: FrbrUri): (r: Identification)
    ensures r.country == u.country
    ensures u.workComponent.Some? ==> r.workThis == r.workUri + "/" + u.workComponent.value
    ensures u.workComponent.None? ==> r.workThis == r.workUri
    ensures r.manifestationThis == r.expressionThis && r.manifestationUri == r.expressionUri
  {
    var bare := u.(workComponent := None);
    Identification(
      WorkUri(u), Uri(u), u.country,
      ExpressionUri(u), ExpressionUri(bare),
      ExpressionUri(u), ExpressionUri(bare))
  }

  /**
   * `frbr_uri = s`: a malformed `s` is rejected; otherwise the whole
   * identification block is rewritten from it and nothing else changes.
   * Each `FRBRthis` is its `FRBRuri` with `/main` appended, the work
   * `FRBRuri` is the bare work URI of `s`, and the expression and
   * manifestation `FRBRuri` add the language and `@` expression date.
   */
  function SetFrbrUri(a: Act, s: string): (r: Result<Act>)
    ensures r.Success? <==> Parse(s).Success?
    ensures r.Success? ==>
      var id := r.value.ident;
      && r.value == a.(ident := id)
      && id.workUri == Uri(Parse(s).value)
      && id.workThis == id.workUri + "/" + Structure.MainComponent
      && id.country == Parse(s).value.country
      && id.expressionUri == id.workUri + "/" + a.language + "@" + a.expressionDate
      && id.expressionThis == id.expressionUri + "/" + Structure.MainComponent
      && id.manifestationUri == id.expressionUri
      && id.manifestationThis == id.expressionThis
  {
    var p :- Parse(s);
    var u := Projected(p, a.language, a.expressionDate);
    ProjectedUris(p, a.language, a.expressionDate);
    Success(a.(ident := IdentificationOf(u)))
  }

  /** The bare work URI does not depend on the component or the expression fields. */
  lemma ProjectedUri(p: FrbrUri, language: string, expressionDate: string)
    ensures var u := Projected(p, language, expressionDate);
      Uri(u) == Uri(p) && Uri(u.(workComponent := None)) == Uri(p)
  {
    var u := Projected(p, language, expressionDate);
    assert UriSegments(u) == UriSegments(p);
    assert UriSegments(u.(workComponent := None)) == UriSegments(p);
  }

  lemma ProjectedExpressionSegments(p: FrbrUri, language: string, expressionDate: string)
    ensures var u := Projected(p, language, expressionDate);
      && ExpressionSegments(u, ShownComponent(u)) == [language + "@" + expressionDate, Structure.MainComponent]
      && ExpressionSegments(u.(workComponent := None), ShownComponent(u.(workComponent := None))) == [language + "@" + expressionDate]
  {
    var u := Projected(p, language, expressionDate);
    assert LanguageToken(u) == language + "@" + expressionDate;
    assert ShownComponent(u) == Some(Structure.MainComponent);
    assert ShownComponent(u.(workComponent := None)).None?;
  }

  /** The four URIs of the projection, spelled out. */
  lemma ProjectedUris(p: FrbrUri, language: string, expressionDate: string)
    ensures var u := Projected(p, language, expressionDate);
      var bare := u.(workComponent := None);
      && Uri(u) == Uri(p)
      && WorkUri(u) == Uri(p) + "/" + Structure.MainComponent
      && ExpressionUri(bare) == Uri(p) + "/" + language + "@" + expressionDate
      && ExpressionUri(u) == ExpressionUri(bare) + "/" + Structure.MainComponent
  {
    var token := language + "@" + expressionDate;
    ProjectedUri(p, language, expressionDate);
    ProjectedExpressionSegments(p, language, expressionDate);
    assert Strings.Join([token, Structure.MainComponent], '/') == token + "/" + Structure.MainComponent;
    assert Strings.Join([token], '/') == token;
  }

  /** `frbr_uri`: the work `FRBRuri` parsed, with the act's language. */
  function FrbrUriOf(a: Act): (r: Result<FrbrUri>)
    ensures r.Success? <==> Parse(a.ident.workUri).Success?
    ensures r.Success? ==> WorkPart(r.value) == WorkPart(Parse(a.ident.workUri).value) && r.value.language == a.language
  {
    var p :- Parse(a.ident.workUri);
    Success(p.(language := a.language))
  }

  /** `number`: the number of the act's URI, a non-empty slash-free segment. */
  function Number(a: Act): (r: Result<string>)
    ensures r.Success? <==> Parse(a.ident.workUri).Success?
    ensures r.Success? ==> r.value == Parse(a.ident.workUri).value.number && IsSegment(r.value)
  {
    var p :- FrbrUriOf(a);
    ParseWellFormed(a.ident.workUri);
    Success(p.number)
  }

  /**
   * Reading `frbr_uri` after assigning `s` gives the work fields of `s`
   * without its component, and the act's language; so its `work_uri()` is
   * the bare work URI of `s` and its number is the number of `s`.
   */
  lemma FrbrUriRoundTrip(a: Act, s: string)
    requires Parse(s).Success?
    ensures SetFrbrUri(a, s).Success?
    ensures var p := Parse(s).value;
      FrbrUriOf(SetFrbrUri(a, s).value) == Success(WorkPart(p).(workComponent := None, language := a.language))
    ensures var p := Parse(s).value;
      && WorkUri(FrbrUriOf(SetFrbrUri(a, s).value).value) == Uri(p)
      && Number(SetFrbrUri(a, s).value) == Success(p.number)
  {
    var p := Parse(s).value;
    ParseWellFormed(s);
    UriRoundTrip(p);
    var q := WorkPart(p).(workComponent := None);
    assert WorkUri(q) == Uri(q) && Uri(q) == Uri(p) by {
      assert UriSegments(q) == UriSegments(p);
    }
    assert WorkUri(q.(language := a.language)) == WorkUri(q) by {
      assert UriSegments(q.(language := a.language)) == UriSegments(q);
    }
  }

  // ---------------------------------------------------------------------------
  // Structure and lifecycle, on the act
  // ---------------------------------------------------------------------------

  function TableOfContents(a: Act): seq<Structure.TocEntry> {
    Structure.TableOfContents(a.body, a.components)
  }

  function GetSubcomponent(a: Act, component: string, path: string): Option<Structure.Element> {
    Structure.GetSubcomponent(a.body, a.components, component, path)
  }

  function Amendments(a: Act): Result<seq<Lifecycle.AmendmentEvent>> {
    Lifecycle.Amendments(a.ledger)
  }

  function SetAmendments(a: Act, evs: seq<Lifecycle.AmendmentEvent>): Act {
    a.(ledger := Lifecycle.SetAmendments(a.ledger, evs))
  }

  function Repeal(a: Act): Result<Option<Lifecycle.RepealEvent>> {
    Lifecycle.Repeal(a.ledger)
  }

  function SetRepeal(a: Act, r: Option<Lifecycle.RepealEvent>): Act {
    a.(ledger := Lifecycle.SetRepeal(a.ledger, r))
  }
}
