/**
 * The FRBR URI grammar: a `/`-delimited path naming a work
 * (`/za-cpt/act/by-law/1980/01`), optionally followed by an expression
 * (`/eng@2014-01-01/main/chapter/2`) and a manifestation format (`.html`).
 * `Parse` splits such a path into typed fields; `Uri`, `WorkUri`,
 * `ExpressionUri` and `ManifestationUri` put them back together.
 */
module FrbrUris {
  import opened Wrappers
  import opened Strings

  /** The fields of an FRBR URI; `None` marks an absent optional field. */
  datatype FrbrUri = FrbrUri(
    country: string,
    locality: Option<string>,
    doctype: string,
    subtype: Option<string>,
    actor: Option<string>,
    date: string,
    number: string,
    workComponent: Option<string>,
    language: string,
    expressionDate: Option<string>,
    expressionComponent: Option<string>,
    expressionSubcomponent: Option<string>,
    format: Option<string>)

  /** The language of a URI that names no expression. */
  const DefaultLanguage: string := "eng"

  /** The expression half of a parsed URI. */
  datatype Expression = Expression(
    language: string,
    date: Option<string>,
    component: Option<string>,
    subcomponent: Option<string>,
    format: Option<string>)

  /** What a path that stops before the language token stands for. */
  const NoExpression: Expression := Expression(DefaultLanguage, None, None, None, None)

  // ---------------------------------------------------------------------------
  // Token shapes
  // ---------------------------------------------------------------------------

  /** A date token: `YYYY` or `YYYY-MM-DD`. */
  predicate IsDate(s: string) {
    || (|s| == 4 && AllDigits(s))
    || (&& |s| == 10 && AllDigits(s[..4]) && s[4] == '-'
        && IsDigit(s[5]) && IsDigit(s[6]) && s[7] == '-'
        && IsDigit(s[8]) && IsDigit(s[9]))
  }

  /** Three lower-case letters, then either nothing or an `@`/`:` expression-date marker. */
  predicate IsLanguageToken(t: string) {
    && |t| >= 3
    && IsLower(t[0]) && IsLower(t[1]) && IsLower(t[2])
    && (|t| == 3 || t[3] == '@' || t[3] == ':')
  }

  /** A country code: two lower-case letters. */
  predicate IsCountry(s: string) {
    |s| == 2 && IsLower(s[0]) && IsLower(s[1])
  }

  /** A non-empty path segment. */
  predicate IsSegment(s: string) {
    s != "" && '/' !in s
  }

  predicate OptSegment(o: Option<string>) {
    o.None? || IsSegment(o.value)
  }

  /** A segment allowed after the language token: no `.`, which is reserved for the format. */
  predicate IsExpressionSegment(s: string) {
    IsSegment(s) && '.' !in s
  }

  /** A `/`-joined run of expression segments, such as `chapter/2`. */
  predicate IsExpressionPath(s: string) {
    var parts := Split(s, '/');
    NonEmptyParts(parts) && NoSeparator(parts, '.')
  }

  // ---------------------------------------------------------------------------
  // Parsing
  // ---------------------------------------------------------------------------

  /** The first segment: a country, then optionally `-` and a locality. */
  function ParseCountry(seg: string): (r: Result<(string, Option<string>)>)
    ensures r.Success? ==> IsCountry(r.value.0) && '-' !in r.value.0
    ensures r.Success? && r.value.1.None? ==> seg == r.value.0
    ensures r.Success? && r.value.1.Some? ==> r.value.1.value != "" && seg == r.value.0 + "-" + r.value.1.value
    ensures IsCountry(seg) ==> r == Success((seg, None))
  {
    if '-' !in seg then
      if !IsCountry(seg) then Failure("bad country") else Success((seg, None))
    else
      var i := IndexOf(seg, '-');
      if !IsCountry(seg[..i]) || i + 1 == |seg| then Failure("bad country or empty locality")
      else
        assert seg == seg[..i] + "-" + seg[i + 1..];
        Success((seg[..i], Some(seg[i + 1..])))
  }

  /** Where the date sits: the first date-shaped segment after the doctype, at most two segments on. */
  function DateIndex(segs: seq<string>): (r: Option<nat>)
    requires |segs| >= 3
    ensures r.Some? ==> 2 <= r.value <= 4 && r.value < |segs| && IsDate(segs[r.value])
    ensures r.Some? ==> forall k :: 2 <= k < r.value ==> !IsDate(segs[k])
    ensures r.None? ==> forall k :: 2 <= k <= 4 && k < |segs| ==> !IsDate(segs[k])
  {
    if IsDate(segs[2]) then Some(2)
    else if |segs| > 3 && IsDate(segs[3]) then Some(3)
    else if |segs| > 4 && IsDate(segs[4]) then Some(4)
    else None
  }

  /** Splits a `.format` suffix off the final segment of an expression. */
  function SplitFormat(last: string): (r: Result<(string, Option<string>)>)
    ensures r.Success? ==> r.value.0 != "" && '.' !in r.value.0
    ensures r.Success? && r.value.1.None? ==> last == r.value.0
    ensures r.Success? && r.value.1.Some? ==>
      && r.value.1.value != "" && '.' !in r.value.1.value
      && last == r.value.0 + "." + r.value.1.value
  {
    if '.' !in last then
      if last == "" then Failure("empty segment") else Success((last, None))
    else
      var i := IndexOf(last, '.');
      var body := last[..i];
      var fmt := last[i + 1..];
      if body == "" || fmt == "" || '.' in fmt then Failure("malformed format")
      else
        assert last == body + "." + fmt;
        Success((body, Some(fmt)))
  }

  /**
   * The segments from the language token on: the language token (with its
   * expression-date marker kept verbatim), then the expression component,
   * then the rest joined by `/` as the subcomponent; the last segment may
   * carry the format.
   */
  function ParseExpression(segs: seq<string>): Result<Expression>
    requires |segs| >= 1
  {
    var n := |segs| - 1;
    var split :- SplitFormat(segs[n]);
    var parts := segs[..n] + [split.0];
    if !NoSeparator(segs[..n], '.') then Failure("unexpected '.'")
    else if !IsLanguageToken(parts[0]) then Failure("bad language")
    else Success(ReadExpression(parts, split.1))
  }

  /** The fields of an expression whose segments (format removed) are `parts`. */
  function ReadExpression(parts: seq<string>, format: Option<string>): Expression
    requires |parts| >= 1 && IsLanguageToken(parts[0])
  {
    var token := parts[0];
    Expression(
      token[..3],
      if |token| > 3 then Some(token[3..]) else None,
      if |parts| > 1 then Some(parts[1]) else None,
      if |parts| > 2 then Some(Join(parts[2..], '/')) else None,
      format)
  }

  /** True when `seg` is read as a language token rather than as a work component. */
  predicate StartsExpression(seg: string) {
    ParseExpression([seg]).Success?
  }

  /** What follows the number: an optional work component, then an optional expression. */
  function ParseTail(tail: seq<string>): Result<(Option<string>, Expression)>
  {
    if tail == [] then Success((None, NoExpression))
    else if StartsExpression(tail[0]) then
      var e :- ParseExpression(tail);
      Success((None, e))
    else if |tail| == 1 then Success((Some(tail[0]), NoExpression))
    else
      var e :- ParseExpression(tail[1..]);
      Success((Some(tail[0]), e))
  }

  /** The URI named by the segments of a path (the text after its leading `/`). */
  function ParseSegments(segs: seq<string>): Result<FrbrUri>
  {
    if |segs| < 4 || !NonEmptyParts(segs) then Failure("too few segments")
    else
      var place :- ParseCountry(segs[0]);
      var d := DateIndex(segs);
      if d.None? then Failure("no date")
      else if d.value + 1 >= |segs| then Failure("no number")
      else
        var rest :- ParseTail(segs[d.value + 2..]);
        Success(WithTail(WorkOf(place, segs, d.value), rest.0, rest.1))
  }

  /**
   * The work fields read from the segments when the date sits at `d`: what
   * lies between the doctype and the date is the subtype, then the actor.
   */
  function WorkOf(place: (string, Option<string>), segs: seq<string>, d: nat): FrbrUri
    requires 2 <= d && d + 1 < |segs|
  {
    FrbrUri(
      place.0, place.1, segs[1],
      if d >= 3 then Some(segs[2]) else None,
      if d == 4 then Some(segs[3]) else None,
      segs[d], segs[d + 1], None,
      DefaultLanguage, None, None, None, None)
  }

  /** `u` with the given work component and expression fields. */
  function WithTail(u: FrbrUri, workComponent: Option<string>, e: Expression): FrbrUri {
    u.(workComponent := workComponent, language := e.language, expressionDate := e.date,
       expressionComponent := e.component, expressionSubcomponent := e.subcomponent,
       format := e.format)
  }

  /** `FrbrUri.parse`: fails (Python's `ValueError`) on a malformed path. */
  function Parse(path: string): Result<FrbrUri>
  {
    if |path| == 0 || path[0] != '/' then Failure("no leading slash")
    else ParseSegments(Split(path[1..], '/'))
  }

  // ---------------------------------------------------------------------------
  // Serialisation
  // ---------------------------------------------------------------------------

  function CountryToken(u: FrbrUri): string {
    u.country + (if u.locality.Some? then "-" + u.locality.value else "")
  }

  /** The segments of the bare work URI, absent fields skipped. */
  function UriSegments(u: FrbrUri): (r: seq<string>)
    ensures 4 <= |r| <= 6
  {
    [CountryToken(u), u.doctype] + OptList(u.subtype) + OptList(u.actor) + [u.date, u.number]
  }

  /** `uri()`: the work URI without its component. */
  function Uri(u: FrbrUri): string {
    "/" + Join(UriSegments(u), '/')
  }

  /** `work_uri()`. */
  function WorkUri(u: FrbrUri): (r: string)
    ensures u.workComponent.None? ==> r == Uri(u)
    ensures u.workComponent.Some? ==> r == Uri(u) + "/" + u.workComponent.value
  {
    var r := "/" + Join(UriSegments(u) + OptList(u.workComponent), '/');
    if u.workComponent.Some? then
      JoinConcat(UriSegments(u), OptList(u.workComponent), '/');
      r
    else
      assert UriSegments(u) + OptList(u.workComponent) == UriSegments(u);
      r
  }

  /** The language token exactly as written: language then expression-date marker. */
  function LanguageToken(u: FrbrUri): string {
    u.language + u.expressionDate.GetOr("")
  }

  /** The segments after the work URI: language token, component and subcomponent. */
  function ExpressionSegments(u: FrbrUri, component: Option<string>): seq<string> {
    [LanguageToken(u)] + OptList(component) + OptList(u.expressionSubcomponent)
  }

  /** The component an expression URI names: its own, else the work component. */
  function ShownComponent(u: FrbrUri): Option<string> {
    u.expressionComponent.OrElse(u.workComponent)
  }

  /** `expression_uri()`: never mentions the format. */
  function ExpressionUri(u: FrbrUri): (r: string)
    ensures r == Uri(u) + "/" + Join(ExpressionSegments(u, ShownComponent(u)), '/')
  {
    JoinConcat(UriSegments(u), ExpressionSegments(u, ShownComponent(u)), '/');
    "/" + Join(UriSegments(u) + ExpressionSegments(u, ShownComponent(u)), '/')
  }

  /** The `.format` text a manifestation URI ends with, if any. */
  function FormatText(format: Option<string>): string {
    if format.Some? then "." + format.value else ""
  }

  function FormatSuffix(u: FrbrUri): string {
    FormatText(u.format)
  }

  /** `manifestation_uri()`: the expression URI, followed by `.format` when there is a format. */
  function ManifestationUri(u: FrbrUri): (r: string)
    ensures u.format.None? ==> r == ExpressionUri(u)
    ensures u.format.Some? ==> r == ExpressionUri(u) + "." + u.format.value
  {
    ExpressionUri(u) + FormatSuffix(u)
  }

  // ---------------------------------------------------------------------------
  // Well-formedness: the records `Parse` produces
  // ---------------------------------------------------------------------------

  /** The work fields are what a parse can yield. */
  predicate WorkWellFormed(u: FrbrUri) {
    && IsCountry(u.country)
    && OptSegment(u.locality)
    && IsSegment(u.doctype)
    && OptSegment(u.subtype) && (u.subtype.Some? ==> !IsDate(u.subtype.value))
    && OptSegment(u.actor) && (u.actor.Some? ==> u.subtype.Some? && !IsDate(u.actor.value))
    && IsDate(u.date)
    && IsSegment(u.number)
    && OptSegment(u.workComponent)
    && (u.workComponent.Some? ==> !StartsExpression(u.workComponent.value))
  }

  /** The expression fields are what a parse can yield. */
  predicate ExpressionWellFormed(u: FrbrUri) {
    && |u.language| == 3 && IsLower(u.language[0]) && IsLower(u.language[1]) && IsLower(u.language[2])
    && (u.expressionDate.Some? ==>
          var d := u.expressionDate.value;
          |d| >= 1 && (d[0] == '@' || d[0] == ':') && '/' !in d && '.' !in d)
    && (u.expressionComponent.Some? ==> IsExpressionSegment(u.expressionComponent.value))
    && (u.expressionSubcomponent.Some? ==>
          u.expressionComponent.Some? && IsExpressionPath(u.expressionSubcomponent.value))
    && (u.format.Some? ==> IsExpressionSegment(u.format.value))
  }

  predicate WellFormed(u: FrbrUri) {
    WorkWellFormed(u) && ExpressionWellFormed(u)
  }

  /** The record with its expression fields back at their defaults. */
  function WorkPart(u: FrbrUri): FrbrUri {
    u.(language := DefaultLanguage, expressionDate := None, expressionComponent := None,
       expressionSubcomponent := None, format := None)
  }

  /** The record an expression URI of `u` reads back as: the work component has become the expression component. */
  function ExpressionPart(u: FrbrUri): FrbrUri {
    u.(workComponent := None, expressionComponent := ShownComponent(u))
  }
}
