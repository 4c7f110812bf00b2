/** Round trips between `FrbrUris.Parse` and the four serialisers. */
module FrbrUriProofs {
  import opened Wrappers
  import opened Strings
  import opened FrbrUris

  // ---------------------------------------------------------------------------
  // Pieces
  // ---------------------------------------------------------------------------

  lemma ParseCountryRoundTrip(u: FrbrUri)
    requires IsCountry(u.country) && OptSegment(u.locality)
    ensures ParseCountry(CountryToken(u)) == Success((u.country, u.locality))
  {
    if u.locality.Some? {
      var seg := CountryToken(u);
      IndexOfAfter(u.country, u.locality.value, '-');
      assert seg == u.country + ['-'] + u.locality.value;
      assert seg[|u.country|] == '-';
      assert seg[..|u.country|] == u.country;
      assert seg[|u.country| + 1..] == u.locality.value;
    } else {
      assert CountryToken(u) == u.country;
    }
  }

  function WithSuffix(parts: seq<string>, suffix: string): (r: seq<string>)
    requires |parts| >= 1
    ensures |r| == |parts| && r[..|r| - 1] == parts[..|parts| - 1]
  {
    parts[..|parts| - 1] + [parts[|parts| - 1] + suffix]
  }

  /** The segments an expression is written as, the subcomponent split at `/`. */
  function ExpressionParts(u: FrbrUri, component: Option<string>): (r: seq<string>)
    ensures |r| >= 1 && r[0] == LanguageToken(u)
  {
    [LanguageToken(u)] + OptList(component)
      + (if u.expressionSubcomponent.Some? then Split(u.expressionSubcomponent.value, '/') else [])
  }

  lemma SplitFormatRoundTrip(body: string, u: FrbrUri)
    requires body != "" && '.' !in body
    requires u.format.Some? ==> IsExpressionSegment(u.format.value)
    ensures SplitFormat(body + FormatSuffix(u)) == Success((body, u.format))
  {
    if u.format.Some? {
      IndexOfAfter(body, u.format.value, '.');
      assert body + FormatSuffix(u) == body + ['.'] + u.format.value;
      assert (body + FormatSuffix(u))[..|body|] == body;
    } else {
      assert body + FormatSuffix(u) == body;
    }
  }

  /** The expression fields are written the way `ParseExpression` reads them. */
  predicate ExpressionReadable(u: FrbrUri, component: Option<string>) {
    && |u.language| == 3 && IsLower(u.language[0]) && IsLower(u.language[1]) && IsLower(u.language[2])
    && (u.expressionDate.Some? ==>
          var d := u.expressionDate.value;
          |d| >= 1 && (d[0] == '@' || d[0] == ':') && '/' !in d && '.' !in d)
    && (component.Some? ==> IsExpressionSegment(component.value))
    && (u.expressionSubcomponent.Some? ==> component.Some? && IsExpressionPath(u.expressionSubcomponent.value))
    && (u.format.Some? ==> IsExpressionSegment(u.format.value))
  }

  lemma ExpressionPartsShape(u: FrbrUri, component: Option<string>)
    requires ExpressionReadable(u, component)
    ensures var parts := ExpressionParts(u, component);
      && NonEmptyParts(parts) && NoSeparator(parts, '/') && NoSeparator(parts, '.')
      && IsLanguageToken(parts[0])
  {
    var parts := ExpressionParts(u, component);
    var tok := LanguageToken(u);
    assert tok == u.language + u.expressionDate.GetOr("");
    assert '/' !in tok && '.' !in tok by {
      assert forall i :: 0 <= i < 3 ==> IsLower(tok[i]);
      if u.expressionDate.Some? {
        assert tok[3..] == u.expressionDate.value;
      }
    }
    if u.expressionSubcomponent.Some? {
      var sub := Split(u.expressionSubcomponent.value, '/');
      assert parts == [tok] + [component.value] + sub;
      assert forall i :: 2 <= i < |parts| ==> parts[i] == sub[i - 2];
    } else if component.Some? {
      assert parts == [tok, component.value];
    } else {
      assert parts == [tok];
    }
  }

  /** Segments free of `.`, the last followed by the format, parse to what `ReadExpression` reads. */
  lemma ParseExpressionReads(parts: seq<string>, u: FrbrUri)
    requires |parts| >= 1 && NonEmptyParts(parts) && NoSeparator(parts, '.') && IsLanguageToken(parts[0])
    requires u.format.Some? ==> IsExpressionSegment(u.format.value)
    ensures ParseExpression(WithSuffix(parts, FormatSuffix(u))) == Success(ReadExpression(parts, u.format))
  {
    var segs := WithSuffix(parts, FormatSuffix(u));
    var n := |segs| - 1;
    assert segs[n] == parts[n] + FormatSuffix(u);
    SplitFormatRoundTrip(parts[n], u);
    assert segs[..n] + [parts[n]] == parts;
    assert NoSeparator(segs[..n], '.');
  }

  /** `ReadExpression` gives back the fields the parts were written from. */
  lemma ReadExpressionParts(u: FrbrUri, component: Option<string>)
    requires ExpressionReadable(u, component)
    requires IsLanguageToken(ExpressionParts(u, component)[0])
    ensures ReadExpression(ExpressionParts(u, component), u.format)
         == Expression(u.language, u.expressionDate, component, u.expressionSubcomponent, u.format)
  {
    var parts := ExpressionParts(u, component);
    var tok := parts[0];
    assert tok[..3] == u.language;
    if u.expressionDate.Some? {
      assert tok[3..] == u.expressionDate.value;
    } else {
      assert |tok| == 3;
    }
    if u.expressionSubcomponent.Some? {
      var sub := u.expressionSubcomponent.value;
      assert parts[2..] == Split(sub, '/');
      JoinSplit(sub, '/');
    } else if component.Some? {
      assert |parts| == 2;
    } else {
      assert |parts| == 1;
    }
  }

  lemma ParseExpressionRoundTrip(u: FrbrUri, component: Option<string>)
    requires ExpressionReadable(u, component)
    ensures ParseExpression(WithSuffix(ExpressionParts(u, component), FormatSuffix(u)))
         == Success(Expression(u.language, u.expressionDate, component, u.expressionSubcomponent, u.format))
  {
    var parts := ExpressionParts(u, component);
    ExpressionPartsShape(u, component);
    ParseExpressionReads(parts, u);
    ReadExpressionParts(u, component);
  }

  lemma LanguageTokenStartsExpression(t: string)
    requires IsLanguageToken(t) && '.' !in t && '/' !in t
    ensures StartsExpression(t)
  {
    assert [t][..0] + [t] == [t];
  }

  lemma ParseTailExpression(u: FrbrUri, component: Option<string>)
    requires ExpressionReadable(u, component)
    ensures ParseTail(WithSuffix(ExpressionParts(u, component), FormatSuffix(u)))
         == Success((None, Expression(u.language, u.expressionDate, component, u.expressionSubcomponent, u.format)))
  {
    var parts := ExpressionParts(u, component);
    var tail := WithSuffix(parts, FormatSuffix(u));
    ParseExpressionRoundTrip(u, component);
    ExpressionPartsShape(u, component);
    if |parts| == 1 {
      assert tail == [tail[0]];
    } else {
      assert tail[0] == parts[0];
      LanguageTokenStartsExpression(parts[0]);
    }
  }

  /** The work fields other than the work component read back unchanged. */
  predicate UriReadable(u: FrbrUri) {
    && IsCountry(u.country)
    && OptSegment(u.locality)
    && IsSegment(u.doctype)
    && OptSegment(u.subtype) && (u.subtype.Some? ==> !IsDate(u.subtype.value))
    && OptSegment(u.actor) && (u.actor.Some? ==> u.subtype.Some? && !IsDate(u.actor.value))
    && IsDate(u.date)
    && IsSegment(u.number)
  }

  lemma UriSegmentsShape(u: FrbrUri)
    requires UriReadable(u)
    ensures var head := UriSegments(u);
      && NonEmptyParts(head) && NoSeparator(head, '/')
      && head[0] == CountryToken(u) && head[1] == u.doctype
      && head[|head| - 2] == u.date && head[|head| - 1] == u.number
      && (u.subtype.Some? ==> head[2] == u.subtype.value)
      && (u.actor.Some? ==> head[3] == u.actor.value)
      && |head| == 4 + |OptList(u.subtype)| + |OptList(u.actor)|
  {
    if u.locality.Some? {
      assert CountryToken(u) == u.country + "-" + u.locality.value;
    }
  }

  lemma DateIndexOfUri(u: FrbrUri, tail: seq<string>)
    requires UriReadable(u)
    ensures DateIndex(UriSegments(u) + tail) == Some(|UriSegments(u)| - 2)
  {
    UriSegmentsShape(u);
    var head := UriSegments(u);
    var segs := head + tail;
    assert segs[..|head|] == head;
  }

  /** Parsing the work segments followed by any tail defers to `ParseTail` for the rest. */
  lemma ParseSegmentsRoundTrip(u: FrbrUri, tail: seq<string>)
    requires UriReadable(u)
    requires NonEmptyParts(tail)
    ensures ParseTail(tail).Success? ==>
      var t := ParseTail(tail).value;
      ParseSegments(UriSegments(u) + tail) == Success(WithTail(u, t.0, t.1))
  {
    var head := UriSegments(u);
    var segs := head + tail;
    UriSegmentsShape(u);
    ParseCountryRoundTrip(u);
    DateIndexOfUri(u, tail);
    var d := |head| - 2;
    assert segs[..|head|] == head;
    assert segs[0] == CountryToken(u);
    assert NonEmptyParts(segs) by {
      assert forall i :: |head| <= i < |segs| ==> segs[i] == tail[i - |head|];
    }
    assert segs[d + 2..] == tail;
    assert segs[1] == u.doctype && segs[d] == u.date && segs[d + 1] == u.number;
    assert (if d >= 3 then Some(segs[2]) else None) == u.subtype;
    assert (if d == 4 then Some(segs[3]) else None) == u.actor;
  }

  // ---------------------------------------------------------------------------
  // Round trips
  // ---------------------------------------------------------------------------

  /** `parse(work_uri())` gives back the work fields; the expression fields take their defaults. */
  lemma WorkUriRoundTrip(u: FrbrUri)
    requires WorkWellFormed(u)
    ensures Parse(WorkUri(u)) == Success(WorkPart(u))
  {
    var tail := OptList(u.workComponent);
    var segs := UriSegments(u) + tail;
    assert NoSeparator(segs, '/') by {
      UriSegmentsShape(u);
      ConcatClean(UriSegments(u), tail, '/');
    }
    ParseJoined(segs, WorkUri(u));
    assert ParseTail(tail) == Success((u.workComponent, NoExpression));
    ParseSegmentsRoundTrip(u, tail);
  }

  /** A path written as `/` and separator-free segments parses as those segments. */
  lemma ParseJoined(segs: seq<string>, path: string)
    requires |segs| >= 1 && NoSeparator(segs, '/') && path == "/" + Join(segs, '/')
    ensures Parse(path) == ParseSegments(segs)
  {
    SplitJoin(segs, '/');
    assert path[1..] == Join(segs, '/');
  }

  /**
   * A path parses only if it starts with `/` and has at least four
   * segments; the first segment is then the country, with `-` and the
   * locality when there is one.
   */
  lemma ParseShape(path: string)
    requires Parse(path).Success?
    ensures |path| >= 1 && path[0] == '/' && |Split(path[1..], '/')| >= 4
    ensures CountryToken(Parse(path).value) == Split(path[1..], '/')[0]
  {
  }

  /** `uri()` starts with `/`, and split at `/` the rest gives back the work segments. */
  lemma UriSplits(u: FrbrUri)
    ensures |Uri(u)| >= 1 && Uri(u)[0] == '/'
    ensures NoSeparator(UriSegments(u), '/') ==> Split(Uri(u)[1..], '/') == UriSegments(u)
  {
    assert Uri(u)[1..] == Join(UriSegments(u), '/');
    if NoSeparator(UriSegments(u), '/') {
      SplitJoin(UriSegments(u), '/');
    }
  }

  /** `parse(uri())` gives back the work fields without the work component. */
  lemma UriRoundTrip(u: FrbrUri)
    requires WorkWellFormed(u)
    ensures Parse(Uri(u)) == Success(WorkPart(u).(workComponent := None))
  {
    WorkUriRoundTrip(u.(workComponent := None));
  }

  lemma JoinExpand(a: seq<string>, s: string)
    requires |a| >= 1
    ensures Join(a + [s], '/') == Join(a + Split(s, '/'), '/')
  {
    JoinConcat(a, [s], '/');
    JoinConcat(a, Split(s, '/'), '/');
    JoinSplit(s, '/');
  }

  lemma ExpressionSegmentsExpand(u: FrbrUri, c: Option<string>)
    ensures Join(UriSegments(u) + ExpressionSegments(u, c), '/') == Join(UriSegments(u) + ExpressionParts(u, c), '/')
  {
    var head := UriSegments(u) + [LanguageToken(u)] + OptList(c);
    if u.expressionSubcomponent.Some? {
      var sub := u.expressionSubcomponent.value;
      assert UriSegments(u) + ExpressionSegments(u, c) == head + [sub];
      assert UriSegments(u) + ExpressionParts(u, c) == head + Split(sub, '/');
      JoinExpand(head, sub);
    } else {
      assert UriSegments(u) + ExpressionSegments(u, c) == head;
      assert UriSegments(u) + ExpressionParts(u, c) == head;
    }
  }

  /** The text of `manifestation_uri()` after its leading `/`, as segments. */
  lemma ManifestationSegments(u: FrbrUri)
    ensures var parts := WithSuffix(ExpressionParts(u, ShownComponent(u)), FormatSuffix(u));
      ManifestationUri(u) == "/" + Join(UriSegments(u) + parts, '/')
  {
    var c := ShownComponent(u);
    ExpressionSegmentsExpand(u, c);
    SuffixedJoin(UriSegments(u), ExpressionParts(u, c), FormatSuffix(u), ExpressionUri(u));
  }

  /** Appending a suffix to a joined text extends its last segment. */
  lemma SuffixedJoin(pre: seq<string>, plain: seq<string>, fs: string, text: string)
    requires |plain| >= 1 && text == "/" + Join(pre + plain, '/')
    ensures text + fs == "/" + Join(pre + WithSuffix(plain, fs), '/')
  {
    var all := pre + plain;
    JoinExtendLast(all, fs, '/');
    WithSuffixConcat(pre, plain, fs);
    assert Join(WithSuffix(all, fs), '/') == Join(all, '/') + fs;
    AppendAssoc("/", Join(all, '/'), fs);
  }

  lemma WithSuffixConcat(a: seq<string>, b: seq<string>, x: string)
    requires |b| >= 1
    ensures WithSuffix(a + b, x) == a + WithSuffix(b, x)
  {
    assert (a + b)[..|a + b| - 1] == a + b[..|b| - 1];
  }

  /** The fields an expression URI can be written from and read back. */
  predicate ExpressionRoundTrips(u: FrbrUri) {
    WorkWellFormed(u) && ExpressionReadable(u, ShownComponent(u))
  }

  lemma ConcatClean(a: seq<string>, b: seq<string>, sep: char)
    requires NoSeparator(a, sep) && NoSeparator(b, sep)
    ensures NoSeparator(a + b, sep)
  {
    assert forall i :: |a| <= i < |a + b| ==> (a + b)[i] == b[i - |a|];
  }

  lemma SuffixedPartsClean(u: FrbrUri)
    requires ExpressionReadable(u, ShownComponent(u))
    ensures var parts := WithSuffix(ExpressionParts(u, ShownComponent(u)), FormatSuffix(u));
      NonEmptyParts(parts) && NoSeparator(parts, '/')
  {
    var plain := ExpressionParts(u, ShownComponent(u));
    var parts := WithSuffix(plain, FormatSuffix(u));
    ExpressionPartsShape(u, ShownComponent(u));
    var k := |parts| - 1;
    assert parts[k] == plain[k] + FormatSuffix(u);
    assert forall i :: 0 <= i < k ==> parts[i] == plain[i];
  }

  lemma ManifestationPartsClean(u: FrbrUri)
    requires ExpressionRoundTrips(u)
    ensures var parts := WithSuffix(ExpressionParts(u, ShownComponent(u)), FormatSuffix(u));
      && NonEmptyParts(parts)
      && NoSeparator(UriSegments(u) + parts, '/')
  {
    SuffixedPartsClean(u);
    UriSegmentsShape(u);
    ConcatClean(UriSegments(u), WithSuffix(ExpressionParts(u, ShownComponent(u)), FormatSuffix(u)), '/');
  }

  /**
   * `parse(manifestation_uri())` gives back every field, except that a work
   * component shown in the expression's component place reads back as the
   * expression component.
   */
  lemma {:induction false} ManifestationUriRoundTrip(u: FrbrUri)
    requires ExpressionRoundTrips(u)
    ensures Parse(ManifestationUri(u)) == Success(ExpressionPart(u))
  {
    var c := ShownComponent(u);
    var parts := WithSuffix(ExpressionParts(u, c), FormatSuffix(u));
    var segs := UriSegments(u) + parts;
    ManifestationSegments(u);
    ManifestationPartsClean(u);
    SplitJoin(segs, '/');
    assert ManifestationUri(u)[1..] == Join(segs, '/');
    assert Parse(ManifestationUri(u)) == ParseSegments(segs);
    ParseTailExpression(u, c);
    ParseSegmentsRoundTrip(u, parts);
    assert WithTail(u, None, Expression(u.language, u.expressionDate, c, u.expressionSubcomponent, u.format))
        == ExpressionPart(u);
  }

  /** `parse(expression_uri())` is the manifestation round trip without a format. */
  lemma ExpressionUriRoundTrip(u: FrbrUri)
    requires ExpressionRoundTrips(u)
    ensures Parse(ExpressionUri(u)) == Success(ExpressionPart(u).(format := None))
  {
    var v := u.(format := None);
    ManifestationUriRoundTrip(v);
    assert ManifestationUri(v) == ExpressionUri(u);
  }

  // ---------------------------------------------------------------------------
  // What a parse yields
  // ---------------------------------------------------------------------------

  lemma ParseExpressionWellFormed(segs: seq<string>, u: FrbrUri)
    requires |segs| >= 1 && NonEmptyParts(segs) && NoSeparator(segs, '/')
    requires ParseExpression(segs).Success?
    ensures ExpressionWellFormed(WithTail(u, None, ParseExpression(segs).value))
  {
    var parts, format := ParseExpressionClean(segs);
    ReadExpressionWellFormed(parts, format, u);
  }

  /** A successful expression parse reads clean segments and a clean format. */
  lemma ParseExpressionClean(segs: seq<string>) returns (parts: seq<string>, format: Option<string>)
    requires |segs| >= 1 && NonEmptyParts(segs) && NoSeparator(segs, '/')
    requires ParseExpression(segs).Success?
    ensures |parts| >= 1 && NonEmptyParts(parts) && NoSeparator(parts, '/') && NoSeparator(parts, '.')
    ensures IsLanguageToken(parts[0])
    ensures format.Some? ==> IsExpressionSegment(format.value)
    ensures ParseExpression(segs).value == ReadExpression(parts, format)
  {
    var n := |segs| - 1;
    var split := SplitFormat(segs[n]).value;
    parts := segs[..n] + [split.0];
    format := split.1;
    assert NoSeparator(parts, '/') && NoSeparator(parts, '.') && NonEmptyParts(parts) && IsLanguageToken(parts[0]) by {
      assert '/' !in split.0 by {
        assert '/' !in segs[n];
        SplitFormatPieces(segs[n], split);
      }
    }
    SplitFormatPieces(segs[n], split);
  }

  /** The pieces `SplitFormat` cuts a segment into hold no `/` when the segment holds none. */
  lemma SplitFormatPieces(seg: string, split: (string, Option<string>))
    requires '/' !in seg && SplitFormat(seg) == Success(split)
    ensures '/' !in split.0
    ensures split.1.Some? ==> IsExpressionSegment(split.1.value)
  {
    if split.1.Some? {
      var f := split.1.value;
      assert seg == split.0 + "." + f;
      assert forall i :: 0 <= i < |f| ==> f[i] == seg[|split.0| + 1 + i];
      assert forall i :: 0 <= i < |split.0| ==> split.0[i] == seg[i];
    } else {
      assert seg == split.0;
    }
  }

  /** Expression segments free of `/` and `.` read as well-formed expression fields. */
  lemma ReadExpressionWellFormed(parts: seq<string>, format: Option<string>, u: FrbrUri)
    requires |parts| >= 1 && NonEmptyParts(parts) && NoSeparator(parts, '/') && NoSeparator(parts, '.')
    requires IsLanguageToken(parts[0])
    requires format.Some? ==> IsExpressionSegment(format.value)
    ensures ExpressionWellFormed(WithTail(u, None, ReadExpression(parts, format)))
  {
    var token := parts[0];
    if |token| > 3 {
      assert token[3..][0] == token[3];
      assert forall i :: 0 <= i < |token| - 3 ==> token[3..][i] == token[i + 3];
    }
    if |parts| > 2 {
      SplitJoin(parts[2..], '/');
    }
  }

  lemma ParseTailWellFormed(tail: seq<string>, u: FrbrUri)
    requires NonEmptyParts(tail) && NoSeparator(tail, '/')
    requires ParseTail(tail).Success?
    ensures var t := ParseTail(tail).value;
      && ExpressionWellFormed(WithTail(u, t.0, t.1))
      && OptSegment(t.0)
      && (t.0.Some? ==> !StartsExpression(t.0.value))
  {
    var t := ParseTail(tail).value;
    if tail == [] {
    } else if StartsExpression(tail[0]) {
      ParseExpressionWellFormed(tail, u);
    } else if |tail| > 1 {
      ParseExpressionWellFormed(tail[1..], u);
    }
  }

  /** The steps of a successful `ParseSegments`, named. */
  lemma ParseSegmentsParts(segs: seq<string>) returns (place: (string, Option<string>), d: nat, t: (Option<string>, Expression))
    requires ParseSegments(segs).Success?
    ensures |segs| >= 4 && NonEmptyParts(segs)
    ensures ParseCountry(segs[0]) == Success(place)
    ensures DateIndex(segs) == Some(d) && d + 1 < |segs|
    ensures ParseTail(segs[d + 2..]) == Success(t)
    ensures ParseSegments(segs) == Success(WithTail(WorkOf(place, segs, d), t.0, t.1))
  {
    place := ParseCountry(segs[0]).value;
    d := DateIndex(segs).value;
    t := ParseTail(segs[d + 2..]).value;
  }

  /** The work fields read from well-shaped segments are well formed. */
  lemma WorkOfWellFormed(place: (string, Option<string>), segs: seq<string>, d: nat)
    requires |segs| >= 4 && NonEmptyParts(segs) && NoSeparator(segs, '/')
    requires ParseCountry(segs[0]) == Success(place)
    requires DateIndex(segs) == Some(d) && d + 1 < |segs|
    ensures WorkWellFormed(WorkOf(place, segs, d))
  {
    assert '/' !in place.0 && OptSegment(place.1) by {
      assert '/' !in segs[0];
      if place.1.Some? {
        assert segs[0] == place.0 + "-" + place.1.value;
      } else {
        assert segs[0] == place.0;
      }
    }
    assert IsSegment(segs[1]) && IsSegment(segs[d + 1]);
    assert d >= 3 ==> IsSegment(segs[2]) && !IsDate(segs[2]);
    assert d == 4 ==> IsSegment(segs[3]) && !IsDate(segs[3]);
  }

  /** Attaching a well-formed tail to well-formed work fields keeps them well formed. */
  lemma WithTailWellFormed(w: FrbrUri, t: (Option<string>, Expression))
    requires WorkWellFormed(w) && w.workComponent.None?
    requires ExpressionWellFormed(WithTail(w, t.0, t.1))
    requires OptSegment(t.0) && (t.0.Some? ==> !StartsExpression(t.0.value))
    ensures WellFormed(WithTail(w, t.0, t.1))
  {
  }

  lemma ParseSegmentsWellFormed(segs: seq<string>)
    requires NoSeparator(segs, '/')
    requires ParseSegments(segs).Success?
    ensures WellFormed(ParseSegments(segs).value)
  {
    var place, d, t := ParseSegmentsParts(segs);
    var tail := segs[d + 2..];
    var work := WorkOf(place, segs, d);
    assert NonEmptyParts(tail) && NoSeparator(tail, '/');
    ParseTailWellFormed(tail, work);
    WorkOfWellFormed(place, segs, d);
    WithTailWellFormed(work, t);
  }

  /** Whatever `parse` accepts, it turns into a well-formed record. */
  lemma ParseWellFormed(s: string)
    requires Parse(s).Success?
    ensures WellFormed(Parse(s).value)
  {
    ParseSegmentsWellFormed(Split(s[1..], '/'));
  }

  // ---------------------------------------------------------------------------
  // Nothing is lost
  // ---------------------------------------------------------------------------

  /** Everything a URI writes after its work URI: the expression and the format. */
  function ExpressionSuffix(u: FrbrUri): string {
    "/" + Join(ExpressionSegments(u, u.expressionComponent), '/') + FormatSuffix(u)
  }

  /** A run of expression segments written as token, component and joined subcomponent. */
  lemma JoinExpressionParts(parts: seq<string>)
    requires |parts| >= 1
    ensures Join(parts, '/') == Join([parts[0]]
      + OptList(if |parts| > 1 then Some(parts[1]) else None)
      + OptList(if |parts| > 2 then Some(Join(parts[2..], '/')) else None), '/')
  {
    var c := if |parts| > 1 then Some(parts[1]) else None;
    var sub := if |parts| > 2 then Some(Join(parts[2..], '/')) else None;
    var written := [parts[0]] + OptList(c) + OptList(sub);
    if |parts| > 2 {
      JoinRegroup(parts);
      assert written == [parts[0], parts[1], Join(parts[2..], '/')];
    } else {
      assert written == parts;
    }
  }

  lemma JoinRegroup(parts: seq<string>)
    requires |parts| > 2
    ensures Join(parts, '/') == Join([parts[0], parts[1], Join(parts[2..], '/')], '/')
  {
    var rest := parts[2..];
    var pair := [parts[0], parts[1]];
    assert parts == pair + rest;
    JoinConcat(pair, rest, '/');
    JoinConcat(pair, [Join(rest, '/')], '/');
    assert pair + [Join(rest, '/')] == [parts[0], parts[1], Join(rest, '/')];
  }

  lemma ReadExpressionLossless(parts: seq<string>, format: Option<string>, u: FrbrUri)
    requires |parts| >= 1 && IsLanguageToken(parts[0])
    ensures var v := WithTail(u, None, ReadExpression(parts, format));
      Join(parts, '/') == Join(ExpressionSegments(v, v.expressionComponent), '/')
  {
    var v := WithTail(u, None, ReadExpression(parts, format));
    var token := parts[0];
    var c := if |parts| > 1 then Some(parts[1]) else None;
    var sub := if |parts| > 2 then Some(Join(parts[2..], '/')) else None;
    assert LanguageToken(v) == token by {
      assert token == token[..3] + token[3..];
    }
    assert ExpressionSegments(v, v.expressionComponent) == [token] + OptList(c) + OptList(sub);
    JoinExpressionParts(parts);
  }

  /** The segments `ParseExpression` read: the parts it kept, the last one followed by the format. */
  lemma ParseExpressionSegments(segs: seq<string>)
    requires |segs| >= 1 && ParseExpression(segs).Success?
    ensures var n := |segs| - 1;
      var split := SplitFormat(segs[n]).value;
      var parts := segs[..n] + [split.0];
      && IsLanguageToken(parts[0])
      && ParseExpression(segs).value == ReadExpression(parts, split.1)
      && segs == WithSuffix(parts, FormatText(split.1))
  {
    var n := |segs| - 1;
    var split := SplitFormat(segs[n]).value;
    assert segs[n] == split.0 + FormatText(split.1);
  }

  lemma ParseExpressionLossless(segs: seq<string>, u: FrbrUri)
    requires |segs| >= 1 && ParseExpression(segs).Success?
    ensures var v := WithTail(u, None, ParseExpression(segs).value);
      Join(segs, '/') == Join(ExpressionSegments(v, v.expressionComponent), '/') + FormatSuffix(v)
  {
    var n := |segs| - 1;
    var split := SplitFormat(segs[n]).value;
    var parts := segs[..n] + [split.0];
    ParseExpressionSegments(segs);
    ReadExpressionLossless(parts, split.1, u);
    JoinExtendLast(parts, FormatText(split.1), '/');
  }

  /** The expression fields of `u`, as `ParseTail` returns them. */
  function ExpressionOf(u: FrbrUri): Expression {
    Expression(u.language, u.expressionDate, u.expressionComponent, u.expressionSubcomponent, u.format)
  }

  /** The country token a parsed country and locality write back is the segment they came from. */
  lemma CountryTokenOf(seg: string, place: (string, Option<string>))
    requires ParseCountry(seg) == Success(place)
    ensures place.0 + (if place.1.Some? then "-" + place.1.value else "") == seg
  {
  }

  /** The segments `WorkOf` read the work fields from are the work URI's segments. */
  lemma WorkOfSegments(place: (string, Option<string>), segs: seq<string>, d: nat)
    requires 2 <= d <= 4 && d + 1 < |segs|
    requires ParseCountry(segs[0]) == Success(place)
    ensures |UriSegments(WorkOf(place, segs, d))| == d + 2 && segs[..d + 2] == UriSegments(WorkOf(place, segs, d))
  {
    var w := WorkOf(place, segs, d);
    assert segs[0] == CountryToken(w) by {
      CountryTokenOf(segs[0], place);
    }
    if d == 2 {
      WorkOfSegments2(segs, w);
    } else if d == 3 {
      WorkOfSegments3(segs, w);
    } else {
      WorkOfSegments4(segs, w);
    }
  }

  lemma WorkOfSegments2(segs: seq<string>, w: FrbrUri)
    requires |segs| >= 4 && segs[0] == CountryToken(w) && segs[1] == w.doctype
    requires w.subtype.None? && w.actor.None? && w.date == segs[2] && w.number == segs[3]
    ensures segs[..4] == UriSegments(w)
  {
    assert UriSegments(w) == [segs[0], segs[1], segs[2], segs[3]];
  }

  lemma WorkOfSegments3(segs: seq<string>, w: FrbrUri)
    requires |segs| >= 5 && segs[0] == CountryToken(w) && segs[1] == w.doctype
    requires w.subtype == Some(segs[2]) && w.actor.None? && w.date == segs[3] && w.number == segs[4]
    ensures segs[..5] == UriSegments(w)
  {
    assert UriSegments(w) == [segs[0], segs[1], segs[2], segs[3], segs[4]];
  }

  lemma WorkOfSegments4(segs: seq<string>, w: FrbrUri)
    requires |segs| >= 6 && segs[0] == CountryToken(w) && segs[1] == w.doctype
    requires w.subtype == Some(segs[2]) && w.actor == Some(segs[3]) && w.date == segs[4] && w.number == segs[5]
    ensures segs[..6] == UriSegments(w)
  {
    assert UriSegments(w) == [segs[0], segs[1], segs[2], segs[3], segs[4], segs[5]];
  }

  lemma ParseSegmentsHead(segs: seq<string>)
    requires ParseSegments(segs).Success?
    ensures var u := ParseSegments(segs).value;
      && |UriSegments(u)| <= |segs|
      && segs[..|UriSegments(u)|] == UriSegments(u)
      && ParseTail(segs[|UriSegments(u)|..]) == Success((u.workComponent, ExpressionOf(u)))
  {
    var place, d, t := ParseSegmentsParts(segs);
    var w := WorkOf(place, segs, d);
    var u := WithTail(w, t.0, t.1);
    WorkOfSegments(place, segs, d);
    assert UriSegments(u) == UriSegments(w);
    assert (u.workComponent, ExpressionOf(u)) == t;
  }

  lemma SameExpressionText(u: FrbrUri, v: FrbrUri)
    requires ExpressionOf(u) == ExpressionOf(v)
    ensures ExpressionSegments(u, u.expressionComponent) == ExpressionSegments(v, v.expressionComponent)
    ensures FormatSuffix(u) == FormatSuffix(v)
  {
    assert LanguageToken(u) == LanguageToken(v);
  }

  /** The expression segments parsed into `u` are written back as they were. */
  lemma ExpressionSegmentsLossless(e: seq<string>, u: FrbrUri)
    requires |e| >= 1
    requires ParseExpression(e) == Success(ExpressionOf(u))
    ensures "/" + Join(e, '/') == ExpressionSuffix(u)
  {
    var v := WithTail(u, None, ExpressionOf(u));
    var x := Join(ExpressionSegments(u, u.expressionComponent), '/');
    var f := FormatSuffix(u);
    assert x == Join(ExpressionSegments(v, v.expressionComponent), '/') && f == FormatSuffix(v) by {
      assert ExpressionOf(v) == ExpressionOf(u);
      SameExpressionText(u, v);
    }
    assert Join(e, '/') == x + f by {
      ParseExpressionLossless(e, u);
    }
    SlashBefore(Join(e, '/'), x, f);
  }

  lemma SlashBefore(j: string, x: string, f: string)
    requires j == x + f
    ensures "/" + j == "/" + x + f
  {
  }

  lemma ExpressionTailLossless(front: seq<string>, e: seq<string>, u: FrbrUri)
    requires |front| >= 1 && |e| >= 1
    requires ParseExpression(e) == Success(ExpressionOf(u))
    ensures Join(front + e, '/') == Join(front, '/') + ExpressionSuffix(u)
  {
    ExpressionSegmentsLossless(e, u);
    JoinConcat(front, e, '/');
  }

  /** What the work URI and the expression suffix are built from, for a path that parsed to `u`. */
  predicate TailLossless(head: seq<string>, tail: seq<string>, u: FrbrUri) {
    var work := Join(head + OptList(u.workComponent), '/');
    || (Join(head + tail, '/') == work && u == WorkPart(u))
    || Join(head + tail, '/') == work + ExpressionSuffix(u)
  }

  lemma ParseTailLossless(head: seq<string>, tail: seq<string>, u: FrbrUri)
    requires |head| >= 1
    requires ParseTail(tail) == Success((u.workComponent, ExpressionOf(u)))
    ensures TailLossless(head, tail, u)
  {
    if tail == [] {
      assert u.workComponent.None? && ExpressionOf(u) == NoExpression;
      NoTailLossless(head, u);
      assert head + tail == head;
    } else if StartsExpression(tail[0]) {
      assert u.workComponent.None? && ParseExpression(tail) == Success(ExpressionOf(u));
      ExpressionOnlyLossless(head, tail, u);
    } else if |tail| == 1 {
      assert u.workComponent == Some(tail[0]) && ExpressionOf(u) == NoExpression;
      ComponentOnlyLossless(head, tail, u);
    } else {
      assert u.workComponent == Some(tail[0]) && ParseExpression(tail[1..]) == Success(ExpressionOf(u));
      ComponentExpressionLossless(head, tail, u);
    }
  }

  lemma NoTailLossless(head: seq<string>, u: FrbrUri)
    requires u.workComponent.None? && ExpressionOf(u) == NoExpression
    ensures TailLossless(head, [], u)
  {
    assert head + [] == head + OptList(u.workComponent);
  }

  lemma ExpressionOnlyLossless(head: seq<string>, tail: seq<string>, u: FrbrUri)
    requires |head| >= 1 && |tail| >= 1
    requires u.workComponent.None? && ParseExpression(tail) == Success(ExpressionOf(u))
    ensures TailLossless(head, tail, u)
  {
    assert head + OptList(u.workComponent) == head;
    ExpressionTailLossless(head, tail, u);
  }

  lemma ComponentOnlyLossless(head: seq<string>, tail: seq<string>, u: FrbrUri)
    requires |tail| == 1
    requires u.workComponent == Some(tail[0]) && ExpressionOf(u) == NoExpression
    ensures TailLossless(head, tail, u)
  {
    assert head + tail == head + OptList(u.workComponent);
  }

  lemma ComponentExpressionLossless(head: seq<string>, tail: seq<string>, u: FrbrUri)
    requires |head| >= 1 && |tail| >= 2
    requires u.workComponent == Some(tail[0]) && ParseExpression(tail[1..]) == Success(ExpressionOf(u))
    ensures TailLossless(head, tail, u)
  {
    var front := head + OptList(u.workComponent);
    assert head + tail == front + tail[1..];
    ExpressionTailLossless(front, tail[1..], u);
  }

  lemma ParseSegmentsLossless(segs: seq<string>)
    requires ParseSegments(segs).Success?
    ensures var u := ParseSegments(segs).value;
      var work := Join(UriSegments(u) + OptList(u.workComponent), '/');
      || (Join(segs, '/') == work && u == WorkPart(u))
      || Join(segs, '/') == work + ExpressionSuffix(u)
  {
    var u := ParseSegments(segs).value;
    var head := UriSegments(u);
    assert |head| <= |segs| && segs[..|head|] == head
        && ParseTail(segs[|head|..]) == Success((u.workComponent, ExpressionOf(u))) by {
      ParseSegmentsHead(segs);
    }
    var tail := segs[|head|..];
    assert segs == head + tail;
    ParseTailLossless(head, tail, u);
  }

  /**
   * `parse` loses nothing: the path is the work URI of what it parsed to,
   * followed, unless the expression fields are all at their defaults, by
   * the language token, component, subcomponent and format exactly as given.
   */
  lemma ParseLossless(s: string)
    requires Parse(s).Success?
    ensures var u := Parse(s).value;
      || (s == WorkUri(u) && u == WorkPart(u))
      || s == WorkUri(u) + ExpressionSuffix(u)
  {
    var segs := Split(s[1..], '/');
    assert s == "/" + Join(segs, '/') by {
      JoinSplit(s[1..], '/');
      assert s == "/" + s[1..];
    }
    assert Parse(s) == ParseSegments(segs);
    SegmentsPathLossless(s, segs);
  }

  lemma SegmentsPathLossless(s: string, segs: seq<string>)
    requires ParseSegments(segs).Success? && s == "/" + Join(segs, '/')
    ensures var u := ParseSegments(segs).value;
      || (s == WorkUri(u) && u == WorkPart(u))
      || s == WorkUri(u) + ExpressionSuffix(u)
  {
    var u := ParseSegments(segs).value;
    var work := Join(UriSegments(u) + OptList(u.workComponent), '/');
    assert WorkUri(u) == "/" + work;
    assert || (Join(segs, '/') == work && u == WorkPart(u))
           || Join(segs, '/') == work + ExpressionSuffix(u) by {
      ParseSegmentsLossless(segs);
    }
    LosslessText(s, Join(segs, '/'), work, WorkUri(u), ExpressionSuffix(u), u == WorkPart(u));
  }

  lemma LosslessText(s: string, j: string, work: string, workUri: string, suffix: string, plain: bool)
    requires s == "/" + j && workUri == "/" + work
    requires (j == work && plain) || j == work + suffix
    ensures (s == workUri && plain) || s == workUri + suffix
  {
    if !(j == work && plain) {
      SlashBefore(j, work, suffix);
    }
  }
}
