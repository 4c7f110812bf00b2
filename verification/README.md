# cobalt FRBR URIs and acts, in Dafny

This is a model of the core of cobalt, a library for Akoma Ntoso legislative documents. It covers two parts.

- **`FrbrUri`**: how a URI path such as `/za-cpt/act/by-law/1980/01/eng@2014-01-01/main/chapter/2.html` is parsed into typed fields, and how the work, expression and manifestation URIs are written back from those fields.
- **`Act`**, in three parts:
  - its structural index: the table of contents and `get_subcomponent`;
  - its lifecycle ledger: amendment and repeal events, the references they cite, and the `contains` flag;
  - the projection of an assigned `frbr_uri` into the identification block.

The behaviour comes from the repository's own test files, `tests/test_uri.py` and `tests/test_act.py`. `FrbrUri` (`cobalt/uri.py`) and `Act` (`cobalt/act.py`) are modelled as these test files specify them. Where the tests are silent, the model follows cobalt's design as documented. The decisions are listed under "## Left out" and "## Design choices".

Modules, one concept each:

| file | module | contents |
|---|---|---|
| `wrappers.dfy` | `Wrappers` | `Option` and `Result` (with `:-`) |
| `strings.dfy` | `Strings` | `Split`, `Join`, digit and letter classes, `Capitalize`, `TitleCase`, `NatToString`, and their lemmas |
| `frbr_uri.dfy` | `FrbrUris` | the URI record, `Parse`, `Uri`, `WorkUri`, `ExpressionUri`, `ManifestationUri`, and well-formedness |
| `frbr_uri_proofs.dfy` | `FrbrUriProofs` | round trips (write, then parse) and losslessness (parse, then write) |
| `frbr_uri_examples.dfy` | `FrbrUriExamples` | every URI in `tests/test_uri.py`, proved |
| `structure.dfy` | `Structure` | element trees, TOC entries, `TableOfContents`, `GetSubcomponent`, and reference definitions |
| `structure_proofs.dfy` | `StructureProofs` | how the TOC relates to the tree, and lookup as first match |
| `lifecycle.dfy` | `Lifecycle` | the ledger, the setters and getters, and the references block |
| `lifecycle_proofs.dfy` | `LifecycleProofs` | round trips, last-wins, tidiness preserved, and independence of the two setters |
| `lifecycle_examples.dfy` | `LifecycleExamples` | the ledgers of `test_set_amendments` and `test_set_repeal` |
| `act.dfy` | `Acts` | the act record, the `frbr_uri` setter and getter, and delegation to the two parts above |
| `act_examples.dfy` | `ActExamples` | the tables of contents, lookups and projection of `tests/test_act.py` |

## Model

| member | source | states |
|---|---|---|
| FrbrUriProofs.ParseShape | tests/test_uri.py:7-8 | A path parses only if it starts with `/` and has at least four segments. The first segment is then exactly the country, followed by `-` and the locality when there is one. |
| FrbrUriProofs.UriSplits | tests/test_uri.py:104-114 | `uri()` starts with `/`. Split at `/`, the rest gives back the work segments: country (with locality), doctype, subtype and actor when present, date, number. |
| FrbrUris.ManifestationUri | tests/test_uri.py:221-227 | `manifestation_uri()` is `expression_uri()` when there is no format. Otherwise it is `expression_uri()` + `.` + the format. |
| FrbrUris.ParseCountry | tests/test_uri.py:38-41 | On success, the country is a two-letter lower-case code, free of `-`. A bare two-letter code always parses as itself. With no locality, the country is the whole segment. With a locality, the segment is exactly country + `-` + locality, and the locality is non-empty. |
| FrbrUris.DateIndex | tests/test_uri.py:52-58 | The date is the first date-shaped segment (`YYYY` or `YYYY-MM-DD`) at positions 2 to 4, with no date shape before it. When the result is none, no position in that window is date-shaped. |
| FrbrUris.SplitFormat | tests/test_uri.py:131-133 | On success, the body is non-empty and has no `.`. With a format, the segment is exactly body + `.` + format, and the format is non-empty and dot-free. |
| FrbrUris.WorkUri | tests/test_uri.py:104-105 | `work_uri()` is `uri()` when there is no work component. Otherwise it is `uri()` + `/` + the component. |
| FrbrUris.ExpressionUri | tests/test_uri.py:104-116 | `expression_uri()` is `uri()` followed by the language token, then the component (the expression component, else the work component), then the subcomponent. It never mentions the format. |
| FrbrUriProofs.ParseCountryRoundTrip | tests/test_uri.py:38-50 | Any well-formed country and locality, written as the first segment, parse back to the same pair. |
| FrbrUriProofs.SplitFormatRoundTrip | tests/test_uri.py:131-133 | A dot-free body with a `.format` suffix splits back into the same body and format, for every format. |
| FrbrUriProofs.ParseExpressionRoundTrip | tests/test_uri.py:135-176 | Any readable language token, component, subcomponent and format, written as expression segments, parse back to the same expression. |
| FrbrUriProofs.ParseSegmentsRoundTrip | tests/test_uri.py:10-106 | The work segments of any well-formed record, followed by any expression tail, give back the record's work fields. |
| FrbrUriProofs.WorkUriRoundTrip | tests/test_uri.py:10-106 | For every well-formed work, parsing `work_uri()` gives back exactly the work fields, with default expression fields. |
| FrbrUriProofs.UriRoundTrip | tests/test_uri.py:104-114 | Parsing `uri()` gives back the work fields without the component. |
| FrbrUriProofs.ExpressionUriRoundTrip | tests/test_uri.py:118-208 | For any record whose fields can be written, parsing `expression_uri()` gives back the record. The shown component becomes the expression component and the format is dropped. |
| FrbrUriProofs.ManifestationUriRoundTrip | tests/test_uri.py:221-227 | Parsing `manifestation_uri()` gives back the record, with its format. |
| FrbrUriProofs.ParseWellFormed | tests/test_uri.py:7-208 | Every successful parse yields a well-formed record: segments non-empty and slash-free, date-shaped date, non-date subtype and actor, three-letter language, marker starting with `@` or `:`. |
| FrbrUriProofs.ParseLossless | tests/test_uri.py:7-208 | Every path that parses is rewritten verbatim: either as `work_uri()` of the result, or as `work_uri()` followed by the expression and the format. |
| FrbrUriExamples.RejectsBadness | tests/test_uri.py:7-8 | `/badness` is rejected. |
| FrbrUriExamples.RejectsBadCountry | tests/test_uri.py:7-8 | Any path whose first segment is neither a two-letter code nor a code with a locality is rejected, however many segments follow. |
| FrbrUriExamples.RejectsLongCountry | tests/test_uri.py:7-8 | `/badness/act/1980/01` is rejected: `badness` is not a country code. |
| FrbrUriExamples.ParsesSimple | tests/test_uri.py:10-22 | `/za/act/1980/01` parses to the asserted fields, and `work_uri()` returns it. |
| FrbrUriExamples.ParsesWithSubtype | tests/test_uri.py:24-36 | `/za/act/by-law/1980/01` has subtype `by-law`, and `work_uri()` returns it. |
| FrbrUriExamples.ParsesWithLocality | tests/test_uri.py:38-50 | `/za-cpt/...` has country `za` and locality `cpt`, and `work_uri()` returns it. |
| FrbrUriExamples.ParsesWithActor | tests/test_uri.py:52-63 | A subtype and an actor before the date. |
| FrbrUriExamples.ParsesLongDate | tests/test_uri.py:65-76 | A `YYYY-MM-DD` date. |
| FrbrUriExamples.ParsesNonNumeric | tests/test_uri.py:78-89 | The number `nn`. |
| FrbrUriExamples.ParsesWorkComponent | tests/test_uri.py:91-106 | Work component `schedule1`. Also the three URIs the test asserts, including `/za/act/1980/2/eng/schedule1`. |
| FrbrUriExamples.ParsesAct1980Two | tests/test_uri.py:108-109 | `/za/act/1980/2` parses, and its `work_uri()` is itself. |
| FrbrUriExamples.SetComponents | tests/test_uri.py:108-116 | After setting the work component, expression component and subcomponent, the three URIs are as asserted. |
| FrbrUriExamples.ParsesAfrFirst | tests/test_uri.py:119-123 | `afr@` gives language `afr` and expression date `@`. The work and expression URIs are as asserted. |
| FrbrUriExamples.ParsesAfrDated | tests/test_uri.py:125-129 | `afr@2014-01-01` keeps its marker in the expression date. |
| FrbrUriExamples.ParsesAfrHtml | tests/test_uri.py:131-133 | `afr.html` gives language `afr` and format `html`. |
| FrbrUriExamples.ParsesEngMain | tests/test_uri.py:136-139 | Expression component `main`. |
| FrbrUriExamples.ParsesEngMainChapter | tests/test_uri.py:141-145 | Expression component `main`, subcomponent `chapter/2`. |
| FrbrUriExamples.ParsesFirstMainChapter | tests/test_uri.py:147-151 | The same, with date marker `@`. |
| FrbrUriExamples.ParsesDatedMainSchedule | tests/test_uri.py:153-163 | `eng@2014-01-01/main/schedule1`. |
| FrbrUriExamples.ParsesEngChapter | tests/test_uri.py:171-176 | The edge case: `eng/chapter/2` reads as component `chapter`, subcomponent `2`. |
| FrbrUriExamples.SubcomponentWithoutComponent | tests/test_uri.py:171-176 | A subcomponent `chapter/2` set with no component is written like component `chapter`, subcomponent `2`. It reads back as the latter, which is a different record. |
| FrbrUriExamples.ParsesEng | tests/test_uri.py:184-187 | A bare `eng` has no expression date, and `expression_uri()` returns it. |
| FrbrUriExamples.ParsesEngFirst | tests/test_uri.py:193-196 | `eng@` has expression date `@`, and `expression_uri()` returns it. |
| FrbrUriExamples.ParsesEngFirstMain | tests/test_uri.py:198-200 | `eng@/main` has expression date `@`. |
| FrbrUriExamples.ParsesEngColonMain | tests/test_uri.py:202-204 | `eng:/main` has expression date `:`. |
| FrbrUriExamples.ParsesEngColonDatedMain | tests/test_uri.py:206-208 | `eng:2012-01-01/main` has expression date `:2012-01-01`. |
| FrbrUriExamples.SetExpressionFields | tests/test_uri.py:210-227 | After setting the date, component and format, `expression_uri()` omits the format and `manifestation_uri()` appends `.html`. Adding a subcomponent extends the expression URI. |
| Structure.KindOf | tests/test_act.py:84-128 | Only the seven TOC tags have a kind. A kind's name is the tag it was read from. |
| Structure.ChildText | tests/test_act.py:88-90 | A `num` or `heading` is present exactly when some child has that tag. Its text is the text of the first child with that tag. |
| StructureProofs.SubcomponentPathSegments | tests/test_act.py:116-123 | Read as `/`-separated segments, a section's path is `section` and its number, whatever encloses it. A chapter's or part's path is the enclosing path's segments, then its kind and number. A front-matter block's path is its kind alone. |
| Structure.Title | tests/test_act.py:116-123 | A chapter or part title starts with the capitalised kind. A section with a heading ends with the heading. A section with neither heading nor number is `Section`. A front-matter block is its capitalised kind. |
| Structure.Humanise | tests/test_act.py:244 | The default title is the spaced name title-cased. It equals the spaced name up to letter case. A letter is upper-case exactly when it starts a word. |
| Structure.DocEntry | tests/test_act.py:241-246 | A component's entry has kind `doc`, the component's name, no subcomponent, and heading equal to title. The title is the alias when there is one, else the humanised name. The children are the entries of the component's own body. |
| Structure.TableOfContents | tests/test_act.py:130-246 | The main document's entries come first, unchanged. Then comes exactly one `doc` entry per component, in component order. |
| Structure.FirstMatch | tests/test_act.py:277-306 | The result is none exactly when no entry has that component and path. Otherwise it is the element of the first such entry. |
| StructureProofs.KindNameRoundTrip | tests/test_act.py:84-128 | Every TOC kind's name reads back as that kind. |
| StructureProofs.TocElements | tests/test_act.py:84-128 | Flattened in document order, the TOC lists exactly the interesting elements of the tree. No element is lost, duplicated or reordered, and other elements are transparent. |
| StructureProofs.LeafEntry | tests/test_act.py:116-123 | A TOC element gives exactly one entry. That entry has no children exactly when no TOC element lies below it, so a plain section is a leaf. |
| StructureProofs.NestedPaths | tests/test_act.py:116-123 | The chapters and parts directly below a chapter's or part's entry extend that entry's path (`chapter/1/part/A`). Below a section or front-matter block they start afresh from their own kind and number. |
| StructureProofs.TocPlaced | tests/test_act.py:84-128 | Every entry is placed correctly. Its kind, id, num, heading and title come from its element, and its path follows the nesting rule. Chapters and parts directly below a chapter or part extend its path; below a section or front-matter block they start afresh. |
| StructureProofs.SearchIsFirstMatch | tests/test_act.py:277-306 | Depth-first search of the tree equals first match over the flattened list. |
| StructureProofs.GetSubcomponentSpec | tests/test_act.py:277-306 | `get_subcomponent` returns the element of the first TOC entry (in document order) with that component and path. It returns none exactly when no entry has them. |
| StructureProofs.MainSectionFound | tests/test_act.py:298-303 | When no component is named `main`, a hit for `main` is an interesting element of the body, with a correctly placed entry carrying that path. |
| StructureProofs.DocsElsewhere | tests/test_act.py:241-246 | Component entries never answer for a component name that no component has. |
| StructureProofs.SpacedOnlyAddsSpaces | tests/test_act.py:244 | Humanising a name changes nothing but spaces: without spaces and underscores, the name and its spaced form agree. |
| StructureProofs.SpacedLetters | tests/test_act.py:244 | A run of letters followed by a non-digit is copied unchanged: no space is inserted inside it. |
| StructureProofs.SpacedBoundary | tests/test_act.py:244 | A letter followed by a digit gains exactly one space between them, whatever comes before and after. This is how `schedule2` becomes `schedule 2`. |
| StructureProofs.KindTitleIsTitleCase | tests/test_act.py:271-274 | Every kind name is a lower-case word, so its capitalised form used in titles is also its title-cased form. |
| ActExamples.NestedTableOfContents | tests/test_act.py:84-128 | The nested TOC, with every id, num, heading, path and title as asserted. This includes `chapter/1/part/A` for the part and `section/2` for the section inside it. |
| ActExamples.ComponentTableOfContents | tests/test_act.py:130-246 | The alias `A Title` for `schedule1`, the humanised `Schedule 2`, and the untitled `Section` children. |
| ActExamples.FrontMatterTableOfContents | tests/test_act.py:248-275 | Coverpage, preface, preamble and conclusions, in order. |
| ActExamples.LookupExamples | tests/test_act.py:277-306 | `chapter/2` and `section/1` are found. `chapter/99` and `section/99` are not. |
| Lifecycle.FindRef | tests/test_act.py:400-408 | The result is none exactly when no reference has that id. Otherwise it is a reference with that id. |
| Lifecycle.FirstOfType | tests/test_act.py:457-463 | The result is none exactly when no event has that type. Otherwise it is an event of that type. |
| Lifecycle.KeepEvents | tests/test_act.py:355-387 | The result keeps exactly the events of other types, and nothing else. |
| Lifecycle.KeepRefs | tests/test_act.py:355-392 | The result keeps exactly the references not cited by a removed event, and nothing else. |
| Lifecycle.SetAmendments | tests/test_act.py:314-387 | Assigning amendments leaves `contains` alone. The events are the kept ones plus one per new amendment. |
| Lifecycle.Repeal | tests/test_act.py:457-463 | The repeal reads as none exactly when no repeal event is recorded. A repeal read back carries the date of a repeal event and the target and title of the reference it cites. Failure happens only when a repeal event's citation dangles. |
| Lifecycle.SetRepeal | tests/test_act.py:416-463 | Assigning a repeal makes the act an `originalVersion`. Clearing it makes the act a `singleVersion`. |
| Lifecycle.References | tests/test_act.py:345-347 | An empty ledger writes no references. Otherwise the tool's organisation comes first, followed by every passive reference in order. |
| LifecycleProofs.AmendmentSourceIdInjective | tests/test_act.py:391-392 | Distinct amendment indices give distinct reference ids. |
| LifecycleProofs.ReadAmendmentsOutcome | tests/test_act.py:400-408 | Reading the amendments fails exactly when some amendment event cites a missing reference. Otherwise it yields one amendment per amendment event. |
| LifecycleProofs.AmendmentsDefined | tests/test_act.py:400-408 | On a ledger where every event finds its reference, `amendments` reads without error, one item per amendment event. |
| LifecycleProofs.RepealDefined | tests/test_act.py:457-463 | On a ledger where every event finds its reference, `repeal` reads without error. |
| LifecycleProofs.AmendmentsRoundTrip | tests/test_act.py:355-408 | Reading amendments after assigning a list gives that list back, in order, for every list. |
| LifecycleProofs.RepealRoundTrip | tests/test_act.py:416-463 | Reading the repeal after assigning one, or none, gives it back. |
| LifecycleProofs.AmendmentsLastWins | tests/test_act.py:314-398 | Assigning amendments twice equals assigning only the second list. |
| LifecycleProofs.RepealLastWins | tests/test_act.py:416-463 | Assigning a repeal twice equals assigning only the second. |
| LifecycleProofs.RemoveSetAmendments | tests/test_act.py:355-392 | Assigning amendments touches nothing but amendments and their references. |
| LifecycleProofs.SetAmendmentsTidy | tests/test_act.py:343-392 | The amendment setter keeps a ledger tidy. Tidy means: every event cites a present reference, events of different types cite different references, and reference ids of each kind are cited by their own kind. |
| LifecycleProofs.SetRepealTidy | tests/test_act.py:445-463 | The repeal setter keeps a ledger tidy. |
| LifecycleProofs.AmendmentsIgnoreRepeal | tests/test_act.py:308-463 | On a tidy ledger, assigning or clearing a repeal does not change the amendments read back. |
| LifecycleProofs.RepealIgnoresAmendments | tests/test_act.py:308-463 | On a tidy ledger, assigning amendments does not change the repeal read back. |
| LifecycleExamples.AssignAmendments | tests/test_act.py:308-408 | The ledger and references written for one amendment, then for two, with ids `amendment-0-source` and `amendment-1-source`, read back in order. |
| LifecycleExamples.AssignRepeal | tests/test_act.py:410-463 | The repeal ledger (`repeal-2012-02-01` citing `#repeal-source`, `originalVersion`) reads back, and reads none once cleared. Clearing it leaves the empty ledger, whose references block is empty, with no organisation entry. |
| Acts.Projected | tests/test_act.py:14-30 | The projected URI keeps the work fields of the assigned URI. Its component is `main`, and it has no expression component, subcomponent or format. |
| Acts.ProjectedUris | tests/test_act.py:19-30 | The four URIs of the projection: the bare work URI, the work URI with `/main`, the expression URI with the act's language and `@` date, and that expression URI with `/main`. |
| Acts.SetFrbrUri | tests/test_act.py:14-30 | Assigning succeeds exactly when the URI parses. The identification block is then rewritten from it (each `FRBRthis` is its `FRBRuri` + `/main`, with the act's language and `@` expression date), and nothing else changes. |
| Acts.IdentificationOf | tests/test_act.py:22-30 | The block carries the URI's country. The work `FRBRthis` is the work `FRBRuri` followed by the component. The manifestation values repeat the expression values. |
| Acts.FrbrUriOf | tests/test_act.py:19 | `frbr_uri` reads back exactly when the stored work URI parses. It then has that URI's work fields and the act's language. |
| Acts.Number | tests/test_act.py:20 | `number` reads back exactly when the stored work URI parses. It is then that URI's number, a non-empty segment without `/`. |
| Acts.FrbrUriRoundTrip | tests/test_act.py:14-20 | After assigning any URI that parses, `frbr_uri` reads back its work fields with the act's language. Its `work_uri()` is the bare work URI, and `number` is the URI's number. |
| ActExamples.AssignUri | tests/test_act.py:14-30 | With expression date `2012-01-01`, assigning `/zm/act/2007/01` writes the identification values the test asserts. `work_uri()` and `number` then read back as asserted. |

## Design choices

These are points the tests leave open. The model settles each of them as stated below.

- The expression date keeps its marker: `@`, `@2014-01-01`, `:` or `:2012-01-01`, as asserted at `tests/test_uri.py:195-208`. The comment at `tests/test_uri.py:179-182` instead describes a dangling `@` as an empty string. The model follows the assertions.
- Parsing:
  - the date is the first date-shaped segment among the three after the doctype;
  - the segments between the doctype and the date are the subtype, then the actor;
  - after the number, a segment that reads as a language token starts the expression, and any other segment is the work component;
  - a `.format` may only end the last segment.
- The table of contents:
  - tags other than the seven TOC kinds are transparent, so their children are still visited;
  - a chapter or part extends the path of its directly enclosing TOC entry when that entry is a chapter or part; otherwise its path starts afresh with its own kind and number (`StructureProofs.NestedPaths`). Tags outside the seven kinds do not count as enclosing entries. The tests never nest a chapter or part inside a section or front-matter block;
  - a section's path ignores nesting (`section/2` inside `chapter/1/part/A`, `tests/test_act.py:121-123`);
  - a trailing `.` is dropped from numbers in paths, but kept in titles;
  - a section with a heading but no number is titled by its heading.
- Humanising a component name replaces `_` with a space and puts a space between a letter and a following digit. It then title-cases the result as Python's `str.title()` does on ASCII text, so `schedule2` reads `Schedule 2` and `annex_b` reads `Annex B`.
- Reading `amendments` or `repeal` fails when an event cites a reference id that is not in the ledger. Such a ledger cannot arise from the setters: they keep every citation resolved (`Tidy`), and on such ledgers both reads succeed.
- A leaf entry's missing `children` key is modelled as an empty `children` sequence. An entry has no children exactly when nothing below its element is a TOC element (`StructureProofs.LeafEntry`). A TOC element nested inside a section or front-matter block therefore becomes that entry's child. The tests never nest one that way.
- The references block is derived from the ledger. The `cobalt` organisation entry appears with the first event or reference. It disappears when the ledger empties again, for example when the only repeal is cleared.
- `get_subcomponent` searches the TOC depth-first, in document order, and returns the first entry with that component and path.
- Removing amendments (or the repeal) deletes the events of that type and the references those events cite. References that nothing of that type cites stay.
- The `frbr_uri` setter projects the assigned URI onto the `main` component, with the act's language and `@` + its expression date, as at `tests/test_act.py:26-30`.

## Left out

- XML parsing and serialisation: `to_xml()` text, namespaces, element attributes beyond `id`, and the default body fallback at `tests/test_act.py:33-37`. The model works on element trees and ledgers instead.
- Date types and `datestring` (`tests/test_act.py:39-63`): dates are kept as strings.
- The scalar metadata accessors (`publication_*`, `language`, `work_date`, `manifestation_date`, `tests/test_act.py:39-82`): these are plain field reads and writes, with no logic to prove.
- The `meta` object of a new act (`tests/test_act.py:8-12`): the model's default act carries only the title `Untitled` and the identification values the fixtures show.
- The identification blocks of individual components: only their alias is modelled, as the component's optional title.
- The `FRBRdate` and `FRBRauthor` entries of the identification block, and the `source` attributes: these are fixed texts unaffected by the operations modelled.
- The `FRBRthis` of the expression block is written as `.../eng@2012-01-01/main` (`tests/test_act.py:26`). The `.../main/eng@` form seen in a fixture (`tests/test_act.py:145`) is input data that the model does not reproduce.
- The identification values of a new act end in a bare `@` (`tests/test_act.py:329-337`). These are its starting values. Assigning a URI writes `@` followed by the act's expression date instead.
- LifecycleProofs.AmendmentsRoundTrip: requires that every reference named like an amendment source is cited by an amendment. The setters keep this true, and it is part of `Tidy`. Without it, an orphaned `amendment-0-source` could shadow a new one in the lookup.
- LifecycleProofs.RepealRoundTrip: likewise requires that an orphaned `repeal-source` reference is not present when a repeal is assigned.
- LifecycleProofs.AmendmentsLastWins and LifecycleProofs.RepealLastWins: carry the same requirements as the two round trips, for the same reason.
- LifecycleProofs.RemoveSetAmendments: requires that every reference named like an amendment source is cited by an amendment (`AmendmentRefsCited`). Without it, the two sides can differ: the new first amendment cites the id `amendment-0-source`, so removing after setting also deletes an orphaned reference with that id, which removing alone keeps.
- LifecycleProofs.AmendmentsIgnoreRepeal and LifecycleProofs.RepealIgnoresAmendments: are stated for tidy ledgers, the only ledgers the setters produce from an empty one.
- Structure.Title: fixes the title of a chapter or part to start with its kind, and of a headed section to end with its heading. The full text is pinned only by the example lemmas.
