/**
 * The lifecycle ledger of an act: the amendment and repeal events kept in
 * the `lifecycle` block of its metadata, each citing a `passiveRef` in the
 * `references` block, and the `contains` attribute of the act.
 */
module Lifecycle {
  import opened Wrappers
  import opened Strings

  /** An amendment: when it happened and the instrument that made it. */
  datatype AmendmentEvent = AmendmentEvent(date: string, amendingUri: string, amendingTitle: string)

  /** A repeal: when it happened and the instrument that made it. */
  datatype RepealEvent = RepealEvent(date: string, repealingUri: string, repealingTitle: string)

  /** An `eventRef` of the lifecycle block; `source` is `#` and the id of the reference it cites. */
  datatype EventRef = EventRef(id: string, date: string, eventType: string, source: string)

  /** A `passiveRef` of the references block: the instrument an event cites. */
  datatype PassiveRef = PassiveRef(id: string, href: string, showAs: string)

  /** An entry of the references block as written out. */
  datatype Reference =
    | Organization(id: string, href: string, showAs: string)
    | Passive(ref: PassiveRef)

  /** The `TLCOrganization` naming the tool as the source of the lifecycle metadata. */
  const Cobalt: Reference := Organization("cobalt", "https://github.com/Code4SA/cobalt", "cobalt")

  /** The `contains` attribute of the act. */
  datatype VersionKind = SingleVersion | OriginalVersion

  /** The events in document order, the passive references in document order, and `contains`. */
  datatype Ledger = Ledger(events: seq<EventRef>, refs: seq<PassiveRef>, contains: VersionKind)

  /** The ledger of a new act: nothing recorded, a single version. */
  const EmptyLedger := Ledger([], [], SingleVersion)

  const AmendmentType := "amendment"
  const RepealType := "repeal"

  /** The id of the reference the `i`-th amendment cites. */
  function AmendmentSourceId(i: nat): string {
    "amendment-" + NatToString(i) + "-source"
  }

  /** The id of the reference the repeal cites. */
  const RepealSourceId := "repeal-source"

  /** The `source` attribute citing the reference `id`. */
  function Cite(id: string): string {
    "#" + id
  }

  /** The id a `source` attribute cites: everything after its first character. */
  function Target(source: string): string {
    if source == "" then "" else source[1..]
  }

  // ---------------------------------------------------------------------------
  // Lookups
  // ---------------------------------------------------------------------------

  /** The first passive reference with id `id`. */
  function FindRef(refs: seq<PassiveRef>, id: string): (r: Option<PassiveRef>)
    ensures r.None? <==> forall i :: 0 <= i < |refs| ==> refs[i].id != id
    ensures r.Some? ==> r.value.id == id && r.value in refs
  {
    if refs == [] then None
    else if refs[0].id == id then Some(refs[0])
    else FindRef(refs[1..], id)
  }

  /** True when some event of type `t` among `events` cites the reference `id`. */
  predicate CitedBy(events: seq<EventRef>, t: string, id: string) {
    exists i :: 0 <= i < |events| && events[i].eventType == t && Target(events[i].source) == id
  }

  /** True when some event of type `t` cites a reference that is not there. */
  predicate Dangling(events: seq<EventRef>, refs: seq<PassiveRef>, t: string) {
    exists i :: 0 <= i < |events| && events[i].eventType == t && FindRef(refs, Target(events[i].source)).None?
  }

  /** The first event of type `t`. */
  function FirstOfType(events: seq<EventRef>, t: string): (r: Option<EventRef>)
    ensures r.None? <==> forall i :: 0 <= i < |events| ==> events[i].eventType != t
    ensures r.Some? ==> r.value.eventType == t && r.value in events
  {
    if events == [] then None
    else if events[0].eventType == t then Some(events[0])
    else FirstOfType(events[1..], t)
  }

  // ---------------------------------------------------------------------------
  // Removal
  // ---------------------------------------------------------------------------

  /** The events not of type `t`, in order. */
  function KeepEvents(events: seq<EventRef>, t: string): (r: seq<EventRef>)
    ensures |r| <= |events|
    ensures forall i :: 0 <= i < |r| ==> r[i].eventType != t && r[i] in events
    ensures forall e :: e in events && e.eventType != t ==> e in r
  {
    if events == [] then []
    else (if events[0].eventType == t then [] else [events[0]]) + KeepEvents(events[1..], t)
  }

  /** The references no event of type `t` among `events` cites, in order. */
  function KeepRefs(refs: seq<PassiveRef>, events: seq<EventRef>, t: string): (r: seq<PassiveRef>)
    ensures |r| <= |refs|
    ensures forall i :: 0 <= i < |r| ==> !CitedBy(events, t, r[i].id) && r[i] in refs
    ensures forall x :: x in refs && !CitedBy(events, t, x.id) ==> x in r
  {
    if refs == [] then []
    else (if CitedBy(events, t, refs[0].id) then [] else [refs[0]]) + KeepRefs(refs[1..], events, t)
  }

  /** Deletes every event of type `t` and every reference such an event cites. */
  function Remove(l: Ledger, t: string): Ledger {
    Ledger(KeepEvents(l.events, t), KeepRefs(l.refs, l.events, t), l.contains)
  }

  // ---------------------------------------------------------------------------
  // Amendments
  // ---------------------------------------------------------------------------

  /** The event recorded for the `i`-th amendment. */
  function AmendmentRef(ev: AmendmentEvent, i: nat): EventRef {
    EventRef("amendment-" + ev.date, ev.date, AmendmentType, Cite(AmendmentSourceId(i)))
  }

  /** The reference recorded for the `i`-th amendment. */
  function AmendmentSource(ev: AmendmentEvent, i: nat): PassiveRef {
    PassiveRef(AmendmentSourceId(i), ev.amendingUri, ev.amendingTitle)
  }

  function AmendmentRefs(evs: seq<AmendmentEvent>): (r: seq<EventRef>)
    ensures |r| == |evs| && forall i :: 0 <= i < |evs| ==> r[i] == AmendmentRef(evs[i], i)
  {
    seq(|evs|, i requires 0 <= i < |evs| => AmendmentRef(evs[i], i))
  }

  function AmendmentSources(evs: seq<AmendmentEvent>): (r: seq<PassiveRef>)
    ensures |r| == |evs| && forall i :: 0 <= i < |evs| ==> r[i] == AmendmentSource(evs[i], i)
  {
    seq(|evs|, i requires 0 <= i < |evs| => AmendmentSource(evs[i], i))
  }

  /** `amendments = evs`: the old amendments and their references go, the new ones follow the rest. */
  function SetAmendments(l: Ledger, evs: seq<AmendmentEvent>): (r: Ledger)
    ensures r.contains == l.contains
    ensures |r.events| == |KeepEvents(l.events, AmendmentType)| + |evs|
  {
    var kept := Remove(l, AmendmentType);
    Ledger(kept.events + AmendmentRefs(evs), kept.refs + AmendmentSources(evs), l.contains)
  }

  /** The amendments the events record, in order; a dangling citation is an error. */
  function ReadAmendments(events: seq<EventRef>, refs: seq<PassiveRef>): Result<seq<AmendmentEvent>> {
    if events == [] then Success([])
    else if events[0].eventType != AmendmentType then ReadAmendments(events[1..], refs)
    else
      var e := events[0];
      var found := FindRef(refs, Target(e.source));
      if found.None? then Failure("no reference " + Target(e.source))
      else
        var rest :- ReadAmendments(events[1..], refs);
        Success([AmendmentEvent(e.date, found.value.href, found.value.showAs)] + rest)
  }

  /** `amendments`. */
  function Amendments(l: Ledger): Result<seq<AmendmentEvent>> {
    ReadAmendments(l.events, l.refs)
  }

  // ---------------------------------------------------------------------------
  // Repeal
  // ---------------------------------------------------------------------------

  function RepealRef(ev: RepealEvent): EventRef {
    EventRef("repeal-" + ev.date, ev.date, RepealType, Cite(RepealSourceId))
  }

  function RepealSource(ev: RepealEvent): PassiveRef {
    PassiveRef(RepealSourceId, ev.repealingUri, ev.repealingTitle)
  }

  /**
   * `repeal = r`: the old repeal and its reference go; a new repeal follows
   * the rest and makes the act an original version, none makes it a single
   * version.
   */
  function SetRepeal(l: Ledger, r: Option<RepealEvent>): (l': Ledger)
    ensures l'.contains == (if r.Some? then OriginalVersion else SingleVersion)
  {
    var kept := Remove(l, RepealType);
    match r
    case Some(ev) => Ledger(kept.events + [RepealRef(ev)], kept.refs + [RepealSource(ev)], OriginalVersion)
    case None => Ledger(kept.events, kept.refs, SingleVersion)
  }

  /**
   * `repeal`: the first repeal event with the reference it cites, or none
   * when no repeal is recorded; a dangling citation is an error.
   */
  function Repeal(l: Ledger): (r: Result<Option<RepealEvent>>)
    ensures r == Success(None) <==> forall i :: 0 <= i < |l.events| ==> l.events[i].eventType != RepealType
    ensures r.Failure? ==> Dangling(l.events, l.refs, RepealType)
    ensures r.Success? && r.value.Some? ==>
      exists i :: (&& 0 <= i < |l.events| && l.events[i].eventType == RepealType && l.events[i].date == r.value.value.date
                   && FindRef(l.refs, Target(l.events[i].source)) == Some(PassiveRef(Target(l.events[i].source), r.value.value.repealingUri, r.value.value.repealingTitle)))
  {
    var first := FirstOfType(l.events, RepealType);
    if first.None? then Success(None)
    else
      var e := first.value;
      var found := FindRef(l.refs, Target(e.source));
      if found.None? then Failure("no reference " + Target(e.source))
      else Success(Some(RepealEvent(e.date, found.value.href, found.value.showAs)))
  }

  // ---------------------------------------------------------------------------
  // The references block as written
  // ---------------------------------------------------------------------------

  /** The references block: the tool's organisation first whenever anything is recorded. */
  function References(l: Ledger): (r: seq<Reference>)
    ensures l.events == [] && l.refs == [] ==> r == []
    ensures l.events != [] || l.refs != [] ==>
      && |r| == |l.refs| + 1 && r[0] == Cobalt
      && forall i :: 0 <= i < |l.refs| ==> r[i + 1] == Passive(l.refs[i])
  {
    if l.events == [] && l.refs == [] then []
    else [Cobalt] + seq(|l.refs|, i requires 0 <= i < |l.refs| => Passive(l.refs[i]))
  }
}
