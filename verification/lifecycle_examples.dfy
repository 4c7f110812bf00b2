/**
 * The worked examples of the lifecycle tests: the ledger after assigning
 * one amendment, then two, then after assigning and clearing a repeal.
 */
module LifecycleExamples {
  import opened Wrappers
  import opened Strings
  import opened Lifecycle
  import opened LifecycleProofs

  const Foo := AmendmentEvent("2012-02-01", "/za/act/1980/10", "Foo")
  const Corrected := AmendmentEvent("2012-02-01", "/za/act/1980/22", "Corrected")
  const Bar := AmendmentEvent("2013-03-03", "/za/act/1990/5", "Bar")

  lemma SourceIds()
    ensures AmendmentSourceId(0) == "amendment-0-source"
    ensures AmendmentSourceId(1) == "amendment-1-source"
  {
    assert NatToString(0) == "0" && NatToString(1) == "1";
  }

  /** Nothing is removed from an empty ledger. */
  lemma RemoveEmpty(t: string)
    ensures Remove(EmptyLedger, t) == EmptyLedger
  {
  }

  lemma AmendmentRefText(ev: AmendmentEvent, i: nat, source: string)
    requires AmendmentSourceId(i) == source
    ensures AmendmentRef(ev, i) == EventRef("amendment-" + ev.date, ev.date, "amendment", "#" + source)
    ensures AmendmentSource(ev, i) == PassiveRef(source, ev.amendingUri, ev.amendingTitle)
  {
  }

  const OneAmendment := Ledger(
    [EventRef("amendment-2012-02-01", "2012-02-01", "amendment", "#amendment-0-source")],
    [PassiveRef("amendment-0-source", "/za/act/1980/10", "Foo")],
    SingleVersion)

  /** Assigning amendments to an empty ledger records exactly the new events and references. */
  lemma SetAmendmentsOnEmpty(evs: seq<AmendmentEvent>)
    ensures SetAmendments(EmptyLedger, evs) == Ledger(AmendmentRefs(evs), AmendmentSources(evs), SingleVersion)
  {
    var kept := Remove(EmptyLedger, AmendmentType);
    RemoveEmpty(AmendmentType);
    assert kept.events == [] && kept.refs == [];
    var l := SetAmendments(EmptyLedger, evs);
    assert l.events == kept.events + AmendmentRefs(evs);
    assert l.events == AmendmentRefs(evs);
    assert l.refs == kept.refs + AmendmentSources(evs);
    assert l.refs == AmendmentSources(evs);
  }

  lemma OneAmendmentLedger()
    ensures SetAmendments(EmptyLedger, [Foo]) == OneAmendment
  {
    SourceIds();
    SetAmendmentsOnEmpty([Foo]);
    AmendmentRefText(Foo, 0, "amendment-0-source");
    assert AmendmentRefs([Foo])[0] == OneAmendment.events[0];
    assert AmendmentRefs([Foo]) == OneAmendment.events;
    assert AmendmentSources([Foo])[0] == OneAmendment.refs[0];
    assert AmendmentSources([Foo]) == OneAmendment.refs;
  }

  const TwoAmendments := Ledger(
    [EventRef("amendment-2012-02-01", "2012-02-01", "amendment", "#amendment-0-source"),
     EventRef("amendment-2013-03-03", "2013-03-03", "amendment", "#amendment-1-source")],
    [PassiveRef("amendment-0-source", "/za/act/1980/22", "Corrected"),
     PassiveRef("amendment-1-source", "/za/act/1990/5", "Bar")],
    SingleVersion)

  /** The event recorded for the `i`-th amendment, with its id and citation spelled out. */
  lemma AmendmentRefIs(ev: AmendmentEvent, i: nat, id: string, source: string)
    requires "amendment-" + ev.date == id && "#" + AmendmentSourceId(i) == source
    ensures AmendmentRef(ev, i) == EventRef(id, ev.date, "amendment", source)
  {
  }

  lemma CorrectedRef()
    ensures AmendmentRef(Corrected, 0) == TwoAmendments.events[0]
  {
    SourceIds();
    assert "amendment-" + Corrected.date == "amendment-2012-02-01";
    assert "#" + AmendmentSourceId(0) == "#amendment-0-source";
    AmendmentRefIs(Corrected, 0, "amendment-2012-02-01", "#amendment-0-source");
  }

  lemma BarRef()
    ensures AmendmentRef(Bar, 1) == TwoAmendments.events[1]
  {
    SourceIds();
    assert "amendment-" + Bar.date == "amendment-2013-03-03";
    assert "#" + AmendmentSourceId(1) == "#amendment-1-source";
    AmendmentRefIs(Bar, 1, "amendment-2013-03-03", "#amendment-1-source");
  }

  lemma TwoAmendmentRefs()
    ensures AmendmentRefs([Corrected, Bar]) == TwoAmendments.events
  {
    CorrectedRef();
    BarRef();
    var r := AmendmentRefs([Corrected, Bar]);
    assert r[0] == TwoAmendments.events[0];
    assert r[1] == TwoAmendments.events[1];
  }

  lemma TwoAmendmentSources()
    ensures AmendmentSources([Corrected, Bar]) == TwoAmendments.refs
  {
    SourceIds();
    AmendmentRefText(Corrected, 0, "amendment-0-source");
    AmendmentRefText(Bar, 1, "amendment-1-source");
    var r := AmendmentSources([Corrected, Bar]);
    assert r[0] == TwoAmendments.refs[0];
    assert r[1] == TwoAmendments.refs[1];
  }

  lemma TwoAmendmentsLedger()
    ensures SetAmendments(EmptyLedger, [Corrected, Bar]) == TwoAmendments
  {
    SetAmendmentsOnEmpty([Corrected, Bar]);
    TwoAmendmentRefs();
    TwoAmendmentSources();
  }

  /**
   * test_act.py:308-408: one amendment gives one event and one reference,
   * listed after the tool's organisation; assigning two more replaces it
   * with two of each, indexed 0 and 1, which read back in order.
   */
  lemma AssignAmendments()
    ensures SetAmendments(EmptyLedger, [Foo]) == OneAmendment
    ensures References(OneAmendment) == [Cobalt, Passive(PassiveRef("amendment-0-source", "/za/act/1980/10", "Foo"))]
    ensures SetAmendments(OneAmendment, [Corrected, Bar]) == TwoAmendments
    ensures Amendments(TwoAmendments) == Success([Corrected, Bar])
  {
    OneAmendmentLedger();
    TwoAmendmentsLedger();
    EmptyLedgerTidy();
    SetAmendmentsTidy(EmptyLedger, [Foo]);
    AmendmentsLastWins(EmptyLedger, [Foo], [Corrected, Bar]);
    SetAmendmentsTidy(EmptyLedger, [Corrected, Bar]);
    AmendmentsRoundTrip(EmptyLedger, [Corrected, Bar]);
  }

  const Repealed := RepealEvent("2012-02-01", "/za/act/1980/10", "Foo")

  const RepealLedger := Ledger(
    [EventRef("repeal-2012-02-01", "2012-02-01", "repeal", "#repeal-source")],
    [PassiveRef("repeal-source", "/za/act/1980/10", "Foo")],
    OriginalVersion)

  /** A repeal assigned to an empty ledger is its one event and its one reference. */
  lemma RepealOnEmpty(ev: RepealEvent)
    ensures SetRepeal(EmptyLedger, Some(ev)) == Ledger([RepealRef(ev)], [RepealSource(ev)], OriginalVersion)
  {
    RemoveEmpty(RepealType);
    var l := SetRepeal(EmptyLedger, Some(ev));
    assert l.events == [] + [RepealRef(ev)];
    assert l.refs == [] + [RepealSource(ev)];
  }

  lemma RepealedRef()
    ensures RepealRef(Repealed) == RepealLedger.events[0]
    ensures RepealSource(Repealed) == RepealLedger.refs[0]
  {
    assert "repeal-" + Repealed.date == "repeal-2012-02-01";
    assert Cite(RepealSourceId) == "#repeal-source";
  }

  lemma RepealLedgerShape()
    ensures SetRepeal(EmptyLedger, Some(Repealed)) == RepealLedger
  {
    RepealOnEmpty(Repealed);
    RepealedRef();
    assert [RepealRef(Repealed)] == RepealLedger.events;
    assert [RepealSource(Repealed)] == RepealLedger.refs;
  }

  /** Clearing the one repeal leaves nothing: no event, no reference, a single version. */
  lemma ClearRepeal()
    ensures SetRepeal(RepealLedger, None) == EmptyLedger
  {
    assert CitedBy(RepealLedger.events, RepealType, "repeal-source") by {
      assert Target(RepealLedger.events[0].source) == "repeal-source";
    }
    assert KeepEvents(RepealLedger.events, RepealType) == [];
    assert KeepRefs(RepealLedger.refs, RepealLedger.events, RepealType) == [];
  }

  /**
   * test_act.py:410-463: a repeal gives one event citing `#repeal-source`
   * and one reference, marks the act an original version, and reads back;
   * clearing it reads back as none, empties the ledger again, and so takes
   * the organisation entry out of the references block.
   */
  lemma AssignRepeal()
    ensures SetRepeal(EmptyLedger, Some(Repealed)) == RepealLedger
    ensures Repeal(RepealLedger) == Success(Some(Repealed))
    ensures References(RepealLedger) == [Cobalt, Passive(RepealLedger.refs[0])]
    ensures Repeal(SetRepeal(RepealLedger, None)) == Success(None)
    ensures SetRepeal(RepealLedger, None) == EmptyLedger
    ensures References(SetRepeal(RepealLedger, None)) == []
  {
    RepealLedgerShape();
    RepealRoundTrip(EmptyLedger, Some(Repealed));
    RepealRoundTrip(RepealLedger, None);
    ClearRepeal();
  }
}
