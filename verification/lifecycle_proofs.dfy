/**
 * What the lifecycle setters and getters promise: what is set reads back,
 * a second set replaces the first, the ledger stays consistent, and
 * amendments and repeal do not disturb each other.
 */
module LifecycleProofs {
  import opened Wrappers
  import opened Strings
  import opened Lifecycle

  // ---------------------------------------------------------------------------
  // Reference ids
  // ---------------------------------------------------------------------------

  /** An id of the form the amendment setter gives its references. */
  predicate IsAmendmentSourceId(id: string) {
    |id| >= 10 && id[..10] == "amendment-"
  }

  lemma AmendmentSourceIdShape(i: nat)
    ensures IsAmendmentSourceId(AmendmentSourceId(i))
    ensures AmendmentSourceId(i) != RepealSourceId
  {
    assert AmendmentSourceId(i)[..10] == "amendment-";
  }

  /** A citation reads back as the id it cites. */
  lemma TargetCite(id: string)
    ensures Target(Cite(id)) == id
  {
    assert Cite(id)[1..] == id;
  }

  /** Different amendments cite different references. */
  lemma AmendmentSourceIdInjective(i: nat, j: nat)
    requires AmendmentSourceId(i) == AmendmentSourceId(j)
    ensures i == j
  {
    var s := AmendmentSourceId(i);
    var m, n := NatToString(i), NatToString(j);
    assert |m| == |n|;
    assert s[10..10 + |m|] == m;
    assert AmendmentSourceId(j)[10..10 + |n|] == n;
    NatToStringInjective(i, j);
  }

  // ---------------------------------------------------------------------------
  // Lookups over concatenations
  // ---------------------------------------------------------------------------

  lemma {:induction false} FindRefConcat(a: seq<PassiveRef>, b: seq<PassiveRef>, id: string)
    ensures FindRef(a + b, id) == if FindRef(a, id).Some? then FindRef(a, id) else FindRef(b, id)
  {
    if a != [] {
      FindRefConcat(a[1..], b, id);
      assert (a + b)[1..] == a[1..] + b;
    } else {
      assert a + b == b;
    }
  }

  /** The first reference with the id is the one found. */
  lemma {:induction false} FindRefAt(refs: seq<PassiveRef>, id: string, i: nat)
    requires i < |refs| && refs[i].id == id
    requires forall j :: 0 <= j < i ==> refs[j].id != id
    ensures FindRef(refs, id) == Some(refs[i])
  {
    if i > 0 {
      FindRefAt(refs[1..], id, i - 1);
    }
  }

  lemma {:induction false} FirstOfTypeConcat(a: seq<EventRef>, b: seq<EventRef>, t: string)
    ensures FirstOfType(a + b, t) == if FirstOfType(a, t).Some? then FirstOfType(a, t) else FirstOfType(b, t)
  {
    if a != [] {
      FirstOfTypeConcat(a[1..], b, t);
      assert (a + b)[1..] == a[1..] + b;
    } else {
      assert a + b == b;
    }
  }

  /** Removing events of another type leaves the first event of type `t` in place. */
  lemma {:induction false} FirstOfTypeKeep(events: seq<EventRef>, t: string, u: string)
    requires t != u
    ensures FirstOfType(KeepEvents(events, u), t) == FirstOfType(events, t)
  {
    if events != [] {
      FirstOfTypeKeep(events[1..], t, u);
      FirstOfTypeConcat(if events[0].eventType == u then [] else [events[0]], KeepEvents(events[1..], u), t);
    }
  }

  // ---------------------------------------------------------------------------
  // Removal over concatenations
  // ---------------------------------------------------------------------------

  lemma {:induction false} KeepEventsConcat(a: seq<EventRef>, b: seq<EventRef>, t: string)
    ensures KeepEvents(a + b, t) == KeepEvents(a, t) + KeepEvents(b, t)
  {
    if a == [] {
      assert a + b == b;
    } else {
      var head := if a[0].eventType == t then [] else [a[0]];
      var ab := a + b;
      assert ab[0] == a[0] && ab[1..] == a[1..] + b;
      assert KeepEvents(ab, t) == head + KeepEvents(ab[1..], t);
      assert KeepEvents(a, t) == head + KeepEvents(a[1..], t);
      KeepEventsConcat(a[1..], b, t);
      AppendAssoc(head, KeepEvents(a[1..], t), KeepEvents(b, t));
    }
  }

  /** Removing a type none of the events has changes nothing. */
  lemma {:induction false} KeepEventsNone(events: seq<EventRef>, t: string)
    requires forall i :: 0 <= i < |events| ==> events[i].eventType != t
    ensures KeepEvents(events, t) == events
  {
    if events != [] {
      KeepEventsNone(events[1..], t);
    }
  }

  /** Removing the type all of the events have leaves nothing. */
  lemma {:induction false} KeepEventsAll(events: seq<EventRef>, t: string)
    requires forall i :: 0 <= i < |events| ==> events[i].eventType == t
    ensures KeepEvents(events, t) == []
  {
    if events != [] {
      KeepEventsAll(events[1..], t);
    }
  }

  lemma {:induction false} KeepRefsConcat(a: seq<PassiveRef>, b: seq<PassiveRef>, events: seq<EventRef>, t: string)
    ensures KeepRefs(a + b, events, t) == KeepRefs(a, events, t) + KeepRefs(b, events, t)
  {
    if a == [] {
      assert a + b == b;
    } else {
      var head := if CitedBy(events, t, a[0].id) then [] else [a[0]];
      var ab := a + b;
      assert ab[0] == a[0] && ab[1..] == a[1..] + b;
      assert KeepRefs(ab, events, t) == head + KeepRefs(ab[1..], events, t);
      assert KeepRefs(a, events, t) == head + KeepRefs(a[1..], events, t);
      KeepRefsConcat(a[1..], b, events, t);
      AppendAssoc(head, KeepRefs(a[1..], events, t), KeepRefs(b, events, t));
    }
  }

  /** Removal keeps an uncited run and drops a cited run after it. */
  lemma KeepRefsSplit(keep: seq<PassiveRef>, drop: seq<PassiveRef>, events: seq<EventRef>, t: string)
    requires forall k :: 0 <= k < |keep| ==> !CitedBy(events, t, keep[k].id)
    requires forall k :: 0 <= k < |drop| ==> CitedBy(events, t, drop[k].id)
    ensures KeepRefs(keep + drop, events, t) == keep
  {
    KeepRefsConcat(keep, drop, events, t);
    KeepRefsNone(keep, events, t);
    KeepRefsAll(drop, events, t);
    assert keep + [] == keep;
  }

  lemma {:induction false} KeepRefsNone(refs: seq<PassiveRef>, events: seq<EventRef>, t: string)
    requires forall i :: 0 <= i < |refs| ==> !CitedBy(events, t, refs[i].id)
    ensures KeepRefs(refs, events, t) == refs
  {
    if refs != [] {
      KeepRefsNone(refs[1..], events, t);
    }
  }

  lemma {:induction false} KeepRefsAll(refs: seq<PassiveRef>, events: seq<EventRef>, t: string)
    requires forall i :: 0 <= i < |refs| ==> CitedBy(events, t, refs[i].id)
    ensures KeepRefs(refs, events, t) == []
  {
    if refs != [] {
      KeepRefsAll(refs[1..], events, t);
    }
  }

  /** A reference no event of type `t` cites is found alike before and after removal. */
  lemma {:induction false} FindRefKeep(refs: seq<PassiveRef>, events: seq<EventRef>, t: string, id: string)
    requires !CitedBy(events, t, id)
    ensures FindRef(KeepRefs(refs, events, t), id) == FindRef(refs, id)
  {
    if refs != [] {
      FindRefKeep(refs[1..], events, t, id);
      FindRefConcat(if CitedBy(events, t, refs[0].id) then [] else [refs[0]], KeepRefs(refs[1..], events, t), id);
    }
  }

  // ---------------------------------------------------------------------------
  // Reading amendments back
  // ---------------------------------------------------------------------------

  /** Events of other types in front are passed over. */
  lemma {:induction false} ReadSkip(a: seq<EventRef>, b: seq<EventRef>, refs: seq<PassiveRef>)
    requires forall i :: 0 <= i < |a| ==> a[i].eventType != AmendmentType
    ensures ReadAmendments(a + b, refs) == ReadAmendments(b, refs)
  {
    if a == [] {
      assert a + b == b;
    } else {
      assert (a + b)[0] == a[0] && (a + b)[1..] == a[1..] + b;
      ReadSkip(a[1..], b, refs);
    }
  }

  /** Events of other types alone read as no amendments. */
  lemma {:induction false} ReadNone(events: seq<EventRef>, refs: seq<PassiveRef>)
    requires forall i :: 0 <= i < |events| ==> events[i].eventType != AmendmentType
    ensures ReadAmendments(events, refs) == Success([])
  {
    if events != [] {
      ReadNone(events[1..], refs);
    }
  }

  /** Events of other types behind are passed over. */
  lemma {:induction false} ReadDropTail(a: seq<EventRef>, b: seq<EventRef>, refs: seq<PassiveRef>)
    requires forall i :: 0 <= i < |b| ==> b[i].eventType != AmendmentType
    ensures ReadAmendments(a + b, refs) == ReadAmendments(a, refs)
  {
    if a == [] {
      assert a + b == b;
      ReadNone(b, refs);
    } else {
      assert (a + b)[0] == a[0] && (a + b)[1..] == a[1..] + b;
      ReadDropTail(a[1..], b, refs);
    }
  }

  /** Removing the events of another type does not change what is read. */
  lemma {:induction false} ReadKeep(events: seq<EventRef>, refs: seq<PassiveRef>, u: string)
    requires u != AmendmentType
    ensures ReadAmendments(KeepEvents(events, u), refs) == ReadAmendments(events, refs)
  {
    if events != [] {
      ReadKeep(events[1..], refs, u);
      var rest := KeepEvents(events[1..], u);
      if events[0].eventType != u {
        var kept := [events[0]] + rest;
        assert KeepEvents(events, u) == kept;
        assert kept[0] == events[0] && kept[1..] == rest;
      } else {
        assert KeepEvents(events, u) == rest;
      }
    }
  }

  /** The amendment events read alike against two reference lists that agree on what they cite. */
  lemma {:induction false} ReadSameLookups(events: seq<EventRef>, refs: seq<PassiveRef>, refs': seq<PassiveRef>)
    requires forall i :: 0 <= i < |events| && events[i].eventType == AmendmentType ==>
      FindRef(refs', Target(events[i].source)) == FindRef(refs, Target(events[i].source))
    ensures ReadAmendments(events, refs') == ReadAmendments(events, refs)
  {
    if events != [] {
      ReadSameLookups(events[1..], refs, refs');
    }
  }

  /**
   * Reading the amendments fails exactly when some amendment event cites a
   * missing reference; otherwise it yields one amendment per amendment event.
   */
  lemma {:induction false} ReadAmendmentsOutcome(events: seq<EventRef>, refs: seq<PassiveRef>)
    ensures ReadAmendments(events, refs).Failure? <==> Dangling(events, refs, AmendmentType)
    ensures ReadAmendments(events, refs).Success? ==>
      |ReadAmendments(events, refs).value| == |events| - |KeepEvents(events, AmendmentType)|
  {
    if events != [] {
      var tail := events[1..];
      ReadAmendmentsOutcome(tail, refs);
      assert Dangling(tail, refs, AmendmentType) ==> Dangling(events, refs, AmendmentType) by {
        if Dangling(tail, refs, AmendmentType) {
          var i :| 0 <= i < |tail| && tail[i].eventType == AmendmentType && FindRef(refs, Target(tail[i].source)).None?;
          assert events[i + 1] == tail[i];
        }
      }
      var e := events[0];
      var here := e.eventType == AmendmentType && FindRef(refs, Target(e.source)).None?;
      assert Dangling(events, refs, AmendmentType) ==> here || Dangling(tail, refs, AmendmentType) by {
        if Dangling(events, refs, AmendmentType) && !here {
          var i :| 0 <= i < |events| && events[i].eventType == AmendmentType && FindRef(refs, Target(events[i].source)).None?;
          assert i > 0 && tail[i - 1] == events[i];
        }
      }
    }
  }

  /** When every event finds its reference, the amendments read without error, one per amendment event. */
  lemma AmendmentsDefined(l: Ledger)
    requires Linked(l)
    ensures Amendments(l).Success?
    ensures |Amendments(l).value| == |l.events| - |KeepEvents(l.events, AmendmentType)|
  {
    ReadAmendmentsOutcome(l.events, l.refs);
  }

  /** When every event finds its reference, the repeal reads without error. */
  lemma RepealDefined(l: Ledger)
    requires Linked(l)
    ensures Repeal(l).Success?
  {
  }

  /** The events the setter writes read back as the amendments it was given. */
  lemma {:induction false} ReadNew(evs: seq<AmendmentEvent>, refs: seq<PassiveRef>, j: nat)
    requires j <= |evs|
    requires forall i :: 0 <= i < |evs| ==> FindRef(refs, AmendmentSourceId(i)) == Some(AmendmentSource(evs[i], i))
    ensures ReadAmendments(AmendmentRefs(evs)[j..], refs) == Success(evs[j..])
    decreases |evs| - j
  {
    var es := AmendmentRefs(evs);
    if j < |evs| {
      ReadNew(evs, refs, j + 1);
      assert es[j..][0] == AmendmentRef(evs[j], j) && es[j..][1..] == es[j + 1..];
      TargetCite(AmendmentSourceId(j));
      assert [evs[j]] + evs[j + 1..] == evs[j..];
    }
  }

  // ---------------------------------------------------------------------------
  // Citations
  // ---------------------------------------------------------------------------

  lemma CitedByAt(events: seq<EventRef>, t: string, k: nat)
    requires k < |events| && events[k].eventType == t
    ensures CitedBy(events, t, Target(events[k].source))
  {
  }

  lemma CitedByPrefix(a: seq<EventRef>, b: seq<EventRef>, t: string, id: string)
    requires CitedBy(a, t, id)
    ensures CitedBy(a + b, t, id)
  {
    var k :| 0 <= k < |a| && a[k].eventType == t && Target(a[k].source) == id;
    assert (a + b)[k] == a[k];
  }

  /** Removing events of another type keeps the citations of type `t`. */
  lemma CitedByKeep(events: seq<EventRef>, t: string, u: string, id: string)
    requires t != u && CitedBy(events, t, id)
    ensures CitedBy(KeepEvents(events, u), t, id)
  {
    var k :| 0 <= k < |events| && events[k].eventType == t && Target(events[k].source) == id;
    var kept := KeepEvents(events, u);
    assert events[k] in kept;
    var m :| 0 <= m < |kept| && kept[m] == events[k];
    CitedByAt(kept, t, m);
  }

  /** The index in `events` of a kept event. */
  lemma KeptIndex(events: seq<EventRef>, u: string, i: nat) returns (w: nat)
    requires i < |KeepEvents(events, u)|
    ensures w < |events| && events[w] == KeepEvents(events, u)[i]
  {
    assert KeepEvents(events, u)[i] in events;
    w :| 0 <= w < |events| && events[w] == KeepEvents(events, u)[i];
  }

  /** The index in `refs` of a kept reference. */
  lemma KeptRefIndex(refs: seq<PassiveRef>, events: seq<EventRef>, u: string, i: nat) returns (w: nat)
    requires i < |KeepRefs(refs, events, u)|
    ensures w < |refs| && refs[w] == KeepRefs(refs, events, u)[i]
  {
    assert KeepRefs(refs, events, u)[i] in refs;
    w :| 0 <= w < |refs| && refs[w] == KeepRefs(refs, events, u)[i];
  }

  // ---------------------------------------------------------------------------
  // The consistency of a ledger
  // ---------------------------------------------------------------------------

  /** Every reference named like an amendment's is cited by an amendment. */
  predicate AmendmentRefsCited(l: Ledger) {
    forall i :: 0 <= i < |l.refs| && IsAmendmentSourceId(l.refs[i].id) ==>
      CitedBy(l.events, AmendmentType, l.refs[i].id)
  }

  /** A reference named like the repeal's is cited by a repeal. */
  predicate RepealRefCited(l: Ledger) {
    forall i :: 0 <= i < |l.refs| && l.refs[i].id == RepealSourceId ==>
      CitedBy(l.events, RepealType, RepealSourceId)
  }

  /** Events of different types never cite the same reference. */
  predicate Separate(l: Ledger) {
    forall i, j :: 0 <= i < |l.events| && 0 <= j < |l.events| && l.events[i].eventType != l.events[j].eventType ==>
      Target(l.events[i].source) != Target(l.events[j].source)
  }

  /** Every event cites a reference that is there. */
  predicate Linked(l: Ledger) {
    forall i :: 0 <= i < |l.events| ==> FindRef(l.refs, Target(l.events[i].source)).Some?
  }

  /** A ledger as the setters leave it. */
  predicate Tidy(l: Ledger) {
    AmendmentRefsCited(l) && RepealRefCited(l) && Separate(l) && Linked(l)
  }

  lemma EmptyLedgerTidy()
    ensures Tidy(EmptyLedger)
  {
  }

  /** In a tidy ledger, what an event cites is not cited by an event of another type. */
  lemma CitedOnlyByOwnType(l: Ledger, w: nat, t: string)
    requires Tidy(l) && w < |l.events| && l.events[w].eventType != t
    ensures !CitedBy(l.events, t, Target(l.events[w].source))
  {
  }

  /** In a tidy ledger, what an event of another type cites is not named like an amendment's reference. */
  lemma OthersCiteNoAmendmentId(l: Ledger, w: nat)
    requires Tidy(l) && w < |l.events| && l.events[w].eventType != AmendmentType
    ensures !IsAmendmentSourceId(Target(l.events[w].source))
  {
    var id := Target(l.events[w].source);
    CitedOnlyByOwnType(l, w, AmendmentType);
    var x := FindRef(l.refs, id).value;
    var m :| 0 <= m < |l.refs| && l.refs[m] == x;
  }

  /** In a tidy ledger, an event of another type does not cite the repeal's reference. */
  lemma OthersCiteNoRepealId(l: Ledger, w: nat)
    requires Tidy(l) && w < |l.events| && l.events[w].eventType != RepealType
    ensures Target(l.events[w].source) != RepealSourceId
  {
    var id := Target(l.events[w].source);
    CitedOnlyByOwnType(l, w, RepealType);
    var x := FindRef(l.refs, id).value;
    var m :| 0 <= m < |l.refs| && l.refs[m] == x;
  }

  /** After removing the amendments, no reference left is named like an amendment's. */
  lemma KeptRefsNotAmendmentNamed(l: Ledger)
    requires AmendmentRefsCited(l)
    ensures forall k :: 0 <= k < |KeepRefs(l.refs, l.events, AmendmentType)| ==>
      !IsAmendmentSourceId(KeepRefs(l.refs, l.events, AmendmentType)[k].id)
  {
    forall k | 0 <= k < |KeepRefs(l.refs, l.events, AmendmentType)|
      ensures !IsAmendmentSourceId(KeepRefs(l.refs, l.events, AmendmentType)[k].id)
    {
      var m := KeptRefIndex(l.refs, l.events, AmendmentType, k);
    }
  }

  /** After removing the repeal, no reference left is named like the repeal's. */
  lemma KeptRefsNotRepealNamed(l: Ledger)
    requires RepealRefCited(l)
    ensures forall k :: 0 <= k < |KeepRefs(l.refs, l.events, RepealType)| ==>
      KeepRefs(l.refs, l.events, RepealType)[k].id != RepealSourceId
  {
    forall k | 0 <= k < |KeepRefs(l.refs, l.events, RepealType)|
      ensures KeepRefs(l.refs, l.events, RepealType)[k].id != RepealSourceId
    {
      var m := KeptRefIndex(l.refs, l.events, RepealType, k);
    }
  }

  // ---------------------------------------------------------------------------
  // What is set reads back
  // ---------------------------------------------------------------------------

  /** The `i`-th new reference is the first one with its id. */
  lemma NewSourceFound(evs: seq<AmendmentEvent>, i: nat)
    requires i < |evs|
    ensures FindRef(AmendmentSources(evs), AmendmentSourceId(i)) == Some(AmendmentSource(evs[i], i))
  {
    var ns := AmendmentSources(evs);
    forall j | 0 <= j < i ensures ns[j].id != AmendmentSourceId(i) {
      if ns[j].id == AmendmentSourceId(i) {
        AmendmentSourceIdInjective(j, i);
      }
    }
    FindRefAt(ns, AmendmentSourceId(i), i);
  }

  /**
   * `amendments` after `amendments = evs` gives `evs` back, whatever the
   * ledger held, as long as every reference named like an amendment's is
   * one an amendment cites.
   */
  lemma AmendmentsRoundTrip(l: Ledger, evs: seq<AmendmentEvent>)
    requires AmendmentRefsCited(l)
    ensures Amendments(SetAmendments(l, evs)) == Success(evs)
  {
    var kept := KeepEvents(l.events, AmendmentType);
    var keptRefs := KeepRefs(l.refs, l.events, AmendmentType);
    var refs := keptRefs + AmendmentSources(evs);
    ReadSkip(kept, AmendmentRefs(evs), refs);
    KeptRefsNotAmendmentNamed(l);
    forall i | 0 <= i < |evs| ensures FindRef(refs, AmendmentSourceId(i)) == Some(AmendmentSource(evs[i], i)) {
      AmendmentSourceIdShape(i);
      assert FindRef(keptRefs, AmendmentSourceId(i)).None?;
      FindRefConcat(keptRefs, AmendmentSources(evs), AmendmentSourceId(i));
      NewSourceFound(evs, i);
    }
    ReadNew(evs, refs, 0);
    assert AmendmentRefs(evs)[0..] == AmendmentRefs(evs) && evs[0..] == evs;
  }

  /**
   * `repeal` after `repeal = r` gives `r` back; a repeal set on a ledger
   * whose only `repeal-source` reference is a repeal's own reads back the
   * same, and clearing it reads back none on any ledger.
   */
  lemma RepealRoundTrip(l: Ledger, r: Option<RepealEvent>)
    requires r.Some? ==> RepealRefCited(l)
    ensures Repeal(SetRepeal(l, r)) == Success(r)
  {
    var kept := KeepEvents(l.events, RepealType);
    var keptRefs := KeepRefs(l.refs, l.events, RepealType);
    if r.Some? {
      var ev := r.value;
      FirstOfTypeConcat(kept, [RepealRef(ev)], RepealType);
      assert FirstOfType(kept, RepealType).None?;
      KeptRefsNotRepealNamed(l);
      TargetCite(RepealSourceId);
      FindRefConcat(keptRefs, [RepealSource(ev)], RepealSourceId);
    }
  }

  // ---------------------------------------------------------------------------
  // A second set replaces the first
  // ---------------------------------------------------------------------------

  /** The references the ledger kept are not cited by the amendments the setter writes. */
  lemma KeptRefsUncited(l: Ledger, a: seq<AmendmentEvent>)
    requires AmendmentRefsCited(l)
    ensures var keptRefs := KeepRefs(l.refs, l.events, AmendmentType);
      forall k :: 0 <= k < |keptRefs| ==> !CitedBy(SetAmendments(l, a).events, AmendmentType, keptRefs[k].id)
  {
    KeptRefsNotAmendmentNamed(l);
  }

  /** Each reference the setter writes is cited by the amendment written with it. */
  lemma NewRefsCited(l: Ledger, a: seq<AmendmentEvent>)
    ensures var ns := AmendmentSources(a);
      forall k :: 0 <= k < |ns| ==> CitedBy(SetAmendments(l, a).events, AmendmentType, ns[k].id)
  {
    var kept := KeepEvents(l.events, AmendmentType);
    var events := SetAmendments(l, a).events;
    var ns := AmendmentSources(a);
    forall k | 0 <= k < |ns| ensures CitedBy(events, AmendmentType, ns[k].id) {
      assert events[|kept| + k] == AmendmentRefs(a)[k];
      TargetCite(AmendmentSourceId(k));
      CitedByAt(events, AmendmentType, |kept| + k);
    }
  }

  /** Removing the amendments after setting them keeps the same events as removing them before. */
  lemma KeepEventsSetAmendments(l: Ledger, a: seq<AmendmentEvent>)
    ensures KeepEvents(SetAmendments(l, a).events, AmendmentType) == KeepEvents(l.events, AmendmentType)
  {
    var kept := KeepEvents(l.events, AmendmentType);
    var ne := AmendmentRefs(a);
    KeepEventsConcat(kept, ne, AmendmentType);
    KeepEventsNone(kept, AmendmentType);
    KeepEventsAll(ne, AmendmentType);
  }

  /** Removing the amendments after setting them keeps the same references as removing them before. */
  lemma KeepRefsSetAmendments(l: Ledger, a: seq<AmendmentEvent>)
    requires AmendmentRefsCited(l)
    ensures var l1 := SetAmendments(l, a);
      KeepRefs(l1.refs, l1.events, AmendmentType) == KeepRefs(l.refs, l.events, AmendmentType)
  {
    var keptRefs := KeepRefs(l.refs, l.events, AmendmentType);
    var l1 := SetAmendments(l, a);
    var ns := AmendmentSources(a);
    assert l1.refs == keptRefs + ns;
    KeptRefsUncited(l, a);
    NewRefsCited(l, a);
    KeepRefsSplit(keptRefs, ns, l1.events, AmendmentType);
  }

  /** Removing the amendments after setting them leaves what removing them before did. */
  lemma RemoveSetAmendments(l: Ledger, a: seq<AmendmentEvent>)
    requires AmendmentRefsCited(l)
    ensures Remove(SetAmendments(l, a), AmendmentType) == Remove(l, AmendmentType)
  {
    KeepEventsSetAmendments(l, a);
    KeepRefsSetAmendments(l, a);
  }

  /** Setting the amendments twice is setting them once, to the second list. */
  lemma AmendmentsLastWins(l: Ledger, a: seq<AmendmentEvent>, b: seq<AmendmentEvent>)
    requires AmendmentRefsCited(l)
    ensures SetAmendments(SetAmendments(l, a), b) == SetAmendments(l, b)
  {
    RemoveSetAmendments(l, a);
  }

  /** The events and references a repeal setter writes on top of the kept ones. */
  function RepealEvents(a: Option<RepealEvent>): seq<EventRef> {
    if a.Some? then [RepealRef(a.value)] else []
  }

  function RepealSources(a: Option<RepealEvent>): seq<PassiveRef> {
    if a.Some? then [RepealSource(a.value)] else []
  }

  lemma SetRepealShape(l: Ledger, a: Option<RepealEvent>)
    ensures SetRepeal(l, a).events == KeepEvents(l.events, RepealType) + RepealEvents(a)
    ensures SetRepeal(l, a).refs == KeepRefs(l.refs, l.events, RepealType) + RepealSources(a)
  {
    if a.None? {
      assert KeepEvents(l.events, RepealType) + [] == KeepEvents(l.events, RepealType);
      assert KeepRefs(l.refs, l.events, RepealType) + [] == KeepRefs(l.refs, l.events, RepealType);
    }
  }

  lemma KeepEventsSetRepeal(l: Ledger, a: Option<RepealEvent>)
    ensures KeepEvents(SetRepeal(l, a).events, RepealType) == KeepEvents(l.events, RepealType)
  {
    var kept := KeepEvents(l.events, RepealType);
    SetRepealShape(l, a);
    KeepEventsConcat(kept, RepealEvents(a), RepealType);
    KeepEventsNone(kept, RepealType);
    KeepEventsAll(RepealEvents(a), RepealType);
  }

  /** The references the ledger kept are not cited by the repeal the setter writes. */
  lemma KeptRefsUncitedByRepeal(l: Ledger, a: Option<RepealEvent>)
    requires RepealRefCited(l)
    ensures var keptRefs := KeepRefs(l.refs, l.events, RepealType);
      forall k :: 0 <= k < |keptRefs| ==> !CitedBy(SetRepeal(l, a).events, RepealType, keptRefs[k].id)
  {
    SetRepealShape(l, a);
    KeptRefsNotRepealNamed(l);
    TargetCite(RepealSourceId);
  }

  lemma KeepRefsSetRepeal(l: Ledger, a: Option<RepealEvent>)
    requires RepealRefCited(l)
    ensures var l1 := SetRepeal(l, a);
      KeepRefs(l1.refs, l1.events, RepealType) == KeepRefs(l.refs, l.events, RepealType)
  {
    var keptRefs := KeepRefs(l.refs, l.events, RepealType);
    var l1 := SetRepeal(l, a);
    SetRepealShape(l, a);
    KeepRefsConcat(keptRefs, RepealSources(a), l1.events, RepealType);
    KeptRefsUncitedByRepeal(l, a);
    KeepRefsNone(keptRefs, l1.events, RepealType);
    if a.Some? {
      TargetCite(RepealSourceId);
      CitedByAt(l1.events, RepealType, |KeepEvents(l.events, RepealType)|);
    }
    KeepRefsAll(RepealSources(a), l1.events, RepealType);
  }

  /** Setting the repeal twice is setting it once, to the second value. */
  lemma RepealLastWins(l: Ledger, a: Option<RepealEvent>, b: Option<RepealEvent>)
    requires RepealRefCited(l)
    ensures SetRepeal(SetRepeal(l, a), b) == SetRepeal(l, b)
  {
    KeepEventsSetRepeal(l, a);
    KeepRefsSetRepeal(l, a);
  }

  // ---------------------------------------------------------------------------
  // The setters keep a ledger tidy
  // ---------------------------------------------------------------------------

  lemma RepealSourceIdNotAmendment()
    ensures !IsAmendmentSourceId(RepealSourceId)
  {
    assert RepealSourceId[..10][0] == 'r';
  }

  lemma SetAmendmentsKeepsAmendmentRefsCited(l: Ledger, evs: seq<AmendmentEvent>)
    requires AmendmentRefsCited(l)
    ensures AmendmentRefsCited(SetAmendments(l, evs))
  {
    var l' := SetAmendments(l, evs);
    var keptRefs := KeepRefs(l.refs, l.events, AmendmentType);
    KeptRefsNotAmendmentNamed(l);
    NewRefsCited(l, evs);
    forall i | 0 <= i < |l'.refs| && IsAmendmentSourceId(l'.refs[i].id)
      ensures CitedBy(l'.events, AmendmentType, l'.refs[i].id)
    {
      if i >= |keptRefs| {
        assert l'.refs[i] == AmendmentSources(evs)[i - |keptRefs|];
      }
    }
  }

  lemma SetAmendmentsKeepsRepealRefCited(l: Ledger, evs: seq<AmendmentEvent>)
    requires RepealRefCited(l)
    ensures RepealRefCited(SetAmendments(l, evs))
  {
    var l' := SetAmendments(l, evs);
    var kept := KeepEvents(l.events, AmendmentType);
    var keptRefs := KeepRefs(l.refs, l.events, AmendmentType);
    forall i | 0 <= i < |l'.refs| && l'.refs[i].id == RepealSourceId
      ensures CitedBy(l'.events, RepealType, RepealSourceId)
    {
      if i < |keptRefs| {
        var m := KeptRefIndex(l.refs, l.events, AmendmentType, i);
        assert l'.refs[i] == l.refs[m];
        CitedByKeep(l.events, RepealType, AmendmentType, RepealSourceId);
        CitedByPrefix(kept, AmendmentRefs(evs), RepealType, RepealSourceId);
      } else {
        assert false;
      }
    }
  }

  /** Past the kept events, the setter's events are all amendments. */
  lemma NewEventsAreAmendments(l: Ledger, evs: seq<AmendmentEvent>)
    ensures var kept := KeepEvents(l.events, AmendmentType);
      var es := SetAmendments(l, evs).events;
      forall k :: |kept| <= k < |es| ==> es[k].eventType == AmendmentType
  {
    var kept := KeepEvents(l.events, AmendmentType);
    var es := SetAmendments(l, evs).events;
    forall k | |kept| <= k < |es| ensures es[k].eventType == AmendmentType {
      assert es[k] == AmendmentRefs(evs)[k - |kept|];
    }
  }

  /** A kept event and a new amendment cite different references. */
  lemma KeptAndNewCiteApart(l: Ledger, evs: seq<AmendmentEvent>, i: nat, j: nat)
    requires Tidy(l)
    requires i < |KeepEvents(l.events, AmendmentType)| <= j < |SetAmendments(l, evs).events|
    ensures var es := SetAmendments(l, evs).events;
      Target(es[i].source) != Target(es[j].source)
  {
    var kept := KeepEvents(l.events, AmendmentType);
    var es := SetAmendments(l, evs).events;
    var wi := KeptIndex(l.events, AmendmentType, i);
    OthersCiteNoAmendmentId(l, wi);
    assert es[i] == l.events[wi] && es[j] == AmendmentRefs(evs)[j - |kept|];
    TargetCite(AmendmentSourceId(j - |kept|));
    AmendmentSourceIdShape(j - |kept|);
  }

  lemma SetAmendmentsKeepsSeparate(l: Ledger, evs: seq<AmendmentEvent>)
    requires Tidy(l)
    ensures Separate(SetAmendments(l, evs))
  {
    var es := SetAmendments(l, evs).events;
    var kept := KeepEvents(l.events, AmendmentType);
    NewEventsAreAmendments(l, evs);
    forall i, j | 0 <= i < |es| && 0 <= j < |es| && es[i].eventType != es[j].eventType
      ensures Target(es[i].source) != Target(es[j].source)
    {
      if i < |kept| && j < |kept| {
        var wi := KeptIndex(l.events, AmendmentType, i);
        var wj := KeptIndex(l.events, AmendmentType, j);
        assert es[i] == l.events[wi] && es[j] == l.events[wj];
      } else if i < |kept| {
        KeptAndNewCiteApart(l, evs, i, j);
      } else if j < |kept| {
        KeptAndNewCiteApart(l, evs, j, i);
      } else {
        assert false;
      }
    }
  }

  lemma SetAmendmentsKeepsLinked(l: Ledger, evs: seq<AmendmentEvent>)
    requires Tidy(l)
    ensures Linked(SetAmendments(l, evs))
  {
    var l' := SetAmendments(l, evs);
    var kept := KeepEvents(l.events, AmendmentType);
    var keptRefs := KeepRefs(l.refs, l.events, AmendmentType);
    forall i | 0 <= i < |l'.events| ensures FindRef(l'.refs, Target(l'.events[i].source)).Some? {
      var id := Target(l'.events[i].source);
      if i < |kept| {
        var w := KeptIndex(l.events, AmendmentType, i);
        assert l'.events[i] == l.events[w];
        CitedOnlyByOwnType(l, w, AmendmentType);
        FindRefKeep(l.refs, l.events, AmendmentType, id);
        FindRefConcat(keptRefs, AmendmentSources(evs), id);
      } else {
        var m := i - |kept|;
        assert l'.events[i] == AmendmentRefs(evs)[m];
        TargetCite(AmendmentSourceId(m));
        assert l'.refs[|keptRefs| + m].id == id;
      }
    }
  }

  /** Setting the amendments keeps a tidy ledger tidy. */
  lemma SetAmendmentsTidy(l: Ledger, evs: seq<AmendmentEvent>)
    requires Tidy(l)
    ensures Tidy(SetAmendments(l, evs))
  {
    SetAmendmentsKeepsAmendmentRefsCited(l, evs);
    SetAmendmentsKeepsRepealRefCited(l, evs);
    SetAmendmentsKeepsSeparate(l, evs);
    SetAmendmentsKeepsLinked(l, evs);
  }

  lemma SetRepealKeepsAmendmentRefsCited(l: Ledger, r: Option<RepealEvent>)
    requires AmendmentRefsCited(l)
    ensures AmendmentRefsCited(SetRepeal(l, r))
  {
    var l' := SetRepeal(l, r);
    var kept := KeepEvents(l.events, RepealType);
    var keptRefs := KeepRefs(l.refs, l.events, RepealType);
    SetRepealShape(l, r);
    RepealSourceIdNotAmendment();
    forall i | 0 <= i < |l'.refs| && IsAmendmentSourceId(l'.refs[i].id)
      ensures CitedBy(l'.events, AmendmentType, l'.refs[i].id)
    {
      if i < |keptRefs| {
        var m := KeptRefIndex(l.refs, l.events, RepealType, i);
        assert l'.refs[i] == l.refs[m];
        CitedByKeep(l.events, AmendmentType, RepealType, l.refs[m].id);
        CitedByPrefix(kept, RepealEvents(r), AmendmentType, l.refs[m].id);
      } else {
        assert false;
      }
    }
  }

  lemma SetRepealKeepsRepealRefCited(l: Ledger, r: Option<RepealEvent>)
    requires RepealRefCited(l)
    ensures RepealRefCited(SetRepeal(l, r))
  {
    var l' := SetRepeal(l, r);
    var kept := KeepEvents(l.events, RepealType);
    var keptRefs := KeepRefs(l.refs, l.events, RepealType);
    SetRepealShape(l, r);
    KeptRefsNotRepealNamed(l);
    forall i | 0 <= i < |l'.refs| && l'.refs[i].id == RepealSourceId
      ensures CitedBy(l'.events, RepealType, RepealSourceId)
    {
      if i < |keptRefs| {
        assert false;
      } else {
        TargetCite(RepealSourceId);
        CitedByAt(l'.events, RepealType, |kept|);
      }
    }
  }

  lemma SetRepealKeepsSeparate(l: Ledger, r: Option<RepealEvent>)
    requires Tidy(l)
    ensures Separate(SetRepeal(l, r))
  {
    var es := SetRepeal(l, r).events;
    var kept := KeepEvents(l.events, RepealType);
    SetRepealShape(l, r);
    TargetCite(RepealSourceId);
    forall i, j | 0 <= i < |es| && 0 <= j < |es| && es[i].eventType != es[j].eventType
      ensures Target(es[i].source) != Target(es[j].source)
    {
      if i < |kept| && j < |kept| {
        var wi := KeptIndex(l.events, RepealType, i);
        var wj := KeptIndex(l.events, RepealType, j);
        assert es[i] == l.events[wi] && es[j] == l.events[wj];
      } else if i < |kept| {
        var wi := KeptIndex(l.events, RepealType, i);
        OthersCiteNoRepealId(l, wi);
        assert es[i] == l.events[wi] && es[j] == RepealRef(r.value);
      } else if j < |kept| {
        var wj := KeptIndex(l.events, RepealType, j);
        OthersCiteNoRepealId(l, wj);
        assert es[j] == l.events[wj] && es[i] == RepealRef(r.value);
      } else {
        assert false;
      }
    }
  }

  lemma SetRepealKeepsLinked(l: Ledger, r: Option<RepealEvent>)
    requires Tidy(l)
    ensures Linked(SetRepeal(l, r))
  {
    var l' := SetRepeal(l, r);
    var kept := KeepEvents(l.events, RepealType);
    var keptRefs := KeepRefs(l.refs, l.events, RepealType);
    SetRepealShape(l, r);
    forall i | 0 <= i < |l'.events| ensures FindRef(l'.refs, Target(l'.events[i].source)).Some? {
      var id := Target(l'.events[i].source);
      if i < |kept| {
        var w := KeptIndex(l.events, RepealType, i);
        assert l'.events[i] == l.events[w];
        CitedOnlyByOwnType(l, w, RepealType);
        FindRefKeep(l.refs, l.events, RepealType, id);
        FindRefConcat(keptRefs, RepealSources(r), id);
      } else {
        assert l'.events[i] == RepealRef(r.value);
        TargetCite(RepealSourceId);
        assert l'.refs[|keptRefs|].id == id;
      }
    }
  }

  /** Setting the repeal keeps a tidy ledger tidy. */
  lemma SetRepealTidy(l: Ledger, r: Option<RepealEvent>)
    requires Tidy(l)
    ensures Tidy(SetRepeal(l, r))
  {
    SetRepealKeepsAmendmentRefsCited(l, r);
    SetRepealKeepsRepealRefCited(l, r);
    SetRepealKeepsSeparate(l, r);
    SetRepealKeepsLinked(l, r);
  }

  // ---------------------------------------------------------------------------
  // Amendments and repeal do not disturb each other
  // ---------------------------------------------------------------------------

  /** On a tidy ledger, setting the repeal leaves the amendments as they read. */
  lemma AmendmentsIgnoreRepeal(l: Ledger, r: Option<RepealEvent>)
    requires Tidy(l)
    ensures Amendments(SetRepeal(l, r)) == Amendments(l)
  {
    var l' := SetRepeal(l, r);
    var kept := KeepEvents(l.events, RepealType);
    var keptRefs := KeepRefs(l.refs, l.events, RepealType);
    SetRepealShape(l, r);
    ReadDropTail(kept, RepealEvents(r), l'.refs);
    ReadKeep(l.events, l'.refs, RepealType);
    forall i | 0 <= i < |l.events| && l.events[i].eventType == AmendmentType
      ensures FindRef(l'.refs, Target(l.events[i].source)) == FindRef(l.refs, Target(l.events[i].source))
    {
      var id := Target(l.events[i].source);
      CitedOnlyByOwnType(l, i, RepealType);
      FindRefKeep(l.refs, l.events, RepealType, id);
      FindRefConcat(keptRefs, RepealSources(r), id);
    }
    ReadSameLookups(l.events, l.refs, l'.refs);
  }

  /** On a tidy ledger, setting the amendments leaves the repeal as it reads. */
  lemma RepealIgnoresAmendments(l: Ledger, evs: seq<AmendmentEvent>)
    requires Tidy(l)
    ensures Repeal(SetAmendments(l, evs)) == Repeal(l)
  {
    var kept := KeepEvents(l.events, AmendmentType);
    var keptRefs := KeepRefs(l.refs, l.events, AmendmentType);
    var ne := AmendmentRefs(evs);
    FirstOfTypeConcat(kept, ne, RepealType);
    assert FirstOfType(ne, RepealType).None?;
    FirstOfTypeKeep(l.events, RepealType, AmendmentType);
    var first := FirstOfType(l.events, RepealType);
    if first.Some? {
      var w :| 0 <= w < |l.events| && l.events[w] == first.value;
      var id := Target(first.value.source);
      CitedOnlyByOwnType(l, w, AmendmentType);
      FindRefKeep(l.refs, l.events, AmendmentType, id);
      FindRefConcat(keptRefs, AmendmentSources(evs), id);
    }
  }
}
