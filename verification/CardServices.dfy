/**
 * The services of a card: rows put there by an operator (`Assigned`) and rows the bot stamped
 * when it sent a service's material (`Captured`), reconciled over any run of both.
 */
module CardServices {
  import opened Wrappers
  import opened Sequences

  type ServiceId = nat

  datatype Source = Assigned | Captured
  datatype Link = Link(service: ServiceId, source: Source)

  function Services(rows: seq<Link>): set<ServiceId> {
    set i | 0 <= i < |rows| :: rows[i].service
  }

  function AsSet(ids: seq<ServiceId>): set<ServiceId> {
    set i | 0 <= i < |ids| :: ids[i]
  }

  /** The unique key of the table. */
  predicate OneRowPerService(rows: seq<Link>) {
    forall i, j :: 0 <= i < j < |rows| ==> rows[i].service != rows[j].service
  }

  predicate Stale(row: Link, target: set<ServiceId>) {
    row.source == Assigned && row.service !in target
  }

  /** The rows that survive an assignment of `target`. */
  function Kept(rows: seq<Link>, target: set<ServiceId>): seq<Link> {
    if rows == [] then []
    else
      var last := rows[|rows| - 1];
      Kept(rows[..|rows| - 1], target) + (if Stale(last, target) then [] else [last])
  }

  /** The rows an assignment adds. */
  function Missing(ids: seq<ServiceId>, linked: set<ServiceId>): seq<Link> {
    if ids == [] then []
    else
      var last := ids[|ids| - 1];
      Missing(ids[..|ids| - 1], linked) + (if last in linked then [] else [Link(last, Assigned)])
  }

  function Reconciled(rows: seq<Link>, ids: seq<ServiceId>): seq<Link> {
    Kept(rows, AsSet(ids)) + Missing(ids, Services(rows))
  }

  /** The rows after the bot stamps the services it sent, skipping what the catalogue does not know. */
  function Stamped(rows: seq<Link>, found: seq<Option<ServiceId>>): seq<Link> {
    if found == [] then rows
    else
      var before := Stamped(rows, found[..|found| - 1]);
      match found[|found| - 1]
      case None => before
      case Some(service) => if service in Services(before) then before else before + [Link(service, Captured)]
  }

  function Resolved(slugs: seq<string>, catalogue: map<string, ServiceId>): seq<Option<ServiceId>> {
    seq(|slugs|, i requires 0 <= i < |slugs| => if slugs[i] in catalogue then Some(catalogue[slugs[i]]) else None)
  }

  /** The rows the bot put there, in their order. */
  function Captures(rows: seq<Link>): seq<Link> {
    if rows == [] then []
    else
      var last := rows[|rows| - 1];
      Captures(rows[..|rows| - 1]) + (if last.source == Captured then [last] else [])
  }

  // ---------------------------------------------------------------- the card's table

  class Table {
    var rows: seq<Link>

    constructor ()
      ensures rows == []
    {
      rows := [];
    }

    /** Add what is missing, remove the assigned rows in excess, leave the captured ones. */
    method SetAssigned(ids: seq<ServiceId>)
      requires Distinct(ids)
      modifies this
      ensures rows == Reconciled(old(rows), ids)
    {
      var existing := rows;
      var linked, target := Services(existing), AsSet(ids);
      rows := [];
      for i := 0 to |existing|
        invariant rows == Kept(existing[..i], target)
      {
        assert existing[..i + 1][..i] == existing[..i];
        if !(existing[i].source == Assigned && existing[i].service !in target) {
          rows := rows + [existing[i]];
        }
      }
      assert existing[..|existing|] == existing;
      for i := 0 to |ids|
        invariant rows == Kept(existing, target) + Missing(ids[..i], linked)
      {
        assert ids[..i + 1][..i] == ids[..i];
        if ids[i] !in linked {
          rows := rows + [Link(ids[i], Assigned)];
        }
      }
      assert ids[..|ids|] == ids;
    }

    /** The operator's request: repeated ids count once, an unknown id changes nothing. */
    method SetCardServices(requested: seq<ServiceId>, catalogue: set<ServiceId>) returns (ok: bool)
      modifies this
      ensures ok <==> AsSet(requested) <= catalogue
      ensures rows == if ok then Reconciled(old(rows), FirstOccurrences(requested)) else old(rows)
    {
      var unique := FirstOccurrences(requested);
      FirstOccurrencesIsASet(requested);
      assert AsSet(unique) == AsSet(requested) by { SameMembersSameSet(unique, requested); }
      ok := AsSet(unique) <= catalogue;
      if ok {
        SetAssigned(unique);
      }
    }

    method Capture(service: ServiceId)
      requires service !in Services(rows)
      modifies this
      ensures rows == old(rows) + [Link(service, Captured)]
    {
      rows := rows + [Link(service, Captured)];
    }

    /** After a turn that sent material: each service once, known ones only, never over an existing row. */
    method OnCaptured(slugs: seq<string>, catalogue: map<string, ServiceId>) returns (captured: bool)
      modifies this
      ensures rows == Stamped(old(rows), Resolved(FirstOccurrences(slugs), catalogue))
      ensures captured <==> rows != old(rows)
    {
      var unique := FirstOccurrences(slugs);
      ghost var found := Resolved(unique, catalogue);
      ghost var before := rows;
      var linked := Services(rows);
      captured := false;
      for i := 0 to |unique|
        invariant rows == Stamped(before, found[..i])
        invariant linked == Services(rows)
        invariant captured <==> rows != before
        invariant |rows| >= |before|
      {
        assert found[..i + 1][..i] == found[..i];
        if unique[i] in catalogue && catalogue[unique[i]] !in linked {
          var service := catalogue[unique[i]];
          ServicesStep(rows, Link(service, Captured));
          Capture(service);
          linked := linked + {service};
          captured := true;
        }
      }
      assert found[..|unique|] == found;
    }
  }

  lemma SameMembersSameSet(a: seq<ServiceId>, b: seq<ServiceId>)
    requires forall x :: x in a <==> x in b
    ensures AsSet(a) == AsSet(b)
  {
    AsSetMembers(a);
    AsSetMembers(b);
  }

  lemma AsSetMembers(ids: seq<ServiceId>)
    ensures forall x :: x in AsSet(ids) <==> x in ids
  {
    forall x | x in ids ensures x in AsSet(ids) {
      var i := FirstIndex(ids, x);
      assert ids[i] == x;
    }
  }

  lemma ServicesStep(rows: seq<Link>, row: Link)
    ensures Services(rows + [row]) == Services(rows) + {row.service}
  {
    var more := rows + [row];
    forall s | s in Services(rows) ensures s in Services(more) {
      var i :| 0 <= i < |rows| && rows[i].service == s;
      assert more[i] == rows[i];
    }
    assert more[|rows|] == row;
  }

  // ---------------------------------------------------------------- one assignment

  lemma {:induction false} KeptRows(rows: seq<Link>, target: set<ServiceId>)
    ensures forall row :: row in Kept(rows, target) <==> row in rows && !Stale(row, target)
    ensures forall i :: 0 <= i < |Kept(rows, target)| ==> Kept(rows, target)[i] in rows
  {
    if rows != [] {
      var init := rows[..|rows| - 1];
      assert rows == init + [rows[|rows| - 1]];
      KeptRows(init, target);
    }
  }

  lemma {:induction false} KeptCaptures(rows: seq<Link>, target: set<ServiceId>)
    ensures Captures(Kept(rows, target)) == Captures(rows)
  {
    if rows != [] {
      var init, last := rows[..|rows| - 1], rows[|rows| - 1];
      KeptCaptures(init, target);
      CapturesStep(Kept(init, target), last);
      if Stale(last, target) {
        assert Kept(rows, target) == Kept(init, target);
      }
    }
  }

  lemma {:induction false} KeptUnique(rows: seq<Link>, target: set<ServiceId>)
    requires OneRowPerService(rows)
    ensures OneRowPerService(Kept(rows, target))
  {
    if rows != [] {
      var init, last := rows[..|rows| - 1], rows[|rows| - 1];
      KeptUnique(init, target);
      KeptRows(init, target);
      forall i | 0 <= i < |Kept(init, target)| ensures Kept(init, target)[i].service != last.service {
        var k := FirstIndex(init, Kept(init, target)[i]);
        assert rows[k] == Kept(init, target)[i];
      }
    }
  }

  lemma CapturesStep(rows: seq<Link>, row: Link)
    ensures Captures(rows + [row]) == Captures(rows) + (if row.source == Captured then [row] else [])
  {
    assert (rows + [row])[..|rows|] == rows;
  }

  lemma {:induction false} MissingHolds(ids: seq<ServiceId>, linked: set<ServiceId>)
    requires Distinct(ids)
    ensures forall row :: row in Missing(ids, linked) <==> row.source == Assigned && row.service in ids && row.service !in linked
    ensures OneRowPerService(Missing(ids, linked))
    ensures forall i :: 0 <= i < |Missing(ids, linked)| ==> Missing(ids, linked)[i].service in ids
  {
    if ids != [] {
      var init, last := ids[..|ids| - 1], ids[|ids| - 1];
      assert ids == init + [last];
      MissingHolds(init, linked);
      assert last !in init;
    }
  }

  lemma {:induction false} NoCapturesAdded(rows: seq<Link>, ids: seq<ServiceId>, linked: set<ServiceId>)
    ensures Captures(rows + Missing(ids, linked)) == Captures(rows)
  {
    if ids == [] {
      assert rows + Missing(ids, linked) == rows;
    } else {
      var init, last := ids[..|ids| - 1], ids[|ids| - 1];
      NoCapturesAdded(rows, init, linked);
      if last !in linked {
        assert rows + Missing(ids, linked) == rows + Missing(init, linked) + [Link(last, Assigned)];
        CapturesStep(rows + Missing(init, linked), Link(last, Assigned));
      } else {
        assert Missing(ids, linked) == Missing(init, linked);
      }
    }
  }

  lemma ReconciledRows(rows: seq<Link>, ids: seq<ServiceId>)
    requires Distinct(ids)
    ensures forall row :: row in Reconciled(rows, ids)
                          <==> (row in rows && !Stale(row, AsSet(ids)))
                               || (row.source == Assigned && row.service in ids && row.service !in Services(rows))
  {
    KeptRows(rows, AsSet(ids));
    MissingHolds(ids, Services(rows));
    var kept, missing := Kept(rows, AsSet(ids)), Missing(ids, Services(rows));
    assert forall row :: row in Reconciled(rows, ids) <==> row in kept || row in missing;
  }

  lemma LinkedIff(rows: seq<Link>, s: ServiceId)
    ensures s in Services(rows) <==> Link(s, Assigned) in rows || Link(s, Captured) in rows
  {
    if s in Services(rows) {
      var i :| 0 <= i < |rows| && rows[i].service == s;
      if rows[i].source == Assigned {
        assert rows[i] == Link(s, Assigned);
      } else {
        assert rows[i] == Link(s, Captured);
      }
    }
    if Link(s, Assigned) in rows {
      var i := FirstIndex(rows, Link(s, Assigned));
      assert rows[i].service == s;
    }
    if Link(s, Captured) in rows {
      var i := FirstIndex(rows, Link(s, Captured));
      assert rows[i].service == s;
    }
  }

  /**
   * After an assignment the card is linked to exactly the target and what the bot captured;
   * the captured rows are the same rows in the same order; no service has two rows.
   */
  lemma AssignmentReconciles(rows: seq<Link>, ids: seq<ServiceId>)
    requires OneRowPerService(rows) && Distinct(ids)
    ensures Services(Reconciled(rows, ids)) == AsSet(ids) + Services(Captures(rows))
    ensures Captures(Reconciled(rows, ids)) == Captures(rows)
    ensures OneRowPerService(Reconciled(rows, ids))
  {
    var target, after := AsSet(ids), Reconciled(rows, ids);
    ReconciledRows(rows, ids);
    KeptCaptures(rows, target);
    NoCapturesAdded(Kept(rows, target), ids, Services(rows));
    ReconciledIsUnique(rows, ids);
    forall s ensures s in Services(after) <==> s in target + Services(Captures(rows)) {
      ReconciledLinks(rows, ids, s);
    }
  }

  lemma ReconciledLinks(rows: seq<Link>, ids: seq<ServiceId>, s: ServiceId)
    requires Distinct(ids)
    ensures s in Services(Reconciled(rows, ids)) <==> s in ids || Link(s, Captured) in rows
    ensures s in ids <==> s in AsSet(ids)
    ensures s in Services(Captures(rows)) <==> Link(s, Captured) in rows
  {
    AsSetMembers(ids);
    ReconciledRows(rows, ids);
    LinkedIff(Reconciled(rows, ids), s);
    LinkedIff(rows, s);
    LinkedIff(Captures(rows), s);
    CapturesHold(rows);
  }

  lemma {:induction false} CapturesHold(rows: seq<Link>)
    ensures forall row :: row in Captures(rows) <==> row in rows && row.source == Captured
  {
    if rows != [] {
      var init, last := rows[..|rows| - 1], rows[|rows| - 1];
      assert rows == init + [last];
      CapturesHold(init);
    }
  }

  lemma ReconciledIsUnique(rows: seq<Link>, ids: seq<ServiceId>)
    requires OneRowPerService(rows) && Distinct(ids)
    ensures OneRowPerService(Reconciled(rows, ids))
  {
    var kept, missing := Kept(rows, AsSet(ids)), Missing(ids, Services(rows));
    KeptRows(rows, AsSet(ids));
    KeptUnique(rows, AsSet(ids));
    MissingHolds(ids, Services(rows));
    forall i, j | 0 <= i < |kept| && 0 <= j < |missing| ensures kept[i].service != missing[j].service {
      assert missing[j] in missing;
      assert kept[i] in rows;
      var k := FirstIndex(rows, kept[i]);
      assert rows[k].service in Services(rows);
    }
  }

  // ---------------------------------------------------------------- one capture

  lemma {:induction false} StampingOnlyAdds(rows: seq<Link>, found: seq<Option<ServiceId>>)
    requires OneRowPerService(rows)
    ensures rows <= Stamped(rows, found)
    ensures OneRowPerService(Stamped(rows, found))
    ensures Captures(rows) <= Captures(Stamped(rows, found))
    ensures forall i :: |rows| <= i < |Stamped(rows, found)| ==> Stamped(rows, found)[i].source == Captured
  {
    if found != [] {
      var before, last := Stamped(rows, found[..|found| - 1]), found[|found| - 1];
      StampingOnlyAdds(rows, found[..|found| - 1]);
      if last.Some? && last.value !in Services(before) {
        CapturesStep(before, Link(last.value, Captured));
        assert forall i :: 0 <= i < |before| ==> before[i].service in Services(before);
      }
    }
  }

  /** Whatever the bot sent and the catalogue knows ends up linked. */
  lemma {:induction false} StampedAreLinked(rows: seq<Link>, found: seq<Option<ServiceId>>, s: ServiceId)
    ensures s in Services(Stamped(rows, found)) <==> s in Services(rows) || Some(s) in found
  {
    if found != [] {
      var init, last := found[..|found| - 1], found[|found| - 1];
      assert found == init + [last];
      StampedAreLinked(rows, init, s);
      if last.Some? {
        ServicesStep(Stamped(rows, init), Link(last.value, Captured));
      }
    }
  }

  // ---------------------------------------------------------------- runs

  datatype Op = Assign(requested: seq<ServiceId>, catalogue: set<ServiceId>) | Stamp(found: seq<Option<ServiceId>>)

  function After(rows: seq<Link>, op: Op): seq<Link> {
    match op
    case Assign(requested, catalogue) =>
      if AsSet(requested) <= catalogue then Reconciled(rows, FirstOccurrences(requested)) else rows
    case Stamp(found) => Stamped(rows, found)
  }

  function AfterAll(rows: seq<Link>, run: seq<Op>): seq<Link>
    decreases |run|
  {
    if run == [] then rows else After(AfterAll(rows, run[..|run| - 1]), run[|run| - 1])
  }

  /** Over any run a service has at most one row, and no captured row is removed, moved or relabelled. */
  lemma {:induction false} RunsKeepCaptures(rows: seq<Link>, run: seq<Op>)
    requires OneRowPerService(rows)
    ensures OneRowPerService(AfterAll(rows, run))
    ensures Captures(rows) <= Captures(AfterAll(rows, run))
    decreases |run|
  {
    if run != [] {
      var before, op := AfterAll(rows, run[..|run| - 1]), run[|run| - 1];
      RunsKeepCaptures(rows, run[..|run| - 1]);
      match op
      case Assign(requested, catalogue) =>
        FirstOccurrencesIsASet(requested);
        AssignmentReconciles(before, FirstOccurrences(requested));
      case Stamp(found) =>
        StampingOnlyAdds(before, found);
    }
  }

  /**
   * The bot's evidence protects a service from later unassignment exactly when the operator
   * had not assigned it first: a capture over an assigned row leaves it assigned.
   */
  lemma CaptureProtectsExactly(rows: seq<Link>, s: ServiceId, ids: seq<ServiceId>)
    requires OneRowPerService(rows) && Distinct(ids)
    ensures s in Services(Reconciled(Stamped(rows, [Some(s)]), ids))
            <==> s in ids || Link(s, Assigned) !in rows
  {
    var after := Stamped(rows, [Some(s)]);
    assert [Some(s)][..0] == [];
    ReconciledLinks(after, ids, s);
    LinkedIff(rows, s);
    if Link(s, Assigned) in rows {
      AssignedIsNotCaptured(rows, s);
    }
  }

  lemma AssignedIsNotCaptured(rows: seq<Link>, s: ServiceId)
    requires OneRowPerService(rows) && Link(s, Assigned) in rows
    ensures Link(s, Captured) !in rows
  {
    var i := FirstIndex(rows, Link(s, Assigned));
    forall k | 0 <= k < |rows| ensures rows[k] != Link(s, Captured) {
      assert k != i ==> rows[k].service != rows[i].service;
    }
  }

  lemma RunSteps(rows: seq<Link>, first: Op, second: Op, third: Op)
    ensures AfterAll(rows, [first, second, third]) == After(After(After(rows, first), second), third)
  {
    var run := [first, second, third];
    assert run[..2] == [first, second] && run[..2][..1] == [first] && [first][..0] == [];
    assert AfterAll(rows, [first]) == After(rows, first);
    assert AfterAll(rows, [first, second]) == After(After(rows, first), second);
  }

  lemma AssignToEmpty()
    ensures After([], Assign([7], {7})) == [Link(7, Assigned)]
  {
    DistinctIsUnchanged<ServiceId>([7]);
    assert AsSet([7]) <= {7};
    FirstAssignment(7);
  }

  lemma FirstAssignment(s: ServiceId)
    ensures Reconciled([], [s]) == [Link(s, Assigned)]
  {
    assert [s][..0] == [];
    assert Missing([s], Services([])) == [Link(s, Assigned)];
  }

  lemma StampOverAssigned()
    ensures After([Link(7, Assigned)], Stamp([Some(7)])) == [Link(7, Assigned)]
  {
    var rows := [Link(7, Assigned)];
    assert [Some(7)][..0] == [];
    assert rows[0].service in Services(rows);
  }

  lemma UnassignAll()
    ensures After([Link(7, Assigned)], Assign([], {7})) == []
  {
    var rows := [Link(7, Assigned)];
    assert AsSet([]) <= {7};
    assert rows[..0] == [];
    assert Stale(rows[0], AsSet([]));
    assert Kept(rows, AsSet([])) == [];
  }

  /** Put on by the operator, then sent by the bot, then taken off: the card forgets the service. */
  lemma CapturedButForgotten()
    ensures AfterAll([], [Assign([7], {7}), Stamp([Some(7)]), Assign([], {7})]) == []
  {
    RunSteps([], Assign([7], {7}), Stamp([Some(7)]), Assign([], {7}));
    AssignToEmpty();
    StampOverAssigned();
    UnassignAll();
  }
}
