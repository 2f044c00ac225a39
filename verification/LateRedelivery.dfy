/** A single old event delivered again, after its dedup key has expired and without a replay of what followed it
    (consumers/main.py, infra/postgres_init.sql). */
module LateRedelivery {
  import opened Aggregate
  import opened Agreement
  import opened Events
  import opened ReadModel
  import opened Seqs

  lemma {:induction false} LastIsAbsorbed(es: seq<Event>)
    requires es != []
    ensures ProjectView(ProjectLog(ABSENT, es), es[|es| - 1]) == ProjectLog(ABSENT, es)
  {
    var init, e := es[..|es| - 1], es[|es| - 1];
    assert es == init + [e];
    FoldSnoc(ProjectView, ABSENT, init, e);
    ProjectViewIdempotent(ProjectLog(ABSENT, init), e);
  }

  /** On an existing row, every event but a CREATED overwrites the version. */
  lemma VersionIsOverwritten(v: View, e: Event)
    requires v.row.Some?
    ensures ProjectView(v, e).row.Some?
    ensures e.payload.OrderCreated? ==> ProjectView(v, e) == v
    ensures !e.payload.OrderCreated? ==> ProjectView(v, e).row.value.version == e.version
  {
  }

  /** The upserts alone do not make a late redelivery harmless: of an order's history it is so exactly for the CREATED
      event and for the last one. Any other event moves the row's version back. */
  lemma {:induction false} LateRedeliveryExact(oid: Id, es: seq<Event>, i: nat)
    requires Lawful(oid, es) && i < |es|
    ensures ProjectView(ProjectLog(ABSENT, es), es[i]) == ProjectLog(ABSENT, es) <==> i == 0 || i == |es| - 1
    ensures var row := ProjectView(ProjectLog(ABSENT, es), es[i]).row;
        row.Some? && (i != 0 ==> row.value.version == i + 1)
  {
    LawfulInOrder(oid, es);
    FoldsAgree(oid, es);
    LawfulVersion(oid, es);
    LawfulAt(oid, es, i);
    LastIsAbsorbed(es);
    VersionIsOverwritten(ProjectLog(ABSENT, es), es[i]);
    CreatedOnlyFirst(oid, es, i);
  }

  lemma {:induction false} CreatedOnlyFirst(oid: Id, es: seq<Event>, i: nat)
    requires Lawful(oid, es) && i < |es|
    ensures es[i].payload.OrderCreated? <==> i == 0
  {
    LawfulAt(oid, es, i);
    assert es[..i] == [] <==> i == 0;
  }
}
