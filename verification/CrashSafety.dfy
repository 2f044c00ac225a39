/** At-least-once delivery with dedup keys and crashes between any two steps (`consume` in consumers/main.py). */
module CrashSafety {
  import opened Consumer
  import opened Events
  import opened ReadModel
  import opened Seqs
  import opened Topics

  /** Entry `i` of partition `p` is the event `e`. */
  ghost predicate Holds(topic: Topic, p: int, i: int, e: Event)
  {
    0 <= p < |topic| && 0 <= i < |topic[p]| && topic[p][i].event == e
  }

  ghost predicate OnTopic(topic: Topic, e: Event)
  {
    exists p, i :: Holds(topic, p, i, e)
  }

  /** An event id stands for one event. */
  ghost predicate IdsUnique(topic: Topic)
  {
    forall p, i, e, q, j, f :: Holds(topic, p, i, e) && Holds(topic, q, j, f) && e.eventId == f.eventId ==> e == f
  }

  /** Every event is in its order's partition. */
  ghost predicate Routed(topic: Topic)
  {
    topic != [] && forall p, i, e :: Holds(topic, p, i, e) ==> p == PartitionOf(e.orderId, |topic|)
  }

  ghost predicate GoodTopic(topic: Topic)
  {
    Routed(topic) && IdsUnique(topic)
  }

  lemma HoldsPut(topic: Topic, p: nat, m: Message, q: int, i: int, e: Event)
    requires p < |topic| && Holds(topic, q, i, e)
    ensures Holds(Put(topic, p, m), q, i, e)
  {
  }

  /** The first `k` entries of a partition with repeated event ids dropped. */
  function Seen(ms: seq<Message>, k: nat): seq<Event>
    requires k <= |ms|
  {
    FirstCopies(EventsIn(ms[..k]))
  }

  /** One order's rows after the first `k` entries of its partition. */
  ghost function Image(ms: seq<Message>, k: nat, oid: Id): View
    requires k <= |ms|
  {
    ProjectLog(ABSENT, OrderLog(Seen(ms, k), oid))
  }

  lemma {:induction false} ImageNext(ms: seq<Message>, k: nat, oid: Id)
    requires k < |ms|
    ensures Image(ms, k + 1, oid) ==
            if ms[k].event.orderId != oid || HasId(EventsIn(ms[..k]), ms[k].event.eventId) then Image(ms, k, oid)
            else ProjectView(Image(ms, k, oid), ms[k].event)
  {
    var e := ms[k].event;
    assert ms[..k + 1] == ms[..k] + [ms[k]];
    EventsInSnoc(ms[..k], ms[k]);
    FirstCopiesSnoc(EventsIn(ms[..k]), e);
    OrderLogSnoc(Seen(ms, k), e, oid);
    FoldSnoc(ProjectView, ABSENT, OrderLog(Seen(ms, k), oid), e);
  }

  /** The tables hold, for every order of partition `p`, exactly the first `k` entries. */
  ghost predicate AtCut(topic: Topic, t: Tables, p: nat, k: nat)
    requires p < |topic| && k <= |topic[p]|
  {
    forall oid :: PartitionOf(oid, |topic|) == p ==> ViewOf(t, oid) == Image(topic[p], k, oid)
  }

  /** A repeated event id adds nothing to the cut. */
  lemma {:induction false} RepeatKeepsCut(topic: Topic, t: Tables, p: nat, k: nat)
    requires p < |topic| && k < |topic[p]| && HasId(EventsIn(topic[p][..k]), topic[p][k].event.eventId)
    ensures AtCut(topic, t, p, k) <==> AtCut(topic, t, p, k + 1)
  {
    forall oid ensures Image(topic[p], k + 1, oid) == Image(topic[p], k, oid) {
      ImageNext(topic[p], k, oid);
    }
  }

  /** Projecting a new event moves its partition to the next cut, also when it was projected before a crash. */
  lemma {:induction false} ProjectMovesCut(topic: Topic, t: Tables, p: nat, k: nat)
    requires GoodTopic(topic) && p < |topic| && k < |topic[p]|
    requires !HasId(EventsIn(topic[p][..k]), topic[p][k].event.eventId)
    requires AtCut(topic, t, p, k) || AtCut(topic, t, p, k + 1)
    ensures AtCut(topic, Projected(t, topic[p][k].event), p, k + 1)
  {
    var e := topic[p][k].event;
    assert Holds(topic, p, k, e);
    forall oid | PartitionOf(oid, |topic|) == p
      ensures ViewOf(Projected(t, e), oid) == Image(topic[p], k + 1, oid)
    {
      ImageNext(topic[p], k, oid);
      ProjectIsLocal(t, e, oid);
      ProjectViewIdempotent(Image(topic[p], k, oid), e);
    }
  }

  lemma {:induction false} ProjectLeavesOtherCuts(topic: Topic, t: Tables, p: nat, e: Event, k: nat)
    requires p < |topic| && k <= |topic[p]| && PartitionOf(e.orderId, |topic|) != p && AtCut(topic, t, p, k)
    ensures AtCut(topic, Projected(t, e), p, k)
  {
    forall oid | PartitionOf(oid, |topic|) == p ensures ViewOf(Projected(t, e), oid) == Image(topic[p], k, oid) {
      ProjectIsLocal(t, e, oid);
    }
  }

  // ---------------------------------------------------------------- the invariant

  ghost predicate HasCommitted(topic: Topic, c: State)
  {
    |c.committed| == |topic| && forall p :: 0 <= p < |topic| ==> c.committed[p] <= |topic[p]|
  }

  /** The id of an entry at or below the committed offset of its partition. */
  ghost predicate Known(topic: Topic, c: State, id: Id)
    requires HasCommitted(topic, c)
  {
    exists p, i, e :: Holds(topic, p, i, e) && i <= c.committed[p] && e.eventId == id
  }

  ghost predicate PartitionInv(topic: Topic, c: State, p: nat)
    requires HasCommitted(topic, c) && p < |topic|
  {
    var k := c.committed[p];
    && (AtCut(topic, c.tables, p, k) || (k < |topic[p]| && AtCut(topic, c.tables, p, k + 1)))
    && (k < |topic[p]| && topic[p][k].event.eventId in c.processed ==> AtCut(topic, c.tables, p, k + 1))
  }

  ghost predicate PhaseInv(topic: Topic, c: State)
    requires HasCommitted(topic, c)
  {
    c.phase.Busy? ==>
      var p := c.phase.p;
      && p < |topic| && c.phase.off == c.committed[p] < |topic[p]| && c.phase.m == topic[p][c.committed[p]]
      && (c.phase.at != AtCheck && c.phase.at != AtProject ==> AtCut(topic, c.tables, p, c.committed[p] + 1))
      && c.phase.at != AtDlq
  }

  /** Every partition's image is what is committed or one entry more, whatever keys have expired. */
  ghost predicate CutInv(topic: Topic, c: State)
  {
    && HasCommitted(topic, c)
    && (forall id :: id in c.processed ==> Known(topic, c, id))
    && (forall p :: 0 <= p < |topic| ==> PartitionInv(topic, c, p))
    && PhaseInv(topic, c)
  }

  /** No key of a committed entry has expired. */
  ghost predicate KeysKept(topic: Topic, c: State)
    requires HasCommitted(topic, c)
  {
    && (forall p, i :: 0 <= p < |topic| && 0 <= i < c.committed[p] ==> topic[p][i].event.eventId in c.processed)
    && (IsAt(c, AtProject) ==> c.phase.m.event.eventId !in c.processed)
    && (IsAt(c, AtStamp) || IsAt(c, AtCommit) || IsAt(c, AtClose) ==> c.phase.m.event.eventId in c.processed)
  }

  ghost predicate CrashInv(topic: Topic, c: State)
  {
    CutInv(topic, c) && KeysKept(topic, c)
  }

  /** No exception path; crashes and expiring keys are allowed anywhere. */
  predicate NoError(a: Action)
  {
    match a
    case ProjectStep(outcome) => outcome == Ok
    case Invalidate(outcome) => outcome == Ok
    case Mark(outcome) => outcome == Ok
    case Stamp(outcome) => outcome == Ok
    case Commit(outcome) => outcome == Ok
    case _ => true
  }

  /** The hypotheses of crash safety: no exception path and no expired dedup key; crashes are allowed anywhere. */
  ghost predicate Undisturbed(c: State, a: Action)
  {
    NoError(a) && !a.ExpireKey? && (a.ProjectStep? && IsAt(c, AtProject) ==> Project(c.tables, c.phase.m.event).Some?)
  }

  /** A known id is either a repeat of an earlier entry of the partition or the entry at the committed offset itself. */
  lemma {:induction false} KnownIsRepeat(topic: Topic, c: State, p: nat, k: nat)
    requires GoodTopic(topic) && HasCommitted(topic, c) && p < |topic| && c.committed[p] <= k < |topic[p]|
    requires Known(topic, c, topic[p][k].event.eventId)
    ensures HasId(EventsIn(topic[p][..k]), topic[p][k].event.eventId) || k == c.committed[p]
  {
    var id := topic[p][k].event.eventId;
    var q, i, e :| Holds(topic, q, i, e) && i <= c.committed[q] && e.eventId == id;
    assert Holds(topic, p, k, topic[p][k].event);
    if i < k {
      assert EventsIn(topic[p][..k])[i].eventId == id;
    }
  }

  lemma {:induction false} KnownStays(topic: Topic, c: State, c': State, id: Id)
    requires HasCommitted(topic, c) && HasCommitted(topic, c') && Known(topic, c, id)
    requires forall p :: 0 <= p < |topic| ==> c.committed[p] <= c'.committed[p]
    ensures Known(topic, c', id)
  {
    var p, i, e :| Holds(topic, p, i, e) && i <= c.committed[p] && e.eventId == id;
    assert i <= c'.committed[p];
  }

  lemma PartitionStays(topic: Topic, c: State, c': State, q: nat)
    requires HasCommitted(topic, c) && HasCommitted(topic, c') && q < |topic| && PartitionInv(topic, c, q)
    requires c.committed[q] == c'.committed[q] && c'.processed <= c.processed && c'.tables == c.tables
    ensures PartitionInv(topic, c', q)
  {
  }

  /** Steps that touch neither offsets nor tables and add no key. */
  lemma {:induction false} QuietStepKeepsInv(topic: Topic, c: State, c': State)
    requires CutInv(topic, c)
    requires c'.committed == c.committed && c'.processed <= c.processed && c'.tables == c.tables
    requires PhaseInv(topic, c')
    ensures CutInv(topic, c')
  {
    forall p | 0 <= p < |topic| ensures PartitionInv(topic, c', p) {
      PartitionStays(topic, c, c', p);
    }
    forall id | id in c'.processed ensures Known(topic, c', id) {
      KnownStays(topic, c, c', id);
    }
  }

  lemma CheckedPhase(topic: Topic, c: State)
    requires HasCommitted(topic, c) && PhaseInv(topic, c) && IsAt(c, AtCheck) && PartitionInv(topic, c, c.phase.p)
    ensures PhaseInv(topic, Step(topic, c, Check))
  {
  }

  lemma {:induction false} CheckKeepsInv(topic: Topic, c: State)
    requires GoodTopic(topic) && CutInv(topic, c) && IsAt(c, AtCheck)
    ensures CutInv(topic, Step(topic, c, Check))
  {
    CheckedPhase(topic, c);
    QuietStepKeepsInv(topic, c, Step(topic, c, Check));
  }

  /** While no key has expired, an unmarked entry is not a repeat. */
  lemma {:induction false} UnmarkedIsNew(topic: Topic, c: State, p: nat)
    requires HasCommitted(topic, c) && p < |topic| && KeysKept(topic, c)
    requires c.committed[p] < |topic[p]| && topic[p][c.committed[p]].event.eventId !in c.processed
    ensures !HasId(EventsIn(topic[p][..c.committed[p]]), topic[p][c.committed[p]].event.eventId)
  {
    forall i | 0 <= i < c.committed[p]
      ensures EventsIn(topic[p][..c.committed[p]])[i].eventId != topic[p][c.committed[p]].event.eventId
    {
      assert topic[p][i].event.eventId in c.processed;
    }
  }

  /** What a projection does to the cuts, without saying how. */
  ghost predicate MovesCut(topic: Topic, t: Tables, t': Tables, p: nat, k: nat)
    requires p < |topic| && k < |topic[p]|
  {
    && AtCut(topic, t', p, k + 1)
    && forall q: nat, j: nat :: q < |topic| && q != p && j <= |topic[q]| && AtCut(topic, t, q, j) ==>
          AtCut(topic, t', q, j)
  }

  lemma {:induction false} ProjectionMovesCut(topic: Topic, t: Tables, t': Tables, p: nat, k: nat, e: Event)
    requires Routed(topic) && Holds(topic, p, k, e) && t' == Projected(t, e)
    requires AtCut(topic, t', p, k + 1)
    ensures MovesCut(topic, t, t', p, k)
  {
    assert PartitionOf(e.orderId, |topic|) == p;
    forall q: nat, j: nat | q < |topic| && q != p && j <= |topic[q]| && AtCut(topic, t, q, j)
      ensures AtCut(topic, t', q, j)
    {
      ProjectLeavesOtherCuts(topic, t, q, e, j);
    }
  }

  lemma {:induction false} NewTablesKeepInv(topic: Topic, c: State, p: nat, c': State)
    requires CutInv(topic, c) && p < |topic| && c.committed[p] < |topic[p]|
    requires c'.committed == c.committed && c'.processed == c.processed && c'.phase.Polling?
    requires MovesCut(topic, c.tables, c'.tables, p, c.committed[p])
    ensures CutInv(topic, c')
  {
    forall q | 0 <= q < |topic| ensures PartitionInv(topic, c', q) {
      assert PartitionInv(topic, c, q);
    }
    forall id | id in c'.processed ensures Known(topic, c', id) {
      KnownStays(topic, c, c', id);
    }
  }

  /** Projecting the entry at the committed offset moves its partition to the next cut. */
  ghost predicate Advances(topic: Topic, c: State)
    requires HasCommitted(topic, c) && PhaseInv(topic, c)
  {
    IsAt(c, AtProject) ==> AtCut(topic, Projected(c.tables, c.phase.m.event), c.phase.p, c.committed[c.phase.p] + 1)
  }

  lemma {:induction false} ProjectKeepsInv(topic: Topic, c: State)
    requires GoodTopic(topic) && CutInv(topic, c) && IsAt(c, AtProject) && Project(c.tables, c.phase.m.event).Some?
    requires Advances(topic, c)
    ensures CutInv(topic, Step(topic, c, ProjectStep(Ok)))
  {
    var p, c' := c.phase.p, Step(topic, c, ProjectStep(Ok));
    assert Holds(topic, p, c.committed[p], c.phase.m.event);
    ProjectionMovesCut(topic, c.tables, c'.tables, p, c.committed[p], c.phase.m.event);
    ProjectedKeepsInv(topic, c, c');
  }

  lemma {:induction false} ProjectedKeepsInv(topic: Topic, c: State, c': State)
    requires CutInv(topic, c) && IsAt(c, AtProject)
    requires c'.committed == c.committed && c'.processed == c.processed
    requires c'.phase == c.phase.(at := AtInvalidate)
    requires MovesCut(topic, c.tables, c'.tables, c.phase.p, c.committed[c.phase.p])
    ensures CutInv(topic, c')
  {
    NewTablesKeepInv(topic, c, c.phase.p, c'.(phase := Polling));
    QuietStepKeepsInv(topic, c'.(phase := Polling), c');
  }

  lemma {:induction false} MarkKeepsPartition(topic: Topic, c: State, q: nat)
    requires GoodTopic(topic) && HasCommitted(topic, c) && PhaseInv(topic, c) && IsAt(c, AtMark)
    requires q < |topic| && PartitionInv(topic, c, q)
    ensures PartitionInv(topic, c.(processed := c.processed + {c.phase.m.event.eventId}), q)
  {
    var p, k := c.phase.p, c.committed[q];
    if k < |topic[q]| && topic[q][k].event.eventId == c.phase.m.event.eventId {
      assert Holds(topic, q, k, topic[q][k].event) && Holds(topic, p, c.committed[p], c.phase.m.event);
    }
  }

  lemma {:induction false} MarkedKeepsInv(topic: Topic, c: State, mid: State, id: Id)
    requires GoodTopic(topic) && CutInv(topic, c) && IsAt(c, AtMark) && id == c.phase.m.event.eventId
    requires mid == c.(processed := c.processed + {id}, phase := Polling)
    ensures CutInv(topic, mid)
  {
    forall q | 0 <= q < |topic| ensures PartitionInv(topic, mid, q) {
      MarkKeepsPartition(topic, c, q);
      PartitionStays(topic, c.(processed := mid.processed), mid, q);
    }
    forall x | x in mid.processed ensures Known(topic, mid, x) {
      if x == id {
        assert Holds(topic, c.phase.p, c.phase.off, c.phase.m.event);
      } else {
        KnownStays(topic, c, mid, x);
      }
    }
  }

  lemma {:induction false} MarkKeepsInv(topic: Topic, c: State)
    requires GoodTopic(topic) && CutInv(topic, c) && IsAt(c, AtMark)
    ensures CutInv(topic, Step(topic, c, Mark(Ok)))
  {
    var id := c.phase.m.event.eventId;
    var mid := c.(processed := c.processed + {id}, phase := Polling);
    var c' := mid.(phase := c.phase.(at := AtStamp));
    MarkedKeepsInv(topic, c, mid, id);
    MarkedPhase(topic, c, c');
    QuietStepKeepsInv(topic, mid, c');
  }

  lemma {:induction false} MarkedPhase(topic: Topic, c: State, c': State)
    requires HasCommitted(topic, c) && PhaseInv(topic, c) && IsAt(c, AtMark)
    requires c'.committed == c.committed && c'.tables == c.tables && c'.phase == c.phase.(at := AtStamp)
    ensures PhaseInv(topic, c')
  {
    assert AtCut(topic, c'.tables, c'.phase.p, c'.committed[c'.phase.p] + 1);
  }

  lemma {:induction false} CommitKeepsPartition(topic: Topic, c: State, p: nat)
    requires GoodTopic(topic) && HasCommitted(topic, c) && p < |topic| && PartitionInv(topic, c, p)
    requires forall id :: id in c.processed ==> Known(topic, c, id)
    requires c.committed[p] < |topic[p]| && AtCut(topic, c.tables, p, c.committed[p] + 1)
    ensures PartitionInv(topic, c.(committed := c.committed[p := c.committed[p] + 1]), p)
  {
    var k := c.committed[p];
    if k + 1 < |topic[p]| && topic[p][k + 1].event.eventId in c.processed {
      MarkedAheadIsRepeat(topic, c, p, k + 1);
    }
  }

  lemma {:induction false} MarkedAheadIsRepeat(topic: Topic, c: State, p: nat, k: nat)
    requires GoodTopic(topic) && HasCommitted(topic, c) && p < |topic| && c.committed[p] < k < |topic[p]|
    requires Known(topic, c, topic[p][k].event.eventId) && AtCut(topic, c.tables, p, k)
    ensures AtCut(topic, c.tables, p, k + 1)
  {
    KnownIsRepeat(topic, c, p, k);
    RepeatKeepsCut(topic, c.tables, p, k);
  }

  lemma {:induction false} AdvanceKeepsInv(topic: Topic, c: State, p: nat, c': State)
    requires GoodTopic(topic) && CutInv(topic, c) && p < |topic|
    requires c.committed[p] < |topic[p]| && AtCut(topic, c.tables, p, c.committed[p] + 1)
    requires c' == c.(committed := c.committed[p := c.committed[p] + 1], phase := Polling)
    ensures CutInv(topic, c')
  {
    assert PartitionInv(topic, c, p);
    CommitKeepsPartition(topic, c, p);
    forall q | 0 <= q < |topic| ensures PartitionInv(topic, c', q) {
      if q == p {
        PartitionStays(topic, c.(committed := c'.committed), c', p);
      } else {
        PartitionStays(topic, c, c', q);
      }
    }
    forall id | id in c'.processed ensures Known(topic, c', id) {
      KnownStays(topic, c, c', id);
    }
  }

  lemma {:induction false} CommitKeepsInv(topic: Topic, c: State)
    requires GoodTopic(topic) && CutInv(topic, c) && (IsAt(c, AtCommit) || IsAt(c, AtClose))
    ensures CutInv(topic, Step(topic, c, Commit(Ok)))
  {
    AdvanceKeepsInv(topic, c, c.phase.p, Step(topic, c, Commit(Ok)));
  }

  /** Every step without an error keeps the cuts, also when keys expire, if the projection advances. */
  lemma {:induction false} StepKeepsCuts(topic: Topic, c: State, a: Action)
    requires GoodTopic(topic) && CutInv(topic, c) && NoError(a)
    requires a.ProjectStep? && IsAt(c, AtProject) ==> Project(c.tables, c.phase.m.event).Some? && Advances(topic, c)
    ensures CutInv(topic, Step(topic, c, a))
  {
    var c' := Step(topic, c, a);
    if c' != c {
      match a {
        case Check => CheckKeepsInv(topic, c);
        case ProjectStep(_) => ProjectKeepsInv(topic, c);
        case Mark(_) => MarkKeepsInv(topic, c);
        case Commit(_) => CommitKeepsInv(topic, c);
        case _ =>
          OtherStepIsQuiet(topic, c, a);
          QuietStepKeepsInv(topic, c, c');
      }
    }
  }

  lemma OtherStepIsQuiet(topic: Topic, c: State, a: Action)
    requires HasCommitted(topic, c) && PhaseInv(topic, c) && NoError(a)
    requires !a.Check? && !a.ProjectStep? && !a.Mark? && !a.Commit?
    ensures var c' := Step(topic, c, a);
            && c'.committed == c.committed && c'.processed <= c.processed && c'.tables == c.tables
            && PhaseInv(topic, c')
  {
    OtherStepShape(topic, c, a);
    PhaseMoves(topic, c, Step(topic, c, a));
  }

  /** The message at hand stays and the projection is not undone, or a message is fetched or dropped. */
  ghost predicate Onward(topic: Topic, c: State, c': State)
    requires HasCommitted(topic, c)
  {
    || c'.phase.Polling?
    || (c.phase.Busy? && c'.phase == c.phase.(at := c'.phase.at) &&
        (c'.phase.at == c.phase.at || (c.phase.at != AtCheck && c.phase.at != AtProject && c'.phase.at != AtDlq)))
    || (c'.phase.p < |topic| && c'.phase.off == c.committed[c'.phase.p] < |topic[c'.phase.p]| &&
        c'.phase.m == topic[c'.phase.p][c'.phase.off] && c'.phase.at == AtCheck)
  }

  lemma OtherStepShape(topic: Topic, c: State, a: Action)
    requires HasCommitted(topic, c) && NoError(a) && !IsAt(c, AtDlq)
    requires !a.Check? && !a.ProjectStep? && !a.Mark? && !a.Commit?
    ensures var c' := Step(topic, c, a);
            && c'.committed == c.committed && c'.processed <= c.processed && c'.tables == c.tables
            && Onward(topic, c, c')
  {
  }

  lemma {:induction false} PhaseMoves(topic: Topic, c: State, c': State)
    requires HasCommitted(topic, c) && PhaseInv(topic, c) && Onward(topic, c, c')
    requires c'.committed == c.committed && c'.tables == c.tables
    ensures PhaseInv(topic, c')
  {
  }

  /** A new entry always advances. */
  lemma {:induction false} NewAdvances(topic: Topic, c: State)
    requires GoodTopic(topic) && CutInv(topic, c) && IsAt(c, AtProject)
    requires !HasId(EventsIn(topic[c.phase.p][..c.phase.off]), c.phase.m.event.eventId)
    ensures Advances(topic, c)
  {
    assert PartitionInv(topic, c, c.phase.p);
    ProjectMovesCut(topic, c.tables, c.phase.p, c.committed[c.phase.p]);
  }

  lemma {:induction false} StepKeepsKeys(topic: Topic, c: State, a: Action)
    requires CrashInv(topic, c) && Undisturbed(c, a)
    ensures KeysKept(topic, Step(topic, c, a))
  {
    if a.Commit? && (IsAt(c, AtCommit) || IsAt(c, AtClose)) {
      var c' := c.(committed := c.committed[c.phase.p := c.phase.off + 1], phase := Polling);
      forall p, i | 0 <= p < |topic| && 0 <= i < c'.committed[p] ensures topic[p][i].event.eventId in c'.processed {
        assert i < c.committed[p] || topic[p][i].event.eventId in c.processed;
      }
    } else {
      OtherStepKeepsKeys(topic, c, a);
    }
  }

  lemma OtherStepKeepsKeys(topic: Topic, c: State, a: Action)
    requires CrashInv(topic, c) && Undisturbed(c, a) && !(a.Commit? && (IsAt(c, AtCommit) || IsAt(c, AtClose)))
    ensures KeysKept(topic, Step(topic, c, a))
  {
    var c' := Step(topic, c, a);
    assert c'.committed == c.committed && c.processed <= c'.processed;
  }

  lemma {:induction false} StepKeepsInv(topic: Topic, c: State, a: Action)
    requires GoodTopic(topic) && CrashInv(topic, c) && Undisturbed(c, a)
    ensures CrashInv(topic, Step(topic, c, a))
  {
    if IsAt(c, AtProject) {
      UnmarkedIsNew(topic, c, c.phase.p);
      NewAdvances(topic, c);
    }
    StepKeepsCuts(topic, c, a);
    StepKeepsKeys(topic, c, a);
  }

  /** A new message at the end of a partition leaves the invariant alone. */
  lemma {:induction false} TopicGrowthKeepsCuts(topic: Topic, c: State, p: nat, m: Message)
    requires p < |topic| && CutInv(topic, c) && GoodTopic(Put(topic, p, m))
    ensures CutInv(Put(topic, p, m), c)
  {
    var topic' := Put(topic, p, m);
    assert forall q, i :: 0 <= q < |topic| && 0 <= i < |topic[q]| ==> topic'[q][i] == topic[q][i];
    forall id | id in c.processed ensures Known(topic', c, id) {
      var q, i, e :| Holds(topic, q, i, e) && i <= c.committed[q] && e.eventId == id;
      HoldsPut(topic, p, m, q, i, e);
    }
    forall q, k, t | 0 <= q < |topic| && 0 <= k <= |topic[q]| ensures AtCut(topic', t, q, k) == AtCut(topic, t, q, k) {
      CutIgnoresGrowth(topic, p, m, t, q, k);
    }
    forall q | 0 <= q < |topic| ensures PartitionInv(topic', c, q) {
      assert PartitionInv(topic, c, q);
      var k := c.committed[q];
      if k == |topic[q]| && q == p && m.event.eventId in c.processed {
        NewRepeat(topic, c, p, m);
        RepeatKeepsCut(topic', c.tables, p, k);
      }
    }
  }

  lemma {:induction false} TopicGrowthKeepsInv(topic: Topic, c: State, p: nat, m: Message)
    requires p < |topic| && CrashInv(topic, c) && GoodTopic(Put(topic, p, m))
    ensures CrashInv(Put(topic, p, m), c)
  {
    TopicGrowthKeepsCuts(topic, c, p, m);
    assert forall q, i :: 0 <= q < |topic| && 0 <= i < |topic[q]| ==> Put(topic, p, m)[q][i] == topic[q][i];
  }

  lemma {:induction false} NewRepeat(topic: Topic, c: State, p: nat, m: Message)
    requires p < |topic| && HasCommitted(topic, c) && GoodTopic(Put(topic, p, m)) && Known(topic, c, m.event.eventId)
    ensures HasId(EventsIn(topic[p]), m.event.eventId)
    ensures Put(topic, p, m)[p][..|topic[p]|] == topic[p] && Put(topic, p, m)[p][|topic[p]|] == m
  {
    var topic' := Put(topic, p, m);
    var id := m.event.eventId;
    var q, i, e :| Holds(topic, q, i, e) && i <= c.committed[q] && e.eventId == id;
    HoldsPut(topic, p, m, q, i, e);
    assert Holds(topic', p, |topic[p]|, m.event);
    assert EventsIn(topic[p])[i].eventId == id;
  }

  lemma {:induction false} CutIgnoresGrowth(topic: Topic, p: nat, m: Message, t: Tables, q: nat, k: nat)
    requires p < |topic| && q < |topic| && k <= |topic[q]|
    ensures AtCut(Put(topic, p, m), t, q, k) == AtCut(topic, t, q, k)
  {
    assert Put(topic, p, m)[q][..k] == topic[q][..k];
    forall oid ensures Image(Put(topic, p, m)[q], k, oid) == Image(topic[q], k, oid) {
    }
  }
}
