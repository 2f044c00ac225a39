/** What can be read back from the archive, and what colliding keys lose (consumers/archiver.py). */
module ArchiveReading {
  import opened Archiver
  import opened ArchiverLoop
  import opened Events
  import opened Seqs

  // ---------------------------------------------------------------- reading back

  function Contents<E>(content: Entry -> E, batch: seq<Entry>): seq<E>
  {
    seq(|batch|, i requires 0 <= i < |batch| => content(batch[i]))
  }

  /** The body of the object that holds a batch: one encoded event per line. */
  function Body<E>(encode: E -> string, content: Entry -> E, batch: seq<Entry>): string
  {
    Join(MapEncode(encode, Contents(content, batch)))
  }

  /** Some line of some object decodes to `e`. */
  ghost predicate Readable<E(!new)>(
      objects: map<Key, seq<Entry>>, encode: E -> string, decode: string -> Option<E>, content: Entry -> E, e: E)
  {
    exists k, i :: k in objects && 0 <= i < |Split(Body(encode, content, objects[k]))| &&
      decode(Split(Body(encode, content, objects[k]))[i]) == Some(e)
  }

  lemma {:induction false} ArchivedIsReadable<E(!new)>(
      objects: map<Key, seq<Entry>>, encode: E -> string, decode: string -> Option<E>, content: Entry -> E, x: Entry)
    requires forall e :: '\n' !in encode(e) && decode(encode(e)) == Some(e)
    requires Archived(objects, x)
    ensures Readable(objects, encode, decode, content, content(x))
  {
    var k :| k in objects && x in objects[k];
    var batch := Contents(content, objects[k]);
    NdjsonRoundTrip(encode, decode, batch);
    var i :| 0 <= i < |objects[k]| && objects[k][i] == x;
    var lines := Split(Body(encode, content, objects[k]));
    assert MapDecode(decode, lines)[i] == Some(batch[i]);
    assert decode(lines[i]) == Some(content(x));
  }

  /** For all runs with failing uploads and commits, crashes and shutdowns: whatever the topic holds below a committed
      offset can be decoded from a line of some uploaded body. */
  lemma {:induction false} CommittedIsReadable<E(!new)>(
      size: nat, partitions: nat, actions: seq<Action>,
      encode: E -> string, decode: string -> Option<E>, content: Entry -> E, p: nat, o: nat)
    requires forall e :: '\n' !in encode(e) && decode(encode(e)) == Some(e)
    requires FreeKeys(size, partitions, actions)
    requires p < |Run(size, partitions, actions).committed| && o < Run(size, partitions, actions).committed[p]
    ensures Readable(Run(size, partitions, actions).objects, encode, decode, content, content((p, o)))
  {
    ArchiveHasNoGaps(size, partitions, actions);
    ArchivedIsReadable(Run(size, partitions, actions).objects, encode, decode, content, (p, o));
  }

  // ---------------------------------------------------------------- shutdown

  /** The final flush, when upload and commit return normally. */
  function Flush(stamp: string): seq<Action>
  {
    [Stop, Upload(stamp, Ok), Commit(Ok)]
  }

  lemma {:induction false} FlushIs(size: nat, s: State, stamp: string)
    requires Remembers(s)
    ensures var t := Fold(Stepper(size), s, Flush(stamp));
            && t.committed == s.position
            && (s.batch != [] ==> (s.lastOffset, stamp) in t.objects && t.objects[(s.lastOffset, stamp)] == s.batch)
            && (s.batch == [] ==> t.objects == s.objects)
  {
    FoldThree(Stepper(size), s, Flush(stamp));
    if s.batch == [] {
      NothingLeft(s);
    }
  }

  /** From any state of any run, a shutdown whose upload and commit return normally commits everything consumed; what
      was in memory is in the object of its last offset; and unless some upload of the run has replaced the only copy of
      a committed entry, everything consumed can be found in the archive. */
  lemma {:induction false} ShutdownArchivesEverything(size: nat, partitions: nat, actions: seq<Action>, stamp: string)
    ensures var s, t := Run(size, partitions, actions), Run(size, partitions, actions + Flush(stamp));
            && t.committed == s.position
            && (s.batch != [] ==> (s.lastOffset, stamp) in t.objects && t.objects[(s.lastOffset, stamp)] == s.batch)
            && (NeverOverwrites(size, partitions, actions + Flush(stamp)) ==>
                  forall p, o :: 0 <= p < |s.position| && 0 <= o < s.position[p] ==> Archived(t.objects, (p, o)))
  {
    var all := actions + Flush(stamp);
    RunIsOrderly(size, partitions, actions);
    FoldConcat(Stepper(size), Archiver.Start(partitions), actions, Flush(stamp));
    FlushIs(size, Run(size, partitions, actions), stamp);
    if NeverOverwrites(size, partitions, all) {
      NoGapsIff(size, partitions, all);
      assert NoGapsAt(size, partitions, all, |all|);
      assert all[..|all|] == all;
    }
  }

  // ---------------------------------------------------------------- colliding keys

  function Times(a: Action, n: nat): seq<Action>
  {
    if n == 0 then [] else Times(a, n - 1) + [a]
  }

  /** `n` entries of partition `p` from offset `o` on. */
  function Entries(p: nat, o: nat, n: nat): seq<Entry>
  {
    if n == 0 then [] else Entries(p, o, n - 1) + [(p, o + n - 1)]
  }

  lemma {:induction false} EntriesAre(p: nat, o: nat, n: nat, x: Entry)
    ensures |Entries(p, o, n)| == n
    ensures x in Entries(p, o, n) <==> x.0 == p && o <= x.1 < o + n
  {
    if n > 0 {
      EntriesAre(p, o, n - 1, x);
    }
  }

  /** Enough messages for a whole batch have arrived and nothing is in memory. */
  predicate CanBatch(s: State, p: nat, n: nat)
  {
    && s.phase == Idle && s.batch == [] && |s.lengths| == |s.position| && p < |s.position|
    && s.position[p] + n <= s.lengths[p]
  }

  function Delivered(size: nat, s: State, p: nat, n: nat): State
    requires CanBatch(s, p, n) && n > 0
  {
    s.(batch := Entries(p, s.position[p], n), lastOffset := s.position[p] + n - 1,
       position := s.position[p := s.position[p] + n], phase := if n == size then Uploading else Idle)
  }

  lemma {:induction false} DeliverOne(size: nat, s: State, p: nat, n: nat)
    requires CanBatch(s, p, n) && 0 < n <= size
    ensures Step(size, if n == 1 then s else Delivered(size, s, p, n - 1), Deliver(p)) == Delivered(size, s, p, n)
  {
    EntriesAre(p, s.position[p], n - 1, (p, 0));
    assert Entries(p, s.position[p], 0) == [];
    assert [] + [(p, s.position[p])] == [(p, s.position[p])];
  }

  lemma {:induction false} DeliverMany(size: nat, s: State, p: nat, n: nat)
    requires CanBatch(s, p, n) && 0 < n <= size
    ensures Fold(Stepper(size), s, Times(Deliver(p), n)) == Delivered(size, s, p, n)
    decreases n
  {
    if n > 1 {
      DeliverMany(size, s, p, n - 1);
    }
    FoldSnoc(Stepper(size), s, Times(Deliver(p), n - 1), Deliver(p));
    DeliverOne(size, s, p, n);
  }

  /** A full batch of one partition, uploaded and committed. */
  function BatchOf(p: nat, size: nat, stamp: string): seq<Action>
  {
    Times(Deliver(p), size) + [Upload(stamp, Ok)] + [Commit(Ok)]
  }

  function Archiving(s: State, p: nat, size: nat, stamp: string): State
    requires CanBatch(s, p, size) && size > 0
  {
    var o, position := s.position[p], s.position[p := s.position[p] + size];
    State(s.lengths, position, position, [], o + size - 1, Idle,
          s.objects[(o + size - 1, stamp) := Entries(p, o, size)])
  }

  lemma {:induction false} BatchRun(s: State, p: nat, size: nat, stamp: string)
    requires CanBatch(s, p, size) && size > 0
    ensures Fold(Stepper(size), s, BatchOf(p, size, stamp)) == Archiving(s, p, size, stamp)
  {
    var delivers := Times(Deliver(p), size);
    DeliverMany(size, s, p, size);
    FoldSnoc(Stepper(size), s, delivers, Upload(stamp, Ok));
    FoldSnoc(Stepper(size), s, delivers + [Upload(stamp, Ok)], Commit(Ok));
  }

  lemma {:induction false} TwoBatches(s: State, p: nat, q: nat, size: nat, stamp: string)
    requires size > 0 && CanBatch(s, p, size) && CanBatch(s, q, size) && p != q
    requires s.position[p] == s.position[q] && s.objects == map[]
    ensures var t := Fold(Stepper(size), s, BatchOf(p, size, stamp) + BatchOf(q, size, stamp));
            && t.committed == s.position[p := s.position[p] + size][q := s.position[q] + size]
            && t.objects == map[(s.position[p] + size - 1, stamp) := Entries(q, s.position[q], size)]
  {
    var s1 := Archiving(s, p, size, stamp);
    FoldConcat(Stepper(size), s, BatchOf(p, size, stamp), BatchOf(q, size, stamp));
    BatchRun(s, p, size, stamp);
    StillCanBatch(s, p, q, size, stamp);
    BatchRun(s1, q, size, stamp);
    BothArchived(s, p, q, size, stamp);
  }

  lemma {:induction false} StillCanBatch(s: State, p: nat, q: nat, size: nat, stamp: string)
    requires size > 0 && CanBatch(s, p, size) && CanBatch(s, q, size) && p != q
    ensures CanBatch(Archiving(s, p, size, stamp), q, size)
  {
  }

  lemma {:induction false} BothArchived(s: State, p: nat, q: nat, size: nat, stamp: string)
    requires size > 0 && CanBatch(s, p, size) && CanBatch(s, q, size) && p != q
    requires s.position[p] == s.position[q] && s.objects == map[]
    requires CanBatch(Archiving(s, p, size, stamp), q, size)
    ensures var t := Archiving(Archiving(s, p, size, stamp), q, size, stamp);
            && t.committed == s.position[p := s.position[p] + size][q := s.position[q] + size]
            && t.objects == map[(s.position[p] + size - 1, stamp) := Entries(q, s.position[q], size)]
  {
  }

  /** The key names no partition: two full batches of different partitions that end at the same offset and are uploaded
      in the same second leave one object, and the committed entries of the first batch are in none. */
  lemma {:induction false} SecondBatchReplacesFirst(s: State, p: nat, q: nat, size: nat, stamp: string, o: nat)
    requires size > 0 && CanBatch(s, p, size) && CanBatch(s, q, size) && p != q && s.objects == map[]
    requires s.position[p] == s.position[q] <= o < s.position[p] + size
    ensures var t := Fold(Stepper(size), s, BatchOf(p, size, stamp) + BatchOf(q, size, stamp));
            |t.committed| == |s.position| && o < t.committed[p] && !Archived(t.objects, (p, o))
  {
    TwoBatches(s, p, q, size, stamp);
    EntriesAre(q, s.position[q], size, (p, o));
  }

  lemma {:induction false} ArriveMany(size: nat, s: State, p: nat, n: nat)
    requires p < |s.lengths|
    ensures Fold(Stepper(size), s, Times(Arrive(p), n)) == s.(lengths := s.lengths[p := s.lengths[p] + n])
    decreases n
  {
    if n > 0 {
      ArriveMany(size, s, p, n - 1);
      FoldSnoc(Stepper(size), s, Times(Arrive(p), n - 1), Arrive(p));
      ArriveOne(size, s, p, n - 1, n);
    } else {
      assert s.lengths[p := s.lengths[p]] == s.lengths;
    }
  }

  lemma {:induction false} ArriveOne(size: nat, s: State, p: nat, n: nat, next: nat)
    requires p < |s.lengths| && next == n + 1
    ensures Step(size, s.(lengths := s.lengths[p := s.lengths[p] + n]), Arrive(p)) ==
            s.(lengths := s.lengths[p := s.lengths[p] + next])
  {
  }

  lemma {:induction false} BothArrive(size: nat)
    ensures Run(size, 2, Times(Arrive(0), size) + Times(Arrive(1), size)) ==
            State([size, size], [0, 0], [0, 0], [], 0, Idle, map[])
  {
    var s0 := Archiver.Start(2);
    ArriveMany(size, s0, 0, size);
    ArriveMany(size, s0.(lengths := s0.lengths[0 := size]), 1, size);
    FoldConcat(Stepper(size), s0, Times(Arrive(0), size), Times(Arrive(1), size));
  }

  /** Whatever the batch size, there is a run in which nothing fails and a whole committed batch is gone. */
  lemma {:induction false} CollisionLosesBatch(size: nat, stamp: string, o: nat)
    requires o < size
    ensures var arrivals := Times(Arrive(0), size) + Times(Arrive(1), size);
            var t := Run(size, 2, arrivals + (BatchOf(0, size, stamp) + BatchOf(1, size, stamp)));
            |t.committed| == 2 && o < t.committed[0] && !Archived(t.objects, (0, o)) && !NoGaps(t)
  {
    var f, s0 := Stepper(size), Archiver.Start(2);
    var arrivals := Times(Arrive(0), size) + Times(Arrive(1), size);
    var s := State([size, size], [0, 0], [0, 0], [], 0, Idle, map[]);
    BothArrive(size);
    FoldConcat(f, s0, arrivals, BatchOf(0, size, stamp) + BatchOf(1, size, stamp));
    SecondBatchReplacesFirst(s, 0, 1, size, stamp, o);
  }
}
