/** The `archive` loop on real state (consumers/archiver.py), as a run of the archiver machine. */
module ArchiverLoop {
  import opened Archiver
  import opened Events
  import opened Seqs

  /** One delivered message: its partition, the time of a possible upload, and how upload and commit end. */
  datatype Arrival = Arrival(p: nat, stamp: string, upload: Outcome, commit: Outcome)

  function StepsFor(d: Arrival): seq<Action>
  {
    [Deliver(d.p), Upload(d.stamp, d.upload), Commit(d.commit)]
  }

  function FinalSteps(d: Arrival): seq<Action>
  {
    [Stop, Upload(d.stamp, d.upload), Commit(d.commit)]
  }

  function Script(arrivals: seq<Arrival>): seq<Action>
  {
    if arrivals == [] then [] else Script(arrivals[..|arrivals| - 1]) + StepsFor(arrivals[|arrivals| - 1])
  }

  /** The archiver after one delivery, and after the shutdown. */
  function Handled(size: nat, s: State, d: Arrival): State
  {
    Step(size, Step(size, Step(size, s, Deliver(d.p)), Upload(d.stamp, d.upload)), Commit(d.commit))
  }

  function Finished(size: nat, s: State, d: Arrival): State
  {
    Step(size, Step(size, Step(size, s, Stop), Upload(d.stamp, d.upload)), Commit(d.commit))
  }

  /** The archiver after some deliveries. */
  function Effect(size: nat, s: State, arrivals: seq<Arrival>): State
  {
    if arrivals == [] then s else Handled(size, Effect(size, s, arrivals[..|arrivals| - 1]), arrivals[|arrivals| - 1])
  }

  lemma {:induction false} EffectIsFold(size: nat, s: State, arrivals: seq<Arrival>)
    ensures Effect(size, s, arrivals) == Fold(Stepper(size), s, Script(arrivals))
  {
    if arrivals != [] {
      var init, d := arrivals[..|arrivals| - 1], arrivals[|arrivals| - 1];
      EffectIsFold(size, s, init);
      FoldConcat(Stepper(size), s, Script(init), StepsFor(d));
      FoldThree(Stepper(size), Effect(size, s, init), StepsFor(d));
    }
  }

  /** The life of a process is a run of the machine. */
  lemma {:induction false} LifeIsRun(size: nat, s: State, arrivals: seq<Arrival>, last: Arrival)
    ensures Finished(size, Effect(size, s, arrivals), last) ==
        Fold(Stepper(size), s, Script(arrivals) + FinalSteps(last))
  {
    EffectIsFold(size, s, arrivals);
    FoldConcat(Stepper(size), s, Script(arrivals), FinalSteps(last));
    FoldThree(Stepper(size), Effect(size, s, arrivals), FinalSteps(last));
  }

  class Process {
    const size: nat
    var lengths: seq<nat>
    var committed: seq<nat>
    var position: seq<nat>
    var batch: seq<Entry>
    var lastOffset: nat
    var objects: map<Key, seq<Entry>>

    /** A process starts from the offsets committed before, with nothing in memory. */
    constructor (size: nat, lengths: seq<nat>, committed: seq<nat>, objects: map<Key, seq<Entry>>)
      ensures this.size == size
      ensures forall p, b, o, f :: Value(Idle) == Restarted(State(lengths, committed, p, b, o, f, objects))
      ensures this.lengths == lengths && this.committed == committed && this.objects == objects
      ensures position == committed && batch == []
    {
      this.size, this.lengths, this.committed, this.position := size, lengths, committed, committed;
      batch, lastOffset, this.objects := [], 0, objects;
    }

    function Value(phase: Phase): State
      reads this
    {
      State(lengths, committed, position, batch, lastOffset, phase, objects)
    }

    /** Upload, then commit; an exception in either leaves the batch to the next attempt. */
    method UploadAndCommit(d: Arrival) returns (ok: bool)
      modifies this`objects, this`committed
      ensures objects == if d.upload == Raised then old(objects) else old(objects)[(lastOffset, d.stamp) := batch]
      ensures committed == if d.upload == Ok && d.commit != Raised then position else old(committed)
      ensures ok <==> d.upload == Ok && d.commit == Ok
    {
      if d.upload != Raised {
        objects := objects[(lastOffset, d.stamp) := batch];
      }
      if d.upload != Ok {
        return false;
      }
      if d.commit != Raised {
        committed := position;
      }
      return d.commit == Ok;
    }

    /** One iteration of the loop, when the partition has a message. In plain terms: the message joins the batch; a
        batch of at least the set size is uploaded under its last offset, then committed, and is forgotten only when
        both returned normally. */
    method HandleMessage(d: Arrival)
      requires |position| == |lengths| && d.p < |position|
      modifies this`batch, this`lastOffset, this`position, this`objects, this`committed
      ensures |position| == |old(position)|
      ensures Value(Idle) == Handled(size, old(Value(Idle)), d)
      ensures old(position)[d.p] >= lengths[d.p] ==> Value(Idle) == old(Value(Idle))
      ensures old(position)[d.p] < lengths[d.p] ==>
              var offset := old(position)[d.p];
              var taken, full := old(batch) + [(d.p, offset)], |old(batch)| + 1 >= size;
              && position == old(position)[d.p := offset + 1] && lastOffset == offset
              && objects ==
                    (if full && d.upload != Raised then old(objects)[(offset, d.stamp) := taken] else old(objects))
              && committed == (if full && d.upload == Ok && d.commit != Raised then position else old(committed))
              && batch == (if full && d.upload == Ok && d.commit == Ok then [] else taken)
    {
      if position[d.p] >= lengths[d.p] {
        return;
      }
      batch := batch + [(d.p, position[d.p])];
      lastOffset := position[d.p];
      position := position[d.p := position[d.p] + 1];
      if |batch| >= size {
        var ok := UploadAndCommit(d);
        if ok {
          batch := [];
        }
      }
    }

    /** The finally block: what is left in memory is uploaded and committed; then the process is gone. */
    method Shutdown(d: Arrival)
      modifies this`objects, this`committed
      ensures Restarted(Value(Idle)) == Finished(size, old(Value(Idle)), d)
      ensures batch == [] ==> objects == old(objects) && committed == old(committed)
      ensures batch != [] ==>
              && objects == (if d.upload != Raised then old(objects)[(lastOffset, d.stamp) := batch] else old(objects))
              && committed == (if d.upload == Ok && d.commit != Raised then position else old(committed))
    {
      if batch != [] {
        var ok := UploadAndCommit(d);
      }
    }

    /** The life of a process: messages as they are delivered, then the shutdown. In plain terms: what is left in memory
        at the end is uploaded under its last offset; and if that upload and its commit return normally, or nothing was
        left, everything this process consumed is committed. */
    method Archive(arrivals: seq<Arrival>, last: Arrival)
      requires |position| == |lengths|
      requires forall k :: 0 <= k < |arrivals| ==> arrivals[k].p < |position|
      modifies this`batch, this`lastOffset, this`position, this`objects, this`committed
      ensures Restarted(Value(Idle)) == Finished(size, Effect(size, old(Value(Idle)), arrivals), last)
      ensures batch != [] && last.upload != Raised ==>
              (lastOffset, last.stamp) in objects && objects[(lastOffset, last.stamp)] == batch
      ensures old(Remembers(Value(Idle))) && last.upload == Ok && last.commit != Raised ==> committed == position
      ensures old(Remembers(Value(Idle))) && batch == [] ==> committed == position
    {
      ghost var start := Value(Idle);
      for k := 0 to |arrivals|
        invariant |position| == |lengths|
        invariant Value(Idle) == Effect(size, start, arrivals[..k])
        invariant Remembers(start) ==> Remembers(Value(Idle))
      {
        assert arrivals[..k + 1][..k] == arrivals[..k];
        if Remembers(start) {
          HandledRemembers(size, Value(Idle), arrivals[k]);
        }
        HandleMessage(arrivals[k]);
      }
      assert arrivals[..|arrivals|] == arrivals;
      if Remembers(start) && batch == [] {
        NothingLeft(Value(Idle));
      }
      Shutdown(last);
    }
  }

  lemma {:induction false} HandledRemembers(size: nat, s: State, d: Arrival)
    requires Remembers(s) && s.phase == Idle
    ensures Remembers(Handled(size, s, d))
  {
    assert Orderly(s);
    var s1 := Step(size, s, Deliver(d.p));
    StepIsOrderly(size, s, Deliver(d.p));
    StepIsOrderly(size, s1, Upload(d.stamp, d.upload));
    StepIsOrderly(size, Step(size, s1, Upload(d.stamp, d.upload)), Commit(d.commit));
  }

  /** With nothing in memory everything consumed is committed. */
  lemma {:induction false} NothingLeft(s: State)
    requires Remembers(s) && s.batch == []
    ensures s.committed == s.position
  {
    forall p | 0 <= p < |s.committed| ensures s.committed[p] == s.position[p] {
      assert (p, s.committed[p]) !in s.batch;
    }
  }
}
