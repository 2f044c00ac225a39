/** The archiver: batches of the topic to object storage (consumers/archiver.py). */
module Archiver {
  import opened Events
  import opened Seqs

  // ---------------------------------------------------------------- newline-delimited bodies

  /** "\n".join of the encoded events. */
  function Join(lines: seq<string>): string
  {
    if lines == [] then ""
    else if |lines| == 1 then lines[0]
    else lines[0] + "\n" + Join(lines[1..])
  }

  /** Cutting a body at every newline. */
  function Split(body: string): seq<string>
  {
    if body == "" then [""]
    else if body[0] == '\n' then [""] + Split(body[1..])
    else var rest := Split(body[1..]); [[body[0]] + rest[0]] + rest[1..]
  }

  lemma {:induction false} SplitLine(line: string, rest: string)
    requires '\n' !in line
    ensures Split(line) == [line]
    ensures Split(line + "\n" + rest) == [line] + Split(rest)
  {
    var body := line + "\n" + rest;
    if line == "" {
      assert body == "\n" + rest && body[1..] == rest;
    } else {
      SplitLine(line[1..], rest);
      assert body[1..] == line[1..] + "\n" + rest;
      assert [line[0]] + line[1..] == line;
    }
  }

  lemma {:induction false} SplitOfJoin(lines: seq<string>)
    requires lines != [] && forall i :: 0 <= i < |lines| ==> '\n' !in lines[i]
    ensures Split(Join(lines)) == lines
  {
    if |lines| == 1 {
      SplitLine(lines[0], "");
    } else {
      SplitOfJoin(lines[1..]);
      SplitLine(lines[0], Join(lines[1..]));
    }
  }

  function MapEncode<E>(encode: E -> string, batch: seq<E>): seq<string>
  {
    seq(|batch|, i requires 0 <= i < |batch| => encode(batch[i]))
  }

  function MapDecode<E>(decode: string -> Option<E>, lines: seq<string>): seq<Option<E>>
  {
    seq(|lines|, i requires 0 <= i < |lines| => decode(lines[i]))
  }

  /** Splitting an uploaded body on newlines and decoding each line gives back the batch, for every invertible encoder
      that emits no raw newline. */
  lemma {:induction false} NdjsonRoundTrip<E(!new)>(encode: E -> string, decode: string -> Option<E>, batch: seq<E>)
    requires batch != []
    requires forall e :: '\n' !in encode(e) && decode(encode(e)) == Some(e)
    ensures var lines := Split(Join(MapEncode(encode, batch)));
            |lines| == |batch| && forall i :: 0 <= i < |batch| ==> MapDecode(decode, lines)[i] == Some(batch[i])
  {
    SplitOfJoin(MapEncode(encode, batch));
  }

  // ---------------------------------------------------------------- the loop as a machine

  /** A message is named by partition and offset; an object key by the last offset and the time of the upload. */
  type Entry = (nat, nat)
  type Key = (nat, string)

  datatype Phase = Idle | Uploading | Committing | FinalUploading | FinalCommitting

  /** `lengths`: what the topic holds; `committed`: the broker's offsets; the process remembers `position`, `batch` and
      `lastOffset`; `objects` is the bucket. */
  datatype State = State(
    lengths: seq<nat>, committed: seq<nat>, position: seq<nat>, batch: seq<Entry>, lastOffset: nat,
    phase: Phase, objects: map<Key, seq<Entry>>)

  datatype Action =
    | Arrive(p: nat)
    | Deliver(p: nat)
    | Upload(stamp: string, outcome: Outcome)
    | Commit(outcome: Outcome)
    | Stop
    | Crash

  function Start(partitions: nat): State
  {
    var zeros := seq(partitions, _ => 0);
    State(zeros, zeros, zeros, [], 0, Idle, map[])
  }

  /** A new process starts from the committed offsets with nothing in memory. */
  function Restarted(s: State): State
  {
    s.(position := s.committed, batch := [], lastOffset := 0, phase := Idle)
  }

  function AfterUpload(s: State, stamp: string, outcome: Outcome): State
  {
    var s' := if outcome == Raised then s else s.(objects := s.objects[(s.lastOffset, stamp) := s.batch]);
    if s.phase == Uploading then s'.(phase := if outcome == Ok then Committing else Idle)
    else if outcome == Ok then s'.(phase := FinalCommitting) else Restarted(s')
  }

  function AfterCommit(s: State, outcome: Outcome): State
  {
    var s' := if outcome == Raised then s else s.(committed := s.position);
    if s.phase == FinalCommitting then Restarted(s')
    else s'.(phase := Idle, batch := if outcome == Ok then [] else s.batch)
  }

  /** One step, for a batch size of `size`. A commit covers every partition up to its position. */
  function Step(size: nat, s: State, a: Action): State
  {
    match a
    case Arrive(p) => if p < |s.lengths| then s.(lengths := s.lengths[p := s.lengths[p] + 1]) else s
    case Deliver(p) =>
      if s.phase != Idle || p >= |s.position| || p >= |s.lengths| || s.position[p] >= s.lengths[p] then s else
        var batch := s.batch + [(p, s.position[p])];
        s.(batch := batch, lastOffset := s.position[p], position := s.position[p := s.position[p] + 1],
           phase := if |batch| >= size then Uploading else Idle)
    case Upload(stamp, outcome) =>
      if s.phase == Uploading || s.phase == FinalUploading then AfterUpload(s, stamp, outcome) else s
    case Commit(outcome) =>
      if s.phase == Committing || s.phase == FinalCommitting then AfterCommit(s, outcome) else s
    case Stop => if s.batch == [] then Restarted(s) else s.(phase := FinalUploading)
    case Crash => Restarted(s)
  }

  function Stepper(size: nat): (State, Action) -> State
  {
    (s: State, a: Action) => Step(size, s, a)
  }

  function Run(size: nat, partitions: nat, actions: seq<Action>): State
  {
    Fold(Stepper(size), Start(partitions), actions)
  }

  // ---------------------------------------------------------------- no gaps

  ghost predicate Archived(objects: map<Key, seq<Entry>>, x: Entry)
  {
    exists k :: k in objects && x in objects[k]
  }

  /** Every committed offset is in some object. */
  ghost predicate NoGaps(s: State)
  {
    forall p, o :: 0 <= p < |s.committed| && 0 <= o < s.committed[p] ==> Archived(s.objects, (p, o))
  }

  /** The batch has everything consumed since the last commit. */
  ghost predicate Remembers(s: State)
  {
    && |s.committed| == |s.position| == |s.lengths|
    && (forall p :: 0 <= p < |s.committed| ==> s.committed[p] <= s.position[p] <= s.lengths[p])
    && (forall p, o :: 0 <= p < |s.committed| && s.committed[p] <= o < s.position[p] ==> (p, o) in s.batch)
  }

  /** What holds in every run, whatever keys collide. */
  ghost predicate Orderly(s: State)
  {
    && Remembers(s)
    && (s.phase == Committing || s.phase == FinalCommitting ==> forall x :: x in s.batch ==> Archived(s.objects, x))
  }

  ghost predicate Inv(s: State)
  {
    NoGaps(s) && Orderly(s)
  }

  /** The upload does not replace an object that holds anything outside the batch. */
  predicate KeyIsFree(s: State, a: Action)
  {
    a.Upload? && (s.lastOffset, a.stamp) in s.objects ==>
      forall x :: x in s.objects[(s.lastOffset, a.stamp)] ==> x in s.batch
  }

  lemma {:induction false} UploadKeepsArchive(s: State, k: Key, x: Entry)
    requires k in s.objects ==> forall y :: y in s.objects[k] ==> y in s.batch
    ensures Archived(s.objects, x) || x in s.batch ==> Archived(s.objects[k := s.batch], x)
  {
    var objects' := s.objects[k := s.batch];
    if x in s.batch {
      assert k in objects' && x in objects'[k];
    } else if Archived(s.objects, x) {
      var j :| j in s.objects && x in s.objects[j];
      assert j in objects' && x in objects'[j];
    }
  }

  lemma {:induction false} UploadKeepsInv(s: State, stamp: string, outcome: Outcome)
    requires Inv(s) && KeyIsFree(s, Upload(stamp, outcome)) && (s.phase == Uploading || s.phase == FinalUploading)
    ensures Inv(AfterUpload(s, stamp, outcome))
  {
    var s' := AfterUpload(s, stamp, outcome);
    if outcome != Raised {
      forall x | Archived(s.objects, x) || x in s.batch ensures Archived(s'.objects, x) {
        UploadKeepsArchive(s, (s.lastOffset, stamp), x);
      }
    }
  }

  lemma {:induction false} CommitKeepsInv(s: State, outcome: Outcome)
    requires Inv(s) && (s.phase == Committing || s.phase == FinalCommitting)
    ensures Inv(AfterCommit(s, outcome))
  {
    var s' := AfterCommit(s, outcome);
    forall p, o | 0 <= p < |s'.committed| && 0 <= o < s'.committed[p] ensures Archived(s'.objects, (p, o)) {
      if o >= s.committed[p] {
        assert (p, o) in s.batch;
      }
    }
  }

  lemma {:induction false} StepKeepsInv(size: nat, s: State, a: Action)
    requires Inv(s) && KeyIsFree(s, a)
    ensures Inv(Step(size, s, a))
  {
    match a {
      case Upload(stamp, outcome) =>
        if s.phase == Uploading || s.phase == FinalUploading {
          UploadKeepsInv(s, stamp, outcome);
        }
      case Commit(outcome) =>
        if s.phase == Committing || s.phase == FinalCommitting {
          CommitKeepsInv(s, outcome);
        }
      case Arrive(_) =>
      case Deliver(_) =>
      case Stop =>
      case Crash =>
    }
  }

  ghost predicate FreeKeys(size: nat, partitions: nat, actions: seq<Action>)
  {
    forall i :: 0 <= i < |actions| ==> KeyIsFree(Run(size, partitions, actions[..i]), actions[i])
  }

  /** For all runs with upload failures, commit failures, commits that take effect but raise, crashes and shutdown
      flushes: every committed offset is in some object, and the batch holds what was consumed since the last commit. */
  lemma {:induction false} ArchiveHasNoGaps(size: nat, partitions: nat, actions: seq<Action>)
    requires FreeKeys(size, partitions, actions)
    ensures NoGaps(Run(size, partitions, actions)) && Remembers(Run(size, partitions, actions))
    ensures Inv(Run(size, partitions, actions))
  {
    if actions != [] {
      var n := |actions| - 1;
      forall i | 0 <= i < n ensures KeyIsFree(Run(size, partitions, actions[..n][..i]), actions[..n][i]) {
        assert actions[..n][..i] == actions[..i];
      }
      ArchiveHasNoGaps(size, partitions, actions[..n]);
      StepKeepsInv(size, Run(size, partitions, actions[..n]), actions[n]);
    }
  }

  // ---------------------------------------------------------------- colliding keys

  /** Exactly when an upload onto an existing key leaves no gap: everything committed in the replaced object is in the
      new batch or in another object. */
  lemma {:induction false} CollisionExact(s: State, stamp: string)
    requires NoGaps(s) && (s.phase == Uploading || s.phase == FinalUploading) && (s.lastOffset, stamp) in s.objects
    ensures var k := (s.lastOffset, stamp);
            NoGaps(AfterUpload(s, stamp, Ok)) <==>
              forall p, o :: 0 <= p < |s.committed| && 0 <= o < s.committed[p] && (p, o) in s.objects[k] ==>
                (p, o) in s.batch || Archived(s.objects - {k}, (p, o))
  {
    var k := (s.lastOffset, stamp);
    var s' := AfterUpload(s, stamp, Ok);
    forall x ensures Archived(s'.objects, x) <==> x in s.batch || Archived(s.objects - {k}, x) {
      if Archived(s.objects - {k}, x) {
        var j :| j in s.objects - {k} && x in (s.objects - {k})[j];
        assert j in s'.objects && x in s'.objects[j];
      }
      if x in s.batch {
        assert k in s'.objects && x in s'.objects[k];
      }
      if Archived(s'.objects, x) && x !in s.batch {
        var j :| j in s'.objects && x in s'.objects[j];
        assert j in s.objects - {k};
      }
    }
    forall p, o | 0 <= p < |s.committed| && 0 <= o < s.committed[p] && (p, o) !in s.objects[k]
      ensures Archived(s.objects - {k}, (p, o))
    {
      assert Archived(s.objects, (p, o));
      var j :| j in s.objects && (p, o) in s.objects[j];
      assert j in s.objects - {k};
    }
  }

  /** The upload replaces an object and with it the only copy of a committed entry that is not in the batch. */
  ghost predicate Overwrites(s: State, a: Action)
  {
    && a.Upload? && a.outcome != Raised && (s.phase == Uploading || s.phase == FinalUploading)
    && (s.lastOffset, a.stamp) in s.objects
    && exists p, o :: 0 <= p < |s.committed| && 0 <= o < s.committed[p] &&
         (p, o) in s.objects[(s.lastOffset, a.stamp)] && (p, o) !in s.batch &&
         !Archived(s.objects - {(s.lastOffset, a.stamp)}, (p, o))
  }

  lemma {:induction false} UploadIsOrderly(s: State, stamp: string, outcome: Outcome)
    requires Orderly(s) && (s.phase == Uploading || s.phase == FinalUploading)
    ensures Orderly(AfterUpload(s, stamp, outcome))
  {
    var s', k := AfterUpload(s, stamp, outcome), (s.lastOffset, stamp);
    if outcome == Ok {
      forall x | x in s'.batch ensures Archived(s'.objects, x) {
        assert k in s'.objects && x in s'.objects[k];
      }
    }
  }

  lemma {:induction false} StepIsOrderly(size: nat, s: State, a: Action)
    requires Orderly(s)
    ensures Orderly(Step(size, s, a))
  {
    if a.Upload? && (s.phase == Uploading || s.phase == FinalUploading) {
      UploadIsOrderly(s, a.stamp, a.outcome);
    }
  }

  lemma {:induction false} UploadExact(s: State, stamp: string, outcome: Outcome)
    requires NoGaps(s) && (s.phase == Uploading || s.phase == FinalUploading)
    ensures NoGaps(AfterUpload(s, stamp, outcome)) <==> !Overwrites(s, Upload(stamp, outcome))
  {
    var k, s' := (s.lastOffset, stamp), AfterUpload(s, stamp, outcome);
    if outcome != Raised && k in s.objects {
      CollisionExact(s, stamp);
      assert s'.objects == AfterUpload(s, stamp, Ok).objects && s'.committed == s.committed;
    } else if outcome != Raised {
      forall x | Archived(s.objects, x) ensures Archived(s'.objects, x) {
        UploadKeepsArchive(s, k, x);
      }
    }
  }

  /** Of all steps only an overwriting upload opens a gap. */
  lemma {:induction false} StepGapsExactly(size: nat, s: State, a: Action)
    requires Orderly(s) && NoGaps(s)
    ensures NoGaps(Step(size, s, a)) <==> !Overwrites(s, a)
  {
    match a {
      case Upload(stamp, outcome) =>
        if s.phase == Uploading || s.phase == FinalUploading {
          UploadExact(s, stamp, outcome);
        }
      case Commit(outcome) =>
        if s.phase == Committing || s.phase == FinalCommitting {
          CommitKeepsInv(s, outcome);
        }
      case Arrive(_) =>
      case Deliver(_) =>
      case Stop =>
      case Crash =>
    }
  }

  lemma {:induction false} RunIsOrderly(size: nat, partitions: nat, actions: seq<Action>)
    ensures Orderly(Run(size, partitions, actions))
  {
    if actions != [] {
      var n := |actions| - 1;
      RunIsOrderly(size, partitions, actions[..n]);
      StepIsOrderly(size, Run(size, partitions, actions[..n]), actions[n]);
    }
  }

  /** Action `n` of the run overwrites. */
  ghost predicate OverwritesAt(size: nat, partitions: nat, actions: seq<Action>, n: nat)
    requires n < |actions|
  {
    Overwrites(Run(size, partitions, actions[..n]), actions[n])
  }

  ghost predicate NoGapsAt(size: nat, partitions: nat, actions: seq<Action>, n: nat)
    requires n <= |actions|
  {
    NoGaps(Run(size, partitions, actions[..n]))
  }

  ghost predicate NeverOverwrites(size: nat, partitions: nat, actions: seq<Action>)
  {
    forall n: nat :: n < |actions| ==> !OverwritesAt(size, partitions, actions, n)
  }

  ghost predicate NeverGaps(size: nat, partitions: nat, actions: seq<Action>)
  {
    forall n: nat :: n <= |actions| ==> NoGapsAt(size, partitions, actions, n)
  }

  /** In every run the archive has no gap at any moment if and only if no upload replaces the only copy of a committed
      entry outside its batch. */
  lemma {:induction false} NoGapsIff(size: nat, partitions: nat, actions: seq<Action>)
    ensures NeverGaps(size, partitions, actions) <==> NeverOverwrites(size, partitions, actions)
  {
    if actions == [] {
      assert actions[..0] == [];
    } else {
      var n := |actions| - 1;
      var init := actions[..n];
      NoGapsIff(size, partitions, init);
      RunIsOrderly(size, partitions, init);
      if NoGaps(Run(size, partitions, init)) {
        StepGapsExactly(size, Run(size, partitions, init), actions[n]);
      }
      GapsInit(size, partitions, actions);
      OverwritesInit(size, partitions, actions);
    }
  }

  lemma {:induction false} GapsInit(size: nat, partitions: nat, actions: seq<Action>)
    requires actions != []
    ensures var init := actions[..|actions| - 1];
            && (NeverGaps(size, partitions, actions) <==>
                  NeverGaps(size, partitions, init) && NoGaps(Run(size, partitions, actions)))
            && (NeverGaps(size, partitions, init) ==> NoGaps(Run(size, partitions, init)))
  {
    var n := |actions| - 1;
    var init := actions[..n];
    forall i: nat | i <= n ensures NoGapsAt(size, partitions, init, i) <==> NoGapsAt(size, partitions, actions, i) {
      assert init[..i] == actions[..i];
    }
    WholeRun(size, partitions, init);
    WholeRun(size, partitions, actions);
  }

  lemma {:induction false} WholeRun(size: nat, partitions: nat, actions: seq<Action>)
    ensures NoGapsAt(size, partitions, actions, |actions|) <==> NoGaps(Run(size, partitions, actions))
  {
    assert actions[..|actions|] == actions;
  }

  lemma {:induction false} OverwritesInit(size: nat, partitions: nat, actions: seq<Action>)
    requires actions != []
    ensures var n := |actions| - 1;
            NeverOverwrites(size, partitions, actions) <==>
              NeverOverwrites(size, partitions, actions[..n]) && !OverwritesAt(size, partitions, actions, n)
  {
    var n := |actions| - 1;
    var init := actions[..n];
    forall i: nat | i < n
      ensures OverwritesAt(size, partitions, init, i) <==> OverwritesAt(size, partitions, actions, i)
    {
      assert init[..i] == actions[..i] && init[i] == actions[i];
    }
  }
}
