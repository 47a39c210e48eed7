/** Summary generation: the records of one batch, and the size of a stream tick. */
module Generation {
  import opened Records

  /** What the random generator synthesises for one record, apart from its time:
      its id, its request and its messages. */
  datatype Drawn = Drawn(id: Id, request: Request, messages: seq<Message>)

  /** The record generated from `d` for the time `offset` seconds from now. */
  function Stamp(d: Drawn, offset: int): RawRequest
  {
    RawRequest(d.id, offset, d.request, d.messages)
  }

  /** Every backward step is a draw from integerRange(30, 300). */
  predicate StepsInRange(steps: seq<int>) {
    forall i :: 0 <= i < |steps| ==> 30 <= steps[i] <= 300
  }

  /** The records of one batch: each record steps back from the previous
      record's time (the first from the base offset) by its step. */
  function Stamped(offset: int, steps: seq<int>, drawn: seq<Drawn>): seq<RawRequest>
    requires |steps| == |drawn|
    decreases |steps|
  {
    if steps == [] then []
    else [Stamp(drawn[0], offset - steps[0])] + Stamped(offset - steps[0], steps[1..], drawn[1..])
  }

  /** Reference description of a batch: one record per step; record i carries
      the i-th drawn data and the previous record's time (the base offset for
      the first) less step i; so every time lies below the base offset, by at
      least 30 and at most 300 seconds per position, and times fall by at least
      30 seconds per position along the batch. */
  predicate WalksBack(offset: int, steps: seq<int>, drawn: seq<Drawn>, s: seq<RawRequest>)
    requires |steps| == |drawn|
  {
    && |s| == |steps|
    && (forall i :: 0 <= i < |s| ==> s[i] == Stamp(drawn[i], s[i].offset))
    && (forall i :: 0 <= i < |s| ==> s[i].offset == (if i == 0 then offset else s[i - 1].offset) - steps[i])
    && (forall i :: 0 <= i < |s| ==> offset - 300 * (i + 1) <= s[i].offset <= offset - 30 * (i + 1))
    && (forall i, j :: 0 <= i < j < |s| ==> s[j].offset <= s[i].offset - 30 * (j - i))
  }

  /** The batch generateResults builds walks back as described. */
  lemma {:induction false} StampedOffsets(offset: int, steps: seq<int>, drawn: seq<Drawn>)
    requires |steps| == |drawn| && StepsInRange(steps)
    ensures WalksBack(offset, steps, drawn, Stamped(offset, steps, drawn))
    decreases |steps|
  {
    if steps != [] {
      var next := offset - steps[0];
      StampedOffsets(next, steps[1..], drawn[1..]);
      var s := Stamped(offset, steps, drawn);
      var t := Stamped(next, steps[1..], drawn[1..]);
      assert s == [Stamp(drawn[0], next)] + t;
      forall i | 0 <= i < |s|
        ensures s[i] == Stamp(drawn[i], s[i].offset)
        ensures s[i].offset == (if i == 0 then offset else s[i - 1].offset) - steps[i]
        ensures offset - 300 * (i + 1) <= s[i].offset <= offset - 30 * (i + 1)
      {
        if i > 0 {
          assert s[i] == t[i - 1] && steps[i] == steps[1..][i - 1] && drawn[i] == drawn[1..][i - 1];
          if i > 1 {
            assert s[i - 1] == t[i - 2];
          }
        }
      }
      forall i, j | 0 <= i < j < |s|
        ensures s[j].offset <= s[i].offset - 30 * (j - i)
      {
        assert s[j] == t[j - 1];
        if i > 0 {
          assert s[i] == t[i - 1];
        }
      }
    }
  }

  /** One step of the walk: the batch from position i on starts with record i. */
  lemma StampedUnfold(offset: int, steps: seq<int>, drawn: seq<Drawn>, i: nat)
    requires |steps| == |drawn| && i < |steps|
    ensures Stamped(offset, steps[i..], drawn[i..]) ==
            [Stamp(drawn[i], offset - steps[i])] + Stamped(offset - steps[i], steps[i + 1..], drawn[i + 1..])
  {
    assert steps[i..][0] == steps[i] && steps[i..][1..] == steps[i + 1..];
    assert drawn[i..][0] == drawn[i] && drawn[i..][1..] == drawn[i + 1..];
  }

  /** generateResults: walks the offset back by one step per record and
      appends the record generated for that time. */
  method GenerateResults(count: nat, offset: int, steps: seq<int>, drawn: seq<Drawn>)
    returns (results: seq<RawRequest>)
    requires |steps| == count && |drawn| == count && StepsInRange(steps)
    ensures results == Stamped(offset, steps, drawn)
    ensures WalksBack(offset, steps, drawn, results)
  {
    results := [];
    var current := offset;
    var i := 0;
    while i < count
      invariant 0 <= i <= count
      invariant results + Stamped(current, steps[i..], drawn[i..]) == Stamped(offset, steps, drawn)
    {
      StampedUnfold(current, steps, drawn, i);
      current := current - steps[i];
      results := results + [Stamp(drawn[i], current)];
      i := i + 1;
    }
    assert steps[i..] == [];
    assert results == Stamped(offset, steps, drawn);
    StampedOffsets(offset, steps, drawn);
  }

  /** The size of one stream tick: 2 when integerRange(0, 100) drew more than 75, else 1. */
  function StreamCount(draw: int): (count: nat)
    requires 0 <= draw <= 100
    ensures 1 <= count <= 2
    ensures count == 2 <==> draw > 75
  {
    if draw > 75 then 2 else 1
  }
}
