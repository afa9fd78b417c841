/**
 * Export to Cloud Monitoring: the series are sent in chunks of at most 200
 * (the most one request accepts), and a chunk whose request fails with a
 * server error is retried with an increasing back-off. The monitoring
 * service is a parameter: the answer it gives to each trial of each chunk.
 */
module CloudMonitoring {
  import opened Wrappers
  import opened MonTypes

  const MaxRetries := 3
  /** Milliseconds of back-off per trial number. */
  const RetrialBackOff := 350
  const ChunkSize := 200
  const ServerErrorMarker := "Error 500"

  /** The concatenation of the chunks. */
  function Flatten<T>(chunks: seq<seq<T>>): seq<T>
  {
    if |chunks| == 0 then [] else chunks[0] + Flatten(chunks[1..])
  }

  lemma FlattenCons<T>(chunk: seq<T>, rest: seq<seq<T>>)
    ensures Flatten([chunk] + rest) == chunk + Flatten(rest)
  {
    assert ([chunk] + rest)[1..] == rest;
  }

  // ----- Chunking -----

  /** Chunking as written: every full chunk is sliced one element short, and that element is skipped. */
  function ChunksAsWritten<T>(ts: seq<T>, chunkSize: nat): (chunks: seq<seq<T>>)
    requires chunkSize >= 1
    ensures |chunks| == 0 <==> |ts| == 0
    ensures forall i :: 0 <= i < |chunks| - 1 ==> |chunks[i]| == chunkSize - 1
    ensures |chunks| > 0 ==> 1 <= |chunks[|chunks| - 1]| <= chunkSize
    decreases |ts|
  {
    if |ts| > chunkSize then [ts[..chunkSize - 1]] + ChunksAsWritten(ts[chunkSize..], chunkSize)
    else if |ts| > 0 then [ts]
    else []
  }

  lemma MulSucc(j: nat, c: nat)
    ensures (j + 1) * c == j * c + c
  {
  }

  /** There are as many chunks as written as `chunkSize`-sized slices of the list, the last possibly partial. */
  lemma {:induction false} ChunksAsWrittenCount<T>(ts: seq<T>, chunkSize: nat)
    requires chunkSize >= 1
    ensures (|ChunksAsWritten(ts, chunkSize)| - 1) * chunkSize < |ts| <= |ChunksAsWritten(ts, chunkSize)| * chunkSize
    decreases |ts|
  {
    if |ts| > chunkSize {
      var rest := ChunksAsWritten(ts[chunkSize..], chunkSize);
      ChunksAsWrittenCount(ts[chunkSize..], chunkSize);
      assert |ChunksAsWritten(ts, chunkSize)| == |rest| + 1;
      MulSucc(|rest|, chunkSize);
    }
  }

  /**
   * Chunk `i` as written, but the last, holds the series from
   * `i * chunkSize` up to, not including, the last series of its slice.
   */
  lemma {:induction false} ChunksAsWrittenSlices<T>(ts: seq<T>, chunkSize: nat)
    requires chunkSize >= 1
    ensures forall i :: 0 <= i < |ChunksAsWritten(ts, chunkSize)| - 1 ==>
      i * chunkSize + chunkSize < |ts| && ChunksAsWritten(ts, chunkSize)[i] == ts[i * chunkSize .. i * chunkSize + chunkSize - 1]
    decreases |ts|
  {
    var c := chunkSize;
    if |ts| > c {
      var r := ChunksAsWritten(ts, c);
      var tail := ts[c..];
      var rest := ChunksAsWritten(tail, c);
      ChunksAsWrittenSlices(tail, c);
      assert r == [ts[..c - 1]] + rest;
      forall i | 0 <= i < |r| - 1
        ensures i * c + c < |ts| && r[i] == ts[i * c .. i * c + c - 1]
      {
        if i > 0 {
          var j := i - 1;
          MulSucc(j, c);
          assert r[i] == rest[j];
          assert tail[j * c .. j * c + c - 1] == ts[i * c .. i * c + c - 1];
        }
      }
    }
  }

  /** The last chunk as written is the whole last slice of the list. */
  lemma {:induction false} ChunksAsWrittenLast<T>(ts: seq<T>, chunkSize: nat)
    requires chunkSize >= 1
    ensures |ChunksAsWritten(ts, chunkSize)| > 0 ==>
      (|ChunksAsWritten(ts, chunkSize)| - 1) * chunkSize < |ts| &&
      ChunksAsWritten(ts, chunkSize)[|ChunksAsWritten(ts, chunkSize)| - 1]
        == ts[(|ChunksAsWritten(ts, chunkSize)| - 1) * chunkSize..]
    decreases |ts|
  {
    var c := chunkSize;
    ChunksAsWrittenCount(ts, c);
    if |ts| > c {
      var tail := ts[c..];
      var rest := ChunksAsWritten(tail, c);
      ChunksAsWrittenLast(tail, c);
      var k := |rest| - 1;
      assert ChunksAsWritten(ts, c) == [ts[..c - 1]] + rest;
      assert |ChunksAsWritten(ts, c)| - 1 == k + 1;
      MulSucc(k, c);
      assert tail[k * c..] == ts[(k + 1) * c..];
    }
  }

  /** The series at `i * chunkSize + chunkSize - 1` falls between chunk `i` and chunk `i + 1` as written. */
  lemma ChunksAsWrittenGap<T>(ts: seq<T>, chunkSize: nat, i: nat)
    requires chunkSize >= 1 && i < |ChunksAsWritten(ts, chunkSize)| - 1
    ensures i * chunkSize + chunkSize < |ts|
    ensures ChunksAsWritten(ts, chunkSize)[i] + [ts[i * chunkSize + chunkSize - 1]] == ts[i * chunkSize .. i * chunkSize + chunkSize]
  {
    var c := chunkSize;
    ChunksAsWrittenSlices(ts, c);
    var lo := i * c;
    assert ChunksAsWritten(ts, c)[i] == ts[lo .. lo + c - 1];
    assert ts[lo .. lo + c - 1] + [ts[lo + c - 1]] == ts[lo .. lo + c];
  }

  /** 201 series make two chunks as written, and the 200th series is in neither. */
  lemma AsWrittenSkipsOneSeries<T>(ts: seq<T>)
    requires |ts| == 201
    ensures ChunksAsWritten(ts, ChunkSize) == [ts[..199], ts[200..]]
    ensures |Flatten(ChunksAsWritten(ts, ChunkSize))| == 200
  {
    assert ChunksAsWritten(ts[200..], ChunkSize) == [ts[200..]];
    FlattenCons(ts[200..], []);
    FlattenCons(ts[..199], [ts[200..]]);
    assert [ts[..199]] + [ts[200..]] == [ts[..199], ts[200..]];
  }

  /** The number of series the written chunking skips: one per full chunk. */
  function SkippedAsWritten(n: nat, chunkSize: nat): nat
    requires chunkSize >= 1
    decreases n
  {
    if n > chunkSize then 1 + SkippedAsWritten(n - chunkSize, chunkSize) else 0
  }

  /** As written, the chunks hold fewer series than the list whenever it exceeds one chunk. */
  lemma {:induction false} AsWrittenLosesSeries<T>(ts: seq<T>, chunkSize: nat)
    requires chunkSize >= 1
    ensures |Flatten(ChunksAsWritten(ts, chunkSize))| == |ts| - SkippedAsWritten(|ts|, chunkSize)
    ensures |ts| > chunkSize ==> |Flatten(ChunksAsWritten(ts, chunkSize))| < |ts|
    decreases |ts|
  {
    if |ts| > chunkSize {
      var rest := ChunksAsWritten(ts[chunkSize..], chunkSize);
      calc {
        |Flatten(ChunksAsWritten(ts, chunkSize))|;
        |Flatten([ts[..chunkSize - 1]] + rest)|;
        { FlattenCons(ts[..chunkSize - 1], rest); }
        chunkSize - 1 + |Flatten(rest)|;
        { AsWrittenLosesSeries(ts[chunkSize..], chunkSize); }
        chunkSize - 1 + |ts| - chunkSize - SkippedAsWritten(|ts| - chunkSize, chunkSize);
        |ts| - SkippedAsWritten(|ts|, chunkSize);
      }
    } else if |ts| > 0 {
      calc {
        Flatten(ChunksAsWritten(ts, chunkSize));
        Flatten([ts] + []);
        { FlattenCons(ts, []); }
        ts + [];
      }
    }
  }

  /** The intended chunking: consecutive slices of `chunkSize` series, the last one possibly shorter. */
  function Chunks<T>(ts: seq<T>, chunkSize: nat): (chunks: seq<seq<T>>)
    requires chunkSize >= 1
    ensures |chunks| == 0 <==> |ts| == 0
    ensures |chunks| > 0 ==> 1 <= |chunks[|chunks| - 1]| <= chunkSize
    decreases |ts|
  {
    if |ts| > chunkSize then [ts[..chunkSize]] + Chunks(ts[chunkSize..], chunkSize)
    else if |ts| > 0 then [ts]
    else []
  }

  /** Every series is sent, once, in order. */
  lemma {:induction false} ChunksRoundTrip<T>(ts: seq<T>, chunkSize: nat)
    requires chunkSize >= 1
    ensures Flatten(Chunks(ts, chunkSize)) == ts
    decreases |ts|
  {
    if |ts| > chunkSize {
      var rest := Chunks(ts[chunkSize..], chunkSize);
      calc {
        Flatten(Chunks(ts, chunkSize));
        Flatten([ts[..chunkSize]] + rest);
        { FlattenCons(ts[..chunkSize], rest); }
        ts[..chunkSize] + Flatten(rest);
        { ChunksRoundTrip(ts[chunkSize..], chunkSize); }
        ts[..chunkSize] + ts[chunkSize..];
        ts;
      }
    } else if |ts| > 0 {
      calc {
        Flatten(Chunks(ts, chunkSize));
        Flatten([ts] + []);
        { FlattenCons(ts, []); }
        ts + [];
        ts;
      }
    }
  }

  /** No chunk is empty or exceeds the limit, and all but the last are full. */
  lemma {:induction false} ChunksBounded<T>(ts: seq<T>, chunkSize: nat)
    requires chunkSize >= 1
    ensures forall i :: 0 <= i < |Chunks(ts, chunkSize)| ==> 1 <= |Chunks(ts, chunkSize)[i]| <= chunkSize
    ensures forall i :: 0 <= i < |Chunks(ts, chunkSize)| - 1 ==> |Chunks(ts, chunkSize)[i]| == chunkSize
    decreases |ts|
  {
    if |ts| > chunkSize {
      ChunksBounded(ts[chunkSize..], chunkSize);
      var chunks := Chunks(ts, chunkSize);
      assert chunks[1..] == Chunks(ts[chunkSize..], chunkSize);
      forall i | 1 <= i < |chunks| ensures chunks[i] == Chunks(ts[chunkSize..], chunkSize)[i - 1] { }
    }
  }

  /** One turn of the chunking loop as written keeps the chunks still to come. */
  lemma AsWrittenStep<T>(chunks: seq<seq<T>>, rest: seq<T>, chunkSize: nat)
    requires chunkSize >= 1 && |rest| > chunkSize
    ensures chunks + ChunksAsWritten(rest, chunkSize)
      == (chunks + [rest[..chunkSize - 1]]) + ChunksAsWritten(rest[chunkSize..], chunkSize)
  {
    var next := ChunksAsWritten(rest[chunkSize..], chunkSize);
    calc {
      chunks + ChunksAsWritten(rest, chunkSize);
      chunks + ([rest[..chunkSize - 1]] + next);
      (chunks + [rest[..chunkSize - 1]]) + next;
    }
  }

  /** The chunking loop as written, slicing every full chunk one series short. */
  method TimeSeriesToChunks<T>(ts: seq<T>, chunkSize: nat) returns (chunks: seq<seq<T>>)
    requires chunkSize >= 1
    ensures chunks == ChunksAsWritten(ts, chunkSize)
  {
    chunks := [];
    var rest := ts;
    while |rest| > chunkSize
      invariant chunks + ChunksAsWritten(rest, chunkSize) == ChunksAsWritten(ts, chunkSize)
      decreases |rest|
    {
      AsWrittenStep(chunks, rest, chunkSize);
      chunks := chunks + [rest[..chunkSize - 1]];
      rest := rest[chunkSize..];
    }
    if |rest| > 0 {
      chunks := chunks + [rest];
    }
  }

  /** The chunking loop with full chunks, which the export uses. */
  method TimeSeriesToChunksCorrected<T>(ts: seq<T>, chunkSize: nat) returns (chunks: seq<seq<T>>)
    requires chunkSize >= 1
    ensures chunks == Chunks(ts, chunkSize)
  {
    chunks := [];
    var rest := ts;
    while |rest| > chunkSize
      invariant chunks + Chunks(rest, chunkSize) == Chunks(ts, chunkSize)
      decreases |rest|
    {
      assert Chunks(rest, chunkSize) == [rest[..chunkSize]] + Chunks(rest[chunkSize..], chunkSize);
      chunks := chunks + [rest[..chunkSize]];
      rest := rest[chunkSize..];
    }
    if |rest| > 0 {
      chunks := chunks + [rest];
    }
  }

  // ----- Retries -----

  predicate Contains(s: string, sub: string)
  {
    exists i :: 0 <= i <= |s| && sub <= s[i..]
  }

  /**
   * The outcome of exporting one chunk: the number of the last trial, the
   * back-off slept before the trials after the first, and the error of the
   * last trial, if any.
   */
  datatype ExportOutcome = ExportOutcome(attempts: nat, backoffMillis: nat, err: Option<string>)

  /**
   * Trial `retries` of a chunk; `respond(t)` is the service's answer to
   * trial `t`, `None` for success. A server error is retried while the trial
   * number does not exceed `MaxRetries`.
   */
  function ExportChunk(respond: nat -> Option<string>, retries: nat): (outcome: ExportOutcome)
    requires retries >= 1
    ensures retries <= outcome.attempts && (outcome.attempts <= MaxRetries + 1 || outcome.attempts == retries)
    ensures outcome.err == respond(outcome.attempts)
    decreases MaxRetries + 1 - retries
  {
    var response := respond(retries);
    if response.None? then ExportOutcome(retries, 0, None)
    else if retries <= MaxRetries && Contains(response.value, ServerErrorMarker) then
      var rest := ExportChunk(respond, retries + 1);
      rest.(backoffMillis := RetrialBackOff * retries + rest.backoffMillis)
    else ExportOutcome(retries, 0, response)
  }

  /** `from + (from + 1) + … + (to - 1)`. */
  function TrialSum(from: nat, to: nat): nat
    decreases to - from
  {
    if from >= to then 0 else from + TrialSum(from + 1, to)
  }

  /**
   * The last trial's answer is the outcome; every trial before it failed
   * with a server error; at most `MaxRetries + 1` trials are made; a server
   * error is given up only after the last of them; the back-off before
   * trial `t + 1` is `RetrialBackOff * t`.
   */
  lemma {:induction false} ExportChunkRetries(respond: nat -> Option<string>, retries: nat)
    requires 1 <= retries <= MaxRetries + 1
    ensures retries <= ExportChunk(respond, retries).attempts <= MaxRetries + 1
    ensures ExportChunk(respond, retries).err == respond(ExportChunk(respond, retries).attempts)
    ensures forall t :: retries <= t < ExportChunk(respond, retries).attempts ==>
      respond(t).Some? && Contains(respond(t).value, ServerErrorMarker)
    ensures ExportChunk(respond, retries).err.Some? && Contains(ExportChunk(respond, retries).err.value, ServerErrorMarker) ==>
      ExportChunk(respond, retries).attempts == MaxRetries + 1
    ensures ExportChunk(respond, retries).backoffMillis == RetrialBackOff * TrialSum(retries, ExportChunk(respond, retries).attempts)
    decreases MaxRetries + 1 - retries
  {
    var response := respond(retries);
    if response.Some? && retries <= MaxRetries && Contains(response.value, ServerErrorMarker) {
      ExportChunkRetries(respond, retries + 1);
    }
  }

  /** From the first trial, a chunk sleeps at most 350 + 700 + 1050 milliseconds in all. */
  lemma ExportChunkBackOffBound(respond: nat -> Option<string>)
    ensures ExportChunk(respond, 1).attempts <= 4
    ensures ExportChunk(respond, 1).backoffMillis <= 2100
  {
    ExportChunkRetries(respond, 1);
    var a := ExportChunk(respond, 1).attempts;
    assert TrialSum(1, a) <= 6 by {
      assert TrialSum(4, 4) == 0;
      assert TrialSum(1, 4) == 6;
      if a == 1 { assert TrialSum(1, 1) == 0; }
      else if a == 2 { assert TrialSum(2, 2) == 0; }
      else if a == 3 { assert TrialSum(3, 3) == 0; }
    }
  }

  // ----- Export -----

  /**
   * Exports the series: when the service cannot be created its error is
   * returned and nothing is sent; otherwise every chunk is tried in order,
   * its failure only logged, and no error is returned. `sent` are the
   * chunks in the order they are sent; `respond(c, t)` is the service's
   * answer to trial `t` of chunk `sent[c]`.
   */
  method ExportMetrics(tsList: seq<TimeSeries>, serviceErr: Option<string>, respond: (nat, nat) -> Option<string>)
    returns (err: Option<string>, sent: seq<seq<TimeSeries>>, outcomes: seq<ExportOutcome>)
    ensures serviceErr.Some? ==> err == serviceErr && sent == [] && outcomes == []
    ensures serviceErr.None? ==> err.None? && sent == Chunks(tsList, ChunkSize) && |outcomes| == |sent|
    ensures serviceErr.None? ==> forall c :: 0 <= c < |outcomes| ==> outcomes[c] == ExportChunk((t: nat) => respond(c, t), 1)
  {
    if serviceErr.Some? {
      return serviceErr, [], [];
    }
    sent := [];
    outcomes := [];
    if |tsList| > 0 {
      var tsChunks := TimeSeriesToChunksCorrected(tsList, ChunkSize);
      for c := 0 to |tsChunks|
        invariant sent == tsChunks[..c]
        invariant |outcomes| == c
        invariant forall k :: 0 <= k < c ==> outcomes[k] == ExportChunk((t: nat) => respond(k, t), 1)
      {
        var outcome := ExportChunk((t: nat) => respond(c, t), 1);
        sent := sent + [tsChunks[c]];
        outcomes := outcomes + [outcome];
      }
      assert tsChunks[..|tsChunks|] == tsChunks;
    }
    err := None;
  }
}
