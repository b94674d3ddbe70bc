// The sample batcher of the audio meter tap (src/audio/meter_tap.rs): audio
// chunks captured from the virtual sink are gathered until enough samples
// are pending, then handed on as one batch in capture order.
module MeterTap {
  import opened Base

  /** Desired number of samples per batch forwarded to the UI. */
  const TARGET_BATCH_SAMPLES: nat := 2048
  /** Largest `usize` value; the running total saturates there. */
  const USIZE_MAX: nat := U64_MAX

  /** All chunks joined in order. */
  function Flatten(chunks: seq<seq<real>>): (r: seq<real>)
  {
    if chunks == [] then [] else Flatten(chunks[..|chunks| - 1]) + chunks[|chunks| - 1]
  }

  /** Joining two runs of chunks joins their samples. */
  lemma {:induction false} FlattenConcat(a: seq<seq<real>>, b: seq<seq<real>>)
    ensures Flatten(a + b) == Flatten(a) + Flatten(b)
  {
    if b == [] {
      assert a + b == a;
    } else {
      var b' := b[..|b| - 1];
      assert (a + b)[..|a + b| - 1] == a + b';
      FlattenConcat(a, b');
    }
  }

  /** A single chunk is its own batch. */
  lemma FlattenSingle(c: seq<real>)
    ensures Flatten([c]) == c
  {
    assert [c][..0] == [];
  }

  /** Adding lengths one at a time with saturation saturates the whole sum. */
  lemma SaturatingAddMin(total: nat, n: nat)
    ensures SaturatingAdd(Min(total, USIZE_MAX), n, USIZE_MAX) == Min(total + n, USIZE_MAX)
  {
  }

  /** SampleBatcher: pending chunks and their saturating sample count. */
  class SampleBatcher {
    var targetSamples: nat
    var totalSamples: nat
    var chunks: seq<seq<real>>

    /** The counter is the number of pending samples, saturated at `usize::MAX`. */
    ghost predicate Valid()
      reads this
    {
      totalSamples == Min(|Flatten(chunks)|, USIZE_MAX)
    }

    /** new: nothing pending. */
    constructor (target: nat)
      ensures Valid() && targetSamples == target && totalSamples == 0 && chunks == []
    {
      targetSamples := target;
      totalSamples := 0;
      chunks := [];
    }

    /** push: queue the chunk and add its length to the saturating total. */
    method Push(chunk: seq<real>)
      requires Valid()
      modifies this`totalSamples, this`chunks
      ensures Valid()
      ensures chunks == old(chunks) + [chunk]
      ensures totalSamples == SaturatingAdd(old(totalSamples), |chunk|, USIZE_MAX)
    {
      SaturatingAddMin(|Flatten(chunks)|, |chunk|);
      totalSamples := SaturatingAdd(totalSamples, |chunk|, USIZE_MAX);
      chunks := chunks + [chunk];
    }

    /** should_flush: at least the target number of samples is pending. */
    function ShouldFlush(): (r: bool)
      requires Valid() && targetSamples <= USIZE_MAX
      reads this
      ensures r <==> |Flatten(chunks)| >= targetSamples
    {
      totalSamples >= targetSamples
    }

    /**
     * take: nothing when no sample is pending; a lone chunk is handed over
     * as it is; otherwise the chunks are appended one by one into a batch.
     * Either way the pending state is emptied.
     */
    method Take() returns (batch: Option<seq<real>>)
      requires Valid()
      modifies this`totalSamples, this`chunks
      ensures Valid()
      ensures batch.None? <==> |Flatten(old(chunks))| == 0
      ensures batch.None? ==> chunks == old(chunks) && totalSamples == 0
      ensures batch.Some? ==> batch.value == Flatten(old(chunks)) && chunks == [] && totalSamples == 0
      ensures batch.Some? && |old(chunks)| == 1 ==> batch.value == old(chunks)[0]
    {
      if totalSamples == 0 {
        return None;
      }
      if |chunks| == 1 {
        FlattenSingle(chunks[0]);
        assert chunks == [chunks[0]];
        totalSamples := 0;
        batch := Some(chunks[0]);
        chunks := [];
        return;
      }
      var cs := chunks;
      var joined: seq<real> := [];
      for i := 0 to |cs|
        invariant joined == Flatten(cs[..i])
      {
        FlattenConcat(cs[..i], [cs[i]]);
        assert cs[..i + 1] == cs[..i] + [cs[i]];
        FlattenSingle(cs[i]);
        joined := joined + cs[i];
      }
      assert cs[..|cs|] == cs;
      chunks := [];
      totalSamples := 0;
      batch := Some(joined);
    }
  }
}
