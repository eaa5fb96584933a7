/**
 Splitting a reply into transport-sized pieces, exactly as the loop
 `for i in range(0, len(text), 1500): text[i:i + 1500]` does it.
 */
module Chunker {
  import opened Ints


  /** Maximum length of one outbound message. */
  const ChunkSize: nat := 1500

  /** `len(range(0, n, ChunkSize))`: how many start offsets the loop visits. */
  function NumChunks(n: nat): nat {
    (n + ChunkSize - 1) / ChunkSize
  }

  /** The loop visits chunk `k` exactly when its start offset is inside the text. */
  lemma NumChunksBound(n: nat, k: nat)
    ensures k < NumChunks(n) <==> k * ChunkSize < n
  {}

  /** `text[i:i + ChunkSize]` for `i = k * ChunkSize`: Python clamps the end to `len(text)`. */
  function Slice(text: string, k: nat): string
    requires k < NumChunks(|text|)
  {
    NumChunksBound(|text|, k);
    text[k * ChunkSize .. Min(k * ChunkSize + ChunkSize, |text|)]
  }

  /** The slices the loop produces, in the order it enqueues them.
      Their number is the ceiling of `|text| / ChunkSize`; every slice is
      non-empty and at most `ChunkSize` long, and all but the last are full. */
  function Chunks(text: string): (cs: seq<string>)
    ensures (|cs| - 1) * ChunkSize < |text| <= |cs| * ChunkSize
    ensures WellFormed(cs)
  {
    var cs := seq(NumChunks(|text|), k requires 0 <= k < NumChunks(|text|) => Slice(text, k));
    SlicesShape(text, cs);
    cs
  }

  /** Facts about the slices that `Chunks` promises. */
  lemma SlicesShape(text: string, cs: seq<string>)
    requires |cs| == NumChunks(|text|)
    requires forall k :: 0 <= k < |cs| ==> cs[k] == Slice(text, k)
    ensures (|cs| - 1) * ChunkSize < |text| <= |cs| * ChunkSize
    ensures WellFormed(cs)
  {
    forall k | 0 <= k < |cs|
      ensures 0 < |cs[k]| <= ChunkSize
      ensures k < |cs| - 1 ==> |cs[k]| == ChunkSize
    {
      NumChunksBound(|text|, k);
      NumChunksBound(|text|, k + 1);
    }
    NumChunksBound(|text|, |cs|);
    if |cs| > 0 {
      NumChunksBound(|text|, |cs| - 1);
    }
  }

  /** `"".join(cs)`. */
  function Concat(cs: seq<string>): string {
    if cs == [] then [] else cs[0] + Concat(cs[1..])
  }

  /** The shape of a valid chunk list: non-empty pieces of at most `ChunkSize`,
      every one but the last exactly `ChunkSize`. */
  predicate WellFormed(cs: seq<string>) {
    && (forall k :: 0 <= k < |cs| ==> 0 < |cs[k]| <= ChunkSize)
    && (forall k :: 0 <= k < |cs| - 1 ==> |cs[k]| == ChunkSize)
  }

  /** Chunking peels off the first `ChunkSize` characters and chunks the rest. */
  lemma ChunksUnfold(text: string)
    requires |text| > 0
    ensures var m := Min(ChunkSize, |text|);
      Chunks(text) == [text[..m]] + Chunks(text[m..])
  {
    var m := Min(ChunkSize, |text|);
    var cs := Chunks(text);
    var rest := Chunks(text[m..]);
    NumChunksBound(|text|, 0);
    if |text| <= ChunkSize {
      NumChunksBound(|text|, 1);
      NumChunksBound(0, 0);
      assert |rest| == 0;
    } else {
      assert |rest| == |cs| - 1 by {
        NumChunksBound(|text|, |rest| + 1);
        NumChunksBound(|text| - ChunkSize, |rest|);
        NumChunksBound(|text|, |rest|);
        if |rest| > 0 {
          NumChunksBound(|text| - ChunkSize, |rest| - 1);
        }
      }
      forall k | 0 <= k < |rest|
        ensures rest[k] == cs[k + 1]
      {
        NumChunksBound(|text| - ChunkSize, k);
        NumChunksBound(|text|, k + 1);
        assert rest[k] == Slice(text[m..], k);
        assert cs[k + 1] == Slice(text, k + 1);
      }
    }
    assert cs[0] == text[..m];
  }

  /** Round trip: joining the chunks, in order, gives back the text. */
  lemma {:induction false} ConcatChunks(text: string)
    ensures Concat(Chunks(text)) == text
    decreases |text|
  {
    if |text| == 0 {
      NumChunksBound(0, 0);
    } else {
      var m := Min(ChunkSize, |text|);
      ChunksUnfold(text);
      ConcatChunks(text[m..]);
      assert Chunks(text)[1..] == Chunks(text[m..]);
      assert text[..m] + text[m..] == text;
    }
  }

  /** The other direction: a well-formed chunk list is what chunking its join gives. */
  lemma {:induction false} ChunksConcat(cs: seq<string>)
    requires WellFormed(cs)
    ensures Chunks(Concat(cs)) == cs
  {
    if cs == [] {
      NumChunksBound(0, 0);
    } else {
      var text := Concat(cs);
      var tail := Concat(cs[1..]);
      assert WellFormed(cs[1..]);
      ChunksConcat(cs[1..]);
      assert text == cs[0] + tail;
      if |cs| == 1 {
        assert tail == [];
        assert text == cs[0];
      } else {
        assert tail == cs[1] + Concat(cs[2..]);
        assert |cs[0]| == ChunkSize;
      }
      ChunksUnfold(text);
      var m := Min(ChunkSize, |text|);
      assert m == |cs[0]|;
      assert text[..m] == cs[0];
      assert text[m..] == tail;
    }
  }

  /** Chunks are non-overlapping, consecutive slices: chunk `k` starts at offset `k * ChunkSize`. */
  lemma ChunkAt(text: string, k: nat)
    requires k < |Chunks(text)|
    ensures k * ChunkSize + |Chunks(text)[k]| <= |text|
    ensures Chunks(text)[k] == text[k * ChunkSize .. k * ChunkSize + |Chunks(text)[k]|]
  {
    NumChunksBound(|text|, k);
  }

  /** The worked example: 4000 characters give chunks of 1500, 1500 and 1000. */
  lemma FourThousand(text: string)
    requires |text| == 4000
    ensures |Chunks(text)| == 3
    ensures |Chunks(text)[0]| == 1500 && |Chunks(text)[1]| == 1500 && |Chunks(text)[2]| == 1000
  {
    ChunkAt(text, 2);
  }
}
