/** `chunkText` (server/index.ts and server/ingest.ts carry identical copies): fixed-size,
    non-overlapping character windows, the last one possibly shorter. */
module Chunking {

  /** The window size at all three call sites. */
  const ChunkSize: nat := 800

  /** The windows `chunkText(text, size)` produces, stated without its loop. Their number
      is the ceiling of `|text| / size`: the least count whose windows cover the text. */
  function Chunks(text: string, size: nat): (r: seq<string>)
    requires size > 0
    ensures |text| <= |r| * size < |text| + size
    decreases |text|
  {
    if |text| == 0 then []
    else if |text| <= size then [text]
    else
      var rest := Chunks(text[size..], size);
      assert (|rest| + 1) * size == |rest| * size + size;
      [text[..size]] + rest
  }

  /** The strings of `parts` one after another. */
  function Concat(parts: seq<string>): string {
    if |parts| == 0 then "" else parts[0] + Concat(parts[1..])
  }

  /** `chunkText`: the loop pushes `text.slice(start, start + size)` and advances `start`
      by `size` while `start < text.length`. Only ever called with `ChunkSize`; with a size
      of zero or less its loop would not end on a non-empty text. */
  method ChunkText(text: string, size: nat) returns (chunks: seq<string>)
    requires size > 0
    ensures chunks == Chunks(text, size)
  {
    chunks := [];
    var start := 0;
    while start < |text|
      invariant 0 <= start <= |text|
      invariant chunks + Chunks(text[start..], size) == Chunks(text, size)
      decreases |text| - start
    {
      var end := if start + size < |text| then start + size else |text|;
      var piece := text[start..end];
      if |text[start..]| > size {
        assert text[start..][..size] == piece;
        assert text[start..][size..] == text[end..];
      } else {
        assert text[start..] == piece && text[end..] == [];
      }
      assert Chunks(text[start..], size) == [piece] + Chunks(text[end..], size);
      assert (chunks + [piece]) + Chunks(text[end..], size) == chunks + ([piece] + Chunks(text[end..], size));
      chunks := chunks + [piece];
      start := end;
    }
  }

  /** Round trip: the chunks, put back together in order, give the text again. */
  lemma {:induction false} ChunksConcat(text: string, size: nat)
    requires size > 0
    ensures Concat(Chunks(text, size)) == text
    decreases |text|
  {
    if |text| > size {
      ChunksConcat(text[size..], size);
      assert text == text[..size] + text[size..];
    }
  }

  /** Every chunk but the last is exactly `size` long; the last is 1 to `size` long. */
  lemma {:induction false} ChunksLengths(text: string, size: nat)
    requires size > 0
    ensures var r := Chunks(text, size);
      (forall i :: 0 <= i < |r| - 1 ==> |r[i]| == size) &&
      (|r| > 0 ==> 1 <= |r[|r| - 1]| <= size)
    decreases |text|
  {
    if |text| > size {
      ChunksLengths(text[size..], size);
      var r := Chunks(text, size);
      assert r[1..] == Chunks(text[size..], size);
    }
  }

  /** Empty text gives no chunks, and only empty text does. */
  lemma ChunksEmpty(text: string, size: nat)
    requires size > 0
    ensures Chunks(text, size) == [] <==> text == ""
  {
  }
}
