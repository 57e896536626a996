/** Reply delivery (`safeReply`): a reply is sent as consecutive slices of at most 2000 characters. */
module Chunking {
  /** The largest slice `safeReply` hands to one `sendMessage` call. */
  const MaxLength: nat := 2000

  function Min(a: int, b: int): int { if a <= b then a else b }

  /** The text obtained by joining the chunks in order. */
  function Concat(chunks: seq<string>): string
  {
    if chunks == [] then [] else chunks[0] + Concat(chunks[1..])
  }

  /**
   * The slices `safeReply` sends for `text`, in order: the first 2000 characters, then the
   * rest. Nothing is sent for an empty text, and ceil(|text| / 2000) slices otherwise.
   */
  function Chunks(text: string): (r: seq<string>)
    ensures r == [] <==> text == []
    ensures |r| == (|text| + MaxLength - 1) / MaxLength
    decreases |text|
  {
    if text == [] then []
    else
      var n := Min(MaxLength, |text|);
      [text[..n]] + Chunks(text[n..])
  }

  /** The slices are non-empty, at most 2000 characters, all but the last full, and join back to the text. */
  lemma {:induction false} ChunksCoverText(text: string)
    ensures var r := Chunks(text);
            && Concat(r) == text
            && (forall j :: 0 <= j < |r| ==> 0 < |r[j]| <= MaxLength)
            && (forall j :: 0 <= j < |r| - 1 ==> |r[j]| == MaxLength)
    decreases |text|
  {
    if text != [] {
      var n := Min(MaxLength, |text|);
      var rest := Chunks(text[n..]);
      ChunksCoverText(text[n..]);
      assert Chunks(text) == [text[..n]] + rest;
      assert ([text[..n]] + rest)[1..] == rest;
      assert text[..n] + text[n..] == text;
    }
  }

  /** Unfolding `Chunks` at position `i`: the slice starting at `i` comes first. */
  lemma ChunksFrom(text: string, i: nat)
    requires i < |text|
    ensures Chunks(text[i..]) == [text[i..Min(i + MaxLength, |text|)]] + Chunks(text[Min(i + MaxLength, |text|)..])
  {
    var end := Min(i + MaxLength, |text|);
    assert text[i..][..end - i] == text[i..end];
    assert text[i..][end - i..] == text[end..];
  }

  /**
   * The sending loop of `safeReply`: `i` advances by 2000 and each step sends
   * `text.slice(i, i + 2000)`. Returns the slices in the order they are sent.
   */
  method SafeReply(text: string) returns (sent: seq<string>)
    ensures sent == Chunks(text)
  {
    sent := [];
    if text == [] {
      return;
    }
    var i := 0;
    assert text[Min(i, |text|)..] == text;
    while i < |text|
      invariant 0 <= i
      invariant sent + Chunks(text[Min(i, |text|)..]) == Chunks(text)
    {
      var end := Min(i + MaxLength, |text|);
      var chunk := text[i..end];
      ChunksFrom(text, i);
      assert sent + Chunks(text[i..]) == (sent + [chunk]) + Chunks(text[end..]);
      sent := sent + [chunk];
      i := i + MaxLength;
      assert Min(i, |text|) == end;
    }
    assert text[Min(i, |text|)..] == [];
  }
}
