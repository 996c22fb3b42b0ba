/**
 * The chunk id scheme of `VectorStore.process_documents`: chunk `j` of document
 * `i` (both 0-based positions within one call) is stored under `doc_{i}_chunk_{j}`.
 * `ParseChunkId` is its inverse; the round trip shows that distinct positions
 * give distinct ids.
 */
module ChunkIds {
  import opened Wrappers
  import opened Strings

  const DocPrefix := "doc_"
  const ChunkInfix := "_chunk_"

  /** `f"doc_{i}_chunk_{j}"` */
  function ChunkId(i: nat, j: nat): string {
    DocPrefix + NatToString(i) + ChunkInfix + NatToString(j)
  }

  /** The length of the run of decimal digits at the start of `s`. */
  function DigitRun(s: string): (r: nat)
    ensures r <= |s| && AllDigits(s[..r])
    ensures r < |s| ==> !IsDigit(s[r])
    decreases |s|
  {
    if |s| == 0 || !IsDigit(s[0]) then 0
    else
      var r := 1 + DigitRun(s[1..]);
      assert s[..r] == [s[0]] + s[1..][..r - 1];
      r
  }

  /** Reads `(i, j)` back out of an id of the form `doc_{i}_chunk_{j}`. */
  function ParseChunkId(s: string): Option<(nat, nat)> {
    if !StartsWith(s, DocPrefix) then None
    else
      var rest := s[|DocPrefix|..];
      var k := DigitRun(rest);
      var tail := rest[k..];
      if k == 0 || !StartsWith(tail, ChunkInfix) then None
      else
        var digits := tail[|ChunkInfix|..];
        if |digits| == 0 || !AllDigits(digits) then None
        else Some((ParseDigits(rest[..k]), ParseDigits(digits)))
  }

  lemma {:induction false} DigitRunStopsAtSeparator(d: string, rest: string)
    requires AllDigits(d) && |rest| > 0 && !IsDigit(rest[0])
    ensures DigitRun(d + rest) == |d|
    decreases |d|
  {
    if |d| > 0 {
      assert (d + rest)[1..] == d[1..] + rest;
      DigitRunStopsAtSeparator(d[1..], rest);
    }
  }

  /** Parsing an id recovers the positions it was built from. */
  lemma ParseChunkIdRoundTrip(i: nat, j: nat)
    ensures ParseChunkId(ChunkId(i, j)) == Some((i, j))
  {
    var di, dj := NatToString(i), NatToString(j);
    var s := ChunkId(i, j);
    assert s == DocPrefix + (di + (ChunkInfix + dj));
    StartsWithConcat(DocPrefix, di + (ChunkInfix + dj));
    var rest := s[|DocPrefix|..];
    assert rest == di + (ChunkInfix + dj);
    DigitRunStopsAtSeparator(di, ChunkInfix + dj);
    assert rest[..|di|] == di;
    assert rest[|di|..] == ChunkInfix + dj;
    StartsWithConcat(ChunkInfix, dj);
    assert (ChunkInfix + dj)[|ChunkInfix|..] == dj;
    ParseNatToString(i);
    ParseNatToString(j);
  }

  /** Distinct (document, chunk) positions get distinct ids. */
  lemma ChunkIdInjective(i: nat, j: nat, i': nat, j': nat)
    requires ChunkId(i, j) == ChunkId(i', j')
    ensures i == i' && j == j'
  {
    ParseChunkIdRoundTrip(i, j);
    ParseChunkIdRoundTrip(i', j');
  }
}
