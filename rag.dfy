/** Contract ingestion for retrieval (backend/app/core/rag.py): the sliding-window text splitter and the
    loop that embeds each chunk and stages it, indexed by position, for one commit. */
module Rag {
  import opened Wrappers

  const DefaultChunkSize := 1000
  const DefaultOverlap := 100

  function Min(a: int, b: int): int {
    if a <= b then a else b
  }

  /** Python's `text[start:end]` for non-negative bounds: both ends are cut back to the text. */
  function Slice(text: string, start: nat, end: nat): (r: string)
    ensures |r| <= |text| && |r| <= (if start <= end then end - start else 0)
    ensures start < |text| && start <= end ==> r == text[start..Min(end, |text|)]
  {
    if start >= |text| || end <= start then "" else text[start..Min(end, |text|)]
  }

  /** The number of windows the splitter emits over n characters: ceil(n / step), counted one window at a time. */
  function ChunkCount(n: nat, step: nat): nat
    requires step > 0
    decreases n
  {
    if n == 0 then 0 else if n <= step then 1 else 1 + ChunkCount(n - step, step)
  }

  /** Where window k starts: k * step, accumulated one step at a time as the splitter's loop does. */
  function Start(k: nat, step: nat): nat {
    if k == 0 then 0 else Start(k - 1, step) + step
  }

  lemma {:induction false} StartIsProduct(k: nat, step: nat)
    ensures Start(k, step) == k * step
  {
    if k > 0 {
      StartIsProduct(k - 1, step);
    }
  }

  lemma {:induction false} StartMonotone(a: nat, b: nat, step: nat)
    requires a <= b
    ensures Start(a, step) <= Start(b, step)
    decreases b - a
  {
    if a < b {
      StartMonotone(a, b - 1, step);
    }
  }

  /** Window k of the splitter: chunk_size characters from offset k * step, cut back to the text. */
  function Window(text: string, k: nat, step: nat, chunkSize: nat): string {
    Slice(text, Start(k, step), Start(k, step) + chunkSize)
  }

  /** The windows `_split_text` produces: the k-th starts at k * (chunk_size - overlap) and is at most
      chunk_size long. */
  function Chunks(text: string, chunkSize: nat, overlap: int): (r: seq<string>)
    requires overlap < chunkSize
    ensures |r| == 0 <==> |text| == 0
    ensures forall k :: 0 <= k < |r| ==> |r[k]| <= chunkSize
  {
    var step := chunkSize - overlap;
    seq(ChunkCount(|text|, step), k requires 0 <= k => Window(text, k, step, chunkSize))
  }

  /** The ceiling count: its windows cover n characters, and its last window starts inside them. */
  lemma {:induction false} CountBracket(n: nat, step: nat)
    requires step > 0
    ensures var c := ChunkCount(n, step);
            && n <= Start(c, step)
            && (c > 0 ==> Start(c - 1, step) < n)
    decreases n
  {
    if n > step {
      CountBracket(n - step, step);
    }
  }

  /** Conversely, a count whose windows cover n characters with the last one starting inside is the ceiling count. */
  lemma {:induction false} CountFromBracket(n: nat, step: nat, c: nat)
    requires step > 0
    requires n <= Start(c, step)
    requires c == 0 || Start(c - 1, step) < n
    ensures c == ChunkCount(n, step)
    decreases c
  {
    if c == 0 {
    } else if n <= step {
      assert Start(c - 1, step) < step;
    } else {
      assert c >= 2;
      CountFromBracket(n - step, step, c - 1);
    }
  }

  /** `_split_text`: empty text gives no chunks; otherwise windows are cut until the start passes the end. */
  method SplitText(text: string, chunkSize: nat, overlap: int) returns (chunks: seq<string>)
    requires overlap < chunkSize
    ensures chunks == Chunks(text, chunkSize, overlap)
  {
    if |text| == 0 {
      return [];
    }
    var step := chunkSize - overlap;
    chunks := [];
    var start := 0;
    while start < |text|
      invariant start == Start(|chunks|, step)
      invariant |chunks| == 0 || Start(|chunks| - 1, step) < |text|
      invariant forall k :: 0 <= k < |chunks| ==> chunks[k] == Window(text, k, step, chunkSize)
      decreases |text| - start
    {
      var end := start + chunkSize;
      chunks := chunks + [Slice(text, start, end)];
      start := start + step;
    }
    CountFromBracket(|text|, step, |chunks|);
    WindowsAreChunks(text, chunkSize, overlap, chunks);
  }

  /** A sequence holding window k at every position k < ChunkCount is the chunk list. */
  lemma WindowsAreChunks(text: string, chunkSize: nat, overlap: int, chunks: seq<string>)
    requires overlap < chunkSize
    requires |chunks| == ChunkCount(|text|, chunkSize - overlap)
    requires forall k :: 0 <= k < |chunks| ==>
      chunks[k] == Window(text, k, chunkSize - overlap, chunkSize)
    ensures chunks == Chunks(text, chunkSize, overlap)
  {
  }

  /** Empty text yields no chunks. */
  lemma EmptyTextNoChunks(chunkSize: nat, overlap: int)
    requires overlap < chunkSize
    ensures Chunks("", chunkSize, overlap) == []
  {
  }

  /** Chunk k starts inside the text at offset k * step, and is a slice of at most chunk_size characters. */
  lemma {:induction false} ChunkShape(text: string, chunkSize: nat, overlap: int, k: nat)
    requires overlap < chunkSize
    requires k < |Chunks(text, chunkSize, overlap)|
    ensures var step := chunkSize - overlap;
            && Start(k, step) < |text|
            && Chunks(text, chunkSize, overlap)[k] == text[Start(k, step)..Min(Start(k, step) + chunkSize, |text|)]
            && |Chunks(text, chunkSize, overlap)[k]| <= chunkSize
  {
    var step := chunkSize - overlap;
    var c := ChunkCount(|text|, step);
    CountBracket(|text|, step);
    StartMonotone(k, c - 1, step);
  }

  /** Without negative overlap, the last chunk reaches the end of the text. */
  lemma {:induction false} LastChunkReachesEnd(text: string, chunkSize: nat, overlap: int)
    requires 0 <= overlap < chunkSize
    requires |text| > 0
    ensures var chunks := Chunks(text, chunkSize, overlap);
            var step := chunkSize - overlap;
            && |chunks| > 0
            && Start(|chunks| - 1, step) + |chunks[|chunks| - 1]| == |text|
  {
    var step := chunkSize - overlap;
    CountBracket(|text|, step);
    var c := ChunkCount(|text|, step);
    assert Start(c, step) == Start(c - 1, step) + step;
    ChunkShape(text, chunkSize, overlap, c - 1);
  }

  /** Undo the overlap: keep the first `step` characters of every chunk but the last, and all of the last. */
  function Glue(chunks: seq<string>, step: nat): string {
    if |chunks| == 0 then ""
    else if |chunks| == 1 then chunks[0]
    else chunks[0][..Min(step, |chunks[0]|)] + Glue(chunks[1..], step)
  }

  /** Gluing windows j, j + 1, ... of a text gives back the text from offset j * step on, when the windows
      together cover the text and the last one starts inside it. */
  lemma {:induction false} GlueWindows(text: string, step: nat, chunkSize: nat, chunks: seq<string>, j: nat)
    requires 0 < step <= chunkSize
    requires j < |chunks|
    requires forall k :: 0 <= k < |chunks| ==> chunks[k] == Window(text, k, step, chunkSize)
    requires Start(|chunks| - 1, step) < |text| <= Start(|chunks|, step)
    ensures Start(j, step) <= |text| && Glue(chunks[j..], step) == text[Start(j, step)..]
    decreases |chunks| - j
  {
    if j == |chunks| - 1 {
      GlueLastWindow(text, step, chunkSize, chunks);
    } else {
      GlueWindows(text, step, chunkSize, chunks, j + 1);
      GlueNextWindow(text, step, chunkSize, chunks, j);
    }
  }

  /** Window j puts `step` characters in front of what the windows after it glue to. */
  lemma GlueNextWindow(text: string, step: nat, chunkSize: nat, chunks: seq<string>, j: nat)
    requires 0 < step <= chunkSize
    requires j + 1 < |chunks|
    requires forall k :: 0 <= k < |chunks| ==> chunks[k] == Window(text, k, step, chunkSize)
    requires Start(|chunks| - 1, step) < |text|
    requires Start(j + 1, step) <= |text| && Glue(chunks[j + 1..], step) == text[Start(j + 1, step)..]
    ensures Start(j, step) <= |text| && Glue(chunks[j..], step) == text[Start(j, step)..]
  {
    var here := Start(j, step);
    StartMonotone(j + 1, |chunks| - 1, step);
    assert chunks[j] == Window(text, j, step, chunkSize);
    assert chunks[j..][1..] == chunks[j + 1..];
    GlueStep(text, chunks[j..], here, step, chunkSize);
  }

  /** The last window starts inside the text and runs to its end. */
  lemma GlueLastWindow(text: string, step: nat, chunkSize: nat, chunks: seq<string>)
    requires 0 < step <= chunkSize
    requires |chunks| > 0
    requires forall k :: 0 <= k < |chunks| ==> chunks[k] == Window(text, k, step, chunkSize)
    requires Start(|chunks| - 1, step) < |text| <= Start(|chunks|, step)
    ensures var j := |chunks| - 1;
            Glue(chunks[j..], step) == text[Start(j, step)..]
  {
    var j := |chunks| - 1;
    var here := Start(j, step);
    assert chunks[j] == text[here..Min(here + chunkSize, |text|)];
    assert Min(here + chunkSize, |text|) == |text|;
    assert chunks[j..] == [chunks[j]];
  }

  /** One step of the glue: a full-width first chunk contributes exactly `step` characters. */
  lemma GlueStep(text: string, rest: seq<string>, here: nat, step: nat, chunkSize: nat)
    requires |rest| >= 2 && step <= chunkSize
    requires here + step < |text|
    requires rest[0] == Slice(text, here, here + chunkSize)
    requires Glue(rest[1..], step) == text[here + step..]
    ensures Glue(rest, step) == text[here..]
  {
    assert rest[0] == text[here..Min(here + chunkSize, |text|)];
    assert rest[0][..step] == text[here..here + step];
    assert text[here..] == text[here..here + step] + text[here + step..];
  }

  /** Round trip: with non-negative overlap, gluing the chunks restores the text. */
  lemma GlueChunks(text: string, chunkSize: nat, overlap: int)
    requires 0 <= overlap < chunkSize
    ensures Glue(Chunks(text, chunkSize, overlap), chunkSize - overlap) == text
  {
    var chunks := Chunks(text, chunkSize, overlap);
    if |text| > 0 {
      CountBracket(|text|, chunkSize - overlap);
      GlueWindows(text, chunkSize - overlap, chunkSize, chunks, 0);
      assert chunks[0..] == chunks;
    }
  }

  /** One stored chunk row. */
  datatype ChunkRow = ChunkRow(contractId: string, chunkIndex: nat, content: string, embedding: seq<real>)

  /** The rows for the first `count` chunks; row k carries chunk_index k. */
  function Rows(contractId: string, chunks: seq<string>, embed: string -> Result<seq<real>, string>, count: nat)
    : (rows: seq<ChunkRow>)
    requires count <= |chunks|
    ensures |rows| == count
    ensures forall k :: 0 <= k < count ==>
              rows[k].chunkIndex == k && rows[k].content == chunks[k] && rows[k].contractId == contractId
  {
    seq(count, k requires 0 <= k < count =>
      ChunkRow(contractId, k, chunks[k], match embed(chunks[k]) case Success(v) => v case Failure(_) => []))
  }

  /** The database session: rows added since the last commit, and rows committed. */
  class Session {
    var pending: seq<ChunkRow>
    var committed: seq<ChunkRow>

    constructor ()
      ensures pending == [] && committed == []
    {
      pending, committed := [], [];
    }

    method Add(row: ChunkRow)
      modifies this
      ensures pending == old(pending) + [row] && committed == old(committed)
    {
      pending := pending + [row];
    }

    method Commit()
      modifies this
      ensures committed == old(committed) + old(pending) && pending == []
    {
      committed := committed + pending;
      pending := [];
    }
  }

  /** `ingest_contract`: split with the default window, embed and stage each chunk in order, commit once; the
      first embedding failure is re-raised and nothing more is committed. */
  method IngestContract(session: Session, contractId: string, content: string,
                        embed: string -> Result<seq<real>, string>)
    returns (r: Result<(), string>)
    modifies session
    ensures var chunks := Chunks(content, DefaultChunkSize, DefaultOverlap);
            r.Success? <==> forall i :: 0 <= i < |chunks| ==> embed(chunks[i]).Success?
    ensures var chunks := Chunks(content, DefaultChunkSize, DefaultOverlap);
            r.Success? ==>
              && session.committed == old(session.committed) + old(session.pending)
                                      + Rows(contractId, chunks, embed, |chunks|)
              && session.pending == []
    ensures var chunks := Chunks(content, DefaultChunkSize, DefaultOverlap);
            r.Failure? ==> exists f :: 0 <= f < |chunks| && FailsFirstAt(chunks, embed, f)
                                       && r.error == embed(chunks[f]).error
                                       && session.committed == old(session.committed)
                                       && session.pending == old(session.pending) + Rows(contractId, chunks, embed, f)
  {
    var chunks := SplitText(content, DefaultChunkSize, DefaultOverlap);
    var i := 0;
    while i < |chunks|
      invariant 0 <= i <= |chunks|
      invariant forall k :: 0 <= k < i ==> embed(chunks[k]).Success?
      invariant session.committed == old(session.committed)
      invariant session.pending == old(session.pending) + Rows(contractId, chunks, embed, i)
    {
      var embedding := embed(chunks[i]);
      if embedding.Failure? {
        assert FailsFirstAt(chunks, embed, i);
        return Failure(embedding.error);
      }
      session.Add(ChunkRow(contractId, i, chunks[i], embedding.value));
      assert Rows(contractId, chunks, embed, i + 1) == Rows(contractId, chunks, embed, i)
             + [ChunkRow(contractId, i, chunks[i], embedding.value)];
      i := i + 1;
    }
    session.Commit();
    r := Success(());
  }

  /** Chunk f is the first whose embedding fails. */
  predicate FailsFirstAt(chunks: seq<string>, embed: string -> Result<seq<real>, string>, f: nat)
    requires f < |chunks|
  {
    embed(chunks[f]).Failure? && forall k :: 0 <= k < f ==> embed(chunks[k]).Success?
  }
}
