/**
 A model of `get_calib_dataloader` from the Megatron Llama quantization
 script: the choice of the text column for a calibration dataset, and the
 batching and truncation of that column into calibration batches.

 The dataset is the already-loaded text column, a sequence of strings; the
 generator is modelled by the full list of batches it yields.
 */
module CalibDataloader {

  // ---------------------------------------------------------------------
  // Dataset and column choice
  // ---------------------------------------------------------------------

  /** The dataset a calibration run loads: one of three named presets, or
      any other name, read as the path of a local JSON file. */
  datatype Source = Pileval | Wikitext | CnnDailymail | LocalJson(path: string)

  /** The dataset to load and the name of its text column. */
  datatype Choice = Choice(source: Source, textColumn: string)

  /** Maps the `data` argument to the dataset it loads and its text column:
      only the CNN/DailyMail preset reads "article"; the other presets and
      every local file read "text". */
  function ChooseDataset(data: string): (c: Choice)
    ensures c.textColumn == "article" <==> data == "cnn_dailymail"
    ensures c.textColumn != "article" ==> c.textColumn == "text"
    ensures c.source.LocalJson? <==> data != "pileval" && data != "wikitext" && data != "cnn_dailymail"
    ensures c.source.LocalJson? ==> c.source.path == data
    ensures c.source == Pileval <==> data == "pileval"
    ensures c.source == Wikitext <==> data == "wikitext"
    ensures c.source == CnnDailymail <==> data == "cnn_dailymail"
  {
    if data == "pileval" then Choice(Pileval, "text")
    else if data == "wikitext" then Choice(Wikitext, "text")
    else if data == "cnn_dailymail" then Choice(CnnDailymail, "article")
    else Choice(LocalJson(data), "text")
  }

  // ---------------------------------------------------------------------
  // Integer and slicing primitives with Python's meaning
  // ---------------------------------------------------------------------

  function Min(a: int, b: int): int { if a <= b then a else b }

  function Max(a: int, b: int): int { if a <= b then b else a }

  /** The clamped calibration size `max(min(len(dataset), calib_size), batch_size)`. */
  function ClampedCalibSize(n: nat, calibSize: int, batchSize: int): int
  {
    Max(Min(n, calibSize), batchSize)
  }

  /** How many batches the generator yields: the clamped size floor-divided
      by the batch size. Both operands are positive, so Dafny's division
      agrees with Python's `//`. At least one batch is always produced, and
      the batches never ask for more items than the clamped size. */
  function NumBatches(n: nat, calibSize: int, batchSize: int): (count: nat)
    requires batchSize > 0
    ensures count >= 1
    ensures count * batchSize <= ClampedCalibSize(n, calibSize, batchSize) < (count + 1) * batchSize
  {
    ClampedCalibSize(n, calibSize, batchSize) / batchSize
  }

  /** Python's slice `s[lo:hi]` for non-negative bounds with lo <= hi: both
      bounds are clipped at the end of `s`, so the slice may be shorter than
      `hi - lo`, or empty. */
  function Slice<T>(s: seq<T>, lo: nat, hi: nat): (r: seq<T>)
    requires lo <= hi
    ensures |r| == Min(hi, |s|) - Min(lo, |s|)
    ensures |r| <= hi - lo
    ensures forall k :: 0 <= k < |r| ==> lo + k < |s| && r[k] == s[lo + k]
  {
    s[Min(lo, |s|)..Min(hi, |s|)]
  }

  /** Python's `s[:m]` for `m >= 0`: the longest prefix of `s` of length at
      most `m`. */
  function Truncate(s: string, m: nat): (t: string)
    ensures |t| <= m
    ensures t <= s
    ensures |s| <= m ==> t == s
    ensures |s| > m ==> |t| == m
  {
    s[..Min(m, |s|)]
  }

  /** Every string of a batch truncated to `m` characters, in order. */
  function TruncateAll(b: seq<string>, m: nat): (r: seq<string>)
    ensures |r| == |b|
    ensures forall k :: 0 <= k < |b| ==> r[k] == Truncate(b[k], m)
  {
    if b == [] then [] else [Truncate(b[0], m)] + TruncateAll(b[1..], m)
  }

  /** The strings of all batches, one batch after the other. */
  function Flatten<T>(batches: seq<seq<T>>): seq<T>
  {
    if batches == [] then []
    else Flatten(batches[..|batches| - 1]) + batches[|batches| - 1]
  }

  // ---------------------------------------------------------------------
  // What the generator yields
  // ---------------------------------------------------------------------

  /** Batch `i`: the items `dataset[i*bs:(i+1)*bs]`, each truncated to `m`. */
  function Batch(dataset: seq<string>, i: nat, batchSize: int, m: nat): seq<string>
    requires batchSize > 0
  {
    TruncateAll(Slice(dataset, i * batchSize, (i + 1) * batchSize), m)
  }

  /** The list of every batch the generator yields, in order. */
  function CalibBatches(dataset: seq<string>, batchSize: int, calibSize: int, m: nat): seq<seq<string>>
    requires batchSize > 0
  {
    seq(NumBatches(|dataset|, calibSize, batchSize), i requires 0 <= i => Batch(dataset, i, batchSize, m))
  }

  /** The batching loop: yields `calib_size // batch_size` batches, batch
      `i` being the clipped slice `dataset[i*bs:(i+1)*bs]` with each string
      cut to `maxSequenceLength` characters. */
  method GetCalibDataloader(dataset: seq<string>, batchSize: int, calibSize: int, maxSequenceLength: int)
    returns (batches: seq<seq<string>>)
    requires batchSize > 0
    requires maxSequenceLength >= 0
    ensures |batches| == Max(Min(|dataset|, calibSize), batchSize) / batchSize
    ensures batches == CalibBatches(dataset, batchSize, calibSize, maxSequenceLength)
  {
    var size := Max(Min(|dataset|, calibSize), batchSize);
    batches := [];
    for i := 0 to size / batchSize
      invariant |batches| == i
      invariant forall k :: 0 <= k < i ==> batches[k] == Batch(dataset, k, batchSize, maxSequenceLength)
    {
      var batch := Slice(dataset, i * batchSize, (i + 1) * batchSize);
      batch := TruncateBatch(batch, maxSequenceLength);
      batches := batches + [batch];
    }
  }

  /** The truncation loop: overwrites each position of the batch with its
      first `maxSequenceLength` characters, one position at a time. */
  method TruncateBatch(batch: seq<string>, maxSequenceLength: nat) returns (truncated: seq<string>)
    ensures truncated == TruncateAll(batch, maxSequenceLength)
  {
    truncated := batch;
    for j := 0 to |batch|
      invariant |truncated| == |batch|
      invariant forall k :: 0 <= k < j ==> truncated[k] == Truncate(batch[k], maxSequenceLength)
      invariant forall k :: j <= k < |batch| ==> truncated[k] == batch[k]
    {
      truncated := truncated[j := Truncate(truncated[j], maxSequenceLength)];
    }
  }

  // ---------------------------------------------------------------------
  // Properties of the yielded batches
  // ---------------------------------------------------------------------

  /** A calibration size of zero or less still yields exactly one batch:
      the first `batchSize` items (or all of them if there are fewer). */
  lemma NonPositiveCalibSizeOneBatch(dataset: seq<string>, batchSize: int, calibSize: int, m: nat)
    requires batchSize > 0
    requires calibSize <= 0
    ensures CalibBatches(dataset, batchSize, calibSize, m) == [TruncateAll(dataset[..Min(|dataset|, batchSize)], m)]
  {
  }

  /** An empty dataset yields exactly one batch, and that batch is empty. */
  lemma EmptyDatasetOneEmptyBatch(batchSize: int, calibSize: int, m: nat)
    requires batchSize > 0
    ensures CalibBatches([], batchSize, calibSize, m) == [[]]
  {
  }

  /** A dataset shorter than one batch yields exactly one batch holding
      every item of the dataset, each truncated. */
  lemma ShortDatasetOneBatch(dataset: seq<string>, batchSize: int, calibSize: int, m: nat)
    requires batchSize > 0
    requires |dataset| < batchSize
    ensures CalibBatches(dataset, batchSize, calibSize, m) == [TruncateAll(dataset, m)]
  {
    assert ClampedCalibSize(|dataset|, calibSize, batchSize) == batchSize;
    assert NumBatches(|dataset|, calibSize, batchSize) == 1;
    assert Slice(dataset, 0, batchSize) == dataset;
  }

  /** Batch `i` holds the items at indices `i*bs` up to (excluding)
      `min((i+1)*bs, len(dataset))`, in their original order: at most
      `batchSize` of them, and exactly `batchSize` when the dataset holds at
      least one full batch. */
  lemma BatchContents(dataset: seq<string>, batchSize: int, calibSize: int, m: nat, i: nat)
    requires batchSize > 0
    requires i < NumBatches(|dataset|, calibSize, batchSize)
    ensures var b := CalibBatches(dataset, batchSize, calibSize, m)[i];
      && |b| == Min((i + 1) * batchSize, |dataset|) - Min(i * batchSize, |dataset|)
      && |b| <= batchSize
      && (|dataset| >= batchSize ==> |b| == batchSize)
      && forall k :: 0 <= k < |b| ==> i * batchSize + k < |dataset| && b[k] == Truncate(dataset[i * batchSize + k], m)
  {
  }

  /** Every string in every batch is at most `m` characters long, is a
      prefix of the dataset item at the same position, and equals that item
      when the item was already within the limit. */
  lemma TruncatedStrings(dataset: seq<string>, batchSize: int, calibSize: int, m: nat)
    requires batchSize > 0
    ensures var bs := CalibBatches(dataset, batchSize, calibSize, m);
      forall i, k :: 0 <= i < |bs| && 0 <= k < |bs[i]| ==>
        && i * batchSize + k < |dataset|
        && |bs[i][k]| <= m
        && bs[i][k] <= dataset[i * batchSize + k]
        && (|dataset[i * batchSize + k]| <= m ==> bs[i][k] == dataset[i * batchSize + k])
  {
  }

  /** Truncating a concatenation truncates each part. */
  lemma TruncateAllAppend(x: seq<string>, y: seq<string>, m: nat)
    ensures TruncateAll(x + y, m) == TruncateAll(x, m) + TruncateAll(y, m)
  {
  }

  /** The first `k` batches, concatenated, are exactly the first
      `min(len(dataset), k*bs)` items, truncated. */
  lemma {:induction false} CoveragePrefix(dataset: seq<string>, batchSize: int, calibSize: int, m: nat, k: nat)
    requires batchSize > 0
    requires k <= NumBatches(|dataset|, calibSize, batchSize)
    ensures Flatten(CalibBatches(dataset, batchSize, calibSize, m)[..k])
         == TruncateAll(dataset[..Min(|dataset|, k * batchSize)], m)
  {
    var bs := CalibBatches(dataset, batchSize, calibSize, m);
    if k == 0 {
      assert bs[..0] == [];
      assert dataset[..Min(|dataset|, 0 * batchSize)] == [];
    } else {
      CoveragePrefix(dataset, batchSize, calibSize, m, k - 1);
      var lo, hi := BatchAsRange(dataset, batchSize, calibSize, m, k - 1);
      assert bs[..k][..k - 1] == bs[..k - 1];
      assert Flatten(bs[..k]) == Flatten(bs[..k - 1]) + bs[k - 1];
      assert dataset[..lo] + dataset[lo..hi] == dataset[..hi];
      TruncateAllAppend(dataset[..lo], dataset[lo..hi], m);
    }
  }

  /** Batch `i` is the truncated range of the dataset between the clipped
      bounds `i*bs` and `(i+1)*bs`. */
  lemma BatchAsRange(dataset: seq<string>, batchSize: int, calibSize: int, m: nat, i: nat)
    returns (lo: nat, hi: nat)
    requires batchSize > 0
    requires i < NumBatches(|dataset|, calibSize, batchSize)
    ensures lo == Min(|dataset|, i * batchSize) && hi == Min(|dataset|, (i + 1) * batchSize)
    ensures lo <= hi <= |dataset|
    ensures CalibBatches(dataset, batchSize, calibSize, m)[i] == TruncateAll(dataset[lo..hi], m)
  {
    var start, end := i * batchSize, (i + 1) * batchSize;
    assert end == start + batchSize;
    lo, hi := Min(|dataset|, start), Min(|dataset|, end);
  }

  /** Concatenated in order, the batches are exactly the first
      `min(len(dataset), count*bs)` dataset items, each truncated, with none
      repeated or skipped; and that many items never exceed
      `min(len(dataset), max(calib_size, batch_size))`. */
  lemma Coverage(dataset: seq<string>, batchSize: int, calibSize: int, m: nat)
    requires batchSize > 0
    ensures var count := NumBatches(|dataset|, calibSize, batchSize);
      && Flatten(CalibBatches(dataset, batchSize, calibSize, m))
         == TruncateAll(dataset[..Min(|dataset|, count * batchSize)], m)
      && Min(|dataset|, count * batchSize) <= Min(|dataset|, Max(calibSize, batchSize))
  {
    var count := NumBatches(|dataset|, calibSize, batchSize);
    var bs := CalibBatches(dataset, batchSize, calibSize, m);
    CoveragePrefix(dataset, batchSize, calibSize, m, count);
    assert bs[..count] == bs;
  }
}
