# Calibration dataloader of the Megatron Llama quantization script

The quantization script feeds a pretrained model a handful of text batches
so that the quantizer can calibrate its scales. `get_calib_dataloader`
prepares those batches:

- It maps the dataset name to a dataset and its text column. The
  CNN/DailyMail preset reads `"article"`. The `pileval` and `wikitext`
  presets, and any other name (read as a local JSON file), read `"text"`.
- It clamps the calibration size to
  `max(min(len(dataset), calib_size), batch_size)`.
- It yields `calib_size // batch_size` batches. Batch `i` is the slice
  `dataset[i*bs:(i+1)*bs]`, clipped at the end of the dataset.
- It cuts every string of a batch to its first `max_sequence_length`
  characters, writing each one back into the batch list.

The Dafny module `CalibDataloader` (file `calib_dataloader.dfy`) models this.
The dataset is the loaded text column, a `seq<string>`. The generator is
modelled by the full list of its batches, which is what the script's `main`
builds from it.

- `GetCalibDataloader` is the batching loop.
- `TruncateBatch` is the truncation loop.
- Both are proved against the specification function `CalibBatches`, which
  is built from `NumBatches`, `Slice` (Python slicing with clipping) and
  `Truncate` (Python's `s[:m]`).
- The lemmas state what the batches are: their count, their edge cases,
  their contents and order, the length bound on the strings, and that
  together they cover a prefix of the dataset exactly once.

Two preconditions come from Python's behaviour:

- `batch_size > 0`, because `calib_size // batch_size` raises
  `ZeroDivisionError` for zero. A negative batch size is not a meaningful
  configuration either.
- `max_sequence_length >= 0`, because a negative bound would make Python's
  slice drop characters from the end of each string instead.

Both divisions in the model have positive operands, so Dafny's Euclidean
`/` agrees with Python's floor `//`.

## Model

| member | source | states |
|---|---|---|
| `CalibDataloader.ChooseDataset` | examples/nlp/language_modeling/megatron_llama_quantization.py:29-41 | the text column is `"article"` exactly when the name is `"cnn_dailymail"`, and `"text"` otherwise; each preset name selects its own dataset, and every other name selects a local JSON file at that path |
| `CalibDataloader.NumBatches` | examples/nlp/language_modeling/megatron_llama_quantization.py:42-43 | the batch count is the floor of the clamped size divided by the batch size: at least one, with `count*bs` at most the clamped size and `(count+1)*bs` above it |
| `CalibDataloader.Slice` | examples/nlp/language_modeling/megatron_llama_quantization.py:44 | a clipped slice `s[lo:hi]` has `min(hi,len)-min(lo,len)` items, never more than `hi-lo`, and its item `k` is `s[lo+k]` |
| `CalibDataloader.Truncate` | examples/nlp/language_modeling/megatron_llama_quantization.py:46 | `s[:m]` is a prefix of `s` of length at most `m`; it is `s` itself when `s` fits and exactly `m` long otherwise |
| `CalibDataloader.TruncateAll` | examples/nlp/language_modeling/megatron_llama_quantization.py:45-46 | truncating a batch keeps its length and order and truncates the item at every position |
| `CalibDataloader.GetCalibDataloader` | examples/nlp/language_modeling/megatron_llama_quantization.py:28-47 | the loop yields `max(min(len(dataset), calib_size), batch_size) // batch_size` batches, and the list it yields is `CalibBatches` |
| `CalibDataloader.TruncateBatch` | examples/nlp/language_modeling/megatron_llama_quantization.py:45-46 | overwriting each position in turn yields every string truncated; at each step the positions not yet reached keep their original strings and the batch keeps its length |
| `CalibDataloader.NonPositiveCalibSizeOneBatch` | examples/nlp/language_modeling/megatron_llama_quantization.py:42-44 | a calibration size of zero or less yields exactly one batch: the first `batch_size` items, or all of them if there are fewer |
| `CalibDataloader.EmptyDatasetOneEmptyBatch` | examples/nlp/language_modeling/megatron_llama_quantization.py:42-44 | an empty dataset yields exactly one batch, and that batch is empty |
| `CalibDataloader.ShortDatasetOneBatch` | examples/nlp/language_modeling/megatron_llama_quantization.py:42-44 | a dataset shorter than one batch yields exactly one batch holding every item, in order |
| `CalibDataloader.BatchContents` | examples/nlp/language_modeling/megatron_llama_quantization.py:42-46 | batch `i` holds the items at indices `i*bs` up to `min((i+1)*bs, len)` in their original order (each truncated); it has at most `bs` items, and exactly `bs` when the dataset holds at least one full batch |
| `CalibDataloader.BatchAsRange` | examples/nlp/language_modeling/megatron_llama_quantization.py:44-46 | batch `i` is the truncated dataset range between the clipped bounds `i*bs` and `(i+1)*bs` |
| `CalibDataloader.TruncatedStrings` | examples/nlp/language_modeling/megatron_llama_quantization.py:44-46 | every string in every batch is at most `max_sequence_length` long, is a prefix of the dataset item at the same position, and equals that item when the item already fits |
| `CalibDataloader.CoveragePrefix` | examples/nlp/language_modeling/megatron_llama_quantization.py:43-46 | the first `k` batches, concatenated, are exactly the first `min(len, k*bs)` items, truncated |
| `CalibDataloader.Coverage` | examples/nlp/language_modeling/megatron_llama_quantization.py:42-46 | all batches, concatenated in order, are exactly the first `min(len, count*bs)` items, truncated, with none repeated or skipped; that number is at most `min(len, max(calib_size, batch_size))` |

## Left out

- Loading the datasets (`load_dataset` for the three presets and for a local JSON file). These are network or disk reads through an external library. The model takes the loaded text column as a given sequence of strings, and `ChooseDataset` only names the dataset to load.
- The URLs, configuration names and splits passed to `load_dataset`. They are arguments to the external loader and play no part in the batching.
- `main`: the configuration decorator, the GPU availability check, and the construction, `quantize` and `export` calls of the external `Quantizer`. All of these are foreign calls or runtime environment checks.
- Setting the multiprocessing start method at import time. This is process-level configuration.
- The generator's laziness. The model produces the whole list of batches at once, as `main` does when it collects the generator into a list.
- The `ZeroDivisionError` raised for `batch_size == 0`, and negative `max_sequence_length`. Both are excluded by preconditions rather than modelled.
- The default argument values (`"cnn_dailymail"`, 4, 512, 512). `main` always passes all four arguments.
