# Sliding-window dataset for next-token prediction

This project models `GPTDatasetV1` from `experiment.py`. The dataset turns a
flat sequence of token ids into an ordered list of (input, target) pairs for
training a language model to predict the next token. For every start offset
`i` that `range(0, len(token_ids) - max_length, stride)` yields, it stores
the input chunk `token_ids[i:i + max_length]` and the target chunk
`token_ids[i + 1:i + max_length + 1]`. `__len__` and `__getitem__` then serve
the pairs by position.

Two modules:

- `Windowing` (`windowing.dfy`) holds the specification. `Range` enumerates
  the values of Python's `range` for a positive step one at a time, as the
  loop does. `InputChunks` and `TargetChunks` give the chunks cut at those
  offsets, and `PairCount` gives the count in closed form,
  `ceil((T - L) / S)` when `T > L` and 0 otherwise. The lemmas relate the
  enumeration to the closed form. They also prove that pair `k` starts at
  `k * S`, that both slices stay inside the tokens, and that the target is
  the input moved one token forward.
- `Dataset` (`dataset.dfy`) holds the class `GPTDatasetV1`. The fields
  `inputIds` and `targetIds` are the two lists the Python object appends to.
  The constructor renders the `for` loop over `range(0, T - L, S)` as a
  `while` loop, whose invariants tie the lists built so far to the offsets
  visited so far. `Valid()` states
  that the stored lists are exactly `InputChunks`/`TargetChunks` of the
  tokens. `Length` and `Get` read the lists and have no `modifies` clause, so
  they change nothing.

Notation: `T` is the number of tokens, `L` is `max_length` and `S` is
`stride`.

With ten tokens, `L = 4` and `S = 4`, the loop `range(0, 6, 4)` yields
offsets 0 and 4, so the dataset holds two pairs; `SampleCounts` proves this.

## Model

| member | source | states |
|---|---|---|
| Windowing.Range | experiment.py:14 | the offsets all lie in `[start, stop)`, consecutive ones are one step apart, and there is none exactly when `start >= stop` |
| Windowing.RangeAt | experiment.py:14 | the `k`-th offset is `start + k * step` |
| Windowing.RangeEnd | experiment.py:14 | the enumeration goes on until the next offset would reach `stop` (`start + count * step >= stop`) |
| Windowing.RangeLength | experiment.py:14 | the number of offsets is `ceil((stop - start) / step)` when `start < stop`, and 0 otherwise |
| Windowing.RangeIncreasing | experiment.py:14 | offsets, and hence the stored pairs, come in strictly increasing order, `(b - a) * step` apart |
| Windowing.WindowStartAt | experiment.py:14-16 | window `k` starts at `k * S`, and `k * S + L + 1 <= T`, so neither slice is cut short at the end |
| Windowing.ChunkCount | experiment.py:14-18 | the input and target lists have the same length, which is `ceil((T - L) / S)` when `T > L`; when `T <= L` there is no pair at all |
| Windowing.InputAligned | experiment.py:14-15 | every input chunk has length `L`, and `input[j] == tokens[k * S + j]` for `j < L` |
| Windowing.TargetAligned | experiment.py:14-16 | every target chunk has length `L`, and `target[j] == tokens[k * S + j + 1]` for `j < L` |
| Windowing.Shifted | experiment.py:15-16 | the target equals the input without its first token, followed by the token right after the input, `tokens[k * S + L]` |
| Dataset.GPTDatasetV1.constructor | experiment.py:6-18 | after the loop, the stored input and target lists are exactly the windows of the token sequence at offsets `0, S, 2S, ...` below `T - L` |
| Dataset.GPTDatasetV1.Length | experiment.py:20-21 | the number of stored pairs is `ceil((T - L) / S)` when `T > L`, and 0 when `T <= L` |
| Dataset.GPTDatasetV1.Get | experiment.py:23-24 | pair `idx` is `tokens[idx*S .. idx*S+L)` and `tokens[idx*S+1 .. idx*S+L+1)`, both of length `L`, and `target[k] == input[k+1]` for `k < L - 1` |
| Dataset.SampleCounts | experiment.py:52-62 | on the tokens 0..9, `L = 4` with `S = 4`, `1` and `2` gives 2, 6 and 3 pairs, and `L = 10` gives none; sample pairs have the expected contents |

## Left out

- Tokenization: `tokenizer.encode` and the `tiktoken` GPT-2 encoding (experiment.py:11, 30) are an external library. The constructor takes the token ids as a `seq<int>` instead of text and a tokenizer.
- Tensors: `torch.tensor` (experiment.py:17-18) is a foreign type. Each chunk is a `seq<int>`.
- `create_dataloader_v1` (experiment.py:26-44): the `DataLoader` batching, shuffling, `drop_last` and `num_workers` are library code that is not part of this model. The shuffle is random and the workers are concurrent.
- The `__main__` driver (experiment.py:46-62) reads a text file and prints. `SampleCounts` runs its three window/stride settings on the fixed tokens 0..9 instead.
- Dataset.GPTDatasetV1.constructor: requires `max_length >= 1` and `stride >= 1`. Python raises `ValueError` for a zero stride. A negative stride yields no offsets when `T >= L`; when `T < L` it yields the offsets `0, S, 2S, ...` above `T - L`, whose chunks are truncated or, at negative offsets, wrapped around to the end of the tokens. Python does not check `max_length` at all. Slicing with `max_length <= 0` would then give empty or wrapped-around chunks, none of which the model reproduces.
- Dataset.GPTDatasetV1.Get: requires `0 <= idx < Length()`. Python list indexing also accepts negative indices, counting from the end, and raises `IndexError` beyond either end. The model does not cover either case.
