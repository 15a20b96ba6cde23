# ZopfliDll compression scheme — Dafny model

ZopfliDll is an IIS compression-scheme DLL. The host calls `Compress` again and again with small input and output buffers. Levels 0 to 5 are handed to the system's gzip.dll at twice the requested intensity. Levels 6 to 10 use Zopfli, which needs the whole input at once. On those levels the context accumulates every non-empty chunk. The first empty chunk is the end-of-input signal: it compresses the accumulated input into the gzip container (RFC 1952) with 1, 5, 10, 15 or 20 iterations. The stored output is then handed back in slices of at most the host's capacity, with `S_FALSE` once all of it has been delivered.

The model has three modules:

- `Types` (`types.dfy`): bytes, a nullable buffer (`Option`) and the HRESULT values.
- `Session` (`session.dfy`): the batch path as pure functions over the context's batch fields (`State`: input buffer, stored output, cursor `output_used`). It holds level routing (`RouteFor`, `Iterations`), one call (`Step`, which routes a batch-level call to `Feed`, built from `EndOfInput` and `Drain`), runs of calls (`Run` for any per-call step, `Replay` for batch-path calls) and the lemmas about runs.
- `ZopfliDll` (`zopfli_dll.dfy`): the `CompressionContext` class, whose fields the calls update in place, and the imperative `Compress` method. `Compress` routes on the level and hands a batch call to the context's `Append` (a non-empty chunk) or `Finish` (end-of-input, which compresses and then calls `DrainInto`). Each method's postcondition ties the new fields, the reply and the bytes written into the host's `array<byte>` to the matching `Session` function.

Zopfli itself is a parameter `zopfli: (seq<byte>, int) -> Option<seq<byte>>`. It is deterministic in the whole input and the iteration count, and `None` stands for a NULL output buffer. A call routed to gzip.dll is modelled by the reply `Delegated(intensity)`: the model records that the call is made and with which intensity, and nothing about the delegate's results, including what it writes into the host's output buffer.

Where the code differs from its own comments or the intended protocol, the model follows the code:

- The level comment at ZopfliDll.cpp:111 says 1...10. The range check at line 114 also accepts 0, which goes to the delegate with intensity 0.
- A non-empty chunk after end-of-input is still appended and reported as consumed. It never changes the stored output once the cursor has moved (`OutputFrozen`).
- Recompression is guarded by `output_used == 0`, not by a "compressed" flag. A zero-capacity end-of-input call therefore leaves the next one to compress again (`ZeroCapacityRearms`). In the model, where a compression replaces the stored output, a deterministic compressor on unchanged input yields the same bytes again (`ReplayRoundTrip`).

## Model

| member | source | states |
|---|---|---|
| `Session.Iterations` | ZopfliDll.cpp:77 | levels 6..10 run Zopfli with the table's count, equal to the closed form 1 for level 6 and 5·(level−6) above it |
| `Session.IterationTable` | ZopfliDll.cpp:77 | levels 6, 7, 8, 9, 10 route to batch with exactly 1, 5, 10, 15, 20 iterations; level 0 goes to the delegate with intensity 0; −1 and 11 are rejected |
| `Session.RouteFor` | ZopfliDll.cpp:114-125 | a level is rejected exactly when it is below 0 or above 10; it goes to the delegate exactly when it is in 0..5, with intensity 2·level; otherwise it takes the batch path with `Iterations(level)` |
| `Session.Drain` | ZopfliDll.cpp:150-159 | the bytes handed out extend the delivered prefix `out[..used]`; at most the capacity, and either the whole capacity or everything left; the cursor advances by the count and stays within the output; status `S_FALSE` exactly when the cursor reaches the end, else `S_OK` |
| `Session.EndOfInput` | ZopfliDll.cpp:140-160 | with the cursor at 0 the stored output becomes Zopfli of the whole accumulated input, else it is untouched; `E_OUTOFMEMORY` exactly on a NULL result and `E_FAIL` exactly on an empty one; `S_FALSE` exactly when a non-empty output is fully delivered, and `S_OK` (with the whole capacity filled) in every other case; produced bytes are the stored output from the old cursor to the new one; input is unchanged and `input_used` is 0 |
| `Session.Feed` | ZopfliDll.cpp:130-160 | a non-empty chunk is appended whole after the accumulated input, reported consumed with `input_used` equal to its size and nothing written, and output and cursor are kept; an empty chunk is end-of-input |
| `Session.Step` | ZopfliDll.cpp:113-162 | out-of-range levels change nothing and are rejected (`E_INVALIDARG`); levels 0..5 change no batch field and forward with intensity 2·level; on 6..10 the call is `Feed` with the table's iteration count, where a chunk of size n > 0 is appended whole with `input_used == n` and `S_OK`, and size ≤ 0 is end-of-input; the cursor never decreases and the stored output never changes once the cursor is off 0 |
| `Session.Replay` | ZopfliDll.cpp:103-163 | a run of batch-path calls keeps the cursor within the stored output and yields one reply per call |
| `Session.ReplayConcat` | ZopfliDll.cpp:103-163 | the context carries everything between calls: a run of calls is its first part continued, from the context it left, by its second part, with the bytes and replies of both in order |
| `Session.ReplayChunks` | ZopfliDll.cpp:130-139 | on a batch level a run of non-empty chunks leaves the input buffer equal to the old buffer followed by all chunks in order, keeps output and cursor, writes nothing, and replies `S_OK` with `input_used` equal to each chunk's size |
| `Session.ReplayDrain` | ZopfliDll.cpp:150-159 | after compression, end-of-input calls hand out the stored output from the cursor on, without gap, duplicate or reorder, up to the total capacity; only the cursor changes |
| `Session.ReplayDrainReplies` | ZopfliDll.cpp:150-159 | in such a drain run, call i replies `S_FALSE` exactly when the capacities of calls 0..i cover the rest of the output, `S_OK` otherwise |
| `Session.ReplayRoundTrip` | ZopfliDll.cpp:142-159 | from cursor 0, end-of-input calls deliver the prefix of Zopfli's output that the capacities cover, and the stored output is that result; zero-capacity calls on the way are harmless |
| `Session.ReplayRoundTripReplies` | ZopfliDll.cpp:142-159 | from cursor 0, call i of an end-of-input run replies `S_FALSE` exactly when the capacities of calls 0..i cover Zopfli's whole output, `S_OK` otherwise |
| `Session.EndToEnd` | ZopfliDll.cpp:127-162 | a fresh context fed non-empty chunks and then end-of-input calls with enough total capacity delivers exactly Zopfli of the concatenated chunks, ends with the cursor at its end, and its last reply is `S_FALSE` |
| `Session.OutputFrozen` | ZopfliDll.cpp:142-148 | once the cursor is off 0, no run of batch-path calls changes the stored output, and cursor and input only grow |
| `Session.DrainedStaysDrained` | ZopfliDll.cpp:150 | once everything is delivered, any number of end-of-input calls return `S_FALSE` with nothing produced and no state change |
| `Session.ZeroCapacityRearms` | ZopfliDll.cpp:142-159 | a zero-capacity end-of-input call at cursor 0 returns `S_OK` with the cursor still 0, and the next end-of-input call behaves as if it had not happened |
| `ZopfliDll.CompressionContext.constructor` | ZopfliDll.cpp:90-93 | a new context has an empty input buffer, a NULL output buffer and cursor 0 |
| `ZopfliDll.CompressionContext.Destroy` | ZopfliDll.cpp:175-186 | every batch field is cleared: empty input, NULL output, cursor 0 |
| `ZopfliDll.CompressionContext.Reset` | ZopfliDll.cpp:199-204 | returns `S_OK` and changes nothing |
| `ZopfliDll.CompressionContext.Append` | ZopfliDll.cpp:130-136 | the input buffer becomes the old one followed by the chunk; output and cursor are untouched |
| `ZopfliDll.CompressionContext.DrainInto` | ZopfliDll.cpp:150-159 | the new fields and the reply are those of `Drain` at the host buffer's length; the first bytes of the host's buffer, as many as were produced, are the handed-out slice and the rest is untouched |
| `ZopfliDll.CompressionContext.Finish` | ZopfliDll.cpp:140-160 | the new fields and the reply are those of `EndOfInput`; the host's buffer receives the produced bytes and nothing else |
| `ZopfliDll.Compress` | ZopfliDll.cpp:103-163 | a NULL context or an out-of-range level is rejected (`E_INVALIDARG`) with nothing written; otherwise the new context fields and the reply are those of `Step`; on a batch level the first bytes of the host's buffer, as many as were produced, are the produced slice and the rest of the buffer is untouched; on levels 0..5 the buffer is left to the delegate and not constrained |

## Left out

- `InitCompression` and `DeInitCompression` (ZopfliDll.cpp:20-64): environment-string expansion, `LoadLibrary` and `GetProcAddress` are operating-system plumbing.
- The bodies and results of gzip.dll's `Compress`, `CreateCompression` and `DestroyCompression`. That library is outside this repository; the model records only the forwarded intensity. So `CompressionContext.constructor` leaves out the delegate session and the `E_FAIL` when gzip.dll was not loaded. `CompressionContext.Destroy` leaves out the call that destroys the delegate session and the final `delete`.
- The Zopfli algorithm and its gzip framing. The compressor is a function parameter. How the library treats an already-filled output buffer on a second compression cannot be seen here, so recompression replaces the stored output.
- The `ZopfliOptions` record: only its iteration count matters, and it is passed to the compressor directly.
- `Compress`: allocation failure of `realloc` and failure of `memcpy_s` (ZopfliDll.cpp:132-135, 154-155) are not modelled. Appending always succeeds. The model also does not capture that a failed `realloc` drops the old input buffer.
- `Compress`: the `LONG` cast of the remaining output size (ZopfliDll.cpp:153) is not modelled. The capacity is the length of the host's array, so it is never negative, and sizes are unbounded integers.
- Concurrency: a context is used by one caller at a time, and the code has no locking.
