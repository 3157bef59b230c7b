# dyplo-example-app, modelled in Dafny

The dyplo example application builds a pipeline of processing nodes that exchange fixed-size blocks through the
dyplo queue library.
- **The demo application** reads numbers from standard input and pushes them on an input queue. A tee copies each
  block to two queues. One copy gets 8 added to it, by an adder stage or the FPGA. A joining adder sums this
  stream with the untouched copy. A sink prints every sum on its own line.
- **The two DMA example programs** send test vectors to a joining adder in the FPGA and check that the sums it
  returns are `2 * i`.
  - One program copies the vectors through DMA.
  - The other fills zero-copy DMA blocks in place.

This project models the software parts of these programs:
- **The three software stages** (`ThreadedProcessSink`, `TeeProcess`, `JoiningAddProcess`) as classes over an
  abstract bounded block queue:
  - their setters and the start of their worker;
  - one iteration of their `process()` loop as a step method that also returns the queue calls it made;
  - their destructors.
- **The demo's per-block functions and parsing**: `process_block_add_constant`, `string_to_int` and `display_int`,
  with the C library text primitives they rely on (`isdigit`, `atoi`, `operator<<`, `operator>>` on a string).
- **The demo's input loop and wiring**: the loop that reads words and pushes them, and the wiring of the software
  branch.
- **The test vectors of the DMA examples**: `fillBuffer` with its unsigned 32-bit arithmetic, the per-block seeds,
  the `bytes_used` bookkeeping of the zero-copy program, and the verification loops with their exit codes.

### Modules

| file | module | models |
|---|---|---|
| int32.dfy | `Int32` | C `int` arithmetic computed modulo 2^32 |
| dyplo_queue.dfy | `DyploQueue` | the begin/end read/write and interrupt interface of a dyplo queue |
| software_processes.dfy | `SoftwareProcesses` | `softwareprocesses.hpp` |
| ctext.dfy | `CText` | `isdigit`, `isspace`, `atoi`, `operator<<` for `int`, `operator>>` into `std::string` |
| demo_app.dfy | `DemoApp` | `dyplodemoapp.cpp` |
| test_vectors.dfy | `TestVectors` | `fillBuffer` and the `2 * i` check, shared by both DMA programs |
| dma_example.dfy | `DmaExample` | `dyploexampledma.cpp` |
| zdma_example.dfy | `ZdmaExample` | `dyploexamplezdma.cpp` |

### How waiting and interruption are modelled

A blocking queue call has three possible results in the real program:
- it succeeds;
- it raises `InterruptedException`;
- it waits for the thread on the other side.

Here the waiting case is its own status, `WouldBlock`, and it changes nothing. Each stage keeps a resume point `pc`,
the call its thread is blocked in, so the next `Step` repeats that call.

Each stage records ghost histories: the elements it consumed from each input and those it sent to each output.
Its class invariant `Valid()` relates these histories.
- **Tee**: both outputs received exactly the consumed input stream. Only while the worker waits on the right output
  is the left output one block ahead.
- **Join**: both inputs are consumed equally far, and the output stream is their element-wise sum.

### What the demo prints

Two details of the code decide what the software branch prints:
1. `number_to_add` is 8, so each value `v` reaches the display as `(v + 8) + v`.
2. `string_to_int` keeps only the digits of a word, so "-1" is read as 1.

The input 8, 3, -1, one number per line, therefore comes out as 24, 14, 10. This is proved by
`DemoApp.DemoExample`.

## Model

| member | source | states |
|---|---|---|
| Int32.Wrap | dyploexampledma.cpp:41-42 | the 32-bit result of `seed + i` is the unique `int` congruent to the exact sum modulo 2^32; a sum already in range is unchanged |
| Int32.Add | dyploexampledma.cpp:95-101 | a lane of the adder the blocks are sent to adds in 32 bits: congruent to the exact sum, and equal to it when it fits in an `int` |
| Int32.WrapCongruent | dyploexamplezdma.cpp:116-123 | two values congruent modulo 2^32 wrap to the same `int` |
| Int32.WrapSum | dyploexamplezdma.cpp:116-123 | wrapping the operands first does not change a wrapped sum |
| DyploQueue.BlockQueue.constructor | dyplodemoapp.cpp:159 | a new queue of a given capacity is empty, with no block held and neither side interrupted |
| DyploQueue.BlockQueue.BeginRead | softwareprocesses.hpp:73 | raises once `interrupt_read` was called; otherwise hands out the first `n` elements when there are `n`, and waits when there are not (`ReadStatus`); changes nothing else |
| DyploQueue.BlockQueue.EndRead | softwareprocesses.hpp:76 | releasing `n` read elements drops exactly the first `n` elements of the queue |
| DyploQueue.BlockQueue.BeginWrite | softwareprocesses.hpp:151 | raises once `interrupt_write` was called; otherwise hands out a fresh window of `n` slots when the capacity allows it, and waits when it does not (`WriteStatus`) |
| DyploQueue.BlockQueue.EndWrite | softwareprocesses.hpp:154 | committing appends exactly the `n` elements written into the window |
| DyploQueue.BlockQueue.InterruptRead | softwareprocesses.hpp:53 | sets the read interruption and changes nothing else |
| DyploQueue.BlockQueue.InterruptWrite | softwareprocesses.hpp:121 | sets the write interruption and changes nothing else |
| SoftwareProcesses.ZipSum | softwareprocesses.hpp:247-248 | the join's output is as long as its inputs, and element `i` is `left[i] + right[i]` |
| SoftwareProcesses.ZipSumAppend | softwareprocesses.hpp:239-252 | summing two streams block by block is the same as summing them whole |
| SoftwareProcesses.JoinPairsBlocks | softwareprocesses.hpp:243-251 | output block `k` of a join is the sum of left block `k` and right block `k` |
| SoftwareProcesses.SinkIteration | softwareprocesses.hpp:73-76 | the calls of one sink iteration: `begin_read`, the callback, `end_read(blocksize)` |
| SoftwareProcesses.TeeIteration | softwareprocesses.hpp:148-163 | the calls of one tee iteration: `begin_read` on the input, `begin_write`/`end_write` on the left and then on the right output, `end_read` on the input |
| SoftwareProcesses.TeeOutcomeMeaning | softwareprocesses.hpp:143-188 | a tee step ends at a begin call exactly when it gets that far (every earlier call of the iteration granted) and that call raises or would wait; it moves a block exactly when every call is granted; it ends nowhere else |
| SoftwareProcesses.JoinIteration | softwareprocesses.hpp:243-251 | the calls of one join iteration: `begin_read` left, `begin_read` right, `begin_write`; `end_write`, `end_read` right, `end_read` left |
| SoftwareProcesses.JoinOutcomeMeaning | softwareprocesses.hpp:237-276 | a join step ends at a begin call exactly when it gets that far and that call raises or would wait; it moves a block exactly when every call is granted; it ends nowhere else |
| SoftwareProcesses.ThreadedProcessSink.constructor | softwareprocesses.hpp:44-48 | a new sink has no input and no worker |
| SoftwareProcesses.ThreadedProcessSink.SetInput | softwareprocesses.hpp:57-62 | the worker starts if and only if the queue given is non-null |
| SoftwareProcesses.ThreadedProcessSink.Start | softwareprocesses.hpp:86-89 | the worker runs with nothing consumed and nothing processed yet |
| SoftwareProcesses.ThreadedProcessSink.Step | softwareprocesses.hpp:64-84 | exactly one of three outcomes: `begin_read`, the callback, `end_read(blocksize)`, with the callback result recorded and exactly `blocksize` elements released; waiting, which changes nothing; or an interruption, which ends the loop with nothing processed or released; the writer's side of the input is untouched |
| SoftwareProcesses.ThreadedProcessSink.Destroy | softwareprocesses.hpp:50-55 | interrupts the input only when it is set, then joins the worker; no further block is processed, the input keeps its elements and its writer's side is untouched |
| SoftwareProcesses.TeeProcess.constructor | softwareprocesses.hpp:108-114 | a new tee has no endpoints and no worker |
| SoftwareProcesses.TeeProcess.Valid | softwareprocesses.hpp:143-164 | the tee invariant: while the worker runs, its three queues are distinct, the input block is held exactly between `begin_read` and `end_read`, and both outputs have received the consumed input stream, the left one a block ahead while the worker is at the right output |
| SoftwareProcesses.TeeProcess.SetInput | softwareprocesses.hpp:127-131 | sets the input; the worker runs if and only if all three endpoints are now set |
| SoftwareProcesses.TeeProcess.SetOutputLeft | softwareprocesses.hpp:132-136 | sets the left output; the worker runs if and only if all three endpoints are now set |
| SoftwareProcesses.TeeProcess.SetOutputRight | softwareprocesses.hpp:137-141 | sets the right output; the worker runs if and only if all three endpoints are now set |
| SoftwareProcesses.TeeProcess.TryStart | softwareprocesses.hpp:167-171 | starts the worker if and only if input, left and right output are all non-null |
| SoftwareProcesses.TeeProcess.Start | softwareprocesses.hpp:173-176 | the worker runs, at the top of its loop, with empty histories |
| SoftwareProcesses.TeeProcess.CopyBlockTo | softwareprocesses.hpp:150-154 | the output gains exactly the block held on the input, element for element |
| SoftwareProcesses.TeeProcess.CommitLeft | softwareprocesses.hpp:152-154 | the left output and its history gain the input block verbatim; the input is not yet released; the left output's reader side is untouched |
| SoftwareProcesses.TeeProcess.CommitRight | softwareprocesses.hpp:159-163 | the right output gains the input block verbatim, and only then is that block released from the input; the input's writer side and the right output's reader side are untouched |
| SoftwareProcesses.TeeProcess.FromRight | softwareprocesses.hpp:156-163 | from `begin_write` on the right output: the outcome that output's state dictates, where the worker is left, the calls made, the block copied and then released; the far side of each queue is untouched |
| SoftwareProcesses.TeeProcess.FromLeft | softwareprocesses.hpp:149-163 | from `begin_write` on the left output: the outcome the two outputs' states dictate, where the worker is left, the calls made, the block reaching the left output exactly when the step got past it and the right output only with the release; the far side of each queue is untouched |
| SoftwareProcesses.TeeProcess.FromInput | softwareprocesses.hpp:148-163 | one iteration from `begin_read`: the outcome the three queues' states dictate, where the worker is left, the calls made; the block goes verbatim to the left output, then to the right output, and is then released; the far side of each queue is untouched |
| SoftwareProcesses.TeeProcess.Step | softwareprocesses.hpp:143-188 | the outcome is the one the queue states dictate from the resume point (`TeeOutcome`), and the worker resumes where it stopped; the calls made are the next slice of one iteration's calls; the left output gains the block exactly when the step got past it, and a moved block is appended to the right output and released; an interruption ends the loop; the far side of each queue is untouched; the tee invariant is kept |
| SoftwareProcesses.TeeProcess.Destroy | softwareprocesses.hpp:116-125 | `interrupt_read` on the input, `interrupt_write` on the left and then the right output, each only when set, then the join of the thread; no further block is sent, every queue keeps its elements, and the far side of each distinct queue is untouched |
| SoftwareProcesses.JoiningAddProcess.constructor | softwareprocesses.hpp:202-208 | a new join has no endpoints and no worker |
| SoftwareProcesses.JoiningAddProcess.Valid | softwareprocesses.hpp:237-253 | the join invariant: while the worker runs, its three queues are distinct, each input block is held exactly between its `begin_read` and `end_read`, both inputs have been consumed equally far and the output stream is their element-wise sum |
| SoftwareProcesses.JoiningAddProcess.SetInputLeft | softwareprocesses.hpp:221-225 | sets the left input; the worker runs if and only if all three endpoints are now set |
| SoftwareProcesses.JoiningAddProcess.SetInputRight | softwareprocesses.hpp:226-230 | sets the right input; the worker runs if and only if all three endpoints are now set |
| SoftwareProcesses.JoiningAddProcess.SetOutput | softwareprocesses.hpp:231-235 | sets the output; the worker runs if and only if all three endpoints are now set |
| SoftwareProcesses.JoiningAddProcess.TryStart | softwareprocesses.hpp:255-259 | starts the worker if and only if output, left and right input are all non-null |
| SoftwareProcesses.JoiningAddProcess.Start | softwareprocesses.hpp:261-264 | the worker runs, at the top of its loop, with empty histories |
| SoftwareProcesses.JoiningAddProcess.AddBlocksToOutput | softwareprocesses.hpp:245-249 | the output gains exactly the element-wise sum of the two blocks held |
| SoftwareProcesses.JoiningAddProcess.CommitSum | softwareprocesses.hpp:247-251 | the sum is committed, then the right block and the left block are released; the output stream stays the element-wise sum of what was consumed; the far side of each queue is untouched |
| SoftwareProcesses.JoiningAddProcess.FromOutput | softwareprocesses.hpp:246-251 | from `begin_write` on the output: the outcome the output's state dictates, where the worker is left, the calls made, the blocks summed and released; the far side of each queue is untouched |
| SoftwareProcesses.JoiningAddProcess.FromInputRight | softwareprocesses.hpp:244-251 | from `begin_read` on the right input: the outcome the right input's and the output's states dictate, where the worker is left, the calls made, and the sum of the two blocks appended to the output; the far side of each queue is untouched |
| SoftwareProcesses.JoiningAddProcess.FromInputLeft | softwareprocesses.hpp:243-251 | one iteration: the outcome the three queues' states dictate, where the worker is left; acquire left, right, output; write the sum; release output, right, left; the far side of each queue is untouched |
| SoftwareProcesses.JoiningAddProcess.Step | softwareprocesses.hpp:237-276 | the outcome is the one the queue states dictate from the resume point (`JoinOutcome`), and the worker resumes where it stopped; the calls made are the next slice of one iteration's calls; a moved block appends `left[i] + right[i]` for every `i`; an interruption ends the loop; the far side of each queue is untouched; the join invariant is kept |
| SoftwareProcesses.JoiningAddProcess.Destroy | softwareprocesses.hpp:210-219 | `interrupt_read` on the left and the right input, `interrupt_write` on the output, each only when set, then the join of the thread; no further sum is sent, every queue keeps its elements, and the far side of each queue not shared with the other direction is untouched |
| CText.DigitPrefix | dyplodemoapp.cpp:107 | the `atoi` digit run is a prefix of the input, made of digits, and stops at the first non-digit |
| CText.SkipSpaces | dyplodemoapp.cpp:220 | skipping leading white space gives a shorter or equal string that starts with no white space |
| CText.SkipSpacesDropsSpaces | dyplodemoapp.cpp:220 | what is skipped is white space, and what is kept is the rest of the input |
| CText.AtoiOfDigits | dyplodemoapp.cpp:107 | `atoi` of a digit string is its decimal value, and `atoi("")` is 0 |
| CText.FormatNat | dyplodemoapp.cpp:113 | `operator<<` writes a natural number as a non-empty string of digits |
| CText.DecimalValueOfFormat | dyplodemoapp.cpp:113 | the digits written read back as the number |
| CText.AtoiOfFormat | dyplodemoapp.cpp:113 | `atoi` inverts `operator<<` on any `int`, including when a non-digit such as a newline follows |
| CText.TakeWord | dyplodemoapp.cpp:220 | a word read from a string that starts with a non-space character is not empty |
| CText.TakeWordIsLongestWord | dyplodemoapp.cpp:220 | the word is a prefix with no white space that stops only at white space or at the end |
| CText.ExtractWord | dyplodemoapp.cpp:220-221 | one `cin >> line`: eofbit is set exactly when nothing is left unread; a failed read (no word) sets eofbit; a word makes progress |
| CText.ExtractedWordHasNoSpaces | dyplodemoapp.cpp:220 | the word read contains no white space |
| CText.ExtractLeavesSuffix | dyplodemoapp.cpp:220 | what is left unread is the end of the input |
| CText.ExtractStopsAtSpace | dyplodemoapp.cpp:220 | a read that does not reach the end stops at white space |
| CText.ExtractAtEnd | dyplodemoapp.cpp:220-221 | a read that sets eofbit after a word took the input's last character into the word |
| CText.ExtractLeadingWord | dyplodemoapp.cpp:220 | reading from an input that starts with a word returns that word and leaves the rest, with eofbit exactly when nothing follows |
| CText.ExtractAfterSpace | dyplodemoapp.cpp:220 | leading white space does not change what is read |
| CText.IsDigit | dyplodemoapp.cpp:101 | `isdigit` in the "C" locale: the characters `0` to `9` |
| CText.IsSpace | dyplodemoapp.cpp:220 | `isspace` in the "C" locale, which `operator>>` uses to separate words: space, tab, newline, vertical tab, form feed, carriage return |
| CText.Atoi | dyplodemoapp.cpp:107 | `atoi`: leading white space, an optional sign, then the longest run of digits, 0 when there is none |
| CText.AtoiWithoutDigits | dyplodemoapp.cpp:107 | `atoi` of a string without any digit is 0 |
| CText.FormatInt | dyplodemoapp.cpp:113 | `operator<<` on an `int` writes a minus sign exactly for a negative value, followed by digits only |
| DemoApp.AddConstant | dyplodemoapp.cpp:88-92 | the stream with `raise` added to each element, with the same length |
| DemoApp.ProcessBlockAddConstant | dyplodemoapp.cpp:88-92 | `dest[i] == src[i] + raise` for every `i < blocksize`, also when `dest` and `src` alias; no other slot of `dest` changes |
| DemoApp.SoftwareBranch | dyplodemoapp.cpp:175-212 | the software branch keeps the length of the stream |
| DemoApp.SoftwareBranchDoubles | dyplodemoapp.cpp:175-212 | every value `v` reaches the display as `2v + 8` |
| DemoApp.JoinOutputIsSoftwareBranch | dyplodemoapp.cpp:192-210 | when the join consumed a prefix of the adder's output on its left input and a prefix of the tee's stream on its right input, its output so far is the software branch of a prefix of the tee's stream |
| DemoApp.StepTee | softwareprocesses.hpp:143-188 | a step of the tee thread keeps the right channel (the join's right input plus what the queue holds is what the tee committed to it, a prefix of the adder's stream) and both stages' invariants; it leaves the join's side of the shared queue untouched and says whether the tee thread still runs |
| DemoApp.StepJoin | softwareprocesses.hpp:237-276 | a step of the join thread keeps the right channel and both stages' invariants; it leaves the tee's side of the shared queue untouched and says whether the join thread still runs |
| DemoApp.SoftwareBranchSoFar | dyplodemoapp.cpp:192-210 | on a right channel from the tee, the join's right input is a prefix of the stream the tee sent the adder; so, if its left input is a prefix of what the adder made of that stream, its output so far is the software branch of a prefix of it |
| DemoApp.RunTeeAndJoin | dyplodemoapp.cpp:187-212 | under any interleaving of tee and join steps, both invariants and the right channel are kept, the join's right input stays a prefix of the stream the tee sends the adder, and with the adder's left-hand hypothesis the join's output is the software branch of a prefix of that stream |
| DemoApp.DigitsOf | dyplodemoapp.cpp:98-105 | the characters kept are digits, and no more than the word has |
| DemoApp.DigitsOfAppend | dyplodemoapp.cpp:98-105 | keeping the digits of a concatenation keeps the digits of each part, in order |
| DemoApp.DigitsOfDigits | dyplodemoapp.cpp:98-105 | a string of digits is kept whole |
| DemoApp.DigitsOfCounts | dyplodemoapp.cpp:98-105 | every digit of the word is kept and nothing else: each digit character occurs as often as in the word, any other character never |
| DemoApp.StringToInt | dyplodemoapp.cpp:94-109 | the result is the decimal value of the word's digits, in order; it is never negative; a word without digits gives 0 |
| DemoApp.NoDigitsGiveEmpty | dyplodemoapp.cpp:98-107 | a word with no digit leaves an empty digit string for `atoi` |
| DemoApp.ParsedValueOfFormat | dyplodemoapp.cpp:94-109 | `string_to_int` reads a printed number back as its magnitude: "-1" gives 1 |
| DemoApp.ParsedValueOfDigits | dyplodemoapp.cpp:94-109 | a digit string parses to its value, with or without a minus sign in front |
| DemoApp.ParsedValue | dyplodemoapp.cpp:94-109 | `string_to_int` as a function: the decimal value of the word's digits, never negative |
| DemoApp.SignDropped | dyplodemoapp.cpp:98-105 | a leading minus sign is dropped with the other non-digits |
| DemoApp.DisplayInt | dyplodemoapp.cpp:111-114 | `display_int` prints a non-empty line ending in `std::endl`'s newline |
| DemoApp.DisplayRoundTrip | dyplodemoapp.cpp:111-114 | the printed line reads back, with `atoi`, as the value displayed |
| DemoApp.WordsAfterWord | dyplodemoapp.cpp:217-224 | after a word followed by white space, both forms of the loop push that word and go on after it |
| DemoApp.WordsAfterSpace | dyplodemoapp.cpp:217-224 | both forms of the loop skip leading white space |
| DemoApp.ReadLines | dyplodemoapp.cpp:217-224 | words written one per line come back in order from both forms of the loop, whatever follows them |
| DemoApp.NoWordsInEmptyInput | dyplodemoapp.cpp:217-224 | neither form of the loop pushes anything for an empty input |
| DemoApp.TerminatedInputIsRead | dyplodemoapp.cpp:217-224 | when every line ends with a newline, both forms of the loop push every word, in order |
| DemoApp.AsWrittenDropsUnterminatedWord | dyplodemoapp.cpp:217-224 | when the last word has no newline after it, the loop as written pushes every word but the last, which the corrected loop pushes |
| DemoApp.LastWord | dyplodemoapp.cpp:217-224 | for an input that is one word with nothing after it, the loop as written pushes nothing and the corrected loop pushes the word |
| DemoApp.MissingFinalNewlineExample | dyplodemoapp.cpp:217-224 | for input such as "8\n3" the loop as written pushes only "8", the corrected loop pushes "8" and "3" |
| DemoApp.ParseAll | dyplodemoapp.cpp:223 | one parsed value per word read |
| DemoApp.ParseAllAt | dyplodemoapp.cpp:223 | value `i` is `string_to_int` of word `i` |
| DemoApp.ParseAllCons | dyplodemoapp.cpp:223 | a word pushed first gives the first value pushed, followed by the rest |
| DemoApp.WordsAsWritten | dyplodemoapp.cpp:217-224 | the words the loop as written pushes, one per turn until a read sets eofbit; no more words than characters |
| DemoApp.Words | dyplodemoapp.cpp:217-224 | the words `while (std::cin >> line)` reads, one per turn until a read finds no word; no more words than characters |
| DemoApp.IngestAsWritten | dyplodemoapp.cpp:217-224 | the loop as written pushes `string_to_int` of each word it reads before a read sets eofbit, one value per word, in order |
| DemoApp.Ingest | dyplodemoapp.cpp:217-224 | the loop `while (std::cin >> line)` pushes `string_to_int` of every word of the input, one value per word, in order |
| DemoApp.DisplayedCons | dyplodemoapp.cpp:111-114 | the display of a stream is the line of its first value followed by the display of the rest |
| DemoApp.Displayed | dyplodemoapp.cpp:111-114 | what the display stage prints for a stream: empty exactly for an empty stream, and otherwise ending in a newline |
| DemoApp.FormatAll | dyplodemoapp.cpp:113 | one printed word per value |
| DemoApp.FormatAllAt | dyplodemoapp.cpp:113 | word `i` is value `i` as `operator<<` writes it |
| DemoApp.Magnitudes | dyplodemoapp.cpp:94-109 | the non-negative magnitude of each value, which is the value itself or its negation |
| DemoApp.FormatIntIsWord | dyplodemoapp.cpp:113 | a printed number is one word: not empty, no white space |
| DemoApp.FormattedAreWords | dyplodemoapp.cpp:113 | every printed number of a stream is one word |
| DemoApp.ReadPrintedNumbers | dyplodemoapp.cpp:217-224 | numbers printed one per line are read back by either form of the loop as their magnitudes |
| DemoApp.DisplayedIsLines | dyplodemoapp.cpp:111-114 | the display stage prints the values it receives, one per line |
| DemoApp.DemoExample | dyplodemoapp.cpp:175-224 | the input 8, 3, -1, one per line, becomes 24, 14, 10 in the software branch |
| DemoApp.DoubledPlusEight | dyplodemoapp.cpp:177 | with `number_to_add` 8, the values 8, 3, 1 become 24, 14, 10 |
| DemoApp.WireSoftwareBranch | dyplodemoapp.cpp:159-212 | five fresh, pairwise distinct queues of capacity 2; the tee, the join and the display sink are bound as in steps 1 to 3 of `main`, each worker is running, and the tee and the join share only the right channel, on which `RightChannel` holds |
| DemoApp.RunSoftwareBranch | dyplodemoapp.cpp:159-212 | after the wiring and any interleaving of the tee and join threads, both invariants and the right channel hold and the join's right input is a prefix of what the tee sent the adder |
| DemoApp.WireTee | dyplodemoapp.cpp:192-194 | a fresh tee with block size 1 is bound to its input and both outputs, and its worker runs |
| DemoApp.WireJoin | dyplodemoapp.cpp:208-210 | a fresh join with block size 1 is bound to both inputs and its output, and its worker runs |
| DemoApp.WireDisplay | dyplodemoapp.cpp:187-212 | a fresh sink, running on the output queue, whose callback on every one-element block is `display_int` |
| TestVectors.Filled | dyploexampledma.cpp:38-43 | the sequence `seed, seed + 1, ..., seed + count - 1`, each in 32-bit arithmetic |
| TestVectors.FillValue | dyploexampledma.cpp:41-42 | `buffer[i] = seed + i` with an unsigned index: the value congruent to `seed + i` modulo 2^32, and exactly `seed + i` when that fits |
| TestVectors.FillBuffer | dyploexampledma.cpp:39-43 | `buffer[i] == seed + i` in 32 bits for every `i < count`; the slots from `count` on are unchanged |
| TestVectors.AddBlocks | dyploexampledma.cpp:95-101 | the block the adder returns: element `i` is the 32-bit sum of left and right element `i` |
| TestVectors.SeedsCancel | dyploexampledma.cpp:91-107 | when the two seeds cancel modulo 2^32, sample `i` of the sum is `2 * i` in 32 bits |
| TestVectors.SumOfFilledBlocks | dyploexampledma.cpp:91-107 | with cancelling seeds, the sum of two filled blocks is exactly `2 * i` at every index `i` |
| TestVectors.ExitCode | dyploexampledma.cpp:105-124 | exit code 0 exactly on success, and 2 exactly on a mismatch |
| TestVectors.CheckBlock | dyploexampledma.cpp:105-115 | reports success if and only if every sample `i < count` is `2 * i`; otherwise it reports the first mismatching sample, its expected and its actual value |
| DmaExample.ExampleSeedsGiveDoubledIndices | dyploexampledma.cpp:91-107 | seeds 1000 and -1000 make the sum `2 * i` at every one of the 4096 samples |
| DmaExample.DeviceRead | dyploexampledma.cpp:101 | after `read`, the buffer holds the block the device returned |
| DmaExample.RunDmaExample | dyploexampledma.cpp:81-124 | the left send is the block filled with 1000, the right send the block filled with -1000, both from the same buffer; the report and the exit code are those of the check of the returned block; when the device returns the sum of the two sends, the program reports 16384 bytes processed |
| ZdmaExample.Block.constructor | dyploexamplezdma.cpp:90-99 | a driver block is a fresh buffer of the requested size, with nothing used |
| ZdmaExample.DmaFifo.Reconfigure | dyploexamplezdma.cpp:97-99 | `reconfigure` gives `count` fresh free blocks of `blockBytes` bytes each, and nothing submitted |
| ZdmaExample.DmaFifo.Dequeue | dyploexamplezdma.cpp:105 | hands out the next free block, or waits when there is none |
| ZdmaExample.DmaFifo.Enqueue | dyploexamplezdma.cpp:107 | the driver receives the block's samples and its `bytes_used` as they are at that moment |
| ZdmaExample.BlockSeedsGiveDoubledIndices | dyploexamplezdma.cpp:113-139 | for every block index `i`, seeds `i * 1000` and `i * (-1000)`, computed unsigned, give the sum `2 * j` at every sample `j` |
| ZdmaExample.BlockSeed | dyploexamplezdma.cpp:116-123 | the seed `i * step` computed unsigned and passed as an `int`: congruent to `i * step` modulo 2^32, and exactly `i * step` when that fits |
| ZdmaExample.PrimeReader | dyploexamplezdma.cpp:103-108 | the reader's first `num_blocks` blocks are dequeued and re-enqueued, each with `bytes_used == bytes_per_block` |
| ZdmaExample.SendBlocks | dyploexamplezdma.cpp:113-126 | block `i` of a sender is submitted filled with seed `i * step` and with `bytes_used == bytes_per_block`, in order |
| ZdmaExample.VerifyBlocks | dyploexamplezdma.cpp:130-155 | reports `bytes_per_block * num_blocks` if and only if every sample of every block matches; otherwise it reports the first mismatch, in block order and then sample order |
| ZdmaExample.RunZdmaExample | dyploexamplezdma.cpp:94-155 | every enqueued block is marked full; each sender submits its two blocks with the right seeds; the report and the exit code come from checking the result blocks: 32768 bytes and exit 0 exactly when every sample `j` of every block is `2 * j`, otherwise exit 2 at the first mismatch, in block and then sample order, with its expected and actual values; when the device returns the sums, the check passes |
| ZdmaExample.DeviceSumsPass | dyploexamplezdma.cpp:113-147 | when every result block is the sum of the matching sent blocks, every result block holds `2 * j` at sample `j` |

## Left out

- Hardware control is not modelled: programming the FPGA, partitions, node configuration, routes, opening DMA and
  FIFO handles, `setDataTreshold` and the `HAVE_HARDWARE` build of the demo. These are foreign calls whose
  semantics the source does not show.
- `main.cpp` is not modelled. It has no logic of its own.
- The dyplo queue classes (`FixedMemoryQueue` and the file and DMA queues) are not part of this model.
  `DyploQueue.BlockQueue` states only the interface the stages use.
- Threads, real blocking and wake-ups are not modelled. A call that would wait returns `WouldBlock`, changes nothing
  and is repeated by the next `Step`.
- Concurrent interruption is not modelled. The destructors (`Destroy`) run the worker's pending call after the
  interrupts, which stands for the `m_thread.join()` that waits for the worker to leave its loop.
- The adder stage of the software build, `dyplo::ThreadedProcess`, is a library class and is not modelled as a
  class. Its per-block function is `DemoApp.ProcessBlockAddConstant`. `DemoApp.SoftwareBranchSoFar` takes as a
  hypothesis that what the join read on its left is a prefix of the adder's output; the right-hand side, from the tee
  through `toJoinRight` to the join, is proved for every interleaving of the two threads (`DemoApp.RightChannel`,
  kept by each `DemoApp.StepTee` and `DemoApp.StepJoin`, chained by `DemoApp.RunTeeAndJoin`). The adder and display
  threads take no part in that interleaving.
- Re-binding an endpoint after a stage has started (a second `start()` of the thread) is not modelled. The setters
  require the worker not to have started.
- The sink's `DEBUG_ASSERT(count >= blocksize)` is not modelled. `BlockQueue.BeginRead` grants exactly the block
  asked for.
- `push_one` on the demo's input queue is not modelled. `DemoApp.Ingest` and `DemoApp.IngestAsWritten` return the
  sequence pushed, without the queue's back-pressure.
- `std::cin`, `std::cout` and `std::cerr` are modelled as strings. Exit code 1 on a `std::exception` is not
  modelled; `TestVectors.ExitCode` covers 0 and 2.
- The zero-copy programs' result blocks are a parameter of `ZdmaExample.RunZdmaExample`. How the driver fills the
  reader's blocks, memory mapping and cache-coherence modes are not modelled.
- `ZdmaExample.DmaFifo.Dequeue` returns `None` where the real call would wait for the device to hand a block back.
  The fetch loop (dyploexamplezdma.cpp:128-132) dequeues from the reader's pool after all its blocks were enqueued
  and waits there for each result. The model does not dequeue at that point; the result blocks are a parameter of
  `ZdmaExample.RunZdmaExample` instead.
- `CText.Atoi` does not model overflow: integers are unbounded in this model, and `atoi` of a digit string that does
  not fit in an `int` is undefined in C.
- `DemoApp.AddConstant` and `SoftwareProcesses.ZipSum` do not model 32-bit overflow of `int` addition, which is
  undefined behaviour in C++ for the demo's `int` elements.
- `SoftwareProcesses.TeeProcess.Destroy` and `SoftwareProcesses.JoiningAddProcess.Destroy` promise the far side of
  a queue untouched only when that queue is not also one of the stage's other endpoints. Before the worker starts, the setters allow the same queue in two places, and then both
  of its sides are interrupted.
- `TestVectors.FillBuffer` requires `count <= buffer.Length`. The C function writes out of bounds otherwise.

## Findings

| source | as written | input that shows it | evidently intended | confidence | as-written member | corrected member |
|---|---|---|---|---|---|---|
| dyplodemoapp.cpp:217-224 | the loop reads a word and leaves the loop as soon as that read has set eofbit, before pushing the word it just read | "8\n3" with no newline after the 3: only 8 is pushed | every word is pushed, the last one included (`while (std::cin >> line)`) | not executed | DemoApp.IngestAsWritten, DemoApp.AsWrittenDropsUnterminatedWord, DemoApp.MissingFinalNewlineExample | DemoApp.Ingest, DemoApp.TerminatedInputIsRead |
