# ccwc core, modelled in Dafny

ccwc is a C++ clone of `wc`. It reads a command line of flags (`-l`, `-w`, `-c`, `-m`) and
file names. Each input becomes a byte stream: standard input, a buffered file, or a
memory-mapped file for files of 100 MiB or more. Every byte goes through a chain of four counting
state machines: lines, words, multibyte characters, then bytes. The chain adds to one `Counter`
per input. The formatter then renders one row per input through a chain of column handlers,
plus a total row when there is more than one input.

The project models that core, one Dafny module per source file:

- `Counter` (counter.dfy): the four totals, their field-wise sum, and the `Counter` object with
  `+=`.
- `CounterStateMachine` (counter_state_machine.dfy): the line, word, multibyte and byte machines
  of counter_state_machine.cpp as classes, and the chain `buildCounterStateMachineChain` links.
  Each method is proved against specification functions of the bytes fed since the last reset:
  `LineCount`, `WordCount`, `MultibyteRun`, `Tally` and `FinalTally`.
  `CounterStateMachineProperties` (counter_state_machine_properties.dfy) proves what those
  functions mean.
- `LinkedCounterStateMachine` (linked_counter_state_machine.dfy): the other chain, declared in
  counter_state_machine.hpp. It is a singly linked list of machines joined by `setNext`, and each
  machine hands its byte on with `passToNext`.
- `UniversalInputStream` (universal_input_stream.dfy): the three stream kinds, and
  `createInputStream`.
- `InputObjects` (input_objects.dfy): an input with its health status.
- `Processor` (processor.dfy): `doCount` as written, and a corrected version (see Findings).
- `FormatOptions` (output_format_options.dfy): the column options, the four `handle` overrides
  and the linked `FormatHandler` chain.
- `OutputFormatter` (output_formatter.dfy): options, `buildFormatChain` and `formatFile`.
- `ArgumentParser` (argument_parser.dfy): `processOption`, `parseArguments` and the `Arguments`
  object.
- `Wrappers` (wrappers.dfy): `Option`, `Result` and `Outcome`, the byte type, and the three
  exceptions the core raises: `FileOperationException` of exception.hpp,
  `InvalidArgumentException` (thrown by argument_parser.cpp, declared in a header that is not
  part of this model) and `std::runtime_error`.

The file system, standard input and the Boost.Locale conversion are parameters. A
`FileSystem` maps a name to its size and contents, or to the error its size query raises.
Standard input is a byte sequence. A `Converter` maps the complete-character prefix of the buffer
to its number of wide characters, or to a conversion error. The header variant's `mbrtowc_l` becomes a `Decoder`, which answers
"invalid", "incomplete" or "complete after n bytes".

Points where the code does not do what its comments and names suggest; the model follows the code:

- The multibyte machine does not decode byte by byte with error units. It buffers bytes and
  converts the complete characters at the head of the buffer once 4096 bytes are held. The
  tail left at `finalize` counts as one unit.
- `doCount` does not finalize the multibyte machine (Findings, row 1).
- A file that cannot be memory-mapped does not become an unhealthy input. The
  `std::runtime_error` leaves `parseArguments`, so the whole command line fails
  (`ArgumentParser.ParseArguments`).
- `formatFile` does not carry on after an unhealthy input. It writes that input's error
  message, stops, and writes no total row.
- counter_state_machine.hpp declares a base class with no `reset`, `finalize` or
  `passToNextState`, which the .cpp machines use. The .cpp chain is therefore taken as the one
  `doCount` runs. The header's linked chain is modelled as a second variant that nothing drives.

## Model

| member | source | states |
|---|---|---|
| Counter.ZeroIsIdentity | src/algorithm/counter.hpp:15-18 | The all-zero counts are a left and right identity of field-wise addition. |
| Counter.AddCommutes | src/algorithm/counter.hpp:28-37 | Field-wise addition of two counters does not depend on their order. |
| Counter.AddAssociates | src/algorithm/counter.hpp:28-37 | Field-wise addition regroups freely. |
| Counter.SumAppend | src/algorithm/counter.hpp:28-37 | Accumulating a concatenated list of counters gives the sum of the two partial totals. |
| Counter.SumOfSingleton | src/algorithm/counter.hpp:28-37 | Accumulating one counter from zero gives that counter. |
| Counter.SumPermutation | src/algorithm/counter.hpp:28-37 | Any reordering of the counters gives the same total. |
| Counter.Counter.constructor | src/algorithm/counter.hpp:15-23 | `Counter()` starts with every one of the four fields at zero. |
| Counter.Counter.AddAssign | src/algorithm/counter.hpp:28-37 | `+=` adds each of the four fields of the argument and answers the object itself. |
| CounterStateMachine.SequenceLength | src/algorithm/counter_state_machine.cpp:156-179 | A lead byte announces a UTF-8 sequence of at most four bytes. |
| CounterStateMachine.Utf8CharLength | src/algorithm/counter_state_machine.cpp:156-179 | The mask classification of a lead byte agrees with the range-based sequence length. |
| CounterStateMachine.Utf8CharLengthByRange | src/algorithm/counter_state_machine.cpp:148-179 | The mask tests give 1 exactly for bytes below 0x80, 2 for 0xC0-0xDF, 3 for 0xE0-0xEF, 4 for 0xF0-0xF7, and 0 for continuation bytes and 0xF8 and above. |
| CounterStateMachine.ContinuationPatternByRange | src/algorithm/counter_state_machine.cpp:152-153 | `(b & 0xC0) == 0x80` holds exactly for the bytes 0x80-0xBF. |
| CounterStateMachine.CompletePrefix | src/algorithm/counter_state_machine.cpp:183-211 | The number of bytes taken by complete characters never exceeds the buffer length. |
| CounterStateMachine.CompletePrefixAt | src/algorithm/counter_state_machine.cpp:188-209 | A lead byte followed by all the continuation bytes it announces is taken whole, and the scan goes on after it. |
| CounterStateMachine.CompletePrefixStopsAt | src/algorithm/counter_state_machine.cpp:192-206 | The scan stops at an invalid lead byte, at a truncated sequence, or at a bad continuation byte. |
| CounterStateMachine.LeadLength | src/algorithm/counter_state_machine.cpp:156-179 | Evaluating the masks of `utf8CharLength` gives the announced sequence length. |
| CounterStateMachine.CheckContinuation | src/algorithm/counter_state_machine.cpp:199-205 | The mask test answers true exactly for continuation bytes. |
| CounterStateMachine.CompleteCharAt | src/algorithm/counter_state_machine.cpp:188-209 | One round of the scan answers either 0, when no complete character starts there, or the length of the complete character that does. |
| CounterStateMachine.FinalTally | src/algorithm/counter_state_machine.cpp:45-316 | After feeding s and finalizing, the bytes, words and lines are exactly the byte count, word count and line count of s, and the multibyte count is at least what the flushes added. |
| CounterStateMachine.MultibyteStep | src/algorithm/counter_state_machine.cpp:249-263 | While the buffer stays under 4096 bytes, one more byte is appended and nothing is counted. |
| CounterStateMachine.MultibyteRunSnoc | src/algorithm/counter_state_machine.cpp:249-263 | The multibyte machine after one more byte is one more step from its state before it. |
| CounterStateMachine.FedSnoc | src/algorithm/counter_state_machine.cpp:35-254 | After one more byte the machines hold that byte, the word machine is inside a word exactly when the byte is not a space, and the multibyte buffer takes one step. |
| CounterStateMachine.TallySnoc | src/algorithm/counter_state_machine.cpp:45-316 | Feeding one more byte adds that byte's share of lines, words, multibyte characters and bytes to the running tally. |
| CounterStateMachine.LineMachine.UpdateState | src/algorithm/counter_state_machine.cpp:35-39 | The line machine holds the byte it was given. |
| CounterStateMachine.LineMachine.UpdateCounter | src/algorithm/counter_state_machine.cpp:45-53 | Lines go up by one exactly on a line feed, and nothing else changes. |
| CounterStateMachine.LineMachine.Reset | src/algorithm/counter_state_machine.cpp:57-61 | The held byte goes back to 0. |
| CounterStateMachine.WordMachine.UpdateState | src/algorithm/counter_state_machine.cpp:90-94 | The word machine holds the byte it was given and keeps its in-word flag. |
| CounterStateMachine.WordMachine.UpdateCounter | src/algorithm/counter_state_machine.cpp:100-118 | The machine is inside a word exactly when the byte is not a space; words go up by one exactly when a non-space byte arrives outside a word. |
| CounterStateMachine.WordMachine.Reset | src/algorithm/counter_state_machine.cpp:120-125 | The held byte goes back to 0 and the machine is outside any word. |
| CounterStateMachine.MultibyteMachine.FullCharsByteCount | src/algorithm/counter_state_machine.cpp:183-211 | The loop answers the number of bytes taken by complete characters at the head of the buffer. |
| CounterStateMachine.MultibyteMachine.FlushBuffer | src/algorithm/counter_state_machine.cpp:213-241 | An empty buffer, or one with no complete character at its head, is left alone. Otherwise the complete characters are converted, their count is added to `multibyte`, and only the rest stays. |
| CounterStateMachine.MultibyteMachine.UpdateState | src/algorithm/counter_state_machine.cpp:249-254 | The byte is appended to the buffer. |
| CounterStateMachine.MultibyteMachine.UpdateCounter | src/algorithm/counter_state_machine.cpp:256-263 | The buffer is flushed only when it holds at least 4096 bytes; below that nothing changes. |
| CounterStateMachine.MultibyteMachine.Reset | src/algorithm/counter_state_machine.cpp:265-269 | The buffer is emptied. |
| CounterStateMachine.MultibyteMachine.Finalize | src/algorithm/counter_state_machine.cpp:271-284 | The buffer is flushed, any tail left counts as one more unit, and the buffer ends empty. |
| CounterStateMachine.ByteMachine.UpdateState | src/algorithm/counter_state_machine.cpp:299-303 | The byte machine holds the byte it was given. |
| CounterStateMachine.ByteMachine.UpdateCounter | src/algorithm/counter_state_machine.cpp:309-316 | Bytes go up by one on every call, and nothing else changes. |
| CounterStateMachine.ByteMachine.Reset | src/algorithm/counter_state_machine.cpp:318-322 | The held byte goes back to 0. |
| CounterStateMachine.CounterChain.constructor | src/algorithm/counter_state_machine.cpp:340-349 | The built chain holds four fresh machines, each in the state of having been fed nothing, and the multibyte machine uses the given locale. |
| CounterStateMachine.CounterChain.UpdateState | src/algorithm/counter_state_machine.cpp:35-303 | Passing a byte down the chain leaves every machine holding it and the multibyte buffer one byte longer. |
| CounterStateMachine.CounterChain.UpdateCounter | src/algorithm/counter_state_machine.cpp:45-316 | Passed down the chain, the counter gains exactly that byte's Step; the word flag and multibyte buffer take their next state, and no other field of any counter in the chain changes. |
| CounterStateMachine.CounterChain.Reset | src/algorithm/counter_state_machine.cpp:57-322 | Every machine is back in its initial state, as if fed nothing. |
| CounterStateMachine.CounterChain.Finalize | src/algorithm/counter_state_machine.cpp:63-327 | Only the multibyte machine adds anything, by its flush and tail unit, and its buffer ends empty. |
| CounterStateMachineProperties.CompletePrefixDecomposes | src/algorithm/counter_state_machine.cpp:183-211 | The prefix that `fullCharsByteCount` reports splits into complete UTF-8 sequences. |
| CounterStateMachineProperties.CompletePrefixStops | src/algorithm/counter_state_machine.cpp:183-211 | No complete sequence starts where the scan stopped. |
| CounterStateMachineProperties.CompletePrefixIsLongest | src/algorithm/counter_state_machine.cpp:183-211 | No longer prefix of the buffer splits into complete sequences. |
| CounterStateMachineProperties.CompletePrefixOfAscii | src/algorithm/counter_state_machine.cpp:156-211 | An all-ASCII buffer is taken whole. |
| CounterStateMachineProperties.LineCountAppend | src/algorithm/counter_state_machine.cpp:45-53 | Line counts over a concatenation add up. |
| CounterStateMachineProperties.LineCountZero | src/algorithm/counter_state_machine.cpp:45-53 | The line count is at most the length, and is zero exactly when no line feed occurs. |
| CounterStateMachineProperties.WordLength | src/algorithm/counter_state_machine.cpp:100-118 | The run of non-space bytes at the head is no longer than the input. |
| CounterStateMachineProperties.WordLengthProperties | src/algorithm/counter_state_machine.cpp:100-118 | That run holds no space, and the byte just after it, if any, is a space. |
| CounterStateMachineProperties.WordsAreRuns | src/algorithm/counter_state_machine.cpp:100-118 | Every word is non-empty and holds no space byte. |
| CounterStateMachineProperties.WordCountAppend | src/algorithm/counter_state_machine.cpp:100-118 | Words over a concatenation are those of each side, less one when a word straddles the cut; the in-word flag after it is that of the second part. |
| CounterStateMachineProperties.WordCountOfSpace | src/algorithm/counter_state_machine.cpp:102-108 | A lone space byte counts no word and leaves the machine outside one. |
| CounterStateMachineProperties.WordCountOfRun | src/algorithm/counter_state_machine.cpp:110-116 | A non-empty run without spaces counts one word and ends inside it. |
| CounterStateMachineProperties.WordCountIsNumberOfRuns | src/algorithm/counter_state_machine.cpp:100-118 | The word machine counts exactly the maximal runs of non-space bytes. |
| CounterStateMachineProperties.MultibyteRunShort | src/algorithm/counter_state_machine.cpp:256-263 | Under 4096 bytes nothing is converted: the buffer holds every byte fed and the multibyte count is unchanged. |
| CounterStateMachineProperties.MultibyteRunStuck | src/algorithm/counter_state_machine.cpp:213-263 | A buffer whose first byte cannot lead a sequence is never flushed again, so no multibyte character is counted until a reset or finalize. |
| CounterStateMachineProperties.MultibyteRunOfAscii | src/algorithm/counter_state_machine.cpp:213-263 | On ASCII input, the bytes counted plus the bytes still buffered are all the bytes fed. |
| CounterStateMachineProperties.AsciiFinalizedCount | src/algorithm/counter_state_machine.cpp:213-284 | With `finalize`, the multibyte count of ASCII input equals its byte count. |
| CounterStateMachineProperties.TruncatedTailCountsOne | src/algorithm/counter_state_machine.cpp:271-284 | When complete characters are followed by a truncated or invalid sequence, a flush converts only the complete prefix and keeps a rest that starts with no complete character; `finalize` then adds one unit for that rest. If the prefix fails to convert, the flush drops the buffer and counts one. |
| CounterStateMachineProperties.SmallInputTally | src/algorithm/counter_state_machine.cpp:35-330 | "ab cd\nef\n" tallies 9 bytes, 3 words, 2 lines and no multibyte characters. |
| CounterStateMachineProperties.SmallInputWords | src/algorithm/counter_state_machine.cpp:100-118 | That input has three words. |
| CounterStateMachineProperties.SmallInputLines | src/algorithm/counter_state_machine.cpp:45-53 | That input has two lines. |
| LinkedCounterStateMachine.StateStep | src/algorithm/counter_state_machine.hpp:74-210 | Taking a byte never changes which kind of machine it is. |
| LinkedCounterStateMachine.OwnState | src/algorithm/counter_state_machine.hpp:124-221 | A machine's own part of `updateCounter` never changes its kind. |
| LinkedCounterStateMachine.CountFrom | src/algorithm/counter_state_machine.hpp:58-233 | `updateCounter` from a machine on keeps the length of the chain. |
| LinkedCounterStateMachine.CountFromKeepsKinds | src/algorithm/counter_state_machine.hpp:58-233 | Counting down the chain keeps every machine's kind in place. |
| LinkedCounterStateMachine.InvalidStopsTheChain | src/algorithm/counter_state_machine.hpp:223-232 | After an invalid sequence, the multibyte machine forwards nothing. The machines after it are untouched, only the multibyte field can change, and the invalid flag is cleared. |
| LinkedCounterStateMachine.FeedBuiltChain | src/algorithm/counter_state_machine.hpp:58-267 | One byte fed to the built chain gives these exact effects: lines +1 on a line feed; words +1 on a word start; the multibyte count by the completed character; bytes +1 exactly when the multibyte step was not invalid. When it was not invalid, the byte machine receives the first buffered byte. |
| LinkedCounterStateMachine.BuiltChainCountsLikeTheMachines | src/algorithm/counter_state_machine.hpp:92-267 | Over any input, the built chain counts exactly the lines and words the .cpp machines count. The byte and multibyte counts never exceed the length. |
| LinkedCounterStateMachine.FeedKeepsKinds | src/algorithm/counter_state_machine.hpp:254-267 | Feeding a byte keeps every machine's kind in place. |
| LinkedCounterStateMachine.Machine.SetNext | src/algorithm/counter_state_machine.hpp:48-52 | The successor is replaced by the given machine, which is answered. |
| LinkedCounterStateMachine.Machine.UpdateState | src/algorithm/counter_state_machine.hpp:74-210 | The machine's new state is the state step of its old state for that byte. |
| LinkedCounterStateMachine.Machine.UpdateCounter | src/algorithm/counter_state_machine.hpp:58-233 | The chain is kept, and the machines from this one on, together with the counter, end as CountFrom says. |
| LinkedCounterStateMachine.Machine.CountOwn | src/algorithm/counter_state_machine.hpp:79-140 | A simple machine adds its own share and takes its own next state. |
| LinkedCounterStateMachine.Machine.UpdateMultibyteCounter | src/algorithm/counter_state_machine.hpp:212-233 | The multibyte machine's `updateCounter` ends the chain and counter as CountFrom says. |
| LinkedCounterStateMachine.Machine.CountCompleted | src/algorithm/counter_state_machine.hpp:214-221 | A completed character of more than one byte adds one multibyte character, and the completed flag is cleared. |
| LinkedCounterStateMachine.Machine.ForwardValid | src/algorithm/counter_state_machine.hpp:223-232 | Unless the step was invalid, the first buffered byte goes to the successor, which then counts. The invalid flag is cleared either way. |
| LinkedCounterStateMachine.Machine.ClearInvalid | src/algorithm/counter_state_machine.hpp:232 | Only the invalid flag changes, and it is cleared. |
| LinkedCounterStateMachine.Machine.PassBuffered | src/algorithm/counter_state_machine.hpp:223-231 | The successor receives the first buffered byte, if any, and always counts. |
| LinkedCounterStateMachine.Machine.PassToNext | src/algorithm/counter_state_machine.hpp:58-65 | With a successor, the byte is handed on and the successor counts. Without one, nothing changes. |
| LinkedCounterStateMachine.BuildCounterStateMachineChain | src/algorithm/counter_state_machine.hpp:254-267 | Four fresh machines are linked as lines, words, multibyte, bytes, each in its initial state. |
| UniversalInputStream.InputStream.Standard | src/algorithm/universal_input_stream.cpp:22-70 | Standard input delivers its bytes from the start under the name "<stdin>". |
| UniversalInputStream.InputStream.Buffered | src/algorithm/universal_input_stream.cpp:140-143 | A buffered file delivers its contents when it opened, and nothing otherwise. |
| UniversalInputStream.InputStream.Mapped | src/algorithm/universal_input_stream.cpp:253-262 | A mapped file delivers its contents from position 0. |
| UniversalInputStream.InputStream.NextByte | src/algorithm/universal_input_stream.cpp:80-318 | Answers the byte at the cursor and moves it on by one; at the end it answers none and stays. The bytes still to come lose exactly that byte. |
| UniversalInputStream.InputStream.Reset | src/algorithm/universal_input_stream.cpp:93-329 | Standard input cannot rewind. A buffered file rewinds exactly when it is open, and a mapped file always rewinds. A rewind puts every byte back. |
| UniversalInputStream.InputStream.Size | src/algorithm/universal_input_stream.cpp:343-347 | The size of a mapping is the number of its bytes. |
| UniversalInputStream.InputStream.IsStdin | src/algorithm/universal_input_stream.cpp:72-303 | True exactly for standard input. |
| UniversalInputStream.InputStream.Name | src/algorithm/universal_input_stream.cpp:28-295 | "<stdin>" for standard input, the file name otherwise. |
| UniversalInputStream.StrategyFor | src/algorithm/universal_input_stream.cpp:349-371 | Files under 100 MiB are buffered; the others are memory-mapped. |
| UniversalInputStream.CreateInputStream | src/algorithm/universal_input_stream.cpp:353-371 | A failing size query raises a FileOperationException with its message. A large file that cannot be mapped raises "Failed to memory-map file: " plus the name. Otherwise the answer is a fresh stream of the chosen kind over the file. |
| UniversalInputStream.CreateStandardInputStream | src/algorithm/universal_input_stream.cpp:112-115 | A fresh standard input stream at the start of its bytes. |
| Processor.DoCount | src/algorithm/processor.hpp:19-48 | One counter per input, in order. A healthy input is read to its end and gets the unfinalized tally of its bytes. An unhealthy one gets zero but loses one byte of its stream. |
| Processor.CountInput | src/algorithm/processor.hpp:29-44 | One input is counted as Counted says, and the chain is left reset. |
| Processor.ReadInto | src/algorithm/processor.hpp:30-42 | A healthy stream is read to its end and its counter is the tally of exactly those bytes. An unhealthy one has one byte pulled and nothing counted. |
| Processor.Feed | src/algorithm/processor.hpp:40-41 | The chain has taken one more byte, and the counter gained that byte's Step. |
| Processor.DoCountCorrected | src/algorithm/processor.hpp:19-48 | As DoCount, but an unhealthy input's stream is untouched and a healthy input's counter is the finalized tally. |
| Processor.CountInputFinal | src/algorithm/processor.hpp:29-44 | One input counted with `finalize` before `reset`; an unhealthy one is skipped. |
| Processor.UnfinalizedCountDropsTail | src/algorithm/processor.hpp:29-44 | A non-empty ASCII input under 4096 bytes reports 0 multibyte characters as written, and its length once finalized. |
| Processor.UnhealthyInputLosesAByte | src/algorithm/processor.hpp:30-39 | For an unhealthy input with bytes left, the count as written moves its cursor one byte on, which the corrected count never does. |
| FormatOptions.ColumnOrderFollowsEnumeration | src/output_formatter/output_formatter.hpp:21-27 | The column order lines, words, multibyte, bytes is the enumeration order, and lists each option exactly once. |
| FormatOptions.Decimal | src/output_formatter/output_formatter.cpp:13-16 | `std::to_string` of a count is a non-empty string of digits with no leading zero, and "0" for zero. |
| FormatOptions.DecimalRoundTrip | src/output_formatter/output_formatter.cpp:13-16 | Reading the digits back gives the count. |
| FormatOptions.DecimalInjective | src/output_formatter/output_formatter.cpp:13-16 | Different counts render differently. |
| FormatOptions.Handle | src/output_formatter/output_formatter.cpp:13-61 | Each handler writes digits that read back as its column's field. |
| FormatOptions.RenderAppend | src/output_formatter/output_formatter.hpp:96-110 | A longer chain writes the later handlers' text after the earlier ones'. |
| FormatOptions.RenderColumnOrder | src/output_formatter/output_formatter.hpp:96-110 | The full chain writes lines, words, multibyte characters and bytes, in that order. |
| FormatOptions.FormatHandler.SetNext | src/output_formatter/output_formatter.hpp:74-79 | The successor is replaced by the given handler, which is answered. |
| FormatOptions.FormatHandler.DoHandle | src/output_formatter/output_formatter.hpp:96-110 | The caller's output buffer is extended in place by the text of every handler from this one to the end of the chain, and the answer is the buffer's new contents. |
| FormatOptions.OutputBuffer.constructor | src/output_formatter/output_formatter.hpp:96-96 | The string passed by reference to `doHandle` starts out holding the caller's text. |
| OutputFormatter.NormalizedProperties | src/output_formatter/output_formatter.cpp:162-172 | An empty choice becomes exactly lines, words and bytes, without multibyte. Any other choice is kept, and normalizing twice is normalizing once. |
| OutputFormatter.RowsOfHealthy | src/output_formatter/output_formatter.cpp:129-146 | When every input is healthy, all the rows are written. |
| OutputFormatter.RowsStopAt | src/output_formatter/output_formatter.cpp:129-152 | At the first unhealthy input, the rows before it are written, then its error message, then nothing more. |
| OutputFormatter.ReportStopsAtUnhealthy | src/output_formatter/output_formatter.cpp:111-160 | With an unhealthy input, the report is the rows before it and its message, with no total. |
| OutputFormatter.ReportOfHealthy | src/output_formatter/output_formatter.cpp:111-160 | With every input healthy, the report is one row per input and, for more than one input, the field-wise total row. |
| OutputFormatter.ReportOfOneFile | src/output_formatter/output_formatter.cpp:111-160 | A single healthy file is reported as its four counts and its name, with no total. |
| OutputFormatter.OutputFormatter.AddOption | src/output_formatter/output_formatter.cpp:74-77 | The option is added to the set and nothing is removed. |
| OutputFormatter.OutputFormatter.NormalizeFormattingOptions | src/output_formatter/output_formatter.cpp:162-172 | The options become their normalized set. |
| OutputFormatter.OutputFormatter.BuildFormatChain | src/output_formatter/output_formatter.cpp:79-109 | Four fresh handlers are linked in column order, each given the width and enabled exactly when its column was chosen. |
| OutputFormatter.OutputFormatter.FormatFile | src/output_formatter/output_formatter.cpp:111-160 | The answer is the Report of the counters and inputs. |
| OutputFormatter.TotalOf | src/output_formatter/output_formatter.cpp:116-121 | The loop adds up every counter. |
| OutputFormatter.WriteRows | src/output_formatter/output_formatter.cpp:128-152 | The loop writes the rows up to the first unhealthy input, then its message. It reports whether such an input exists. |
| OutputFormatter.WriteRow | src/output_formatter/output_formatter.cpp:134-146 | A row is the chain's columns, a space and the name unless the input is standard input, then a newline. |
| ArgumentParser.OptionOf | src/argument_parser/argument_parser.cpp:79-106 | Exactly "-l", "-w", "-c" and "-m" select a column, and those are two-character flags. |
| ArgumentParser.FlagRoundTrip | src/argument_parser/argument_parser.cpp:79-106 | Each column has exactly one flag, and no other argument selects it. |
| ArgumentParser.ErrorOf | src/argument_parser/argument_parser.cpp:21-106 | An unknown flag raises "Invalid argument: " plus the flag. A file that cannot be mapped raises the mapping error. Nothing else raises. |
| ArgumentParser.UnknownFlagsRejected | src/argument_parser/argument_parser.cpp:79-106 | A lone dash and combined flags such as "-lw" are rejected. |
| ArgumentParser.ParseErrorNone | src/argument_parser/argument_parser.cpp:109-141 | The command line raises nothing exactly when no argument does. |
| ArgumentParser.ParseErrorFirst | src/argument_parser/argument_parser.cpp:109-141 | The exception raised is that of the first argument that raises. |
| ArgumentParser.ParseErrorExtends | src/argument_parser/argument_parser.cpp:109-141 | Parsing stops at the first exception: later arguments change nothing. |
| ArgumentParser.FlagsAppend | src/argument_parser/argument_parser.cpp:109-141 | The columns chosen over a concatenation are the union of those of each part. |
| ArgumentParser.FilesAppend | src/argument_parser/argument_parser.cpp:109-141 | Files keep their command-line order whatever flags surround them. |
| ArgumentParser.FilesAreArguments | src/argument_parser/argument_parser.cpp:109-141 | Every file is an argument and not a flag. |
| ArgumentParser.Arguments.AddFormattingOptions | src/argument_parser/argument_parser.cpp:15-19 | The option joins the formatter's set. |
| ArgumentParser.Arguments.AddInputFile | src/argument_parser/argument_parser.cpp:21-40 | A mapping failure raises and adds nothing. Any other file appends one fresh entry: an unhealthy one over standard input carrying the error text when the size query failed, otherwise a healthy one over the file's stream. |
| ArgumentParser.Arguments.AddStdin | src/argument_parser/argument_parser.cpp:42-51 | A healthy standard input entry is added only when there is no input. |
| ArgumentParser.Arguments.NormalizeFormattingOptions | src/argument_parser/argument_parser.cpp:64-68 | The formatter's options become their normalized set. |
| ArgumentParser.ProcessOption | src/argument_parser/argument_parser.cpp:79-106 | A known flag adds its column. Any other argument raises "Invalid argument: " plus the argument and changes nothing. |
| ArgumentParser.ParseArguments | src/argument_parser/argument_parser.cpp:109-141 | The first exception of the arguments after the program name is the failure. Otherwise the columns are the normalized flags, and the inputs are one entry per file in order, or a healthy standard input entry when no file was named. |
| ArgumentParser.Finish | src/argument_parser/argument_parser.cpp:138-139 | After the loop, standard input is added when no file was named and the columns are normalized. |
| ArgumentParser.HandleArgument | src/argument_parser/argument_parser.cpp:119-136 | One argument either raises the command line's first exception or extends what was parsed. |
| ArgumentParser.ArgumentStep | src/argument_parser/argument_parser.cpp:119-136 | After arguments that raised nothing, one more argument raises its own exception, adds its column if it is a flag, and adds itself to the files otherwise. |
| ArgumentParser.AppendInput | src/argument_parser/argument_parser.cpp:21-40 | A new input over a new stream extends inputs that match their files. |

## Left out

- `InvalidArgumentException`: its declaration, and so the text its `what()` answers, is not part
  of this model; the model records the message argument_parser.cpp passes to it.
- `UniversalInputStream.CreateInputStream`: a failing mapping is modelled as the runtime error
  that `MemoryMappedFileInputStream` throws after `is_open()` fails
  (universal_input_stream.cpp:255-259). Boost's `mapped_file_source::open` usually throws its
  own exception first, with its own message. Either exception escapes `parseArguments`, so only
  the message text differs, and the model does not capture Boost's text.
- File system and standard input: they are oracles. `FileSystem` answers each name with its size
  query's result, its contents, and whether it opens and maps. Standard input is one byte
  sequence. Every standard input stream reads that same sequence from its start; the model has no
  process-wide cursor shared between two such streams.
- `BufferedFileInputStream`: its `std::ifstream` is its contents plus a flag saying whether it
  opened; `good()` is not modelled.
- Boost.Locale: the conversion in `flushBuffer`, its encoding lookup and its `conversion_error`
  handler become a `Converter` parameter. `boost::locale::generator().generate("")` is the same
  parameter, so a missing locale is not modelled.
- The header variant's decoder: `mbrtowc_l`, `newlocale`, `freelocale` and `MB_CUR_MAX` become
  the `Decoder` parameter. The `mbstate_t` is not modelled, `m_bufLen` is written but never
  read, and the "Failed to create UTF-8 locale" error of its constructor is not modelled.
- counter_state_machine.hpp: its chain lacks `reset` and `finalize`, so nothing in the model
  drives it past single bytes and whole inputs fed from the start.
- `FormatHandler` width and enabled flag: the `FormatHandler` constructor records both, and
  `BuildFormatChain` models `IsOptionEnabled` as membership in the option set. `doHandle`
  (output_formatter.hpp:96-110) reads neither, so no padding is modelled and every handler writes
  its column.
- `OutputFormatter.addCounter`, `m_outputs_to_format` and `Arguments::formatOutput` are left
  out. So is the mismatch between the `formatFile` signatures in output_formatter.hpp and
  output_formatter.cpp. main.cpp printing and exit codes are left out too.
- Counter: `std::size_t` wrap-around is not modelled; the four counts are unbounded naturals.
- `good()` on the three streams and the stream copy and move operations are left out.
- Concurrency and destructors are left out.

## Findings

| source | as written | input that shows it | evidently intended | confidence | as-written member | corrected member |
|---|---|---|---|---|---|---|
| src/algorithm/processor.hpp:40-43 | `doCount` resets the chain after each input and never calls `finalize`, so bytes still in the multibyte buffer are discarded uncounted | any non-empty ASCII file shorter than 4096 bytes: its multibyte count is 0 instead of its length | finalize the chain before the reset, so the tail is flushed and counted | not executed | Processor.UnfinalizedCountDropsTail | Processor.DoCountCorrected |
| src/algorithm/processor.hpp:30-39 | the inner loop calls `nextByte()` before it checks the input's health | a missing file: its entry is an unhealthy one over standard input, and one byte of standard input is consumed | leave an unhealthy input's stream alone | not executed | Processor.UnhealthyInputLosesAByte | Processor.DoCountCorrected |
