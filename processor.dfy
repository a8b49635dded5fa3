/** Model of src/algorithm/processor.hpp: `doCount`, which runs every input through one
    counting chain and collects a counter per input. */
module Processor {
  import opened Wrappers
  import opened Bytes
  import opened Counter
  import opened CounterStateMachine
  import opened UniversalInputStream
  import opened InputObjects
  import opened CounterStateMachineProperties

  /** `doCount` as written. The chain is built once with the given locale and reset after
      every input; `finalize` is never called, so the multibyte machine's tail is dropped. A
      byte is pulled from every input before its health is looked at, so an unhealthy input's
      stream loses its first byte. */
  method DoCount(inputs: seq<InputDataObject>, locale: Converter) returns (counters: seq<Counts>)
    requires WellFormed(inputs)
    modifies Streams(inputs)
    ensures WellFormed(inputs)
    ensures |counters| == |inputs|
    ensures forall i :: 0 <= i < |inputs| ==> Counted(inputs[i], old(inputs[i].stream.pos), counters[i], locale)
  {
    counters := [];
    var chain := new CounterChain(locale);
    for i := 0 to |inputs|
      invariant |counters| == i
      invariant WellFormed(inputs)
      invariant chain.Fed([]) && chain.multibyte.convert == locale
      invariant forall k :: 0 <= k < i ==> Counted(inputs[k], old(inputs[k].stream.pos), counters[k], locale)
      invariant forall k :: i <= k < |inputs| ==> inputs[k].stream.pos == old(inputs[k].stream.pos)
    {
      ghost var before := inputs[i].stream.pos;
      var counter := CountInput(chain, inputs[i], locale);
      assert forall k :: 0 <= k < |inputs| && k != i ==> inputs[k].stream != inputs[i].stream;
      counters := counters + [counter];
    }
  }

  /** What counting left behind for one input that started with its cursor at `start`: a
      healthy input was read to its end and counted by the chain's Tally; an unhealthy one
      counts nothing but had one byte pulled from it, if it had any. */
  ghost predicate Counted(input: InputDataObject, start: nat, c: Counts, locale: Converter)
    reads input.stream
  {
    && input.stream.Valid()
    && start <= |input.stream.data|
    && (input.health.isHealthy ==>
          c == Tally(locale, input.stream.data[start..]) && input.stream.pos == |input.stream.data|)
    && (!input.health.isHealthy ==>
          c == Zero && input.stream.pos == start + if start == |input.stream.data| then 0 else 1)
  }

  /** One pass of `doCount`'s outer loop: a fresh counter, the inner loop, then a reset of
      the chain. */
  method CountInput(chain: CounterChain, input: InputDataObject, locale: Converter) returns (c: Counts)
    requires input.stream.Valid()
    requires chain.Fed([]) && chain.multibyte.convert == locale
    modifies input.stream, chain.lines, chain.words, chain.multibyte, chain.bytes
    ensures chain.Fed([])
    ensures Counted(input, old(input.stream.pos), c, locale)
  {
    var counter := new Counter();
    ghost var consumed := ReadInto(chain, counter, input.stream, input.health.isHealthy, locale);
    chain.Reset();
    c := counter.Value();
  }

  /** `doCount`'s inner loop: pull a byte, stop at the end of the stream, stop at once when the
      input is unhealthy, and otherwise feed the byte to the chain. The ghost result is the
      bytes fed. */
  method ReadInto(chain: CounterChain, counter: Counter, stream: InputStream, healthy: bool, ghost locale: Converter)
    returns (ghost consumed: seq<byte>)
    requires stream.Valid()
    requires chain.Fed([]) && chain.multibyte.convert == locale
    requires counter.Value() == Zero
    modifies stream, chain.lines, chain.words, chain.multibyte, chain.bytes, counter
    ensures stream.Valid() && chain.Fed(consumed)
    ensures healthy ==>
              && stream.pos == |stream.data|
              && consumed == stream.data[old(stream.pos)..]
              && counter.Value() == Tally(locale, consumed)
    ensures !healthy ==>
              && consumed == [] && counter.Value() == Zero
              && stream.pos == old(stream.pos) + if old(stream.pos) == |stream.data| then 0 else 1
  {
    ghost var start := stream.pos;
    consumed := [];
    while true
      invariant stream.Valid() && start <= stream.pos
      invariant consumed == stream.data[start..stream.pos]
      invariant chain.Fed(consumed)
      invariant healthy ==> counter.Value() == Tally(locale, consumed)
      invariant !healthy ==> stream.pos == start && counter.Value() == Zero
      decreases |stream.data| - stream.pos
    {
      ghost var at := stream.pos;
      var b := stream.NextByte();
      if b.None? {
        break;
      }
      if !healthy {
        break;
      }
      assert stream.data[start..at + 1] == stream.data[start..at] + [b.value];
      Feed(chain, counter, b.value, consumed, locale);
      assert stream.pos == at + 1;
      TallySnoc(locale, consumed, b.value);
      consumed := consumed + [b.value];
    }
  }

  /** The chain's `updateState` and `updateCounter` for one byte, as `doCount`'s inner loop
      calls them on a healthy input. */
  method Feed(chain: CounterChain, counter: Counter, b: byte, ghost consumed: seq<byte>, ghost locale: Converter)
    requires chain.Fed(consumed) && chain.multibyte.convert == locale
    modifies chain.lines, chain.words, chain.multibyte, chain.bytes, counter
    ensures chain.Fed(consumed + [b])
    ensures counter.Value() == Add(old(counter.Value()), Step(locale, consumed, b))
  {
    chain.UpdateState(b, consumed);
    chain.UpdateCounter(counter, consumed, b);
  }

  /** `doCount` as evidently intended: an unhealthy input is skipped without touching its
      stream, and the chain is finalized before it is reset, so the multibyte machine's tail
      is counted. */
  method DoCountCorrected(inputs: seq<InputDataObject>, locale: Converter) returns (counters: seq<Counts>)
    requires WellFormed(inputs)
    modifies Streams(inputs)
    ensures WellFormed(inputs)
    ensures |counters| == |inputs|
    ensures forall i :: 0 <= i < |inputs| ==> CountedFinal(inputs[i], old(inputs[i].stream.pos), counters[i], locale)
  {
    counters := [];
    var chain := new CounterChain(locale);
    for i := 0 to |inputs|
      invariant |counters| == i
      invariant WellFormed(inputs)
      invariant chain.Fed([]) && chain.multibyte.convert == locale
      invariant forall k :: 0 <= k < i ==> CountedFinal(inputs[k], old(inputs[k].stream.pos), counters[k], locale)
      invariant forall k :: i <= k < |inputs| ==> inputs[k].stream.pos == old(inputs[k].stream.pos)
    {
      var counter := CountInputFinal(chain, inputs[i], locale);
      assert forall k :: 0 <= k < |inputs| && k != i ==> inputs[k].stream != inputs[i].stream;
      counters := counters + [counter];
    }
  }

  /** What the corrected count leaves behind: a healthy input is read to its end and counted
      by FinalTally; an unhealthy one counts nothing and its stream is untouched. */
  ghost predicate CountedFinal(input: InputDataObject, start: nat, c: Counts, locale: Converter)
    reads input.stream
  {
    && input.stream.Valid()
    && start <= |input.stream.data|
    && (input.health.isHealthy ==>
          c == FinalTally(locale, input.stream.data[start..]) && input.stream.pos == |input.stream.data|)
    && (!input.health.isHealthy ==> c == Zero && input.stream.pos == start)
  }

  /** One input of the corrected count. */
  method CountInputFinal(chain: CounterChain, input: InputDataObject, locale: Converter) returns (c: Counts)
    requires input.stream.Valid()
    requires chain.Fed([]) && chain.multibyte.convert == locale
    modifies input.stream, chain.lines, chain.words, chain.multibyte, chain.bytes
    ensures chain.Fed([])
    ensures CountedFinal(input, old(input.stream.pos), c, locale)
  {
    if !input.health.isHealthy {
      c := Zero;
      return;
    }
    var counter := new Counter();
    ghost var consumed := ReadInto(chain, counter, input.stream, true, locale);
    chain.Finalize(counter);
    chain.Reset();
    c := counter.Value();
  }

  /** Without `finalize`, a short ASCII input of at least one byte is reported with no
      multibyte characters at all, while the finalized count is its length, one character
      per byte. */
  lemma UnfinalizedCountDropsTail(convert: Converter, s: seq<byte>)
    requires AsciiFaithful(convert) && IsAscii(s)
    requires 0 < |s| < MaxBufferSize
    ensures Tally(convert, s).multibyte == 0
    ensures FinalTally(convert, s).multibyte == |s|
  {
    MultibyteRunShort(convert, s);
    AsciiFinalizedCount(convert, s);
  }

  /** An unhealthy input that still has bytes: counting it as written leaves its cursor one
      byte further on, while the corrected count leaves it where it was. */
  lemma UnhealthyInputLosesAByte(input: InputDataObject, start: nat, c: Counts, d: Counts, locale: Converter)
    requires !input.health.isHealthy && start < |input.stream.data|
    requires Counted(input, start, c, locale)
    ensures input.stream.pos == start + 1
    ensures !CountedFinal(input, start, d, locale)
  {
  }
}
