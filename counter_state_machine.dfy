/** Model of src/algorithm/counter_state_machine.cpp: the per-byte counting machines and the
    chain the driver feeds (lines, words, multibyte, bytes, each seeing every byte).

    The Boost.Locale conversion of a buffered byte string to wide characters is not part of
    the model: it is the `Converter` a multibyte machine is constructed with, which answers
    either a count of wide characters or a conversion error. */
module CounterStateMachine {
  import opened Bytes
  import opened Counter

  const LineFeed: byte := 0x0A

  /** `MAX_BUFFER_SIZE`: the multibyte machine converts once it holds this many bytes. */
  const MaxBufferSize: nat := 4096

  /** `std::isspace` in the C locale: ' ', '\t', '\n', '\v', '\f' and '\r'. */
  predicate IsSpace(b: byte)
  {
    b == 0x20 || (0x09 <= b && b <= 0x0D)
  }

  /** The length of the UTF-8 sequence a lead byte announces, by the byte ranges of section 3
      of RFC 3629 (0 for a byte that cannot lead). Unlike the RFC, 0xF5-0xF7 are taken as
      4-byte leads, as the source's masks do. */
  function SequenceLength(lead: byte): (n: nat)
    ensures n <= 4
  {
    if lead < 0x80 then 1
    else if lead < 0xC0 then 0
    else if lead < 0xE0 then 2
    else if lead < 0xF0 then 3
    else if lead < 0xF8 then 4
    else 0
  }

  /** `utf8CharLength`: classifies a lead byte with the masks 0x80, 0xE0, 0xF0 and 0xF8. */
  function Utf8CharLength(firstByte: byte): (n: nat)
    ensures n == SequenceLength(firstByte)
  {
    if firstByte & 0x80 == 0x00 then 1
    else if firstByte & 0xE0 == 0xC0 then 2
    else if firstByte & 0xF0 == 0xE0 then 3
    else if firstByte & 0xF8 == 0xF0 then 4
    else 0
  }

  /** The masks select exactly the byte ranges: 0xxxxxxx is 1, 110xxxxx is 2, 1110xxxx is 3,
      11110xxx is 4, and continuation bytes and 0xF8-0xFF are 0. */
  lemma Utf8CharLengthByRange(firstByte: byte)
    ensures Utf8CharLength(firstByte) == SequenceLength(firstByte)
    ensures Utf8CharLength(firstByte) == 1 <==> firstByte < 0x80
    ensures Utf8CharLength(firstByte) == 2 <==> 0xC0 <= firstByte < 0xE0
    ensures Utf8CharLength(firstByte) == 3 <==> 0xE0 <= firstByte < 0xF0
    ensures Utf8CharLength(firstByte) == 4 <==> 0xF0 <= firstByte < 0xF8
    ensures Utf8CharLength(firstByte) == 0 <==> (0x80 <= firstByte < 0xC0 || 0xF8 <= firstByte)
  {
  }

  /** A continuation byte, 10xxxxxx. */
  predicate IsContinuation(b: byte)
  {
    0x80 <= b < 0xC0
  }

  /** The source's continuation test, the mask 0xC0 against the value 0x80. */
  predicate HasContinuationPattern(b: byte)
  {
    b & 0xC0 == 0x80
  }

  lemma ContinuationPatternByRange(b: byte)
    ensures HasContinuationPattern(b) <==> IsContinuation(b)
  {
  }

  /** s begins with a lead byte followed by exactly the continuation bytes it announces. */
  predicate StartsWithCompleteChar(s: seq<byte>)
  {
    |s| > 0 &&
    var n := SequenceLength(s[0]);
    0 < n <= |s| && forall i :: 1 <= i < n ==> IsContinuation(s[i])
  }

  /** The number of bytes taken by the complete characters at the head of s, scanning until
      the first invalid lead, truncated sequence or bad continuation byte. */
  function CompletePrefix(s: seq<byte>): (p: nat)
    ensures p <= |s|
    decreases |s|
  {
    if StartsWithCompleteChar(s) then
      SequenceLength(s[0]) + CompletePrefix(s[SequenceLength(s[0])..])
    else
      0
  }

  /** CompletePrefix scanning from position pos: a complete character there is taken whole. */
  lemma CompletePrefixAt(s: seq<byte>, pos: nat)
    requires pos < |s| && 0 < SequenceLength(s[pos]) && pos + SequenceLength(s[pos]) <= |s|
    requires forall k :: pos + 1 <= k < pos + SequenceLength(s[pos]) ==> IsContinuation(s[k])
    ensures CompletePrefix(s[pos..]) == SequenceLength(s[pos]) + CompletePrefix(s[pos + SequenceLength(s[pos])..])
  {
    var t := s[pos..];
    assert forall i :: 1 <= i < SequenceLength(s[pos]) ==> t[i] == s[pos + i];
    assert StartsWithCompleteChar(t);
    assert t[SequenceLength(s[pos])..] == s[pos + SequenceLength(s[pos])..];
  }

  /** CompletePrefix scanning from position pos stops there when the lead byte is invalid, the
      character runs past the end, or the byte at position k inside it is no continuation. */
  lemma CompletePrefixStopsAt(s: seq<byte>, pos: nat, k: nat)
    requires pos < |s|
    requires || SequenceLength(s[pos]) == 0
             || pos + SequenceLength(s[pos]) > |s|
             || (pos < k < pos + SequenceLength(s[pos]) && k < |s| && !IsContinuation(s[k]))
    ensures CompletePrefix(s[pos..]) == 0
  {
    var t := s[pos..];
    if pos < k < pos + SequenceLength(s[pos]) && k < |s| {
      assert t[k - pos] == s[k];
    }
    assert !StartsWithCompleteChar(t);
  }

  /** `getUtf8CharLength` evaluated by its bit masks. */
  method LeadLength(firstByte: byte) returns (n: nat)
    ensures n == SequenceLength(firstByte)
  {
    Utf8CharLengthByRange(firstByte);
    n := Utf8CharLength(firstByte);
  }

  /** The continuation test `(byte & 0xC0) == 0x80` evaluated by its bit mask. */
  method CheckContinuation(b: byte) returns (r: bool)
    ensures r <==> IsContinuation(b)
  {
    ContinuationPatternByRange(b);
    r := HasContinuationPattern(b);
  }

  /** One round of `fullCharsByteCount`'s scan: the length of the complete character at
      position pos of buf, or 0 when the lead byte is invalid, the character is truncated or
      one of its continuation bytes is wrong. */
  method CompleteCharAt(buf: seq<byte>, pos: nat) returns (n: nat)
    requires pos < |buf|
    ensures n == 0 ==> CompletePrefix(buf[pos..]) == 0
    ensures n > 0 ==> pos + n <= |buf| && CompletePrefix(buf[pos..]) == n + CompletePrefix(buf[pos + n..])
  {
    var charLen := LeadLength(buf[pos]);
    if charLen == 0 || pos + charLen > |buf| {
      CompletePrefixStopsAt(buf, pos, pos);
      return 0;
    }
    for i := 1 to charLen
      invariant forall k :: pos + 1 <= k < pos + i ==> IsContinuation(buf[k])
    {
      var continues := CheckContinuation(buf[pos + i]);
      if !continues {
        CompletePrefixStopsAt(buf, pos, pos + i);
        return 0;
      }
    }
    CompletePrefixAt(buf, pos);
    n := charLen;
  }

  /** What `boost::locale::conv::to_utf<wchar_t>` makes of a byte string. */
  datatype Conversion = Converted(count: nat) | ConversionError

  /** The locale-dependent conversion, given to a multibyte machine when it is built. */
  type Converter = seq<byte> -> Conversion

  /** What is left in a multibyte buffer and what was added to `multibyte`. */
  datatype Flushed = Flushed(rest: seq<byte>, added: nat)

  /** The effect of `flushBuffer` on a buffer. */
  function Flush(convert: Converter, buffer: seq<byte>): Flushed
  {
    var p := CompletePrefix(buffer);
    if buffer == [] || p == 0 then
      Flushed(buffer, 0)
    else
      match convert(buffer[..p])
      case Converted(n) => Flushed(buffer[p..], n)
      case ConversionError => Flushed([], 1)
  }

  /** The multibyte machine after bytes s were fed to it from an empty buffer, one
      `updateState`/`updateCounter` pair per byte. */
  function MultibyteRun(convert: Converter, s: seq<byte>): Flushed
    decreases |s|
  {
    if s == [] then
      Flushed([], 0)
    else
      var previous := MultibyteRun(convert, s[..|s| - 1]);
      var f := MultibyteStep(convert, previous.rest, s[|s| - 1]);
      Flushed(f.rest, previous.added + f.added)
  }

  /** What `finalize` adds on top: the flush, and one unit for any tail left over. */
  function FinalizeAdded(convert: Converter, buffer: seq<byte>): nat
  {
    var f := Flush(convert, buffer);
    f.added + if f.rest != [] then 1 else 0
  }

  /** The number of line feed bytes in s. */
  function LineCount(s: seq<byte>): nat
    decreases |s|
  {
    if s == [] then 0
    else LineCount(s[..|s| - 1]) + if s[|s| - 1] == LineFeed then 1 else 0
  }

  /** The byte the line, word and byte machines hold after s (0 after a reset). */
  function LastByte(s: seq<byte>): byte
  {
    if s == [] then 0 else s[|s| - 1]
  }

  /** The word machine's `m_inWord` after s: the last byte was not a space. */
  predicate EndsInWord(s: seq<byte>)
  {
    |s| > 0 && !IsSpace(s[|s| - 1])
  }

  /** The words the word machine counts over s: the positions where a non-space byte
      follows a space or the start of the input. */
  function WordCount(s: seq<byte>): nat
    decreases |s|
  {
    if s == [] then
      0
    else
      WordCount(s[..|s| - 1]) + WordStep(s[..|s| - 1], s[|s| - 1])
  }

  /** What the whole chain adds to a Counter while it is fed s after a reset. */
  function Tally(convert: Converter, s: seq<byte>): Counts
  {
    Counts(|s|, WordCount(s), LineCount(s), MultibyteRun(convert, s).added)
  }

  /** What the chain adds when it is fed s after a reset and then finalized: the tail the
      multibyte machine still holds is flushed and, if anything is left, counted as one. */
  function FinalTally(convert: Converter, s: seq<byte>): (c: Counts)
    ensures c.bytes == |s| && c.words == WordCount(s) && c.lines == LineCount(s)
    ensures c.multibyte >= MultibyteRun(convert, s).added
  {
    var run := MultibyteRun(convert, s);
    Tally(convert, s).(multibyte := run.added + FinalizeAdded(convert, run.rest))
  }

  /** The multibyte machine's `updateCounter` on a buffer: a flush once it is full. */
  function FlushIfFull(convert: Converter, buffer: seq<byte>): Flushed
  {
    if |buffer| >= MaxBufferSize then Flush(convert, buffer) else Flushed(buffer, 0)
  }

  /** The multibyte machine's effect of one byte more. */
  function MultibyteStep(convert: Converter, buffer: seq<byte>, b: byte): (f: Flushed)
    ensures |buffer + [b]| < MaxBufferSize ==> f == Flushed(buffer + [b], 0)
  {
    FlushIfFull(convert, buffer + [b])
  }

  /** The word machine's increment for byte b after s. */
  function WordStep(s: seq<byte>, b: byte): nat
  {
    if !IsSpace(b) && !EndsInWord(s) then 1 else 0
  }

  /** The multibyte machine after one byte more. */
  lemma MultibyteRunSnoc(convert: Converter, s: seq<byte>, b: byte)
    ensures var f := MultibyteStep(convert, MultibyteRun(convert, s).rest, b);
            MultibyteRun(convert, s + [b]) == Flushed(f.rest, MultibyteRun(convert, s).added + f.added)
  {
    var t := s + [b];
    assert t[..|t| - 1] == s;
    assert t[|t| - 1] == b;
  }

  /** What one byte b, fed after s, adds to the counter. */
  function Step(convert: Converter, s: seq<byte>, b: byte): Counts
  {
    Counts(1, WordStep(s, b), if b == LineFeed then 1 else 0,
           MultibyteStep(convert, MultibyteRun(convert, s).rest, b).added)
  }

  /** The machines' state after one byte more. */
  lemma FedSnoc(convert: Converter, s: seq<byte>, b: byte)
    ensures LastByte(s + [b]) == b && EndsInWord(s + [b]) == !IsSpace(b)
    ensures MultibyteRun(convert, s + [b]).rest == MultibyteStep(convert, MultibyteRun(convert, s).rest, b).rest
  {
    MultibyteRunSnoc(convert, s, b);
  }

  /** Feeding one byte more adds Step to the Tally. */
  lemma TallySnoc(convert: Converter, s: seq<byte>, b: byte)
    ensures Tally(convert, s + [b]) == Add(Tally(convert, s), Step(convert, s, b))
  {
    var t := s + [b];
    assert t[..|t| - 1] == s;
    assert t[|t| - 1] == b;
    MultibyteRunSnoc(convert, s, b);
    assert LineCount(t) == LineCount(s) + if b == LineFeed then 1 else 0;
    assert WordCount(t) == WordCount(s) + WordStep(s, b);
  }

  /** `LineStateMachine`. */
  class LineMachine {
    var current: byte

    constructor ()
      ensures current == 0
    {
      current := 0;
    }

    method UpdateState(b: byte)
      modifies this
      ensures current == b
    {
      current := b;
    }

    method UpdateCounter(counter: Counter)
      modifies counter
      ensures counter.Value() ==
              old(counter.Value()).(lines := old(counter.lines) + if current == LineFeed then 1 else 0)
    {
      if current == LineFeed {
        counter.lines := counter.lines + 1;
      }
    }

    method Reset()
      modifies this
      ensures current == 0
    {
      current := 0;
    }
  }

  /** `WordStateMachine`. */
  class WordMachine {
    var current: byte
    var inWord: bool

    constructor ()
      ensures current == 0 && !inWord
    {
      current, inWord := 0, false;
    }

    method UpdateState(b: byte)
      modifies this`current
      ensures current == b
    {
      current := b;
    }

    /** A word starts where a non-space byte arrives outside a word. */
    method UpdateCounter(counter: Counter)
      modifies this`inWord, counter
      ensures inWord == !IsSpace(current)
      ensures counter.Value() ==
              old(counter.Value()).(words := old(counter.words) + if !IsSpace(current) && !old(inWord) then 1 else 0)
    {
      if IsSpace(current) {
        inWord := false;
      } else {
        if !inWord {
          counter.words := counter.words + 1;
          inWord := true;
        }
      }
    }

    method Reset()
      modifies this
      ensures current == 0 && !inWord
    {
      current := 0;
      inWord := false;
    }
  }

  /** `MultibyteStateMachine`: buffers raw bytes and converts the complete characters at the
      head of the buffer once it reaches MaxBufferSize bytes. The buffer has no bound: when
      its first byte cannot lead, nothing is ever converted and it keeps growing. */
  class MultibyteMachine {
    var buffer: seq<byte>
    const convert: Converter

    /** Construction captures the locale built from the environment. */
    constructor (locale: Converter)
      ensures buffer == [] && convert == locale
    {
      buffer := [];
      convert := locale;
    }

    /** `fullCharsByteCount`. */
    method FullCharsByteCount() returns (pos: nat)
      ensures pos == CompletePrefix(buffer)
    {
      pos := 0;
      var buf, len := buffer, |buffer|;
      while pos < len
        invariant pos <= len
        invariant CompletePrefix(buf) == pos + CompletePrefix(buf[pos..])
        decreases len - pos
      {
        var charLen := CompleteCharAt(buf, pos);
        if charLen == 0 {
          return;
        }
        pos := pos + charLen;
      }
    }

    /** `flushBuffer`: converts the complete characters at the head of the buffer. */
    method FlushBuffer(counter: Counter)
      modifies this`buffer, counter
      ensures var f := Flush(convert, old(buffer));
              buffer == f.rest && counter.Value() == old(counter.Value()).(multibyte := old(counter.multibyte) + f.added)
      ensures old(buffer) == [] || CompletePrefix(old(buffer)) == 0 ==>
                buffer == old(buffer) && counter.Value() == old(counter.Value())
      ensures old(buffer) != [] && CompletePrefix(old(buffer)) > 0 ==>
                match convert(old(buffer)[..CompletePrefix(old(buffer))])
                case Converted(n) =>
                  buffer == old(buffer)[CompletePrefix(old(buffer))..] && counter.multibyte == old(counter.multibyte) + n
                case ConversionError =>
                  buffer == [] && counter.multibyte == old(counter.multibyte) + 1
    {
      if |buffer| == 0 {
        return;
      }
      var flushBytes := FullCharsByteCount();
      if flushBytes == 0 {
        return;
      }
      match convert(buffer[..flushBytes])
      case Converted(n) =>
        counter.multibyte := counter.multibyte + n;
        buffer := buffer[flushBytes..];
      case ConversionError =>
        counter.multibyte := counter.multibyte + 1;
        buffer := [];
    }

    method UpdateState(b: byte)
      modifies this`buffer
      ensures buffer == old(buffer) + [b]
    {
      buffer := buffer + [b];
    }

    /** Converts only once the buffer holds MaxBufferSize bytes. */
    method UpdateCounter(counter: Counter)
      modifies this`buffer, counter
      ensures |old(buffer)| >= MaxBufferSize ==>
                var f := Flush(convert, old(buffer));
                buffer == f.rest && counter.Value() == old(counter.Value()).(multibyte := old(counter.multibyte) + f.added)
      ensures |old(buffer)| < MaxBufferSize ==> buffer == old(buffer) && counter.Value() == old(counter.Value())
    {
      if |buffer| >= MaxBufferSize {
        FlushBuffer(counter);
      }
    }

    method Reset()
      modifies this`buffer
      ensures buffer == []
    {
      buffer := [];
    }

    /** `finalize`: flushes, then counts any tail left over as one unit. */
    method Finalize(counter: Counter)
      modifies this`buffer, counter
      ensures buffer == []
      ensures counter.Value() ==
              old(counter.Value()).(multibyte := old(counter.multibyte) + FinalizeAdded(convert, old(buffer)))
    {
      FlushBuffer(counter);
      if buffer != [] {
        counter.multibyte := counter.multibyte + 1;
        buffer := [];
      }
    }
  }

  /** `ByteStateMachine`. */
  class ByteMachine {
    var current: byte

    constructor ()
      ensures current == 0
    {
      current := 0;
    }

    method UpdateState(b: byte)
      modifies this
      ensures current == b
    {
      current := b;
    }

    method UpdateCounter(counter: Counter)
      modifies counter
      ensures counter.Value() == old(counter.Value()).(bytes := old(counter.bytes) + 1)
    {
      counter.bytes := counter.bytes + 1;
    }

    method Reset()
      modifies this
      ensures current == 0
    {
      current := 0;
    }
  }

  /** The chain `buildCounterStateMachineChain` links: line, word, multibyte and byte machine,
      in that order, every one of them seeing every byte. The line, word and byte machines'
      `finalize` only forwards, so the chain's Finalize is the multibyte machine's. */
  class CounterChain {
    const lines: LineMachine
    const words: WordMachine
    const multibyte: MultibyteMachine
    const bytes: ByteMachine

    /** `buildCounterStateMachineChain`. */
    constructor (locale: Converter)
      ensures Fed([]) && multibyte.convert == locale
      ensures fresh(lines) && fresh(words) && fresh(multibyte) && fresh(bytes)
    {
      lines := new LineMachine();
      words := new WordMachine();
      multibyte := new MultibyteMachine(locale);
      bytes := new ByteMachine();
    }

    /** The machines are in the state that feeding s after a reset leaves them in. */
    ghost predicate Fed(s: seq<byte>)
      reads lines, words, multibyte, bytes
    {
      && lines.current == LastByte(s)
      && words.current == LastByte(s)
      && words.inWord == EndsInWord(s)
      && multibyte.buffer == MultibyteRun(multibyte.convert, s).rest
      && bytes.current == LastByte(s)
    }

    /** The machines after `updateState(b)` on a chain fed s: each holds b, and the multibyte
        machine has buffered it. */
    ghost predicate Pending(s: seq<byte>, b: byte)
      reads lines, words, multibyte, bytes
    {
      && lines.current == b
      && words.current == b
      && words.inWord == EndsInWord(s)
      && multibyte.buffer == MultibyteRun(multibyte.convert, s).rest + [b]
      && bytes.current == b
    }

    /** `updateState`, passed down the chain. The ghost `fed` names the bytes the chain was
        fed since its last reset. */
    method UpdateState(b: byte, ghost fed: seq<byte>)
      modifies lines, words, multibyte, bytes
      ensures lines.current == b && words.current == b && bytes.current == b
      ensures words.inWord == old(words.inWord)
      ensures multibyte.buffer == old(multibyte.buffer) + [b]
      ensures old(Fed(fed)) ==> Pending(fed, b)
    {
      lines.UpdateState(b);
      words.UpdateState(b);
      multibyte.UpdateState(b);
      bytes.UpdateState(b);
    }

    /** `updateCounter`, passed down the chain: each machine adds its share for the byte it
        holds. After `updateState(b)` on a chain fed s, the chain is fed s + [b] and the counter
        has grown by Step(s, b). */
    method UpdateCounter(counter: Counter, ghost fed: seq<byte>, ghost b: byte)
      modifies words`inWord, multibyte`buffer, counter
      ensures words.inWord == !IsSpace(words.current)
      ensures multibyte.buffer == FlushIfFull(multibyte.convert, old(multibyte.buffer)).rest
      ensures counter.Value() ==
              Add(old(counter.Value()),
                  Counts(1,
                         if !IsSpace(words.current) && !old(words.inWord) then 1 else 0,
                         if lines.current == LineFeed then 1 else 0,
                         FlushIfFull(multibyte.convert, old(multibyte.buffer)).added))
      ensures old(Pending(fed, b)) ==>
                Fed(fed + [b]) && counter.Value() == Add(old(counter.Value()), Step(multibyte.convert, fed, b))
    {
      lines.UpdateCounter(counter);
      words.UpdateCounter(counter);
      multibyte.UpdateCounter(counter);
      bytes.UpdateCounter(counter);
      FedSnoc(multibyte.convert, fed, b);
    }

    method Reset()
      modifies lines, words, multibyte, bytes
      ensures Fed([])
    {
      lines.Reset();
      words.Reset();
      multibyte.Reset();
      bytes.Reset();
    }

    method Finalize(counter: Counter)
      modifies multibyte, counter
      ensures multibyte.buffer == []
      ensures counter.Value() ==
              old(counter.Value()).(multibyte := old(counter.multibyte) + FinalizeAdded(multibyte.convert, old(multibyte.buffer)))
    {
      multibyte.Finalize(counter);
    }
  }
}
