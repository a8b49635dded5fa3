/** Properties of the counting machines' specification functions: the full-character prefix,
    the line and word counts against independent definitions, and the multibyte buffer. */
module CounterStateMachineProperties {
  import opened Bytes
  import opened Counter
  import opened CounterStateMachine

  /** s is a concatenation of complete UTF-8 sequences (lead byte plus the continuation
      bytes it announces). */
  predicate Decomposes(s: seq<byte>)
    decreases |s|
  {
    s == [] || (StartsWithCompleteChar(s) && Decomposes(s[SequenceLength(s[0])..]))
  }

  /** The prefix `fullCharsByteCount` reports splits into complete sequences ... */
  lemma {:induction false} CompletePrefixDecomposes(s: seq<byte>)
    ensures Decomposes(s[..CompletePrefix(s)])
    decreases |s|
  {
    var p := CompletePrefix(s);
    if p > 0 {
      var n := SequenceLength(s[0]);
      CompletePrefixDecomposes(s[n..]);
      var t := s[..p];
      assert t[0] == s[0];
      assert forall i :: 1 <= i < n ==> t[i] == s[i];
      assert t[n..] == s[n..][..CompletePrefix(s[n..])];
    }
  }

  /** ... the scan stopped where no complete sequence starts ... */
  lemma {:induction false} CompletePrefixStops(s: seq<byte>)
    ensures !StartsWithCompleteChar(s[CompletePrefix(s)..])
    decreases |s|
  {
    if StartsWithCompleteChar(s) {
      var n := SequenceLength(s[0]);
      CompletePrefixStops(s[n..]);
      assert s[n..][CompletePrefix(s[n..])..] == s[CompletePrefix(s)..];
    }
  }

  /** ... and no longer prefix splits into complete sequences. */
  lemma {:induction false} CompletePrefixIsLongest(s: seq<byte>, q: nat)
    requires q <= |s| && Decomposes(s[..q])
    ensures q <= CompletePrefix(s)
    decreases q
  {
    if q > 0 {
      var t := s[..q];
      var n := SequenceLength(s[0]);
      assert t[0] == s[0];
      assert forall i :: 1 <= i < n ==> t[i] == s[i];
      assert StartsWithCompleteChar(s);
      assert t[n..] == s[n..][..q - n];
      CompletePrefixIsLongest(s[n..], q - n);
    }
  }

  /** Every byte below 0x80 is a complete character by itself. */
  predicate IsAscii(s: seq<byte>)
  {
    forall i :: 0 <= i < |s| ==> s[i] < 0x80
  }

  lemma {:induction false} CompletePrefixOfAscii(s: seq<byte>)
    requires IsAscii(s)
    ensures CompletePrefix(s) == |s|
    decreases |s|
  {
    if s != [] {
      assert StartsWithCompleteChar(s);
      assert IsAscii(s[1..]);
      CompletePrefixOfAscii(s[1..]);
    }
  }

  /** Lines over a concatenation add up. */
  lemma {:induction false} LineCountAppend(a: seq<byte>, b: seq<byte>)
    ensures LineCount(a + b) == LineCount(a) + LineCount(b)
    decreases |b|
  {
    if b != [] {
      var b' := b[..|b| - 1];
      assert (a + b)[..|a + b| - 1] == a + b';
      LineCountAppend(a, b');
    } else {
      assert a + b == a;
    }
  }

  /** The line count is zero exactly when no line feed occurs, and never exceeds the length. */
  lemma {:induction false} LineCountZero(s: seq<byte>)
    ensures LineCount(s) <= |s|
    ensures LineCount(s) == 0 <==> LineFeed !in s
    decreases |s|
  {
    if s != [] {
      var s' := s[..|s| - 1];
      LineCountZero(s');
      assert s == s' + [s[|s| - 1]];
      assert LineFeed in s <==> LineFeed in s' || s[|s| - 1] == LineFeed;
    }
  }

  /** The length of the run of non-space bytes at the head of s. */
  function WordLength(s: seq<byte>): (k: nat)
    ensures k <= |s|
    decreases |s|
  {
    if s == [] || IsSpace(s[0]) then 0 else 1 + WordLength(s[1..])
  }

  /** The maximal runs of non-space bytes of s, front to back: an independent statement of
      what a word is. */
  function Words(s: seq<byte>): seq<seq<byte>>
    decreases |s|
  {
    if s == [] then []
    else if IsSpace(s[0]) then Words(s[1..])
    else
      var k := WordLength(s);
      assert k > 0;
      [s[..k]] + Words(s[k..])
  }

  lemma {:induction false} WordLengthProperties(s: seq<byte>)
    ensures forall i :: 0 <= i < WordLength(s) ==> !IsSpace(s[i])
    ensures WordLength(s) < |s| ==> IsSpace(s[WordLength(s)])
    decreases |s|
  {
    if s != [] && !IsSpace(s[0]) {
      WordLengthProperties(s[1..]);
    }
  }

  /** Every word is non-empty and holds no space. */
  lemma {:induction false} WordsAreRuns(s: seq<byte>)
    ensures forall w :: w in Words(s) ==> w != [] && forall i :: 0 <= i < |w| ==> !IsSpace(w[i])
    decreases |s|
  {
    if s != [] {
      if IsSpace(s[0]) {
        WordsAreRuns(s[1..]);
      } else {
        var k := WordLength(s);
        WordLengthProperties(s);
        WordsAreRuns(s[k..]);
      }
    }
  }

  /** Words over a concatenation: those of each side, less one when a word straddles the cut. */
  lemma {:induction false} WordCountAppend(a: seq<byte>, b: seq<byte>)
    ensures WordCount(a + b) ==
            WordCount(a) + WordCount(b) - if EndsInWord(a) && b != [] && !IsSpace(b[0]) then 1 else 0
    ensures EndsInWord(a + b) == if b == [] then EndsInWord(a) else EndsInWord(b)
    decreases |b|
  {
    if b == [] {
      assert a + b == a;
    } else {
      var b' := b[..|b| - 1];
      var x := b[|b| - 1];
      assert (a + b)[..|a + b| - 1] == a + b';
      WordCountAppend(a, b');
      if b' != [] {
        assert b'[0] == b[0];
      }
    }
  }

  lemma WordCountOfSpace(x: byte)
    requires IsSpace(x)
    ensures WordCount([x]) == 0 && !EndsInWord([x])
  {
    assert [x][..0] == [];
  }

  lemma {:induction false} WordCountOfRun(s: seq<byte>)
    requires s != [] && forall i :: 0 <= i < |s| ==> !IsSpace(s[i])
    ensures WordCount(s) == 1 && EndsInWord(s)
    decreases |s|
  {
    var s' := s[..|s| - 1];
    if s' != [] {
      WordCountOfRun(s');
    }
  }

  /** The word machine's count is the number of maximal non-space runs. */
  lemma {:induction false} WordCountIsNumberOfRuns(s: seq<byte>)
    ensures WordCount(s) == |Words(s)|
    decreases |s|
  {
    if s != [] {
      if IsSpace(s[0]) {
        assert s == [s[0]] + s[1..];
        WordCountOfSpace(s[0]);
        WordCountAppend([s[0]], s[1..]);
        WordCountIsNumberOfRuns(s[1..]);
      } else {
        var k := WordLength(s);
        WordLengthProperties(s);
        assert s == s[..k] + s[k..];
        WordCountOfRun(s[..k]);
        WordCountAppend(s[..k], s[k..]);
        WordCountIsNumberOfRuns(s[k..]);
      }
    }
  }

  /** While fewer than MaxBufferSize bytes were fed, nothing is converted: the machine holds
      them all and has counted nothing. */
  lemma {:induction false} MultibyteRunShort(convert: Converter, s: seq<byte>)
    requires |s| < MaxBufferSize
    ensures MultibyteRun(convert, s) == Flushed(s, 0)
    decreases |s|
  {
    if s != [] {
      var s', x := s[..|s| - 1], s[|s| - 1];
      assert s' + [x] == s;
      MultibyteRunShort(convert, s');
      MultibyteRunSnoc(convert, s', x);
    }
  }

  /** A buffer whose first byte cannot lead is never flushed: it grows with every byte, so no
      bound on its size holds. */
  lemma {:induction false} MultibyteRunStuck(convert: Converter, s: seq<byte>)
    requires s != [] && SequenceLength(s[0]) == 0
    ensures MultibyteRun(convert, s) == Flushed(s, 0)
    decreases |s|
  {
    var s' := s[..|s| - 1];
    var x := s[|s| - 1];
    assert s' + [x] == s;
    MultibyteRunSnoc(convert, s', x);
    if s' != [] {
      assert s'[0] == s[0];
      MultibyteRunStuck(convert, s');
    }
    assert MultibyteRun(convert, s').rest == s';
    assert !StartsWithCompleteChar(s);
    assert CompletePrefix(s) == 0;
    assert MultibyteStep(convert, s', x) == Flushed(s, 0);
  }

  /** A conversion that counts one wide character per ASCII byte. */
  ghost predicate AsciiFaithful(convert: Converter)
  {
    forall t :: IsAscii(t) ==> convert(t) == Converted(|t|)
  }

  /** On ASCII input the multibyte machine holds exactly the bytes it has not yet counted. */
  lemma {:induction false} MultibyteRunOfAscii(convert: Converter, s: seq<byte>)
    requires AsciiFaithful(convert) && IsAscii(s)
    ensures var r := MultibyteRun(convert, s);
            IsAscii(r.rest) && r.added + |r.rest| == |s|
    decreases |s|
  {
    if s != [] {
      var s' := s[..|s| - 1];
      assert IsAscii(s');
      MultibyteRunOfAscii(convert, s');
      var buffer := MultibyteRun(convert, s').rest + [s[|s| - 1]];
      assert IsAscii(buffer);
      CompletePrefixOfAscii(buffer);
      assert buffer[..|buffer|] == buffer;
    }
  }

  /** Hence, with finalize, the multibyte count on ASCII input is the byte count; without it
      (as the driver runs the machines) it is what the flushes reached. */
  lemma AsciiFinalizedCount(convert: Converter, s: seq<byte>)
    requires AsciiFaithful(convert) && IsAscii(s)
    ensures MultibyteRun(convert, s).added + FinalizeAdded(convert, MultibyteRun(convert, s).rest) == |s|
  {
    MultibyteRunOfAscii(convert, s);
    var rest := MultibyteRun(convert, s).rest;
    CompletePrefixOfAscii(rest);
    assert rest[..|rest|] == rest;
  }

  /** A buffer whose complete characters are followed by a truncated or otherwise invalid
      sequence: flushing converts only the complete prefix and keeps the rest, which starts
      with no complete character, and finalize counts that rest as one more character. When
      the prefix fails to convert, flushing drops the whole buffer and the error counts one. */
  lemma TruncatedTailCountsOne(convert: Converter, buffer: seq<byte>)
    requires CompletePrefix(buffer) < |buffer|
    ensures !StartsWithCompleteChar(buffer[CompletePrefix(buffer)..])
    ensures CompletePrefix(buffer) == 0 ==>
              Flush(convert, buffer) == Flushed(buffer, 0) && FinalizeAdded(convert, buffer) == 1
    ensures CompletePrefix(buffer) > 0 && convert(buffer[..CompletePrefix(buffer)]).Converted? ==>
              var n := convert(buffer[..CompletePrefix(buffer)]).count;
              Flush(convert, buffer) == Flushed(buffer[CompletePrefix(buffer)..], n) &&
              FinalizeAdded(convert, buffer) == n + 1
    ensures CompletePrefix(buffer) > 0 && convert(buffer[..CompletePrefix(buffer)]).ConversionError? ==>
              Flush(convert, buffer) == Flushed([], 1) && FinalizeAdded(convert, buffer) == 1
  {
    CompletePrefixStops(buffer);
  }

  /** "ab cd\nef\n": nine bytes, three words, two lines, and no multibyte count, since the input
      is shorter than MaxBufferSize and nothing finalizes it. */
  lemma SmallInputTally(convert: Converter)
    ensures Tally(convert, SmallInput) == Counts(9, 3, 2, 0)
  {
    MultibyteRunShort(convert, SmallInput);
    SmallInputWords();
    SmallInputLines();
  }

  const SmallInput: seq<byte> := [0x61, 0x62, 0x20, 0x63, 0x64, 0x0A, 0x65, 0x66, 0x0A]

  lemma SmallInputWords()
    ensures WordCount(SmallInput) == 3
  {
    var ab: seq<byte> := [0x61, 0x62];
    var cd: seq<byte> := [0x63, 0x64];
    var ef: seq<byte> := [0x65, 0x66];
    WordCountOfRun(ab);
    WordCountOfRun(cd);
    WordCountOfRun(ef);
    WordCountOfSpace(0x20);
    WordCountOfSpace(0x0A);
    WordCountAppend(ab, [0x20]);
    WordCountAppend(ab + [0x20], cd);
    WordCountAppend(ab + [0x20] + cd, [0x0A]);
    WordCountAppend(ab + [0x20] + cd + [0x0A], ef);
    WordCountAppend(ab + [0x20] + cd + [0x0A] + ef, [0x0A]);
    assert SmallInput == ab + [0x20] + cd + [0x0A] + ef + [0x0A];
  }

  lemma SmallInputLines()
    ensures LineCount(SmallInput) == 2
  {
    var s := SmallInput;
    assert s == s[..5] + s[5..];
    LineCountAppend(s[..5], s[5..]);
    LineCountZero(s[..5]);
    assert s[5..] == [0x0A, 0x65, 0x66] + [0x0A];
    LineCountAppend([0x0A, 0x65, 0x66], [0x0A]);
    assert [0x0A, 0x65, 0x66] == [0x0A] + [0x65, 0x66];
    LineCountAppend([0x0A], [0x65, 0x66]);
    LineCountZero([0x65, 0x66]);
  }
}
