/** Model of src/algorithm/counter_state_machine.hpp, the earlier variant of the counting
    machines: each machine handles a byte and then passes it down a singly linked chain.

    The multibyte machine's decoder (`mbrtowc_l` on its buffer) is not part of the model: it is a
    `Decoder` that answers, for the buffered bytes, an invalid sequence, an incomplete one or a
    completed character of some length. */
module LinkedCounterStateMachine {
  import opened Wrappers
  import opened Bytes
  import opened Counter
  import opened CounterStateMachine

  /** The four machines of this variant. */
  datatype Kind = BytesKind | LinesKind | WordsKind | MultibyteKind

  /** What `mbrtowc_l` reports for the buffered bytes. */
  datatype Decoded = Invalid | Incomplete | Complete(length: nat)

  type Decoder = seq<byte> -> Decoded

  /** The fields of one machine. The byte, line and word machines use `byte` (and the word
      machine `inWord`); the multibyte machine uses the others. */
  datatype Snapshot = Snapshot(
    kind: Kind, byte: byte, inWord: bool,
    buffer: seq<byte>, charComplete: bool, charBytes: nat, invalid: bool)

  /** A machine as its constructor leaves it. */
  function Initial(kind: Kind): Snapshot
  {
    Snapshot(kind, 0, false, [], false, 0, false)
  }

  /** `updateState`: the simple machines store the byte; the multibyte machine appends it to its
      buffer and decodes, dropping the buffer on an invalid sequence and the decoded bytes on a
      completed character. */
  function StateStep(decode: Decoder, s: Snapshot, b: byte): (t: Snapshot)
    ensures t.kind == s.kind
  {
    if s.kind != MultibyteKind then
      s.(byte := b)
    else
      var buffer := s.buffer + [b];
      match decode(buffer)
      case Invalid => s.(invalid := true, buffer := [])
      case Incomplete => s.(buffer := buffer)
      case Complete(n) =>
        s.(charComplete := true, charBytes := n, buffer := if n <= |buffer| then buffer[n..] else [])
  }

  /** What a machine's `updateCounter` does to its own fields. */
  function OwnState(s: Snapshot): (t: Snapshot)
    ensures t.kind == s.kind
  {
    match s.kind
    case WordsKind => s.(inWord := !IsSpace(s.byte))
    case MultibyteKind => s.(charComplete := false, invalid := false)
    case _ => s
  }

  /** What a machine's `updateCounter` adds to the counter itself. */
  function OwnCount(s: Snapshot, c: Counts): Counts
  {
    match s.kind
    case BytesKind => c.(bytes := c.bytes + 1)
    case LinesKind => c.(lines := c.lines + if s.byte == LineFeed then 1 else 0)
    case WordsKind => c.(words := c.words + if !IsSpace(s.byte) && !s.inWord then 1 else 0)
    case MultibyteKind => c.(multibyte := c.multibyte + if s.charComplete && s.charBytes > 1 then 1 else 0)
  }

  /** What a machine hands its successor: nothing at all, or a call of `updateCounter`, after
      an `updateState` with the given byte if there is one. */
  datatype Forward = Stop | PassOn(feed: Option<byte>)

  /** The simple machines pass their byte on; the multibyte machine passes nothing after an
      invalid sequence and otherwise the first byte still buffered, if any. */
  function Forwarded(s: Snapshot): Forward
  {
    if s.kind != MultibyteKind then PassOn(Some(s.byte))
    else if s.invalid then Stop
    else PassOn(if s.buffer != [] then Some(s.buffer[0]) else None)
  }

  /** `updateCounter` of the first machine of ss, with everything it passes down the rest:
      the machines afterwards and the counter. */
  function CountFrom(decode: Decoder, ss: seq<Snapshot>, c: Counts): (r: (seq<Snapshot>, Counts))
    requires |ss| >= 1
    ensures |r.0| == |ss|
    decreases |ss|, 0
  {
    var head, counted := OwnState(ss[0]), OwnCount(ss[0], c);
    match Forwarded(ss[0])
    case Stop => ([head] + ss[1..], counted)
    case PassOn(feed) =>
      var passed := PassedTo(decode, ss[1..], counted, feed);
      ([head] + passed.0, passed.1)
  }

  /** `passToNext`: nothing without a successor; otherwise its `updateState` with the byte, if
      there is one, and its `updateCounter`. */
  function PassedTo(decode: Decoder, rest: seq<Snapshot>, c: Counts, feed: Option<byte>): (r: (seq<Snapshot>, Counts))
    ensures |r.0| == |rest|
    decreases |rest|, 1
  {
    if rest == [] then
      ([], c)
    else
      var next := if feed.Some? then StateStep(decode, rest[0], feed.value) else rest[0];
      CountFrom(decode, [next] + rest[1..], c)
  }

  /** A byte fed to the head of the chain: its `updateState`, then its `updateCounter`. */
  function Feed(decode: Decoder, ss: seq<Snapshot>, c: Counts, b: byte): (r: (seq<Snapshot>, Counts))
    requires |ss| >= 1
    ensures |r.0| == |ss|
  {
    CountFrom(decode, [StateStep(decode, ss[0], b)] + ss[1..], c)
  }

  /** The kinds of a chain of machines. */
  function Kinds(ss: seq<Snapshot>): (ks: seq<Kind>)
    ensures |ks| == |ss|
    ensures forall i :: 0 <= i < |ss| ==> ks[i] == ss[i].kind
  {
    seq(|ss|, i requires 0 <= i < |ss| => ss[i].kind)
  }

  /** The order `buildCounterStateMachineChain` links the machines in. */
  const ChainOrder: seq<Kind> := [LinesKind, WordsKind, MultibyteKind, BytesKind]

  /** Handling a byte changes no machine's kind. */
  lemma {:induction false} CountFromKeepsKinds(decode: Decoder, ss: seq<Snapshot>, c: Counts)
    requires |ss| >= 1
    ensures Kinds(CountFrom(decode, ss, c).0) == Kinds(ss)
    decreases |ss|
  {
    var r := CountFrom(decode, ss, c);
    var head, counted := OwnState(ss[0]), OwnCount(ss[0], c);
    match Forwarded(ss[0])
    case Stop =>
      assert forall i :: 1 <= i < |ss| ==> r.0[i] == ss[i];
    case PassOn(feed) =>
      var rest := ss[1..];
      if rest != [] {
        var next := if feed.Some? then StateStep(decode, rest[0], feed.value) else rest[0];
        var fed := [next] + rest[1..];
        CountFromKeepsKinds(decode, fed, counted);
        assert Kinds(fed) == Kinds(rest);
        assert forall i :: 1 <= i < |ss| ==> r.0[i] == CountFrom(decode, fed, counted).0[i - 1];
      }
  }

  /** A multibyte machine that found an invalid sequence hides the byte: no later machine is
      touched, and the counter gains at most a multibyte character. */
  lemma InvalidStopsTheChain(decode: Decoder, ss: seq<Snapshot>, c: Counts)
    requires |ss| >= 1 && ss[0].kind == MultibyteKind && ss[0].invalid
    ensures CountFrom(decode, ss, c).0[1..] == ss[1..]
    ensures CountFrom(decode, ss, c).1 == c.(multibyte := CountFrom(decode, ss, c).1.multibyte)
    ensures !CountFrom(decode, ss, c).0[0].invalid
  {
    assert Forwarded(ss[0]) == Stop;
    assert CountFrom(decode, ss, c).0 == [OwnState(ss[0])] + ss[1..];
  }

  /** One byte through the chain as `buildCounterStateMachineChain` links it: the line machine
      counts a line feed, the word machine a non-space byte after a space, the multibyte machine
      a completed character of more than one byte, and the byte machine every byte the
      multibyte machine did not find invalid. Only the multibyte machine's buffer reaches the
      byte machine. */
  lemma FeedBuiltChain(decode: Decoder, ss: seq<Snapshot>, c: Counts, b: byte)
    requires Kinds(ss) == ChainOrder
    ensures var r := Feed(decode, ss, c, b);
            var m := StateStep(decode, ss[2], b);
            && r.1.lines == c.lines + (if b == LineFeed then 1 else 0)
            && r.1.words == c.words + (if !IsSpace(b) && !ss[1].inWord then 1 else 0)
            && r.1.multibyte == c.multibyte + (if m.charComplete && m.charBytes > 1 then 1 else 0)
            && r.1.bytes == c.bytes + (if m.invalid then 0 else 1)
            && r.0[1].inWord == !IsSpace(b)
            && r.0[2] == OwnState(m)
            && (m.invalid ==> r.0[3] == ss[3])
            && (!m.invalid && m.buffer != [] ==> r.0[3].byte == m.buffer[0])
  {
    var m := StateStep(decode, ss[2], b);
    var c2 := BuiltChainParts(decode, ss, c, b);
    var tail := MultibyteThenBytes(decode, m, ss[3], c2);
  }

  /** Feed on the built chain, down to what the multibyte machine and the byte machine do. */
  lemma {:induction false} BuiltChainParts(decode: Decoder, ss: seq<Snapshot>, c: Counts, b: byte)
    returns (c2: Counts)
    requires Kinds(ss) == ChainOrder
    ensures ss[0].kind == LinesKind && ss[1].kind == WordsKind
    ensures ss[2].kind == MultibyteKind && ss[3].kind == BytesKind
    ensures c2 == Counts(c.bytes, c.words + (if !IsSpace(b) && !ss[1].inWord then 1 else 0),
                         c.lines + (if b == LineFeed then 1 else 0), c.multibyte)
    ensures var r := Feed(decode, ss, c, b);
            var tail := CountFrom(decode, [StateStep(decode, ss[2], b), ss[3]], c2);
            && r.1 == tail.1
            && r.0[1].inWord == !IsSpace(b) && r.0[2] == tail.0[0] && r.0[3] == tail.0[1]
  {
    assert ss[0].kind == LinesKind && ss[1].kind == WordsKind;
    assert ss[2].kind == MultibyteKind && ss[3].kind == BytesKind;
    var l := StateStep(decode, ss[0], b);
    var w := StateStep(decode, ss[1], b);
    var m := StateStep(decode, ss[2], b);
    var c1 := OwnCount(l, c);
    c2 := OwnCount(w, c1);
    assert ss[3..] == [ss[3]];
    SimpleHead(decode, w, ss[2..], c1);
    assert [m] + ss[2..][1..] == [m, ss[3]];
    SimpleHead(decode, l, ss[1..], c);
    assert [w] + ss[1..][1..] == [w] + ss[2..];
  }

  /** The multibyte machine followed by the byte machine: the byte machine is left alone after
      an invalid byte, and otherwise gets the first byte still buffered, if any. */
  lemma MultibyteThenBytes(decode: Decoder, m: Snapshot, y: Snapshot, c: Counts) returns (r: (seq<Snapshot>, Counts))
    requires m.kind == MultibyteKind && y.kind == BytesKind
    ensures r == CountFrom(decode, [m, y], c)
    ensures m.invalid ==> r == ([OwnState(m), y], OwnCount(m, c))
    ensures !m.invalid ==>
              var fed := if m.buffer != [] then StateStep(decode, y, m.buffer[0]) else y;
              r == ([OwnState(m), OwnState(fed)], OwnCount(fed, OwnCount(m, c)))
  {
    r := CountFrom(decode, [m, y], c);
    CountFromCons(decode, m, [y], c);
    assert [m] + [y] == [m, y];
    if m.invalid {
      assert Forwarded(m) == Stop;
      assert [OwnState(m)] + [y] == [OwnState(m), y];
    } else {
      var fed := if m.buffer != [] then StateStep(decode, y, m.buffer[0]) else y;
      assert Forwarded(m) == PassOn(if m.buffer != [] then Some(m.buffer[0]) else None);
      CountFromCons(decode, fed, [], OwnCount(m, c));
      assert [fed] + [] == [fed] && [OwnState(fed)] + [] == [OwnState(fed)];
      assert [y][1..] == [];
      assert [OwnState(m)] + [OwnState(fed)] == [OwnState(m), OwnState(fed)];
    }
  }

  /** A byte, line or word machine at the head of a chain passes its byte to the next one. */
  lemma SimpleHead(decode: Decoder, s: Snapshot, rest: seq<Snapshot>, c: Counts)
    requires s.kind != MultibyteKind && rest != []
    ensures var passed := CountFrom(decode, [StateStep(decode, rest[0], s.byte)] + rest[1..], OwnCount(s, c));
            CountFrom(decode, [s] + rest, c) == ([OwnState(s)] + passed.0, passed.1)
  {
    CountFromCons(decode, s, rest, c);
  }

  /** CountFrom on a chain given by its head and the rest. */
  lemma CountFromCons(decode: Decoder, s: Snapshot, rest: seq<Snapshot>, c: Counts)
    ensures CountFrom(decode, [s] + rest, c) ==
            match Forwarded(s)
            case Stop => ([OwnState(s)] + rest, OwnCount(s, c))
            case PassOn(feed) =>
              var passed := PassedTo(decode, rest, OwnCount(s, c), feed);
              ([OwnState(s)] + passed.0, passed.1)
  {
    assert ([s] + rest)[1..] == rest;
  }

  /** The bytes of s fed one after the other to the head of the chain. */
  function FeedAll(decode: Decoder, ss: seq<Snapshot>, c: Counts, s: seq<byte>): (r: (seq<Snapshot>, Counts))
    requires |ss| >= 1
    ensures |r.0| == |ss|
    decreases |s|
  {
    if s == [] then
      (ss, c)
    else
      var before := FeedAll(decode, ss, c, s[..|s| - 1]);
      Feed(decode, before.0, before.1, s[|s| - 1])
  }

  /** The chain `buildCounterStateMachineChain` links, as its constructors leave it. */
  const BuiltChain: seq<Snapshot> :=
    [Initial(LinesKind), Initial(WordsKind), Initial(MultibyteKind), Initial(BytesKind)]

  /** Over any input, the header's chain counts the lines and words the line and word machines
      of counter_state_machine.cpp count, whatever the decoder answers; it counts no more bytes
      and no more multibyte characters than the input has bytes. */
  lemma {:induction false} BuiltChainCountsLikeTheMachines(decode: Decoder, s: seq<byte>)
    ensures var r := FeedAll(decode, BuiltChain, Zero, s);
            && Kinds(r.0) == ChainOrder
            && r.1.lines == LineCount(s) && r.1.words == WordCount(s)
            && r.0[1].inWord == EndsInWord(s)
            && r.1.bytes <= |s| && r.1.multibyte <= |s|
    decreases |s|
  {
    if s == [] {
      assert Kinds(BuiltChain) == ChainOrder;
    } else {
      var prefix, b := s[..|s| - 1], s[|s| - 1];
      BuiltChainCountsLikeTheMachines(decode, prefix);
      var before := FeedAll(decode, BuiltChain, Zero, prefix);
      FeedBuiltChain(decode, before.0, before.1, b);
      FeedKeepsKinds(decode, before.0, before.1, b);
    }
  }

  /** Feeding a byte changes no machine's kind. */
  lemma FeedKeepsKinds(decode: Decoder, ss: seq<Snapshot>, c: Counts, b: byte)
    requires |ss| >= 1
    ensures Kinds(Feed(decode, ss, c, b).0) == Kinds(ss)
  {
    var fed := [StateStep(decode, ss[0], b)] + ss[1..];
    CountFromKeepsKinds(decode, fed, c);
    assert Kinds(fed) == Kinds(ss);
  }

  /** A machine of the chain, with the fields of all four kinds. */
  class Machine {
    const kind: Kind
    const decode: Decoder
    var next: Machine?
    var byte: byte
    var inWord: bool
    var buffer: seq<byte>
    var charComplete: bool
    var charBytes: nat
    var invalid: bool

    function Snap(): Snapshot
      reads this
    {
      Snapshot(kind, byte, inWord, buffer, charComplete, charBytes, invalid)
    }

    constructor (k: Kind, d: Decoder)
      ensures kind == k && decode == d && next == null
      ensures byte == 0 && !inWord && buffer == [] && !charComplete && charBytes == 0 && !invalid
    {
      kind, decode, next := k, d, null;
      byte, inWord := 0, false;
      buffer, charComplete, charBytes, invalid := [], false, 0, false;
    }

    /** `setNext`: stores the successor and answers it. */
    method SetNext(m: Machine) returns (r: Machine)
      modifies this`next
      ensures next == m && r == m
    {
      next := m;
      r := m;
    }

    /** `updateState`. */
    method UpdateState(b: byte)
      modifies this`byte, this`buffer, this`charComplete, this`charBytes, this`invalid
      ensures Snap() == StateStep(decode, old(Snap()), b)
    {
      if kind != MultibyteKind {
        byte := b;
      } else {
        buffer := buffer + [b];
        var result := decode(buffer);
        if result.Invalid? {
          invalid := true;
          buffer := [];
        } else if result.Complete? {
          charComplete := true;
          charBytes := result.length;
          buffer := if result.length <= |buffer| then buffer[result.length..] else [];
        }
      }
    }

    /** `updateCounter`: this machine's own update, then what it passes down the chain that
        `nodes` lists from this machine on. */
    method UpdateCounter(counter: Counter, ghost nodes: seq<Machine>)
      requires Chain(nodes, decode) && nodes[0] == this
      modifies Objects(nodes), counter
      ensures Chain(nodes, decode)
      ensures (Snaps(nodes), counter.Value()) == CountFrom(decode, old(Snaps(nodes)), old(counter.Value()))
      decreases |nodes|, 3
    {
      ChainHead(nodes, decode);
      if kind == MultibyteKind {
        UpdateMultibyteCounter(counter, nodes);
      } else {
        CountOwn(counter);
        PassToNext(byte, counter, nodes);
      }
    }

    /** The own part of `updateCounter` of the byte, line and word machines: the byte machine
        counts every byte, the line machine a line feed, and the word machine a non-space byte
        after a space, remembering whether the byte was a space. */
    method CountOwn(counter: Counter)
      requires kind != MultibyteKind
      modifies this`inWord, counter
      ensures Snap() == OwnState(old(Snap()))
      ensures counter.Value() == OwnCount(old(Snap()), old(counter.Value()))
    {
      if kind == BytesKind {
        counter.bytes := counter.bytes + 1;
      } else if kind == LinesKind {
        if byte == LineFeed {
          counter.lines := counter.lines + 1;
        }
      } else {
        if IsSpace(byte) {
          if inWord {
            inWord := false;
          }
        } else {
          if !inWord {
            inWord := true;
            counter.words := counter.words + 1;
          }
        }
      }
    }

    /** `updateCounter` of the multibyte machine: a completed character of more than one byte
        is counted; unless the last byte was invalid, the successor gets the first byte still
        buffered, if any, and its `updateCounter`. */
    method UpdateMultibyteCounter(counter: Counter, ghost nodes: seq<Machine>)
      requires kind == MultibyteKind
      requires Chain(nodes, decode) && nodes[0] == this
      modifies Objects(nodes), counter
      ensures Chain(nodes, decode)
      ensures (Snaps(nodes), counter.Value()) == CountFrom(decode, old(Snaps(nodes)), old(counter.Value()))
      decreases |nodes|, 2
    {
      ChainHead(nodes, decode);
      assert Snaps(nodes) == [Snap()] + Snaps(nodes[1..]);
      CountCompleted(counter);
      ForwardValid(counter, nodes);
      assert Snaps(nodes) == [Snap()] + Snaps(nodes[1..]);
    }

    /** The counting part of the multibyte machine's `updateCounter`. */
    method CountCompleted(counter: Counter)
      requires kind == MultibyteKind
      modifies this`charComplete, counter
      ensures Snap() == old(Snap()).(charComplete := false)
      ensures counter.Value() == OwnCount(old(Snap()), old(counter.Value()))
    {
      if charComplete {
        if charBytes > 1 {
          counter.multibyte := counter.multibyte + 1;
        }
        charComplete := false;
      }
    }

    /** What the multibyte machine's `updateCounter` does after counting: it forwards unless
        the last byte was invalid, and then clears the flag. */
    method ForwardValid(counter: Counter, ghost nodes: seq<Machine>)
      requires kind == MultibyteKind
      requires Chain(nodes, decode) && nodes[0] == this
      modifies Objects(nodes), counter
      ensures Chain(nodes, decode)
      ensures Snap() == old(Snap()).(invalid := false)
      ensures (Snaps(nodes[1..]), counter.Value()) ==
              if old(invalid) then (old(Snaps(nodes[1..])), old(counter.Value()))
              else PassedTo(decode, old(Snaps(nodes[1..])), old(counter.Value()),
                            if buffer != [] then Some(buffer[0]) else None)
      decreases |nodes|, 1
    {
      ChainHead(nodes, decode);
      if !invalid {
        PassBuffered(counter, nodes);
      }
      ClearInvalid(nodes);
    }

    /** The multibyte machine's `updateCounter` ends by clearing the invalid flag. */
    method ClearInvalid(ghost nodes: seq<Machine>)
      requires Chain(nodes, decode) && nodes[0] == this
      modifies this`invalid
      ensures Chain(nodes, decode)
      ensures Snap() == old(Snap()).(invalid := false)
    {
      invalid := false;
    }

    /** The forwarding part of the multibyte machine's `updateCounter`, past a valid byte: the
        successor's `updateState` with the first byte still buffered, if any, and its
        `updateCounter`. */
    method PassBuffered(counter: Counter, ghost nodes: seq<Machine>)
      requires Chain(nodes, decode) && nodes[0] == this
      modifies Objects(nodes[1..]), counter
      ensures Chain(nodes, decode)
      ensures (Snaps(nodes[1..]), counter.Value()) ==
              PassedTo(decode, old(Snaps(nodes[1..])), old(counter.Value()),
                       if buffer != [] then Some(buffer[0]) else None)
      decreases |nodes|, 0
    {
      ChainHead(nodes, decode);
      if next != null {
        ghost var rest := nodes[1..];
        ChainHead(rest, decode);
        if buffer != [] {
          next.UpdateState(buffer[0]);
          SnapsAfterHead(rest);
        }
        next.UpdateCounter(counter, rest);
        ChainCons(nodes, decode);
      }
    }

    /** `passToNext`: the successor's `updateState` with b and its `updateCounter`, if there is
        a successor. */
    method PassToNext(b: byte, counter: Counter, ghost nodes: seq<Machine>)
      requires Chain(nodes, decode) && nodes[0] == this
      modifies Objects(nodes[1..]), counter
      ensures Chain(nodes, decode)
      ensures (Snaps(nodes[1..]), counter.Value()) ==
              PassedTo(decode, old(Snaps(nodes[1..])), old(counter.Value()), Some(b))
      decreases |nodes|, 0
    {
      ChainHead(nodes, decode);
      if next != null {
        ghost var rest := nodes[1..];
        ChainHead(rest, decode);
        next.UpdateState(b);
        SnapsAfterHead(rest);
        next.UpdateCounter(counter, rest);
        ChainCons(nodes, decode);
      }
    }
  }

  /** The machines `nodes` lists. */
  ghost function Objects(nodes: seq<Machine>): set<Machine>
  {
    set i | 0 <= i < |nodes| :: nodes[i]
  }

  /** The machines `nodes` form a chain: distinct, decoding with the same locale, each one's
      successor the next in the list, and the last without one. */
  ghost predicate Chain(nodes: seq<Machine>, decode: Decoder)
    reads Objects(nodes)
  {
    && |nodes| >= 1
    && (forall i :: 0 <= i < |nodes| ==> nodes[i].decode == decode)
    && (forall i, j :: 0 <= i < j < |nodes| ==> nodes[i] != nodes[j])
    && (forall i :: 0 <= i < |nodes| - 1 ==> nodes[i].next == nodes[i + 1])
    && nodes[|nodes| - 1].next == null
  }

  /** The head of a chain is not part of the rest, which is a chain of its own when it is not
      empty. */
  lemma ChainHead(nodes: seq<Machine>, decode: Decoder)
    requires Chain(nodes, decode)
    ensures nodes[0] !in Objects(nodes[1..]) && Objects(nodes[1..]) <= Objects(nodes)
    ensures |nodes| == 1 <==> nodes[0].next == null
    ensures |nodes| > 1 ==> Chain(nodes[1..], decode) && nodes[1] == nodes[0].next
  {
    if |nodes| > 1 {
      assert nodes[0].next == nodes[1];
    }
    var rest := nodes[1..];
    assert forall i :: 0 <= i < |rest| ==> rest[i] == nodes[i + 1];
  }

  /** A machine linked to the head of a chain it is not part of extends it. */
  lemma ChainCons(nodes: seq<Machine>, decode: Decoder)
    requires |nodes| > 1 && Chain(nodes[1..], decode)
    requires nodes[0].decode == decode && nodes[0].next == nodes[1] && nodes[0] !in Objects(nodes[1..])
    ensures Chain(nodes, decode)
  {
    var rest := nodes[1..];
    assert forall i :: 1 <= i < |nodes| ==> nodes[i] == rest[i - 1];
  }

  /** After a change to the head of a list of machines only, the rest keeps its fields. */
  twostate lemma SnapsAfterHead(nodes: seq<Machine>)
    requires |nodes| >= 1 && unchanged(Objects(nodes[1..]))
    ensures Snaps(nodes) == [nodes[0].Snap()] + old(Snaps(nodes[1..]))
  {
  }

  /** The fields of the machines `nodes` lists. */
  ghost function Snaps(nodes: seq<Machine>): (ss: seq<Snapshot>)
    reads Objects(nodes)
    ensures |ss| == |nodes|
    decreases |nodes|
  {
    if nodes == [] then [] else [nodes[0].Snap()] + Snaps(nodes[1..])
  }

  /** `buildCounterStateMachineChain`: lines, then words, multibyte and bytes, linked through
      the machine each `setNext` answers. */
  method BuildCounterStateMachineChain(decode: Decoder) returns (head: Machine, ghost nodes: seq<Machine>)
    ensures |nodes| == 4 && nodes[0] == head && fresh(Objects(nodes))
    ensures Chain(nodes, decode)
    ensures Snaps(nodes) == BuiltChain
  {
    var lines := new Machine(LinesKind, decode);
    var words := new Machine(WordsKind, decode);
    var multibyte := new Machine(MultibyteKind, decode);
    var bytes := new Machine(BytesKind, decode);
    var linked := lines.SetNext(words);
    linked := linked.SetNext(multibyte);
    linked := linked.SetNext(bytes);
    head, nodes := lines, [lines, words, multibyte, bytes];
    FourLinked(lines, words, multibyte, bytes, decode);
  }

  /** Four distinct machines linked in order form a chain, whose fields are theirs. */
  lemma FourLinked(a: Machine, b: Machine, c: Machine, d: Machine, decode: Decoder)
    requires a != b && a != c && a != d && b != c && b != d && c != d
    requires a.decode == decode && b.decode == decode && c.decode == decode && d.decode == decode
    requires a.next == b && b.next == c && c.next == d && d.next == null
    ensures Chain([a, b, c, d], decode)
    ensures Snaps([a, b, c, d]) == [a.Snap(), b.Snap(), c.Snap(), d.Snap()]
    ensures Objects([a, b, c, d]) == {a, b, c, d}
  {
    assert [a, b, c, d][1..] == [b, c, d];
    assert [b, c, d][1..] == [c, d];
    assert [c, d][1..] == [d];
    assert [d][1..] == [];
    assert Snaps([d]) == [d.Snap()];
    assert Snaps([c, d]) == [c.Snap(), d.Snap()];
    assert Snaps([b, c, d]) == [b.Snap(), c.Snap(), d.Snap()];
  }
}
