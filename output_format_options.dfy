/** Model of the `ccwc::output_format_options` namespace: the column options
    (src/output_formatter/output_formatter.hpp), the four handlers that render one column each
    (src/output_formatter/output_formatter.cpp) and the handler chain that renders a row. */
module FormatOptions {
  import opened Counter

  /** `OutputFormatOptions`, declared in the order the columns are printed. */
  datatype FormatOption = Lines | Words | Multibyte | Bytes

  /** The position of an option in its enumeration, which orders `std::set` iteration. */
  function Ordinal(o: FormatOption): (k: nat)
    ensures k < 4
  {
    match o
    case Lines => 0
    case Words => 1
    case Multibyte => 2
    case Bytes => 3
  }

  /** The columns in the order of the enumeration, which is also the order of the chain that
      `buildFormatChain` links. */
  const ColumnOrder: seq<FormatOption> := [Lines, Words, Multibyte, Bytes]

  lemma ColumnOrderFollowsEnumeration()
    ensures |ColumnOrder| == 4
    ensures forall i :: 0 <= i < |ColumnOrder| ==> Ordinal(ColumnOrder[i]) == i
    ensures forall o: FormatOption :: ColumnOrder[Ordinal(o)] == o
  {
    forall o: FormatOption
      ensures ColumnOrder[Ordinal(o)] == o
    {
      match o
      case Lines =>
      case Words =>
      case Multibyte =>
      case Bytes =>
    }
  }

  /** The counter field a column shows. */
  function FieldOf(o: FormatOption, c: Counts): nat
  {
    match o
    case Lines => c.lines
    case Words => c.words
    case Multibyte => c.multibyte
    case Bytes => c.bytes
  }

  predicate IsDigit(ch: char)
  {
    '0' <= ch <= '9'
  }

  predicate AllDigits(s: string)
  {
    forall i :: 0 <= i < |s| ==> IsDigit(s[i])
  }

  function DigitChar(d: nat): (ch: char)
    requires d < 10
    ensures IsDigit(ch)
  {
    ('0' as int + d) as char
  }

  function DigitValue(ch: char): (d: nat)
    requires IsDigit(ch)
    ensures d < 10
  {
    ch as int - '0' as int
  }

  /** `std::to_string` of an unsigned value: its decimal digits, most significant first, with
      no leading zero. */
  function Decimal(n: nat): (s: string)
    ensures |s| >= 1 && AllDigits(s)
    ensures n == 0 ==> s == "0"
    ensures n > 0 ==> s[0] != '0'
    decreases n
  {
    if n < 10 then [DigitChar(n)] else Decimal(n / 10) + [DigitChar(n % 10)]
  }

  /** Reading decimal digits back, most significant first. */
  function ParseDecimal(s: string): nat
    requires AllDigits(s)
    decreases |s|
  {
    if s == [] then 0 else 10 * ParseDecimal(s[..|s| - 1]) + DigitValue(s[|s| - 1])
  }

  /** The rendering loses nothing: reading the digits back gives the number. */
  lemma {:induction false} DecimalRoundTrip(n: nat)
    ensures ParseDecimal(Decimal(n)) == n
    decreases n
  {
    var s := Decimal(n);
    if n >= 10 {
      DecimalRoundTrip(n / 10);
      assert s[..|s| - 1] == Decimal(n / 10);
    }
  }

  /** Different numbers render differently. */
  lemma DecimalInjective(m: nat, n: nat)
    requires Decimal(m) == Decimal(n)
    ensures m == n
  {
    DecimalRoundTrip(m);
    DecimalRoundTrip(n);
  }

  /** The `handle` override of the handler for column o: the field in decimal. */
  function Handle(o: FormatOption, c: Counts): (s: string)
    ensures AllDigits(s) && ParseDecimal(s) == FieldOf(o, c)
  {
    DecimalRoundTrip(FieldOf(o, c));
    Decimal(FieldOf(o, c))
  }

  /** The text a chain of handlers for the columns `columns` appends for counter c. */
  function Render(columns: seq<FormatOption>, c: Counts): string
    decreases |columns|
  {
    if columns == [] then "" else Handle(columns[0], c) + Render(columns[1..], c)
  }

  /** Rendering a longer chain appends the later handlers' text after the earlier ones'. */
  lemma {:induction false} RenderAppend(a: seq<FormatOption>, b: seq<FormatOption>, c: Counts)
    ensures Render(a + b, c) == Render(a, c) + Render(b, c)
    decreases |a|
  {
    if a == [] {
      assert a + b == b;
    } else {
      assert (a + b)[1..] == a[1..] + b;
      RenderAppend(a[1..], b, c);
    }
  }

  /** The full chain writes lines, words, multibyte characters and bytes, in that order. */
  lemma RenderColumnOrder(c: Counts)
    ensures Render(ColumnOrder, c) ==
            Decimal(c.lines) + Decimal(c.words) + Decimal(c.multibyte) + Decimal(c.bytes)
  {
    assert ColumnOrder[1..][1..][1..][1..] == [];
  }

  /** `FormatHandler`, one link of a singly linked chain. The maximum width and enabled flag
      the handler is built with are kept; `doHandle` does not consult them. */
  class FormatHandler {
    const option: FormatOption
    const width: nat
    const enabled: bool
    var next: FormatHandler?

    constructor (o: FormatOption, maxLength: nat, isEnabled: bool)
      ensures option == o && width == maxLength && enabled == isEnabled && next == null
    {
      option, width, enabled, next := o, maxLength, isEnabled, null;
    }

    /** `setNext`: installs handler as the successor, dropping any previous one, and answers
        the handler just installed. */
    method SetNext(handler: FormatHandler) returns (result: FormatHandler)
      modifies this
      ensures result == handler && next == handler
    {
      next := handler;
      result := handler;
    }

    /** `doHandle`: appends this handler's text to the caller's output string in place, then
        lets the successor append its own, and answers the string so built. The ghost `nodes`
        lists the handlers of the chain from this one on. */
    method DoHandle(output: OutputBuffer, counter: Counts, ghost nodes: seq<FormatHandler>) returns (r: string)
      requires Chain(nodes) && nodes[0] == this
      modifies output
      ensures output.text == old(output.text) + Render(OptionsOf(nodes), counter)
      ensures r == output.text
      decreases |nodes|
    {
      output.text := output.text + Handle(option, counter);
      if next != null {
        assert nodes[1..][0] == next;
        r := next.DoHandle(output, counter, nodes[1..]);
        assert OptionsOf(nodes)[1..] == OptionsOf(nodes[1..]);
      } else {
        r := output.text;
      }
    }
  }

  /** The `std::string` a caller passes to `doHandle` by reference; the handlers append to it. */
  class OutputBuffer {
    var text: string

    constructor (s: string)
      ensures text == s
    {
      text := s;
    }
  }

  /** The handlers `nodes` form a chain: each one's successor is the next in the list, and
      the last has none. */
  ghost predicate Chain(nodes: seq<FormatHandler>)
    reads set i | 0 <= i < |nodes| :: nodes[i]
  {
    && |nodes| >= 1
    && (forall i :: 0 <= i < |nodes| - 1 ==> nodes[i].next == nodes[i + 1])
    && nodes[|nodes| - 1].next == null
  }

  /** The columns of a list of handlers, in order. */
  function OptionsOf(nodes: seq<FormatHandler>): (cols: seq<FormatOption>)
    ensures |cols| == |nodes|
    ensures forall i :: 0 <= i < |nodes| ==> cols[i] == nodes[i].option
  {
    seq(|nodes|, i requires 0 <= i < |nodes| => nodes[i].option)
  }
}
