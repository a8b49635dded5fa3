/** Model of `ccwc::output_formatter::OutputFormatter` (src/output_formatter/output_formatter.hpp,
    src/output_formatter/output_formatter.cpp): the chosen columns, the handler chain that
    renders them, and the report printed for a list of inputs. */
module OutputFormatter {
  import opened Counter
  import opened FormatOptions
  import opened UniversalInputStream
  import opened InputObjects

  /** The columns printed when none was asked for: lines, words and bytes. */
  const DefaultOptions: set<FormatOption> := {Lines, Words, Bytes}

  /** The option set after `normalizeFormattingOptions`. */
  function Normalized(opts: set<FormatOption>): set<FormatOption>
  {
    if opts == {} then DefaultOptions else opts
  }

  /** An empty choice becomes exactly lines, words and bytes (not multibyte characters); any
      other choice is kept; normalizing twice is normalizing once. */
  lemma NormalizedProperties(opts: set<FormatOption>)
    ensures Normalized(opts) != {}
    ensures opts == {} ==> Normalized(opts) == {Lines, Words, Bytes} && Multibyte !in Normalized(opts)
    ensures opts != {} ==> Normalized(opts) == opts
    ensures Normalized(Normalized(opts)) == Normalized(opts)
  {
    if opts == {} {
      assert Lines in DefaultOptions;
    }
  }

  /** The name column of an input's row: nothing for standard input, a space and the file
      name otherwise. */
  function NameSuffix(input: InputDataObject): string
  {
    if input.stream.kind == Stdin then "" else " " + input.stream.name
  }

  /** The row of one healthy input, for a chain rendering the given columns. */
  function Row(columns: seq<FormatOption>, c: Counts, input: InputDataObject): string
  {
    Render(columns, c) + NameSuffix(input) + "\n"
  }

  /** The row every counted input would get, health aside. */
  function RowTexts(columns: seq<FormatOption>, counters: seq<Counts>, inputs: seq<InputDataObject>): (rows: seq<string>)
    requires |counters| <= |inputs|
    ensures |rows| == |counters|
    ensures forall i :: 0 <= i < |counters| ==> rows[i] == Row(columns, counters[i], inputs[i])
  {
    seq(|counters|, i requires 0 <= i < |counters| => Row(columns, counters[i], inputs[i]))
  }

  /** Strings one after another. */
  function Concat(rows: seq<string>): string
    decreases |rows|
  {
    if rows == [] then "" else rows[0] + Concat(rows[1..])
  }

  /** The per-input part of the report, given the row of each input: the rows of the healthy
      inputs until the first unhealthy input, whose error message ends it. */
  function Rows(rows: seq<string>, inputs: seq<InputDataObject>): string
    requires |rows| <= |inputs|
    decreases |rows|
  {
    if rows == [] then
      ""
    else if !inputs[0].health.isHealthy then
      inputs[0].health.errorMessage + "\n"
    else
      rows[0] + Rows(rows[1..], inputs[1..])
  }

  /** The inputs before position n are all healthy. */
  predicate HealthyUpTo(inputs: seq<InputDataObject>, n: nat)
    requires n <= |inputs|
  {
    forall j :: 0 <= j < n ==> inputs[j].health.isHealthy
  }

  /** What `formatFile` answers: the rows and, when every counted input was healthy and there
      is more than one input, a row for the total. */
  function Report(columns: seq<FormatOption>, counters: seq<Counts>, inputs: seq<InputDataObject>): string
    requires |counters| <= |inputs|
  {
    Rows(RowTexts(columns, counters, inputs), inputs) +
    if HealthyUpTo(inputs, |counters|) && |inputs| > 1 then Render(columns, Sum(counters)) + "\n" else ""
  }

  /** The rows of the inputs one after another, health aside. */
  function Table(columns: seq<FormatOption>, counters: seq<Counts>, inputs: seq<InputDataObject>): string
    requires |counters| <= |inputs|
  {
    Concat(RowTexts(columns, counters, inputs))
  }

  /** When every input is healthy, the rows are all written. */
  lemma {:induction false} RowsOfHealthy(rows: seq<string>, inputs: seq<InputDataObject>)
    requires |rows| <= |inputs| && HealthyUpTo(inputs, |rows|)
    ensures Rows(rows, inputs) == Concat(rows)
    decreases |rows|
  {
    if rows != [] {
      var tail := inputs[1..];
      assert HealthyUpTo(tail, |rows| - 1) by {
        forall j | 0 <= j < |rows| - 1 ensures tail[j].health.isHealthy {
          assert tail[j] == inputs[j + 1];
        }
      }
      RowsOfHealthy(rows[1..], tail);
    }
  }

  /** When input k is the first unhealthy one, the rows are those before it followed by its
      error message. */
  lemma {:induction false} RowsStopAt(rows: seq<string>, inputs: seq<InputDataObject>, k: nat)
    requires k < |rows| <= |inputs| && HealthyUpTo(inputs, k) && !inputs[k].health.isHealthy
    ensures Rows(rows, inputs) == Concat(rows[..k]) + inputs[k].health.errorMessage + "\n"
    decreases k
  {
    if k > 0 {
      var tail := inputs[1..];
      assert tail[k - 1] == inputs[k];
      assert HealthyUpTo(tail, k - 1) by {
        forall j | 0 <= j < k - 1 ensures tail[j].health.isHealthy {
          assert tail[j] == inputs[j + 1];
        }
      }
      assert rows[..k][1..] == rows[1..][..k - 1];
      RowsStopAt(rows[1..], tail, k - 1);
    }
  }

  /** Concatenating one more string appends it. */
  lemma {:induction false} ConcatSnoc(rows: seq<string>, i: nat)
    requires i < |rows|
    ensures Concat(rows[..i + 1]) == Concat(rows[..i]) + rows[i]
    decreases i
  {
    if i > 0 {
      var tail := rows[1..];
      assert rows[..i + 1][1..] == tail[..i];
      assert rows[..i][1..] == tail[..i - 1];
      ConcatSnoc(tail, i - 1);
    }
  }

  /** Formatting stops at the first unhealthy input: the report is the rows of the inputs
      before it and its error message, with no total row. */
  lemma ReportStopsAtUnhealthy(columns: seq<FormatOption>, counters: seq<Counts>, inputs: seq<InputDataObject>, k: nat)
    requires k < |counters| <= |inputs| && HealthyUpTo(inputs, k) && !inputs[k].health.isHealthy
    ensures Report(columns, counters, inputs) == Table(columns, counters[..k], inputs) + inputs[k].health.errorMessage + "\n"
  {
    var rows := RowTexts(columns, counters, inputs);
    RowsStopAt(rows, inputs, k);
    assert RowTexts(columns, counters[..k], inputs) == rows[..k];
    assert !HealthyUpTo(inputs, |counters|);
  }

  /** With every input healthy, the report is one row per input and, for more than one input,
      a last row holding the field-wise total. */
  lemma ReportOfHealthy(columns: seq<FormatOption>, counters: seq<Counts>, inputs: seq<InputDataObject>)
    requires |counters| <= |inputs| && HealthyUpTo(inputs, |counters|)
    ensures Report(columns, counters, inputs) ==
            Table(columns, counters, inputs) + if |inputs| > 1 then Render(columns, Sum(counters)) + "\n" else ""
  {
    RowsOfHealthy(RowTexts(columns, counters, inputs), inputs);
  }

  /** A single healthy file reports its four counts and its name, and no total. */
  lemma ReportOfOneFile(c: Counts, input: InputDataObject)
    requires input.health.isHealthy && input.stream.kind != Stdin
    ensures Report(ColumnOrder, [c], [input]) ==
            Decimal(c.lines) + Decimal(c.words) + Decimal(c.multibyte) + Decimal(c.bytes)
            + " " + input.stream.name + "\n"
  {
    RenderColumnOrder(c);
    var rows := RowTexts(ColumnOrder, [c], [input]);
    assert rows == [Row(ColumnOrder, c, input)];
    assert Rows(rows, [input]) == rows[0] + Rows([], []);
  }

  /** `OutputFormatter`, holding the chosen columns. */
  class OutputFormatter {
    var options: set<FormatOption>

    constructor ()
      ensures options == {}
    {
      options := {};
    }

    /** `addOption`: set insertion. */
    method AddOption(option: FormatOption)
      modifies this`options
      ensures options == old(options) + {option}
      ensures option in options && old(options) <= options
    {
      options := options + {option};
    }

    /** `normalizeFormattingOptions`. */
    method NormalizeFormattingOptions()
      modifies this`options
      ensures options == Normalized(old(options))
    {
      if options == {} {
        options := options + {Lines};
        options := options + {Words};
        options := options + {Bytes};
      }
    }

    /** `buildFormatChain`: links lines, words, multibyte and bytes handlers, each built with
        the given width and enabled when its column was chosen. */
    method BuildFormatChain(maxLenOfNum: nat) returns (chain: FormatHandler, ghost nodes: seq<FormatHandler>)
      ensures Chain(nodes) && nodes[0] == chain && fresh(nodes)
      ensures OptionsOf(nodes) == ColumnOrder
      ensures forall i :: 0 <= i < |nodes| ==> nodes[i].width == maxLenOfNum && nodes[i].enabled == (nodes[i].option in options)
    {
      var line := new FormatHandler(Lines, maxLenOfNum, Lines in options);
      var words := new FormatHandler(Words, maxLenOfNum, Words in options);
      var linked := line.SetNext(words);
      var multibyte := new FormatHandler(Multibyte, maxLenOfNum, Multibyte in options);
      linked := linked.SetNext(multibyte);
      var bytes := new FormatHandler(Bytes, maxLenOfNum, Bytes in options);
      linked := linked.SetNext(bytes);
      chain, nodes := line, [line, words, multibyte, bytes];
    }

    /** `formatFile`: totals the counters, builds the chain with the width of the total byte
        count, writes a row per input until the first unhealthy one, and adds the total row
        when every input was healthy and there is more than one. */
    method FormatFile(counters: seq<Counts>, inputs: seq<InputDataObject>) returns (output: string)
      requires |counters| <= |inputs|
      requires forall i :: 0 <= i < |inputs| ==> inputs[i].stream.Valid()
      ensures output == Report(ColumnOrder, counters, inputs)
    {
      var total := TotalOf(counters);
      var maxSpaces := |Decimal(total.bytes)|;
      var formatChain, nodes := BuildFormatChain(maxSpaces);
      ghost var columns := OptionsOf(nodes);
      ghost var report := Report(columns, counters, inputs);
      assert report == Report(ColumnOrder, counters, inputs);
      var foundBad;
      output, foundBad := WriteRows(formatChain, nodes, counters, inputs);
      assert report == output + if !foundBad && |inputs| > 1 then Render(columns, total) + "\n" else "";
      if foundBad {
        return;
      }
      if |inputs| > 1 {
        ghost var rows, totalRow := output, Render(columns, total);
        var buffer := new OutputBuffer(output);
        output := formatChain.DoHandle(buffer, total, nodes);
        output := output + "\n";
        Associative(rows, totalRow, "\n");
      }
    }
  }

  /** Concatenation regroups freely; stated on plain strings so that nothing else unfolds. */
  lemma Associative(a: string, b: string, c: string)
    ensures (a + b) + c == a + (b + c)
  {
  }

  /** The first loop of `formatFile`: every counter added into one total. */
  method TotalOf(counters: seq<Counts>) returns (total: Counts)
    ensures total == Sum(counters)
  {
    var totalCounter := new Counter();
    for i := 0 to |counters|
      invariant totalCounter.Value() == Sum(counters[..i])
    {
      assert counters[..i + 1][..i] == counters[..i];
      var _ := totalCounter.AddAssign(counters[i]);
    }
    assert counters[..|counters|] == counters;
    total := totalCounter.Value();
  }

  /** The second loop of `formatFile`: a row per input, until an unhealthy input writes its
      error message and ends the loop; foundBad tells whether that happened. */
  method WriteRows(chain: FormatHandler, ghost nodes: seq<FormatHandler>, counters: seq<Counts>, inputs: seq<InputDataObject>)
    returns (output: string, foundBad: bool)
    requires Chain(nodes) && nodes[0] == chain
    requires |counters| <= |inputs|
    requires forall i :: 0 <= i < |inputs| ==> inputs[i].stream.Valid()
    ensures output == Rows(RowTexts(OptionsOf(nodes), counters, inputs), inputs)
    ensures foundBad <==> !HealthyUpTo(inputs, |counters|)
  {
    ghost var rows := RowTexts(OptionsOf(nodes), counters, inputs);
    output, foundBad := "", false;
    var i := 0;
    while i < |counters|
      invariant i <= |counters|
      invariant HealthyUpTo(inputs, i)
      invariant output == Concat(rows[..i])
    {
      if !inputs[i].health.isHealthy {
        RowsStopAt(rows, inputs, i);
        foundBad := true;
        output := output + inputs[i].health.errorMessage + "\n";
        return;
      }
      assert HealthyUpTo(inputs, i + 1);
      ConcatSnoc(rows, i);
      output := WriteRow(chain, nodes, output, counters[i], inputs[i]);
      i := i + 1;
    }
    assert rows[..i] == rows;
    RowsOfHealthy(rows, inputs);
  }

  /** The body of that loop for a healthy input: the chain's columns, the name unless the
      input is standard input, and a newline. */
  method WriteRow(chain: FormatHandler, ghost nodes: seq<FormatHandler>, output: string, c: Counts, input: InputDataObject)
    returns (r: string)
    requires Chain(nodes) && nodes[0] == chain
    requires input.stream.Valid()
    ensures r == output + Row(OptionsOf(nodes), c, input)
  {
    var buffer := new OutputBuffer(output);
    r := chain.DoHandle(buffer, c, nodes);
    if !input.stream.IsStdin() {
      r := r + " " + input.stream.Name();
    }
    r := r + "\n";
  }
}
