/** Model of src/argument_parser/argument_parser.cpp: the command line turned into the chosen
    columns and the list of inputs to count.

    The file system and standard input are the oracles of `UniversalInputStream`. An exception
    that leaves `parseArguments` is a `Failure`; one that `addInputFile` catches becomes an
    unhealthy input. */
module ArgumentParser {
  import opened Wrappers
  import opened Bytes
  import opened Exceptions
  import opened FormatOptions
  import opened OutputFormatter
  import opened UniversalInputStream
  import opened InputObjects

  /** `argView.starts_with("-")`. */
  predicate IsFlag(arg: string)
  {
    |arg| > 0 && arg[0] == '-'
  }

  /** The column `processOption` adds for a flag, if it knows the flag. */
  function OptionOf(arg: string): (r: Option<FormatOption>)
    ensures r.Some? <==> arg in {"-l", "-w", "-c", "-m"}
    ensures r.Some? ==> IsFlag(arg) && |arg| == 2
  {
    if arg == "-l" then Some(Lines)
    else if arg == "-w" then Some(Words)
    else if arg == "-c" then Some(Bytes)
    else if arg == "-m" then Some(Multibyte)
    else None
  }

  /** The flag that selects a column. */
  function FlagOf(o: FormatOption): string
  {
    match o
    case Lines => "-l"
    case Words => "-w"
    case Bytes => "-c"
    case Multibyte => "-m"
  }

  /** Each column has exactly one flag: `-l`, `-w`, `-c` and `-m` select lines, words, bytes
      and multibyte characters, and no other argument selects anything. */
  lemma FlagRoundTrip(arg: string, o: FormatOption)
    ensures OptionOf(FlagOf(o)) == Some(o)
    ensures OptionOf(arg) == Some(o) ==> arg == FlagOf(o)
  {
    match o
    case Lines =>
    case Words =>
    case Bytes =>
    case Multibyte =>
  }

  /** A file whose size is known and large enough for a mapping, but which cannot be mapped:
      `createInputStream` then raises a runtime error that `addInputFile` does not catch. */
  predicate MapFails(filename: string, fs: FileSystem)
  {
    && fs(filename).Regular?
    && StrategyFor(|fs(filename).contents|) == MemoryMappedFile
    && !fs(filename).maps
  }

  /** The exception, if any, that handling one command-line argument lets escape. */
  function ErrorOf(arg: string, fs: FileSystem): (e: Option<Exception>)
    ensures e.Some? && IsFlag(arg) ==> e.value == InvalidArgumentException("Invalid argument: " + arg)
    ensures e.Some? && !IsFlag(arg) ==> e.value == RuntimeError("Failed to memory-map file: " + arg)
    ensures e.None? <==> (if IsFlag(arg) then OptionOf(arg).Some? else !MapFails(arg, fs))
  {
    if IsFlag(arg) then
      if OptionOf(arg).None? then Some(InvalidArgumentException("Invalid argument: " + arg)) else None
    else if MapFails(arg, fs) then
      Some(RuntimeError("Failed to memory-map file: " + arg))
    else
      None
  }

  /** A lone dash and combined flags such as `-lw` are not flags `processOption` knows. */
  lemma UnknownFlagsRejected(arg: string, fs: FileSystem)
    requires arg == "-" || (IsFlag(arg) && |arg| > 2)
    ensures ErrorOf(arg, fs) == Some(InvalidArgumentException("Invalid argument: " + arg))
  {
  }

  /** The arguments after the program name. */
  function UserArgs(argv: seq<string>): seq<string>
  {
    if argv == [] then [] else argv[1..]
  }

  /** The first exception the arguments raise, in command-line order. */
  function ParseError(args: seq<string>, fs: FileSystem): Option<Exception>
    decreases |args|
  {
    if args == [] then None
    else
      var e := ParseError(args[..|args| - 1], fs);
      if e.Some? then e else ErrorOf(args[|args| - 1], fs)
  }

  /** The columns the flags among the arguments select. */
  function Flags(args: seq<string>): set<FormatOption>
    decreases |args|
  {
    if args == [] then {}
    else
      var last := args[|args| - 1];
      Flags(args[..|args| - 1]) + if OptionOf(last).Some? then {OptionOf(last).value} else {}
  }

  /** The arguments that name files, in command-line order. */
  function Files(args: seq<string>): seq<string>
    decreases |args|
  {
    if args == [] then []
    else
      var last := args[|args| - 1];
      Files(args[..|args| - 1]) + if IsFlag(last) then [] else [last]
  }

  /** No argument raises anything exactly when no single argument does. */
  lemma {:induction false} ParseErrorNone(args: seq<string>, fs: FileSystem)
    ensures ParseError(args, fs).None? <==> forall j :: 0 <= j < |args| ==> ErrorOf(args[j], fs).None?
    decreases |args|
  {
    if args != [] {
      var init := args[..|args| - 1];
      ParseErrorNone(init, fs);
      assert forall j :: 0 <= j < |init| ==> init[j] == args[j];
    }
  }

  /** The exception raised is that of the first argument that raises one. */
  lemma {:induction false} ParseErrorFirst(args: seq<string>, fs: FileSystem, k: nat)
    requires k < |args| && ErrorOf(args[k], fs).Some?
    requires forall j :: 0 <= j < k ==> ErrorOf(args[j], fs).None?
    ensures ParseError(args, fs) == ErrorOf(args[k], fs)
    decreases |args|
  {
    var init := args[..|args| - 1];
    if k < |args| - 1 {
      assert init[k] == args[k];
      ParseErrorFirst(init, fs, k);
    } else {
      ParseErrorNone(init, fs);
      assert forall j :: 0 <= j < |init| ==> init[j] == args[j];
    }
  }

  /** Flags anywhere on the command line add up; their order does not matter. */
  lemma {:induction false} FlagsAppend(a: seq<string>, b: seq<string>)
    ensures Flags(a + b) == Flags(a) + Flags(b)
    decreases |b|
  {
    if b == [] {
      assert a + b == a;
    } else {
      var init := b[..|b| - 1];
      assert (a + b)[..|a + b| - 1] == a + init;
      FlagsAppend(a, init);
    }
  }

  /** Files keep their command-line order, whatever flags surround them. */
  lemma {:induction false} FilesAppend(a: seq<string>, b: seq<string>)
    ensures Files(a + b) == Files(a) + Files(b)
    decreases |b|
  {
    if b == [] {
      assert a + b == a;
    } else {
      var init := b[..|b| - 1];
      assert (a + b)[..|a + b| - 1] == a + init;
      FilesAppend(a, init);
    }
  }

  /** Every file is one of the arguments and not a flag. */
  lemma {:induction false} FilesAreArguments(args: seq<string>)
    ensures |Files(args)| <= |args|
    ensures forall f :: f in Files(args) ==> f in args && !IsFlag(f)
    decreases |args|
  {
    if args != [] {
      var init := args[..|args| - 1];
      FilesAreArguments(init);
      assert forall f :: f in init ==> f in args;
    }
  }

  /** What `addInputFile` leaves for a file that did not raise: a file whose size query failed
      becomes an unhealthy entry carrying the error text over a fresh standard input stream;
      any other file a healthy entry over the stream `createInputStream` picked. */
  ghost predicate Describes(input: InputDataObject, filename: string, fs: FileSystem, stdin: seq<byte>)
    reads input.stream
  {
    && input.stream.Valid() && input.stream.pos == 0
    && match fs(filename)
       case Unavailable(error) =>
         && input.health == HealthStatus(false, error)
         && input.stream.kind == Stdin && input.stream.data == stdin
       case Regular(contents, opens, _) =>
         && input.health == Healthy
         && input.stream.kind == StrategyFor(|contents|) && input.stream.name == filename
         && input.stream.data == (if opens || input.stream.kind == MemoryMappedFile then contents else [])
  }

  /** The inputs describe the files, one each, in order. */
  ghost predicate DescribeAll(inputs: seq<InputDataObject>, files: seq<string>, fs: FileSystem, stdin: seq<byte>)
    reads set i | 0 <= i < |inputs| :: inputs[i].stream
  {
    && |inputs| == |files|
    && forall i :: 0 <= i < |inputs| ==> Describes(inputs[i], files[i], fs, stdin)
  }

  /** What `parseArguments` answers for a command line that raised nothing: with no file,
      one healthy entry for standard input; otherwise one entry per file. */
  ghost predicate InputsFor(inputs: seq<InputDataObject>, files: seq<string>, fs: FileSystem, stdin: seq<byte>)
    reads set i | 0 <= i < |inputs| :: inputs[i].stream
  {
    if files == [] then
      && |inputs| == 1 && inputs[0].health == Healthy
      && inputs[0].stream.Valid() && inputs[0].stream.kind == Stdin
      && inputs[0].stream.data == stdin && inputs[0].stream.pos == 0
    else
      DescribeAll(inputs, files, fs, stdin)
  }

  /** `Arguments`: the formatter holding the chosen columns, and the inputs. */
  class Arguments {
    const formatter: OutputFormatter
    var inputs: seq<InputDataObject>

    constructor ()
      ensures fresh(formatter) && formatter.options == {} && inputs == []
    {
      formatter := new OutputFormatter();
      inputs := [];
    }

    /** `addFormattingOptions`. */
    method AddFormattingOptions(formatOption: FormatOption)
      modifies formatter`options
      ensures formatter.options == old(formatter.options) + {formatOption}
    {
      formatter.AddOption(formatOption);
    }

    /** `addInputFile`: a file whose size query fails is kept as an unhealthy entry over
        standard input; a file that cannot be mapped raises; any other file is kept healthy. */
    method AddInputFile(filename: string, fs: FileSystem, stdin: seq<byte>) returns (r: Outcome<Exception>)
      modifies this`inputs
      ensures MapFails(filename, fs) ==>
                r == Fail(RuntimeError("Failed to memory-map file: " + filename)) && inputs == old(inputs)
      ensures !MapFails(filename, fs) ==>
                && r == Pass && |inputs| == |old(inputs)| + 1 && inputs[..|old(inputs)|] == old(inputs)
                && fresh(inputs[|inputs| - 1].stream)
                && Describes(inputs[|inputs| - 1], filename, fs, stdin)
    {
      var created := CreateInputStream(filename, fs);
      match created
      case Success(stream) =>
        inputs := inputs + [InputDataObject(stream, HealthStatus(true, ""))];
        r := Pass;
      case Failure(e) =>
        if e.FileOperationException? {
          var stream := CreateStandardInputStream(stdin);
          inputs := inputs + [InputDataObject(stream, HealthStatus(false, e.message))];
          r := Pass;
        } else {
          r := Fail(e);
        }
    }

    /** `addStdin`: a healthy standard input entry, only when there is no input yet. */
    method AddStdin(stdin: seq<byte>)
      modifies this`inputs
      ensures old(inputs) != [] ==> inputs == old(inputs)
      ensures old(inputs) == [] ==>
                && |inputs| == 1 && inputs[0].health == Healthy && fresh(inputs[0].stream)
                && inputs[0].stream.Valid() && inputs[0].stream.kind == Stdin
                && inputs[0].stream.data == stdin && inputs[0].stream.pos == 0
    {
      if inputs == [] {
        var stream := CreateStandardInputStream(stdin);
        inputs := inputs + [InputDataObject(stream, HealthStatus(true, ""))];
      }
    }

    /** `normalizeFormattingOptions`. */
    method NormalizeFormattingOptions()
      modifies formatter`options
      ensures formatter.options == Normalized(old(formatter.options))
    {
      formatter.NormalizeFormattingOptions();
    }
  }

  /** `processOption`: a known flag adds its column; any other argument raises. */
  method ProcessOption(arg: string, args: Arguments) returns (r: Outcome<Exception>)
    modifies args.formatter`options
    ensures OptionOf(arg).Some? ==> r == Pass && args.formatter.options == old(args.formatter.options) + {OptionOf(arg).value}
    ensures OptionOf(arg).None? ==>
              && r == Fail(InvalidArgumentException("Invalid argument: " + arg))
              && args.formatter.options == old(args.formatter.options)
  {
    if arg == "-l" {
      args.AddFormattingOptions(Lines);
    } else if arg == "-w" {
      args.AddFormattingOptions(Words);
    } else if arg == "-c" {
      args.AddFormattingOptions(Bytes);
    } else if arg == "-m" {
      args.AddFormattingOptions(Multibyte);
    } else {
      return Fail(InvalidArgumentException("Invalid argument: " + arg));
    }
    r := Pass;
  }

  /** Once an argument has raised, later arguments change nothing: parsing stopped there. */
  lemma {:induction false} ParseErrorExtends(a: seq<string>, b: seq<string>, fs: FileSystem)
    requires ParseError(a, fs).Some?
    ensures ParseError(a + b, fs) == ParseError(a, fs)
    decreases |b|
  {
    if b == [] {
      assert a + b == a;
    } else {
      var init := b[..|b| - 1];
      assert (a + b)[..|a + b| - 1] == a + init;
      ParseErrorExtends(a, init, fs);
    }
  }

  /** What the loop of `parseArguments` has built after handling the arguments `done`,
      none of which raised. */
  ghost predicate Parsed(args: Arguments, done: seq<string>, fs: FileSystem, stdin: seq<byte>)
    reads args, args.formatter, set i | 0 <= i < |args.inputs| :: args.inputs[i].stream
  {
    && ParseError(done, fs).None?
    && args.formatter.options == Flags(done)
    && DescribeAll(args.inputs, Files(done), fs, stdin)
    && WellFormed(args.inputs)
  }

  /** `parseArguments`: skips the program name, hands each argument starting with a dash to
      `processOption` and every other one to `addInputFile`, in order, then adds standard input
      when no file was named and defaults the columns. The first exception raised ends it. */
  method ParseArguments(argv: seq<string>, fs: FileSystem, stdin: seq<byte>) returns (r: Result<Arguments, Exception>)
    ensures ParseError(UserArgs(argv), fs).Some? ==> r == Failure(ParseError(UserArgs(argv), fs).value)
    ensures ParseError(UserArgs(argv), fs).None? ==>
              && r.Success? && fresh(r.value) && fresh(r.value.formatter)
              && r.value.formatter.options == Normalized(Flags(UserArgs(argv)))
              && InputsFor(r.value.inputs, Files(UserArgs(argv)), fs, stdin)
              && WellFormed(r.value.inputs)
  {
    var args := new Arguments();
    var firstArgument := true;
    for i := 0 to |argv|
      invariant firstArgument <==> i == 0
      invariant fresh(args) && fresh(args.formatter)
      invariant Parsed(args, Done(argv, i), fs, stdin)
    {
      if firstArgument {
        firstArgument := false;
        continue;
      }
      DoneStep(argv, i);
      var outcome := HandleArgument(argv[i], args, Done(argv, i), fs, stdin);
      if outcome.Fail? {
        StopsAt(argv, i, fs);
        return Failure(outcome.error);
      }
    }
    assert Done(argv, |argv|) == UserArgs(argv);
    Finish(args, UserArgs(argv), fs, stdin);
    r := Success(args);
  }

  /** The last two steps of `parseArguments`: `addStdin`, then `normalizeFormattingOptions`. */
  method Finish(args: Arguments, all: seq<string>, fs: FileSystem, stdin: seq<byte>)
    requires Parsed(args, all, fs, stdin)
    modifies args`inputs, args.formatter`options
    ensures args.formatter.options == Normalized(Flags(all))
    ensures InputsFor(args.inputs, Files(all), fs, stdin)
    ensures WellFormed(args.inputs)
  {
    args.AddStdin(stdin);
    args.NormalizeFormattingOptions();
  }

  /** Position i of argv is the next argument the loop handles. */
  lemma DoneStep(argv: seq<string>, i: nat)
    requires 1 <= i < |argv|
    ensures Done(argv, i + 1) == Done(argv, i) + [argv[i]]
  {
  }

  /** An exception raised at position i of argv is the one the whole command line raises. */
  lemma StopsAt(argv: seq<string>, i: nat, fs: FileSystem)
    requires 1 <= i < |argv| && ParseError(Done(argv, i + 1), fs).Some?
    ensures ParseError(UserArgs(argv), fs) == ParseError(Done(argv, i + 1), fs)
  {
    assert UserArgs(argv) == Done(argv, i + 1) + argv[i + 1..];
    ParseErrorExtends(Done(argv, i + 1), argv[i + 1..], fs);
  }

  /** The body of that loop for one argument after the program name. */
  method HandleArgument(arg: string, args: Arguments, ghost done: seq<string>, fs: FileSystem, stdin: seq<byte>)
    returns (outcome: Outcome<Exception>)
    requires Parsed(args, done, fs, stdin)
    modifies args`inputs, args.formatter`options
    ensures outcome.Fail? ==> ParseError(done + [arg], fs) == Some(outcome.error)
    ensures outcome.Pass? ==> Parsed(args, done + [arg], fs, stdin)
  {
    ArgumentStep(done, arg, fs);
    if IsFlag(arg) {
      outcome := ProcessOption(arg, args);
    } else {
      ghost var before := args.inputs;
      outcome := args.AddInputFile(arg, fs, stdin);
      if outcome.Pass? {
        var added := args.inputs[|before|];
        assert args.inputs == before + [added];
        assert forall k :: 0 <= k < |before| ==> before[k].stream != added.stream;
        AppendInput(before, Files(done), added, arg, fs, stdin);
      }
    }
  }

  /** Handling one more argument after arguments that raised nothing: its own exception, if
      any, is the one raised; its column joins the flags; a file joins the files. */
  lemma ArgumentStep(done: seq<string>, arg: string, fs: FileSystem)
    requires ParseError(done, fs).None?
    ensures ParseError(done + [arg], fs) == ErrorOf(arg, fs)
    ensures Flags(done + [arg]) == Flags(done) + if OptionOf(arg).Some? then {OptionOf(arg).value} else {}
    ensures Files(done + [arg]) == Files(done) + if IsFlag(arg) then [] else [arg]
  {
    var all := done + [arg];
    assert all[..|all| - 1] == done && all[|all| - 1] == arg;
  }

  /** An input that describes its file, over a stream no earlier input uses, extends inputs
      that describe their files. */
  lemma AppendInput(inputs: seq<InputDataObject>, files: seq<string>, input: InputDataObject, file: string,
                    fs: FileSystem, stdin: seq<byte>)
    requires DescribeAll(inputs, files, fs, stdin) && WellFormed(inputs)
    requires Describes(input, file, fs, stdin)
    requires forall k :: 0 <= k < |inputs| ==> inputs[k].stream != input.stream
    ensures DescribeAll(inputs + [input], files + [file], fs, stdin)
    ensures WellFormed(inputs + [input])
  {
    var all := inputs + [input];
    assert forall k :: 0 <= k < |inputs| ==> all[k] == inputs[k];
    assert all[|inputs|] == input;
  }

  /** The arguments after the program name that the loop of `parseArguments` has handled once
      it reaches position i of argv. */
  function Done(argv: seq<string>, i: nat): (done: seq<string>)
    requires i <= |argv|
    ensures |done| == if i == 0 then 0 else i - 1
  {
    if i == 0 then [] else argv[1..i]
  }
}
