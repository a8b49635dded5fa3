/** Model of src/algorithm/universal_input_stream.cpp: the three byte sources behind one
    interface, and the choice between them by file size.

    The operating system is not part of the model. Standard input is the byte sequence it will
    deliver; a file is what a `FileSystem` oracle says about its name: either an error text
    from the size query, or its contents together with whether it opens for reading and
    whether it can be memory-mapped. */
module UniversalInputStream {
  import opened Wrappers
  import opened Bytes
  import opened Exceptions

  /** The three implementations of `UniversalInputStream`. */
  datatype StreamKind = Stdin | BufferedFile | MemoryMappedFile

  const StdinName: string := "<stdin>"

  /** `MAX_MEMORY_MAPPED_FILE_SIZE`, 100 MiB. */
  const MaxMemoryMappedFileSize: nat := 100 * 1024 * 1024

  /** A byte source with a read cursor `pos` into the bytes it will deliver. A buffered file
      that failed to open delivers nothing. */
  class InputStream {
    const kind: StreamKind
    const name: string
    const data: seq<byte>
    const isOpen: bool
    var pos: nat

    ghost predicate Valid()
      reads this
    {
      && pos <= |data|
      && (kind == Stdin ==> name == StdinName && isOpen)
      && (kind == MemoryMappedFile ==> isOpen)
      && (!isOpen ==> data == [])
    }

    /** The bytes still to come. */
    ghost function Remaining(): seq<byte>
      reads this
      requires Valid()
    {
      data[pos..]
    }

    /** `StandardInputStream`, delivering `input`. */
    constructor Standard(input: seq<byte>)
      ensures Valid() && kind == Stdin && name == StdinName && data == input && pos == 0
    {
      kind, name, data, isOpen, pos := Stdin, StdinName, input, true, 0;
    }

    /** `BufferedFileInputStream`: an `std::ifstream` that delivers `contents` when it opened. */
    constructor Buffered(filename: string, contents: seq<byte>, opens: bool)
      ensures Valid() && kind == BufferedFile && name == filename && isOpen == opens && pos == 0
      ensures data == if opens then contents else []
    {
      kind, name, isOpen, pos := BufferedFile, filename, opens, 0;
      data := if opens then contents else [];
    }

    /** `MemoryMappedFileInputStream` over a mapping that succeeded. */
    constructor Mapped(filename: string, contents: seq<byte>)
      ensures Valid() && kind == MemoryMappedFile && name == filename && data == contents && pos == 0
    {
      kind, name, data, isOpen, pos := MemoryMappedFile, filename, contents, true, 0;
    }

    /** `nextByte`: the byte under the cursor, which then moves forward by one; `None` once the
        data is exhausted, and then the cursor stays put. */
    method NextByte() returns (b: Option<byte>)
      requires Valid()
      modifies this`pos
      ensures Valid()
      ensures old(pos) < |data| ==> b == Some(data[old(pos)]) && pos == old(pos) + 1
      ensures old(pos) >= |data| ==> b == None && pos == old(pos)
      ensures old(Remaining()) == if b.Some? then [b.value] + Remaining() else Remaining()
    {
      if pos >= |data| {
        return None;
      }
      b := Some(data[pos]);
      pos := pos + 1;
      assert old(Remaining()) == [data[old(pos)]] + data[pos..];
    }

    /** `reset`: standard input cannot rewind; a buffered file rewinds when it is open; a
        mapping always rewinds. */
    method Reset() returns (ok: bool)
      requires Valid()
      modifies this`pos
      ensures Valid()
      ensures ok <==> kind != Stdin && isOpen
      ensures ok ==> pos == 0 && Remaining() == data
      ensures !ok ==> pos == old(pos)
    {
      match kind
      case Stdin =>
        ok := false;
      case BufferedFile =>
        if !isOpen {
          return false;
        }
        pos := 0;
        ok := true;
      case MemoryMappedFile =>
        pos := 0;
        ok := true;
    }

    /** `size`, which only the mapped stream offers: the size of the mapping. */
    function Size(): (n: nat)
      reads this
      requires kind == MemoryMappedFile
      ensures n == |data|
    {
      |data|
    }

    /** `isStdin`. */
    function IsStdin(): (r: bool)
      reads this
      requires Valid()
      ensures r ==> name == StdinName
      ensures r <==> kind == Stdin
    {
      kind == Stdin
    }

    /** `name`: "<stdin>" for standard input, the file name otherwise. */
    function Name(): (r: string)
      reads this
      requires Valid()
      ensures kind == Stdin ==> r == StdinName
      ensures kind != Stdin ==> r == name
    {
      name
    }
  }

  /** What the operating system answers about a file name. */
  datatype FileStatus =
    | Unavailable(error: string)
    | Regular(contents: seq<byte>, opens: bool, maps: bool)

  type FileSystem = string -> FileStatus

  /** The strategy `createInputStream` picks for a file of the given size. */
  function StrategyFor(size: nat): (k: StreamKind)
    ensures k == BufferedFile <==> size < MaxMemoryMappedFileSize
    ensures k == MemoryMappedFile <==> size >= MaxMemoryMappedFileSize
  {
    if size < MaxMemoryMappedFileSize then BufferedFile else MemoryMappedFile
  }

  /** `createInputStream(filename)`: a failing size query becomes a FileOperationException
      with the error text; a failing mapping raises the runtime error of the mapped stream's
      constructor. */
  method CreateInputStream(filename: string, fs: FileSystem) returns (r: Result<InputStream, Exception>)
    ensures fs(filename).Unavailable? ==> r == Failure(FileOperationException(fs(filename).error))
    ensures fs(filename).Regular? ==>
              var status := fs(filename);
              var k := StrategyFor(|status.contents|);
              if k == MemoryMappedFile && !status.maps then
                r == Failure(RuntimeError("Failed to memory-map file: " + filename))
              else
                && r.Success? && fresh(r.value) && r.value.Valid() && r.value.pos == 0
                && r.value.kind == k && r.value.name == filename
                && r.value.data == (if status.opens || k == MemoryMappedFile then status.contents else [])
  {
    var status := fs(filename);
    if status.Unavailable? {
      r := Failure(FileOperationException(status.error));
    } else if |status.contents| < MaxMemoryMappedFileSize {
      var stream := new InputStream.Buffered(filename, status.contents, status.opens);
      r := Success(stream);
    } else if !status.maps {
      r := Failure(RuntimeError("Failed to memory-map file: " + filename));
    } else {
      var stream := new InputStream.Mapped(filename, status.contents);
      r := Success(stream);
    }
  }

  /** `createInputStream()`: a stream over standard input. */
  method CreateStandardInputStream(stdin: seq<byte>) returns (stream: InputStream)
    ensures fresh(stream) && stream.Valid() && stream.kind == Stdin && stream.data == stdin && stream.pos == 0
  {
    stream := new InputStream.Standard(stdin);
  }
}
