/**
 * The transformer the agent registers (DumpingAgent.Dumper): the filter
 * decision, the target file and the write it performs on each class load.
 * The filesystem is a log of the writes that succeeded; whether the parent
 * directory could be created and whether the write went through are oracles
 * passed in by the caller.
 */
module Dumping {
  import opened Options
  import opened JavaStrings

  /** A Java `byte`. */
  newtype int8 = x: int | -128 <= x < 128

  /** `new File(parent, child)`: a child name resolved under a parent folder. */
  datatype FilePath = FilePath(parent: string, child: string)

  /** One successful write of `bytes` to the file at `path`. */
  datatype Write = Write(path: FilePath, bytes: seq<int8>)

  const ClassSuffix: string := ".class"

  /** Slash-to-dot normalisation of one character of a class name. */
  function Dotted(c: char): char
  {
    if c == '/' then '.' else c
  }

  /**
   * The filter test of `dump`: no filter accepts every class; a filter
   * accepts exactly the class names whose slash-to-dot form starts with it.
   */
  function Accepts(filter: Option<string>, className: string): (r: bool)
    ensures filter.None? ==> r
    ensures filter.Some? ==>
      (r <==> |filter.value| <= |className| &&
              forall i :: 0 <= i < |filter.value| ==> Dotted(className[i]) == filter.value[i])
  {
    filter.None? || StartsWith(Replace(className, '/', '.'), filter.value)
  }

  /**
   * A filter that contains a slash accepts nothing: the check compares it
   * with the dotted form of the name, which holds no slash.
   */
  lemma SlashFilterAcceptsNothing(filter: string, className: string)
    requires '/' in filter
    ensures !Accepts(Some(filter), className)
  {
  }

  /** The empty filter (agent argument ending in `?`) accepts every class. */
  lemma EmptyFilterAcceptsAll(className: string)
    ensures Accepts(Some(""), className)
  {
  }

  /** The file `dump` writes: `className + ".class"` resolved under `base`. */
  function TargetFile(base: string, className: string): (p: FilePath)
    ensures p.parent == base
    ensures |p.child| == |className| + |ClassSuffix|
    ensures p.child[..|className|] == className && p.child[|className|..] == ClassSuffix
  {
    FilePath(base, className + ClassSuffix)
  }

  /** The class name a dumped file stands for, read back from its name. */
  function ClassNameOf(p: FilePath): Option<string>
  {
    if |ClassSuffix| <= |p.child| && p.child[|p.child| - |ClassSuffix|..] == ClassSuffix
    then Some(p.child[..|p.child| - |ClassSuffix|])
    else None
  }

  /**
   * The target file names its class: reading the name back gives the
   * class, so distinct class names under one base give distinct FilePaths.
   */
  lemma TargetFileNamesClass(base: string, className: string)
    ensures ClassNameOf(TargetFile(base, className)) == Some(className)
    ensures forall c :: TargetFile(base, c) == TargetFile(base, className) ==> c == className
  {
  }

  /** The index of the latest write to `p` in `log`, or -1 when there is none. */
  function LastIndexOf(log: seq<Write>, p: FilePath): (r: int)
    ensures -1 <= r < |log|
    ensures r == -1 <==> forall i :: 0 <= i < |log| ==> log[i].path != p
    ensures 0 <= r ==> log[r].path == p && forall j :: r < j < |log| ==> log[j].path != p
  {
    if log == [] then -1
    else if log[|log| - 1].path == p then |log| - 1
    else
      assert forall i :: 0 <= i < |log| - 1 ==> log[..|log| - 1][i] == log[i];
      LastIndexOf(log[..|log| - 1], p)
  }

  /**
   * What a file holds after the writes of `log`: the bytes of the latest
   * write to it, or nothing when it was never written.
   */
  function LastWrite(log: seq<Write>, p: FilePath): (r: Option<seq<int8>>)
    ensures r.None? <==> forall i :: 0 <= i < |log| ==> log[i].path != p
    ensures r.Some? ==>
      exists i :: 0 <= i < |log| && log[i] == Write(p, r.value) &&
                  forall j :: i < j < |log| ==> log[j].path != p
  {
    var i := LastIndexOf(log, p);
    if i < 0 then None else Some(log[i].bytes)
  }

  /**
   * A new write replaces what the file held and leaves every other file as
   * it was: dumping a class again overwrites its earlier dump.
   */
  lemma WriteOverwrites(log: seq<Write>, w: Write, q: FilePath)
    ensures LastWrite(log + [w], w.path) == Some(w.bytes)
    ensures q != w.path ==> LastWrite(log + [w], q) == LastWrite(log, q)
  {
  }

  class FileSystem {
    /** Every write that succeeded, oldest first. */
    var log: seq<Write>

    constructor ()
      ensures log == []
    {
      log := [];
    }

    /** A write of `bytes` to `path` that went through. */
    method WriteFile(path: FilePath, bytes: seq<int8>)
      modifies this
      ensures log == old(log) + [Write(path, bytes)]
    {
      log := log + [Write(path, bytes)];
    }
  }

  /** A registered transformer: the output folder and the optional filter. */
  datatype Dumper = Dumper(base: string, filter: Option<string>)
  {
    /**
     * The writes one `dump` call performs: one write of the buffer to the
     * target file when the filter accepts the class, the parent folder is
     * available and the write succeeds; none otherwise.
     */
    function Dumped(className: string, bytes: seq<int8>, parentReady: bool, writeOk: bool): (r: seq<Write>)
      ensures |r| <= 1
      ensures r != [] <==> Accepts(filter, className) && parentReady && writeOk
      ensures r != [] ==> r[0].path == TargetFile(base, className) && r[0].bytes == bytes
    {
      if Accepts(filter, className) && parentReady && writeOk
      then [Write(TargetFile(base, className), bytes)]
      else []
    }

    /**
     * `dump`: skip rejected classes, make the parent folder, write the
     * buffer. `parentReady` is the answer of `mkdirs` on the parent folder,
     * `writeOk` whether opening and writing the file raised no error.
     */
    method Dump(fs: FileSystem, className: string, classfileBuffer: array<int8>,
                parentReady: bool, writeOk: bool)
      modifies fs
      ensures fs.log == old(fs.log) + Dumped(className, classfileBuffer[..], parentReady, writeOk)
    {
      if !Accepts(filter, className) {
        return;
      }
      var file := TargetFile(base, className);
      if !parentReady {
        return;
      }
      if writeOk {
        fs.WriteFile(file, classfileBuffer[..]);
      }
    }

    /**
     * `transform`: dump the class, then hand the very same buffer back to
     * the host, unmodified, whatever the dump did.
     */
    method Transform(fs: FileSystem, className: string, classfileBuffer: array<int8>,
                     parentReady: bool, writeOk: bool) returns (r: array<int8>)
      modifies fs
      ensures r == classfileBuffer && r[..] == old(classfileBuffer[..])
      ensures fs.log == old(fs.log) + Dumped(className, classfileBuffer[..], parentReady, writeOk)
    {
      Dump(fs, className, classfileBuffer, parentReady, writeOk);
      return classfileBuffer;
    }
  }
}
