/**
  Code generation through STM32CubeMX: the toolchain label table, the
  `.ioc` filter over a directory listing, and the command script written
  to a temporary file before the generator is run.
 */
module CubeMx {
  import opened Options
  import opened Text

  // ---------------------------------------------------------------------
  // Toolchains
  // ---------------------------------------------------------------------

  datatype Toolchain =
    | EwarmV832 | EwarmV800 | EwarmV700
    | MdmArmV532 | MdmArmV527 | MdmArmV500 | MdmArmV400
    | STM32CubeIDE | Makefile | CMake

  /** `get_toolchain`: the name the generator's `project toolchain` command expects. */
  function ToolchainLabel(t: Toolchain): string
  {
    match t
    case EwarmV832 => "EWARM V8.32"
    case EwarmV800 => "EWARM V8"
    case EwarmV700 => "EWARM V7"
    case MdmArmV532 => "MDK-ARM V5.32"
    case MdmArmV527 => "MDK-ARM V5.27"
    case MdmArmV500 => "MDK-ARM V5"
    case MdmArmV400 => "MDK-ARM V4"
    case STM32CubeIDE => "STM32CubeIDE"
    case Makefile => "Makefile"
    case CMake => "CMake"
  }

  /** The toolchain a label names, if any: the inverse of the table. */
  function ToolchainOfLabel(s: string): Option<Toolchain>
  {
    if s == "EWARM V8.32" then Some(EwarmV832)
    else if s == "EWARM V8" then Some(EwarmV800)
    else if s == "EWARM V7" then Some(EwarmV700)
    else if s == "MDK-ARM V5.32" then Some(MdmArmV532)
    else if s == "MDK-ARM V5.27" then Some(MdmArmV527)
    else if s == "MDK-ARM V5" then Some(MdmArmV500)
    else if s == "MDK-ARM V4" then Some(MdmArmV400)
    else if s == "STM32CubeIDE" then Some(STM32CubeIDE)
    else if s == "Makefile" then Some(Makefile)
    else if s == "CMake" then Some(CMake)
    else None
  }

  /** Every label reads back as its toolchain. */
  lemma {:induction false} LabelRoundTrip(t: Toolchain)
    ensures ToolchainOfLabel(ToolchainLabel(t)) == Some(t)
  {
  }

  /** The ten labels are distinct. */
  lemma {:induction false} LabelsDistinct(a: Toolchain, b: Toolchain)
    ensures ToolchainLabel(a) == ToolchainLabel(b) <==> a == b
  {
    LabelRoundTrip(a);
    LabelRoundTrip(b);
  }

  /** No label holds a line break or a double quote, so the toolchain line stays one quoted line. */
  lemma {:induction false} LabelPlain(t: Toolchain)
    ensures NoNewline(ToolchainLabel(t))
    ensures forall i :: 0 <= i < |ToolchainLabel(t)| ==> ToolchainLabel(t)[i] != '"'
  {
  }

  // ---------------------------------------------------------------------
  // The .ioc filter
  // ---------------------------------------------------------------------

  /** The position of the last `c` in `s`. */
  function LastIndex(s: string, c: char): (r: Option<nat>)
    ensures r.Some? ==> r.value < |s| && s[r.value] == c && forall j :: r.value < j < |s| ==> s[j] != c
    ensures r.None? ==> forall j :: 0 <= j < |s| ==> s[j] != c
    decreases |s|
  {
    if s == [] then None
    else if s[|s| - 1] == c then Some(|s| - 1)
    else LastIndex(s[..|s| - 1], c)
  }

  /** The last component of a listed path (listed paths never end in `/`). */
  function FileName(path: string): string
  {
    match LastIndex(path, '/')
    case None => path
    case Some(i) => path[i + 1..]
  }

  /**
    `Path::extension` of a file name: the text after the last dot, unless
    there is no dot, the only dot starts the name, or the name is `..`.
   */
  function Extension(name: string): Option<string>
  {
    if name == ".." then None
    else
      match LastIndex(name, '.')
      case None => None
      case Some(d) => if d == 0 then None else Some(name[d + 1..])
  }

  predicate IsIoc(path: string)
  {
    Extension(FileName(path)) == Some("ioc")
  }

  /** A name whose extension is `ioc` ends in `.ioc` after at least one character. */
  lemma {:induction false} IocExtensionEnds(n: string)
    requires Extension(n) == Some("ioc")
    ensures |n| >= 5 && n[|n| - 4..] == ".ioc"
  {
    var d := LastIndex(n, '.').value;
    assert d != 0 && n[d + 1..] == "ioc";
    assert d == |n| - 4;
    assert n[d..] == [n[d]] + n[d + 1..];
  }

  /** A name of at least five characters ending in `.ioc` has the extension `ioc`. */
  lemma {:induction false} IocEndsExtension(n: string)
    requires |n| >= 5 && n[|n| - 4..] == ".ioc"
    ensures Extension(n) == Some("ioc")
  {
    var d := |n| - 4;
    var tail := n[d..];
    assert tail[0] == '.' && tail[1] == 'i' && tail[2] == 'o' && tail[3] == 'c';
    assert n[d] == '.' && n[d + 1] != '.' && n[d + 2] != '.' && n[d + 3] != '.';
    assert LastIndex(n, '.') == Some(d);
    assert n[d + 1..] == tail[1..] == "ioc";
    assert n != "..";
  }

  /** A listed path counts exactly when its file name is at least one character followed by `.ioc`. */
  lemma {:induction false} IocIff(path: string)
    ensures IsIoc(path) <==>
      var n := FileName(path); |n| >= 5 && n[|n| - 4..] == ".ioc"
  {
    var n := FileName(path);
    if IsIoc(path) {
      IocExtensionEnds(n);
    }
    if |n| >= 5 && n[|n| - 4..] == ".ioc" {
      IocEndsExtension(n);
    }
  }

  /** The listed paths that are `.ioc` files, in listing order. */
  function FilterIoc(paths: seq<string>): (r: seq<string>)
    ensures |r| <= |paths|
    ensures forall x :: x in r <==> x in paths && IsIoc(x)
    ensures forall x :: multiset(r)[x] == if IsIoc(x) then multiset(paths)[x] else 0
    decreases |paths|
  {
    if paths == [] then []
    else
      var front := paths[..|paths| - 1];
      var last := paths[|paths| - 1];
      assert paths == front + [last];
      FilterIoc(front) + (if IsIoc(last) then [last] else [])
  }

  /** `get_ioc_files` over a given listing: the loop that keeps the `.ioc` entries. */
  method IocFiles(entries: seq<string>) returns (iocFiles: seq<string>)
    ensures iocFiles == FilterIoc(entries)
  {
    iocFiles := [];
    for i := 0 to |entries|
      invariant iocFiles == FilterIoc(entries[..i])
    {
      assert entries[..i + 1][..i] == entries[..i];
      var path := entries[i];
      if IsIoc(path) {
        iocFiles := iocFiles + [path];
      }
    }
    assert entries[..|entries|] == entries;
  }

  // ---------------------------------------------------------------------
  // The command script
  // ---------------------------------------------------------------------

  const LoadCommand := "config load "
  const RootCommand := "project generateunderroot 1"
  const CoupleCommand := "project couplefilesbyip 1"
  const GenerateCommand := "project generate"
  const ExitCommand := "exit"

  /** The toolchain command, with the label in double quotes. */
  function ToolchainLine(t: Toolchain): string
  {
    "project toolchain \"" + ToolchainLabel(t) + "\""
  }

  /** The root option, written for STM32CubeIDE only, without a line break. */
  function RootText(tc: Option<Toolchain>): string
  {
    if tc == Some(STM32CubeIDE) then RootCommand else ""
  }

  /** What a toolchain adds: its line, and for STM32CubeIDE the unterminated root option. */
  function ToolchainText(tc: Option<Toolchain>): string
  {
    match tc
    case None => ""
    case Some(t) => (ToolchainLine(t) + "\n") + RootText(tc)
  }

  /** The script text, in the order the writes happen. */
  function ScriptText(ioc: string, tc: Option<Toolchain>): string
  {
    (LoadCommand + ioc + "\n") + ToolchainText(tc) + (CoupleCommand + "\n") + (GenerateCommand + "\n") + ExitCommand
  }

  /** The last two commands of every script. */
  function Finish(): string
  {
    (GenerateCommand + "\n") + ExitCommand
  }

  /** The script after the toolchain line: the couple-files line (glued to the root option for STM32CubeIDE), then `Finish`. */
  function Tail(tc: Option<Toolchain>): string
  {
    (RootText(tc) + CoupleCommand) + "\n" + Finish()
  }

  /** The script as its load line, the toolchain line if any, and the tail. */
  lemma {:induction false} ScriptShape(ioc: string, tc: Option<Toolchain>)
    ensures tc.None? ==> ScriptText(ioc, tc) == (LoadCommand + ioc) + "\n" + Tail(tc)
    ensures tc.Some? ==>
      ScriptText(ioc, tc) == (LoadCommand + ioc) + "\n" + (ToolchainLine(tc.value) + "\n" + Tail(tc))
  {
    var load := LoadCommand + ioc + "\n";
    var c := CoupleCommand + "\n";
    var g := GenerateCommand + "\n";
    var root := RootText(tc);
    var tt := ToolchainText(tc);
    var tail := Tail(tc);
    // load + tt + c + g + exit  ==  load + (tt' + tail)
    Assoc(load + tt + c, g, ExitCommand);
    Assoc(load + tt, c, g + ExitCommand);
    Assoc(load, tt, c + (g + ExitCommand));
    Assoc(root + CoupleCommand, "\n", g + ExitCommand);
    Assoc(root, CoupleCommand, "\n");
    Assoc(CoupleCommand, "\n", g + ExitCommand);
    Assoc(root, c, g + ExitCommand);
    assert tail == root + (c + (g + ExitCommand));
    if tc.Some? {
      var tl := ToolchainLine(tc.value) + "\n";
      Assoc(tl, root, c + (g + ExitCommand));
    } else {
      ConcatEmpty(c + (g + ExitCommand));
      ConcatEmpty(CoupleCommand);
    }
  }

  /** No command of the script holds a line break. */
  lemma {:induction false} CommandsPlain()
    ensures NoNewline(RootCommand) && NoNewline(CoupleCommand)
    ensures NoNewline(GenerateCommand) && NoNewline(ExitCommand)
  {
  }

  lemma {:induction false} FinishLines()
    ensures SplitLines(Finish()) == [GenerateCommand, ExitCommand]
  {
    CommandsPlain();
    SplitSingle(ExitCommand);
    SplitAfterLine(GenerateCommand, ExitCommand);
  }

  lemma {:induction false} TailLines(tc: Option<Toolchain>)
    ensures SplitLines(Tail(tc)) == [RootText(tc) + CoupleCommand, GenerateCommand, ExitCommand]
  {
    var couple := RootText(tc) + CoupleCommand;
    CommandsPlain();
    assert NoNewline(couple);
    FinishLines();
    SplitAfterLine(couple, Finish());
  }

  /** The script always starts by loading the project file. */
  lemma {:induction false} ScriptStart(ioc: string, tc: Option<Toolchain>)
    ensures IsPrefix("config load " + ioc + "\n", ScriptText(ioc, tc))
  {
    var head := LoadCommand + ioc + "\n";
    var rest := ToolchainText(tc) + (CoupleCommand + "\n") + (GenerateCommand + "\n") + ExitCommand;
    Assoc(head + ToolchainText(tc) + (CoupleCommand + "\n"), GenerateCommand + "\n", ExitCommand);
    Assoc(head + ToolchainText(tc), CoupleCommand + "\n", (GenerateCommand + "\n") + ExitCommand);
    Assoc(head, ToolchainText(tc), (CoupleCommand + "\n") + ((GenerateCommand + "\n") + ExitCommand));
    Assoc(ToolchainText(tc), CoupleCommand + "\n", (GenerateCommand + "\n") + ExitCommand);
    Assoc(ToolchainText(tc) + (CoupleCommand + "\n"), GenerateCommand + "\n", ExitCommand);
    assert ScriptText(ioc, tc) == head + rest;
  }

  /** The script always ends with the same three commands and no newline after `exit`. */
  lemma {:induction false} ScriptEnd(ioc: string, tc: Option<Toolchain>)
    ensures IsSuffix((CoupleCommand + "\n") + (GenerateCommand + "\n") + ExitCommand, ScriptText(ioc, tc))
    ensures ScriptText(ioc, tc)[|ScriptText(ioc, tc)| - 1] == 't'
  {
    var tail := (CoupleCommand + "\n") + (GenerateCommand + "\n") + ExitCommand;
    var front := (LoadCommand + ioc + "\n") + ToolchainText(tc);
    var s := ScriptText(ioc, tc);
    Assoc(front + (CoupleCommand + "\n"), GenerateCommand + "\n", ExitCommand);
    Assoc(front, CoupleCommand + "\n", (GenerateCommand + "\n") + ExitCommand);
    Assoc(CoupleCommand + "\n", GenerateCommand + "\n", ExitCommand);
    assert s == front + tail;
    assert s[|s| - |tail|..] == tail;
    assert s[|s| - 1] == tail[|tail| - 1] == ExitCommand[3];
  }

  /**
    The lines of the script, for a project path without a line break: the
    load line; the toolchain line exactly when a toolchain is given; then
    `project couplefilesbyip 1`, which for STM32CubeIDE is glued to the end
    of `project generateunderroot 1`; then `project generate` and `exit`,
    the last line, with nothing after it.
   */
  lemma {:induction false} ScriptLines(ioc: string, tc: Option<Toolchain>)
    requires NoNewline(ioc)
    ensures SplitLines(ScriptText(ioc, tc)) ==
      ["config load " + ioc] +
      (if tc.Some? then ["project toolchain \"" + ToolchainLabel(tc.value) + "\""] else []) +
      [(if tc == Some(STM32CubeIDE) then "project generateunderroot 1" else "") + "project couplefilesbyip 1",
       "project generate",
       "exit"]
  {
    ScriptLinesOf(ioc, tc);
  }

  /** `ScriptLines` in terms of the command constants. */
  lemma {:induction false} ScriptLinesOf(ioc: string, tc: Option<Toolchain>)
    requires NoNewline(ioc)
    ensures SplitLines(ScriptText(ioc, tc)) ==
      [LoadCommand + ioc] + (if tc.Some? then [ToolchainLine(tc.value)] else []) +
      [RootText(tc) + CoupleCommand, GenerateCommand, ExitCommand]
  {
    var load := LoadCommand + ioc;
    assert NoNewline(LoadCommand);
    assert NoNewline(load);
    ScriptShape(ioc, tc);
    TailLines(tc);
    match tc
    case None =>
      SplitAfterLine(load, Tail(tc));
    case Some(t) =>
      ToolchainLinePlain(t);
      SplitAfterLine(ToolchainLine(t), Tail(tc));
      SplitAfterLine(load, ToolchainLine(t) + "\n" + Tail(tc));
  }

  /**
    With STM32CubeIDE the root option and the next command share one line,
    so the script holds no line that is the root option by itself.
   */
  lemma {:induction false} RootOptionGlued(ioc: string)
    requires NoNewline(ioc)
    ensures RootCommand + CoupleCommand in SplitLines(ScriptText(ioc, Some(STM32CubeIDE)))
    ensures RootCommand !in SplitLines(ScriptText(ioc, Some(STM32CubeIDE)))
  {
    ScriptLines(ioc, Some(STM32CubeIDE));
    var ls := SplitLines(ScriptText(ioc, Some(STM32CubeIDE)));
    assert ls[0][0] == 'c' && RootCommand[0] == 'p';
    assert |ls[1]| != |RootCommand|;
    assert |ls[2]| != |RootCommand|;
    assert |ls[3]| != |RootCommand|;
    assert |ls[4]| != |RootCommand|;
  }

  /** What a toolchain adds once the root option ends its own line. */
  function IntendedToolchainText(tc: Option<Toolchain>): string
  {
    match tc
    case None => ""
    case Some(t) => (ToolchainLine(t) + "\n") + (if t == STM32CubeIDE then RootCommand + "\n" else "")
  }

  /** The script with every command on a line of its own. */
  function IntendedScriptText(ioc: string, tc: Option<Toolchain>): string
  {
    (LoadCommand + ioc + "\n") + IntendedToolchainText(tc) + (CoupleCommand + "\n") + (GenerateCommand + "\n") + ExitCommand
  }

  /** The three commands the corrected script closes with, each on its own line. */
  function Closing(): string
  {
    (CoupleCommand + "\n") + Finish()
  }

  lemma {:induction false} ClosingLines()
    ensures SplitLines(Closing()) == [CoupleCommand, GenerateCommand, ExitCommand]
  {
    CommandsPlain();
    FinishLines();
    SplitAfterLine(CoupleCommand, Finish());
  }

  lemma {:induction false} IntendedShape(ioc: string, tc: Option<Toolchain>)
    ensures IntendedScriptText(ioc, tc) == (LoadCommand + ioc) + "\n" + (IntendedToolchainText(tc) + Closing())
  {
    var load := LoadCommand + ioc;
    var g := GenerateCommand + "\n";
    var c := CoupleCommand + "\n";
    var tt := IntendedToolchainText(tc);
    Assoc(load + "\n" + tt + c, g, ExitCommand);
    Assoc(load + "\n" + tt, c, g + ExitCommand);
    Assoc(load + "\n", tt, c + (g + ExitCommand));
  }

  lemma {:induction false} RootThenClosing()
    ensures SplitLines(RootCommand + "\n" + Closing()) == [RootCommand, CoupleCommand, GenerateCommand, ExitCommand]
  {
    CommandsPlain();
    ClosingLines();
    SplitAfterLine(RootCommand, Closing());
  }

  lemma {:induction false} ToolchainLinePlain(t: Toolchain)
    ensures NoNewline(ToolchainLine(t))
  {
    LabelPlain(t);
  }

  lemma {:induction false} LineThen(tl: string, after: string)
    requires NoNewline(tl)
    ensures SplitLines((tl + "\n") + after + Closing()) == [tl] + SplitLines(after + Closing())
  {
    Assoc(tl + "\n", after, Closing());
    SplitAfterLine(tl, after + Closing());
  }

  lemma {:induction false} IntendedTailLines(tc: Option<Toolchain>)
    ensures SplitLines(IntendedToolchainText(tc) + Closing()) ==
      (if tc.Some? then [ToolchainLine(tc.value)] else []) +
      (if tc == Some(STM32CubeIDE) then [RootCommand] else []) +
      [CoupleCommand, GenerateCommand, ExitCommand]
  {
    ClosingLines();
    match tc
    case None =>
      ConcatEmpty(Closing());
    case Some(t) =>
      ToolchainLinePlain(t);
      if t == STM32CubeIDE {
        LineThen(ToolchainLine(t), RootCommand + "\n");
        RootThenClosing();
      } else {
        LineThen(ToolchainLine(t), "");
        ConcatEmpty(Closing());
      }
  }

  /**
    The lines of the corrected script: the load line, the toolchain line
    exactly when a toolchain is given, the root option on its own line
    exactly for STM32CubeIDE, then the three closing commands.
   */
  lemma {:induction false} IntendedScriptLines(ioc: string, tc: Option<Toolchain>)
    requires NoNewline(ioc)
    ensures SplitLines(IntendedScriptText(ioc, tc)) ==
      ["config load " + ioc] +
      (if tc.Some? then ["project toolchain \"" + ToolchainLabel(tc.value) + "\""] else []) +
      (if tc == Some(STM32CubeIDE) then ["project generateunderroot 1"] else []) +
      ["project couplefilesbyip 1", "project generate", "exit"]
  {
    var load := LoadCommand + ioc;
    assert NoNewline(load);
    IntendedShape(ioc, tc);
    IntendedTailLines(tc);
    SplitAfterLine(load, IntendedToolchainText(tc) + Closing());
  }

  /** The temporary script file: `write_all` appends to what is already there. */
  class ScriptFile {
    var contents: string

    constructor()
      ensures contents == []
    {
      contents := [];
    }

    method WriteAll(s: string)
      modifies this
      ensures contents == old(contents) + s
    {
      contents := contents + s;
    }
  }

  /** The writes of `generate_code`, in order, into a new script file. */
  method WriteScript(ioc: string, tc: Option<Toolchain>) returns (text: string)
    ensures text == ScriptText(ioc, tc)
  {
    var file := new ScriptFile();
    file.WriteAll(LoadCommand + ioc + "\n");
    ConcatEmpty(LoadCommand + ioc + "\n");
    if tc.Some? {
      var t := tc.value;
      file.WriteAll(ToolchainLine(t) + "\n");
      if t == STM32CubeIDE {
        file.WriteAll(RootCommand);
        Assoc(LoadCommand + ioc + "\n", ToolchainLine(t) + "\n", RootCommand);
      } else {
        ConcatEmpty(ToolchainLine(t) + "\n");
      }
    } else {
      ConcatEmpty(LoadCommand + ioc + "\n");
    }
    assert file.contents == (LoadCommand + ioc + "\n") + ToolchainText(tc);
    file.WriteAll(CoupleCommand + "\n");
    file.WriteAll(GenerateCommand + "\n");
    file.WriteAll(ExitCommand);
    text := file.contents;
  }

  /** How running the generator ended. */
  datatype ExitStatus =
    | Exited(code: int)  // the process ran and exited with `code`
    | Signalled          // the process ran and was killed, so there is no exit code
    | SpawnFailed        // the process could not be started

  /** What `generate_code` did: its verdict, the script it wrote, and whether it removed it. */
  datatype Codegen = Codegen(ok: bool, script: Option<string>, scriptRemoved: bool)

  /**
    `generate_code` over a given directory listing, platform and generator
    outcome: fails unless exactly one `.ioc` file is listed; on Windows it
    fails after writing the script and before removing it; elsewhere it
    removes the script and succeeds exactly when the generator exits with 0.
   */
  method GenerateCode(entries: seq<string>, tc: Option<Toolchain>, onWindows: bool, status: ExitStatus)
    returns (r: Codegen)
    ensures |FilterIoc(entries)| != 1 ==> r == Codegen(false, None, false)
    ensures |FilterIoc(entries)| == 1 ==>
      r.script == Some(ScriptText(FilterIoc(entries)[0], tc)) && (r.scriptRemoved <==> !onWindows)
    ensures r.ok <==> |FilterIoc(entries)| == 1 && !onWindows && status == Exited(0)
  {
    var iocFiles := IocFiles(entries);
    if |iocFiles| != 1 {
      return Codegen(false, None, false);
    }
    var script := WriteScript(iocFiles[0], tc);
    if onWindows {
      return Codegen(false, Some(script), false);
    }
    var ok := status.Exited? && status.code == 0;
    return Codegen(ok, Some(script), true);
  }
}
