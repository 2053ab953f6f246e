/** The file and build logic of the IDE's main window: which file the editor
    holds and whether it is saved, the save and new-file dialogs, and the
    compile-then-run sequence driven by process signals. Dialog answers, file
    write outcomes and process results arrive as parameters; process starts,
    warning boxes and written files are recorded in fields. */
module Ide {
  import opened Text

  datatype ExitStatus = NormalExit | CrashExit

  datatype ProcessError = FailedToStart | Crashed | Timedout | ReadError | WriteError | UnknownError

  /** The buttons of the unsaved-changes question. */
  datatype Answer = Save | Discard | Cancel

  /** A process start: the program and its arguments. */
  datatype Launch = Launch(program: string, arguments: seq<string>)

  /** The warning boxes the window shows. */
  datatype Warning = PleaseSaveFirst | CannotWrite(fileName: string)

  const AppTitle: string := "Beach IDE"
  const TitleSuffix: string := "[*] - Beach IDE"
  const UntitledName: string := "untitled.cpp"
  const Compiler: string := "g++"
  const CompileSucceeded: string := "Compilation successful!\nRunning program...\n"
  const CompileFailed: string := "Compilation failed!"
  const ErrorPrefix: string := "Error: "

  // ---------------------------------------------------------------------------
  // Names and titles
  // ---------------------------------------------------------------------------

  /** QFileInfo::fileName: the part of a path after its last `/`. */
  function BaseName(path: string): (r: string)
    ensures '/' !in r
    ensures |r| <= |path| && r == path[|path| - |r|..]
    ensures |r| == |path| || path[|path| - |r| - 1] == '/'
  {
    if path == [] then []
    else if path[|path| - 1] == '/' then []
    else BaseName(path[..|path| - 1]) + [path[|path| - 1]]
  }

  /** The name of a file in a directory is the name itself. */
  lemma {:induction false} BaseNameInDirectory(dir: string, name: string)
    requires '/' !in name
    ensures BaseName(dir + "/" + name) == name
    decreases |name|
  {
    var path := dir + "/" + name;
    if name != [] {
      var init := name[..|name| - 1];
      assert path[..|path| - 1] == dir + "/" + init;
      assert path[|path| - 1] == name[|name| - 1];
      BaseNameInDirectory(dir, init);
      assert init + [name[|name| - 1]] == name;
    }
  }

  /** A name without `/` is its own base name. */
  lemma {:induction false} BaseNameOfName(name: string)
    requires '/' !in name
    ensures BaseName(name) == name
    decreases |name|
  {
    if name != [] {
      var init := name[..|name| - 1];
      BaseNameOfName(init);
      assert init + [name[|name| - 1]] == name;
    }
  }

  /** The window title for the current file: its base name, or "untitled.cpp"
      when there is no file, followed by the modified marker and the IDE name. */
  function WindowTitle(file: string): (r: string)
    ensures |TitleSuffix| <= |r| && r[|r| - |TitleSuffix|..] == TitleSuffix
    ensures file == "" ==> r[..|r| - |TitleSuffix|] == UntitledName
    ensures file != "" ==> r[..|r| - |TitleSuffix|] == BaseName(file)
  {
    (if file == "" then UntitledName else BaseName(file)) + TitleSuffix
  }

  lemma UntitledWindowTitle()
    ensures WindowTitle("") == "untitled.cpp[*] - Beach IDE"
  {
  }

  lemma TitleShowsFileName(dir: string, name: string)
    requires name != "" && '/' !in name
    ensures WindowTitle(dir + "/" + name) == name + TitleSuffix
  {
    BaseNameInDirectory(dir, name);
  }

  // ---------------------------------------------------------------------------
  // Processes
  // ---------------------------------------------------------------------------

  /** The executable a compile of `file` produces. */
  function OutputPath(file: string): string {
    file + ".out"
  }

  /** The compiler call for `file`. */
  function CompileLaunch(file: string): (r: Launch)
    ensures r.program == Compiler && |r.arguments| == 3
    ensures r.arguments[0] == file && r.arguments[1] == "-o"
  {
    Launch(Compiler, [file, "-o", OutputPath(file)])
  }

  /** The start of a compiled program, without arguments. */
  function RunLaunch(file: string): (r: Launch)
    ensures r.arguments == []
  {
    Launch(OutputPath(file), [])
  }

  /** The program that runs after a compile is the compiler's output file. */
  lemma RunsWhatWasBuilt(file: string)
    ensures RunLaunch(file).program == CompileLaunch(file).arguments[2]
  {
  }

  /** A compile succeeded: exit code 0 after a normal exit. */
  predicate Succeeded(exitCode: int, status: ExitStatus) {
    exitCode == 0 && status == NormalExit
  }

  /** The console line for a process error: start failures and crashes have
      their own text, every other error reads as unknown. */
  function ErrorLine(error: ProcessError): (r: string)
    ensures |ErrorPrefix| < |r| && r[..|ErrorPrefix|] == ErrorPrefix
  {
    ErrorPrefix + match error
      case FailedToStart => "Failed to start"
      case Crashed => "Process crashed"
      case _ => "Unknown error"
  }

  /** Two errors give the same line exactly when they are equal or neither is
      a start failure or a crash. */
  lemma ErrorLinesDistinguish(a: ProcessError, b: ProcessError)
    ensures ErrorLine(a) == ErrorLine(b) <==>
      a == b || (a !in {FailedToStart, Crashed} && b !in {FailedToStart, Crashed})
  {
    var fs, pc, ue := ErrorLine(FailedToStart), ErrorLine(Crashed), ErrorLine(UnknownError);
    assert fs[7] == 'F' && pc[7] == 'P' && ue[7] == 'U';
  }

  /** The console lines `readCompilerOutput` appends. While compiling only the
      error output is shown, even when empty; otherwise the standard output and
      then the error output, each only when non-empty. */
  function CompilerOutput(compiling: bool, out: string, err: string): (r: seq<string>)
    ensures compiling ==> r == [err]
    ensures !compiling ==> |r| == (if out == "" then 0 else 1) + (if err == "" then 0 else 1)
    ensures !compiling ==> forall i :: 0 <= i < |r| ==> r[i] != ""
    ensures !compiling && out != "" ==> r[0] == out
    ensures !compiling && err != "" ==> r[|r| - 1] == err
  {
    if compiling then [err]
    else (if out == "" then [] else [out]) + (if err == "" then [] else [err])
  }

  /** Whether `maybeSave` lets the caller go on. A modified document goes on
      after Discard, or after Save when the current file can be written. */
  function MayProceed(modified: bool, answer: Answer, currentFile: string, writeOk: bool): (r: bool)
    ensures !modified ==> r
    ensures modified && answer == Cancel ==> !r
    ensures modified && answer == Discard ==> r
    ensures modified && answer == Save ==> (r <==> currentFile != "" && writeOk)
  {
    !modified || answer == Discard || (answer == Save && currentFile != "" && writeOk)
  }

  /** Choosing Save for a modified untitled document does not go on: the save
      targets the empty file name, which cannot be opened. */
  lemma UntitledSaveStops(writeOk: bool)
    ensures !MayProceed(true, Save, "", writeOk)
  {
  }

  // ---------------------------------------------------------------------------
  // The window
  // ---------------------------------------------------------------------------

  class MainWindow {
    /** The editor's plain text and its document's modified flag. */
    var document: string
    var modified: bool
    var currentFile: string
    var isUntitled: bool
    var isCompiling: bool
    var windowTitle: string
    /** The strings appended to the compiler output pane, in order. */
    var console: seq<string>
    var launches: seq<Launch>
    var warnings: seq<Warning>
    /** The contents each successful save wrote, by file name. */
    var files: map<string, string>

    predicate Valid()
      reads this
    {
      isUntitled == (currentFile == "")
    }

    constructor()
      ensures Valid()
      ensures document == "" && !modified && currentFile == "" && isUntitled && !isCompiling
      ensures windowTitle == AppTitle
      ensures console == [] && launches == [] && warnings == [] && files == map[]
    {
      document := "";
      modified := false;
      currentFile := "";
      isUntitled := true;
      isCompiling := false;
      windowTitle := AppTitle;
      console := [];
      launches := [];
      warnings := [];
      files := map[];
    }

    /** The user changes the text; the document becomes modified. */
    method Edit(text: string)
      modifies this`document, this`modified
      ensures document == text && modified
    {
      document := text;
      modified := true;
    }

    /** `setCurrentFile`: records the file, whether it is untitled, marks the
        document unmodified and retitles the window. */
    method SetCurrentFile(fileName: string)
      modifies this`currentFile, this`isUntitled, this`modified, this`windowTitle
      ensures Valid()
      ensures currentFile == fileName && isUntitled == (fileName == "")
      ensures !modified && windowTitle == WindowTitle(fileName)
    {
      currentFile := fileName;
      isUntitled := fileName == "";
      modified := false;
      windowTitle := WindowTitle(currentFile);
    }

    /** `saveFile(fileName)`: writes the document when the file can be opened
        (never for the empty name) and makes it the current, unmodified file;
        otherwise shows a warning and changes nothing else. */
    method SaveFileTo(fileName: string, writeOk: bool) returns (ok: bool)
      requires Valid()
      modifies this`currentFile, this`isUntitled, this`modified, this`windowTitle, this`warnings, this`files
      ensures Valid()
      ensures ok == (fileName != "" && writeOk)
      ensures ok ==>
        files == old(files)[fileName := document] && currentFile == fileName
        && !isUntitled && !modified && windowTitle == WindowTitle(fileName) && warnings == old(warnings)
      ensures !ok ==>
        warnings == old(warnings) + [CannotWrite(fileName)] && files == old(files)
        && currentFile == old(currentFile) && isUntitled == old(isUntitled)
        && modified == old(modified) && windowTitle == old(windowTitle)
    {
      ok := fileName != "" && writeOk;
      if ok {
        var written := files[fileName := document];
        files := written;
        SetCurrentFile(fileName);
        assert files == written && warnings == old(warnings);
      } else {
        warnings := warnings + [CannotWrite(fileName)];
      }
    }

    /** `saveFileAs`: saves under the name chosen in the dialog; an empty name
        (the dialog was cancelled) does nothing. */
    method SaveFileAs(dialogName: string, writeOk: bool)
      requires Valid()
      modifies this`currentFile, this`isUntitled, this`modified, this`windowTitle, this`warnings, this`files
      ensures Valid()
      ensures dialogName == "" ==>
        currentFile == old(currentFile) && modified == old(modified)
        && windowTitle == old(windowTitle) && warnings == old(warnings) && files == old(files)
      ensures dialogName != "" && writeOk ==>
        files == old(files)[dialogName := document]
        && currentFile == dialogName && !modified && windowTitle == WindowTitle(dialogName) && warnings == old(warnings)
      ensures dialogName != "" && !writeOk ==>
        warnings == old(warnings) + [CannotWrite(dialogName)]
        && files == old(files) && currentFile == old(currentFile) && modified == old(modified)
        && windowTitle == old(windowTitle)
    {
      if dialogName != "" {
        var _ := SaveFileTo(dialogName, writeOk);
      }
    }

    /** The file `saveFile()` writes: the name chosen in the Save As dialog
        for an untitled document (empty when the dialog was cancelled), the
        current file otherwise. */
    function SaveTarget(dialogName: string): (r: string)
      reads this
      requires Valid()
      ensures isUntitled ==> r == dialogName
      ensures !isUntitled ==> r == currentFile && r != ""
    {
      if isUntitled then dialogName else currentFile
    }

    /** `saveFile()`: an untitled document goes through the Save As dialog,
        a titled one is written to its own file. */
    method SaveFile(dialogName: string, writeOk: bool)
      requires Valid()
      modifies this`currentFile, this`isUntitled, this`modified, this`windowTitle, this`warnings, this`files
      ensures Valid()
      ensures old(SaveTarget(dialogName)) == "" ==>
        currentFile == old(currentFile) && modified == old(modified)
        && windowTitle == old(windowTitle) && warnings == old(warnings) && files == old(files)
      ensures old(SaveTarget(dialogName)) != "" && writeOk ==>
        files == old(files)[old(SaveTarget(dialogName)) := document]
        && currentFile == old(SaveTarget(dialogName)) && !modified
        && windowTitle == WindowTitle(currentFile) && warnings == old(warnings)
      ensures old(SaveTarget(dialogName)) != "" && !writeOk ==>
        warnings == old(warnings) + [CannotWrite(old(SaveTarget(dialogName)))]
        && files == old(files) && currentFile == old(currentFile) && modified == old(modified)
        && windowTitle == old(windowTitle)
    {
      if isUntitled {
        SaveFileAs(dialogName, writeOk);
      } else {
        var _ := SaveFileTo(currentFile, writeOk);
      }
    }

    /** `maybeSave`: asks about unsaved changes. Save writes to the current
        file name as it stands, even when that name is empty. */
    method MaybeSave(answer: Answer, writeOk: bool) returns (ok: bool)
      requires Valid()
      modifies this`currentFile, this`isUntitled, this`modified, this`windowTitle, this`warnings, this`files
      ensures Valid()
      ensures ok == MayProceed(old(modified), answer, old(currentFile), writeOk)
      ensures old(modified) && answer == Save && ok ==>
        files == old(files)[currentFile := document] && currentFile == old(currentFile)
        && !modified && windowTitle == WindowTitle(currentFile) && warnings == old(warnings)
      ensures old(modified) && answer == Save && !ok ==>
        warnings == old(warnings) + [CannotWrite(old(currentFile))] && files == old(files)
        && currentFile == old(currentFile) && modified && windowTitle == old(windowTitle)
      ensures !(old(modified) && answer == Save) ==>
        warnings == old(warnings) && files == old(files) && currentFile == old(currentFile)
        && modified == old(modified) && windowTitle == old(windowTitle)
    {
      if modified {
        if answer == Save {
          ok := SaveFileTo(currentFile, writeOk);
          return;
        } else if answer == Cancel {
          return false;
        }
      }
      return true;
    }

    /** `newFile`: after `maybeSave` agrees, empties the editor and makes the
        document untitled. */
    method NewFile(answer: Answer, writeOk: bool)
      requires Valid()
      modifies this`document, this`currentFile, this`isUntitled, this`modified, this`windowTitle, this`warnings, this`files
      ensures Valid()
      ensures MayProceed(old(modified), answer, old(currentFile), writeOk) ==>
        document == "" && currentFile == "" && isUntitled && !modified && windowTitle == WindowTitle("")
        && warnings == old(warnings)
      ensures MayProceed(old(modified), answer, old(currentFile), writeOk) && old(modified) && answer == Save ==>
        files == old(files)[old(currentFile) := old(document)]
      ensures MayProceed(old(modified), answer, old(currentFile), writeOk) && !(old(modified) && answer == Save) ==>
        files == old(files)
      ensures !MayProceed(old(modified), answer, old(currentFile), writeOk) ==>
        document == old(document) && currentFile == old(currentFile) && modified
        && windowTitle == old(windowTitle) && files == old(files)
        && warnings == old(warnings) + (if answer == Save then [CannotWrite(old(currentFile))] else [])
    {
      var proceed := MaybeSave(answer, writeOk);
      if proceed {
        document := "";
        SetCurrentFile("");
      }
    }

    /** `loadFile`: a readable file replaces the document and becomes the
        current file; an unreadable one changes nothing. `contents` is what
        reading the file would give; a file with the empty name never opens. */
    method LoadFile(fileName: string, contents: Option<string>)
      requires Valid()
      modifies this`document, this`currentFile, this`isUntitled, this`modified, this`windowTitle
      ensures Valid()
      ensures fileName != "" && contents.Some? ==>
        document == contents.value && currentFile == fileName && !isUntitled
        && !modified && windowTitle == WindowTitle(fileName)
      ensures !(fileName != "" && contents.Some?) ==>
        document == old(document) && currentFile == old(currentFile)
        && modified == old(modified) && windowTitle == old(windowTitle)
    {
      if fileName != "" && contents.Some? {
        document := contents.value;
        SetCurrentFile(fileName);
      }
    }

    /** `openFile`: after `maybeSave` agrees, loads the file chosen in the
        dialog, if one was chosen. */
    method OpenFile(answer: Answer, writeOk: bool, dialogName: string, contents: Option<string>)
      requires Valid()
      modifies this`document, this`currentFile, this`isUntitled, this`modified, this`windowTitle, this`warnings, this`files
      ensures Valid()
      ensures MayProceed(old(modified), answer, old(currentFile), writeOk) ==>
        warnings == old(warnings)
      ensures MayProceed(old(modified), answer, old(currentFile), writeOk) && old(modified) && answer == Save ==>
        files == old(files)[old(currentFile) := old(document)]
      ensures MayProceed(old(modified), answer, old(currentFile), writeOk) && !(old(modified) && answer == Save) ==>
        files == old(files)
      ensures MayProceed(old(modified), answer, old(currentFile), writeOk) && dialogName != "" && contents.Some? ==>
        document == contents.value && currentFile == dialogName && !modified
        && windowTitle == WindowTitle(dialogName)
      ensures MayProceed(old(modified), answer, old(currentFile), writeOk) && !(dialogName != "" && contents.Some?) ==>
        document == old(document) && currentFile == old(currentFile)
        && modified == (old(modified) && answer == Discard)
        && windowTitle == (if old(modified) && answer == Save then WindowTitle(old(currentFile)) else old(windowTitle))
      ensures !MayProceed(old(modified), answer, old(currentFile), writeOk) ==>
        document == old(document) && currentFile == old(currentFile) && modified
        && windowTitle == old(windowTitle) && files == old(files)
        && warnings == old(warnings) + (if answer == Save then [CannotWrite(old(currentFile))] else [])
    {
      var proceed := MaybeSave(answer, writeOk);
      if proceed && dialogName != "" {
        LoadFile(dialogName, contents);
      }
    }

    /** `compileAndRun`: refuses with a warning unless the document is titled
        and saved; otherwise clears the console, enters the compiling state
        and starts the compiler on the current file. */
    method CompileAndRun()
      modifies this`console, this`isCompiling, this`launches, this`warnings
      ensures old(isUntitled || modified) ==>
        warnings == old(warnings) + [PleaseSaveFirst] && console == old(console)
        && isCompiling == old(isCompiling) && launches == old(launches)
      ensures !old(isUntitled || modified) ==>
        warnings == old(warnings) && console == [] && isCompiling
        && launches == old(launches) + [CompileLaunch(currentFile)]
    {
      if isUntitled || modified {
        warnings := warnings + [PleaseSaveFirst];
        return;
      }
      console := [];
      isCompiling := true;
      launches := launches + [CompileLaunch(currentFile)];
    }

    /** `runCompiledProgram`: starts the current file's compiled output. */
    method RunCompiledProgram()
      modifies this`launches
      ensures launches == old(launches) + [RunLaunch(currentFile)]
    {
      launches := launches + [RunLaunch(currentFile)];
    }

    /** `processFinished`: ends a compile, reports its outcome and runs the
        program when it succeeded. A process ending outside a compile (the
        program itself) changes nothing. */
    method ProcessFinished(exitCode: int, status: ExitStatus)
      modifies this`isCompiling, this`console, this`launches
      ensures !old(isCompiling) ==>
        !isCompiling && console == old(console) && launches == old(launches)
      ensures old(isCompiling) ==> !isCompiling
      ensures old(isCompiling) && Succeeded(exitCode, status) ==>
        console == old(console) + [CompileSucceeded] && launches == old(launches) + [RunLaunch(currentFile)]
      ensures old(isCompiling) && !Succeeded(exitCode, status) ==>
        console == old(console) + [CompileFailed] && launches == old(launches)
    {
      if isCompiling {
        isCompiling := false;
        if exitCode == 0 && status == NormalExit {
          console := console + [CompileSucceeded];
          RunCompiledProgram();
        } else {
          console := console + [CompileFailed];
        }
      }
    }

    /** `processError`: reports the error; the compiling state stays. */
    method ProcessError(error: ProcessError)
      modifies this`console
      ensures console == old(console) + [ErrorLine(error)]
    {
      console := console + [ErrorLine(error)];
    }

    /** `readCompilerOutput`, given what the process has written to its
        standard output and error streams. */
    method ReadCompilerOutput(out: string, err: string)
      modifies this`console
      ensures console == old(console) + CompilerOutput(isCompiling, out, err)
    {
      if isCompiling {
        console := console + [err];
      } else {
        if out != "" {
          console := console + [out];
        }
        if err != "" {
          console := console + [err];
        }
      }
    }
  }
}
