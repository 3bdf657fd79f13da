/**
 * Injecting and extracting the build's files (files.go): the entries for each direction are
 * selected from the build's file list and handed to one helper container.
 */
module Files {
  import opened Wrappers
  import Config
  import Container
  import Transfer

  const HelperImage := "alpine"

  /** The helper container: `sh` in the helper image at the working directory, with nothing else. */
  function HelperRun(wd: string, vol: string, files: seq<Config.File>): Container.Foreground {
    Container.Foreground(HelperImage, ["sh"], [], "", [], wd, "", vol, [], false, files)
  }

  /** The entries that name a file to inject, in order. */
  function InjectList(files: seq<Config.File>): seq<Config.File> {
    if files == [] then []
    else
      var last := files[|files| - 1];
      InjectList(files[..|files| - 1]) + (if last.inject != "" then [last] else [])
  }

  /** The entries that name a file to extract, in order, each extracted to the working directory. */
  function ExtractList(files: seq<Config.File>): seq<Config.File> {
    if files == [] then []
    else
      var last := files[|files| - 1];
      ExtractList(files[..|files| - 1]) + (if last.extract != "" then [last.(destination := ".")] else [])
  }

  /** An entry is injected exactly when it is in the list and names a file. */
  lemma {:induction false} InjectListExactly(files: seq<Config.File>, f: Config.File)
    ensures f in InjectList(files) <==> f in files && f.inject != ""
    decreases |files|
  {
    if files != [] {
      var init := files[..|files| - 1];
      assert files == init + [files[|files| - 1]];
      InjectListExactly(init, f);
    }
  }

  /**
   * An entry is extracted exactly when some entry of the list names a file to extract and equals
   * it up to the destination, which is always the working directory.
   */
  lemma {:induction false} ExtractListExactly(files: seq<Config.File>, f: Config.File)
    ensures f in ExtractList(files) <==> f.destination == "." && f.extract != "" && exists g :: g in files && g.(destination := ".") == f
    decreases |files|
  {
    if files != [] {
      var init, last := files[..|files| - 1], files[|files| - 1];
      assert files == init + [last];
      ExtractListExactly(init, f);
      if f in ExtractList(files) && f !in ExtractList(init) {
        assert last in files && last.(destination := ".") == f;
      }
      if exists g :: g in files && g.(destination := ".") == f {
        var g :| g in files && g.(destination := ".") == f;
        if g !in init {
          assert g == last;
        }
      }
    }
  }

  /** files.go lines 14-19. */
  method SelectInjected(files: seq<Config.File>) returns (selected: seq<Config.File>)
    ensures selected == InjectList(files)
  {
    selected := [];
    for i := 0 to |files|
      invariant selected == InjectList(files[..i])
    {
      assert files[..i + 1][..i] == files[..i];
      var file := files[i];
      if |file.inject| > 0 {
        selected := selected + [file];
      }
    }
    assert files[..|files|] == files;
  }

  /** files.go lines 49-55: the destination is set on the loop's copy of the entry. */
  method SelectExtracted(files: seq<Config.File>) returns (selected: seq<Config.File>)
    ensures selected == ExtractList(files)
  {
    selected := [];
    for i := 0 to |files|
      invariant selected == ExtractList(files[..i])
    {
      assert files[..i + 1][..i] == files[..i];
      var file := files[i];
      if |file.extract| > 0 {
        file := file.(destination := ".");
        selected := selected + [file];
      }
    }
    assert files[..|files|] == files;
  }

  datatype FilesError = HelperFailed(cause: Container.ContainerError)

  /** What a helper run returns: the container's error, wrapped. */
  function HelperError(req: Container.Foreground, run: Container.Verdicts): Option<FilesError> {
    var e := run(req);
    if e.Some? then Some(HelperFailed(e.value)) else None
  }

  /** files.go `InjectFiles`. */
  method InjectFiles(files: seq<Config.File>, wd: string, vol: string, engine: Container.Foreground -> Container.Daemon,
                     run: Container.Verdicts)
    returns (request: Container.Foreground, err: Option<FilesError>)
    requires Container.Reports(run, engine)
    ensures request == HelperRun(wd, vol, InjectList(files))
    ensures err == HelperError(request, run)
  {
    var selected := SelectInjected(files);
    request := Container.Foreground(HelperImage, ["sh"], [], "", [], wd, "", vol, [], false, selected);
    var e := Container.RunForegroundError(request, engine, run);
    err := if e.Some? then Some(HelperFailed(e.value)) else None;
  }

  /** files.go `ExtractFiles`. */
  method ExtractFiles(files: seq<Config.File>, wd: string, vol: string, engine: Container.Foreground -> Container.Daemon,
                     run: Container.Verdicts)
    returns (request: Container.Foreground, err: Option<FilesError>)
    requires Container.Reports(run, engine)
    ensures request == HelperRun(wd, vol, ExtractList(files))
    ensures err == HelperError(request, run)
  {
    var selected := SelectExtracted(files);
    request := Container.Foreground(HelperImage, ["sh"], [], "", [], wd, "", vol, [], false, selected);
    var e := Container.RunForegroundError(request, engine, run);
    err := if e.Some? then Some(HelperFailed(e.value)) else None;
  }

  /** Every entry handed over for extraction is one the transfer does not skip. */
  lemma {:induction false} ExtractListNotSkipped(files: seq<Config.File>)
    ensures Transfer.NonEmptyExtracts(ExtractList(files)) == ExtractList(files)
    ensures forall k :: 0 <= k < |ExtractList(files)| ==> ExtractList(files)[k].destination == "."
    decreases |files|
  {
    if files != [] {
      ExtractListNotSkipped(files[..|files| - 1]);
      NonEmptyExtractsAppend(ExtractList(files[..|files| - 1]), if files[|files| - 1].extract != "" then [files[|files| - 1].(destination := ".")] else []);
    }
  }

  /** The kept entries keep their order: keeping distributes over concatenation. */
  lemma {:induction false} NonEmptyExtractsAppend(a: seq<Config.File>, b: seq<Config.File>)
    ensures Transfer.NonEmptyExtracts(a + b) == Transfer.NonEmptyExtracts(a) + Transfer.NonEmptyExtracts(b)
    decreases |a|
  {
    if a == [] {
      assert a + b == b;
    } else {
      assert (a + b)[1..] == a[1..] + b;
      NonEmptyExtractsAppend(a[1..], b);
    }
  }
}
