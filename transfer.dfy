/**
 * Copying files into and out of a container (docker_cp.go). The archive work, the path library
 * and the engine's stat and copy calls are outside the model: they are the fields of `World`.
 */
module Transfer {
  import opened Wrappers
  import opened Text
  import Config

  /** The part of a file mode the program looks at. */
  datatype Kind = Directory | RegularFile | Symlink | OtherKind

  /** `types.ContainerPathStat`: the mode and, for a link, its target. */
  datatype PathStat = PathStat(kind: Kind, linkTarget: string)

  /** The zero `ContainerPathStat` that a failed stat returns: mode 0 is a regular file. */
  const ZeroStat := PathStat(RegularFile, "")

  /** `archive.CopyInfo`. */
  datatype CopyInfo = CopyInfo(path: string, present: bool, isDir: bool, rebaseName: string)

  /** `tar.Header` fields the program sets (the modification time is the clock and is left out). */
  datatype TarHeader = TarHeader(name: string, mode: int, size: int)

  /** Permission bits of an inline file: octal 0600. */
  const InlineFileMode := 384

  /** One `CopyToContainer` call: a host path packed as an archive, or a single inline file. */
  datatype Upload =
    | HostArchive(dstDir: string, source: CopyInfo, destination: CopyInfo)
    | InlineFile(dir: string, header: TarHeader, data: string)

  /** One `CopyTo` of an archive read from the container; `rebase` is (old base name, new name). */
  datatype Download = Download(source: CopyInfo, rebase: Option<(string, string)>, destination: string)

  /** Everything outside the model that the transfer code consults. */
  datatype World = World(
    glob: string -> Option<seq<string>>,            // filepath.Glob; None is a pattern error
    abs: string -> Option<string>,                  // filepath.Abs
    preserveTrailing: (string, string) -> string,   // archive.PreserveTrailingDotOrSeparator
    splitDirEntry: string -> (string, string),      // archive.SplitPathDirEntry
    join: (string, string) -> string,               // filepath.Join
    stat: string -> Option<PathStat>,               // ContainerStatPath
    sourceInfo: string -> Option<CopyInfo>,         // archive.CopyInfoSourcePath
    tarResource: CopyInfo -> bool,                  // archive.TarResource succeeds
    prepareCopy: (CopyInfo, CopyInfo) -> Option<string>, // archive.PrepareArchiveCopy, the directory to copy to
    copyTo: Upload -> Option<string>,               // CopyToContainer; Some is its error
    validateOutputPath: string -> bool,             // command.ValidateOutputPath succeeds
    rebaseName: (string, string) -> (string, string), // archive.GetRebaseName
    copyFrom: string -> Option<PathStat>,           // CopyFromContainer, with the stat of what was read
    writeTo: Download -> Option<string>)            // archive.CopyTo; Some is its error

  /** `system.IsAbs` on a Unix host. */
  predicate IsAbs(path: string) {
    |path| > 0 && path[0] == '/'
  }

  /** `command.ValidateOutputPathFileMode`: only a directory or a regular file may be written to. */
  predicate DirectoryOrRegular(kind: Kind) {
    kind == Directory || kind == RegularFile
  }

  /** Where a link found at `path` points: an absolute target as is, a relative one joined to the parent of `path`. */
  function LinkPath(path: string, target: string, w: World): string {
    if IsAbs(target) then target else w.join(w.splitDirEntry(path).0, target)
  }

  datatype CopyError =
    // injection
    | AbsPathFailed(path: string, source: string)
    | StatFailed(path: string, source: string)
    | NotDirectoryOrFile(path: string)
    | SourceInfoFailed(source: string)
    | TarResourceFailed(source: string)
    | PrepareFailed(source: string)
    | CopyToFailed(dir: string, source: string)
    | GlobFailed(pattern: string)
    | NoMatch(pattern: string)
    | InjectFailed(path: string, cause: CopyError)
    | CreateFailed(name: string, dir: string)
    // extraction
    | ExtractAbsFailed(path: string, source: string)
    | ValidateFailed(path: string)
    | SourceStatFailed(path: string, source: string)
    | CopyFromFailed(source: string)
    | WriteFailed(path: string)

  // ---------------------------------------------------------------- injection

  /** The directory a matched host path is copied to: `dstPath` followed by the directory part of `srcPath`. */
  function InjectDestination(dstPath: string, srcPath: string): string {
    var pos := LastIndex(srcPath, '/');
    if pos > -1 then dstPath + "/" + srcPath[..pos] else dstPath
  }

  /** Putting the source's base name under that directory gives `dstPath/srcPath`. */
  lemma InjectDestinationKeepsLayout(dstPath: string, srcPath: string)
    requires '/' in srcPath
    ensures var pos := LastIndex(srcPath, '/');
      && '/' !in srcPath[pos + 1..]
      && InjectDestination(dstPath, srcPath) + "/" + srcPath[pos + 1..] == dstPath + "/" + srcPath
  {
    var pos := LastIndex(srcPath, '/');
    var head, tail := srcPath[..pos], srcPath[pos + 1..];
    assert srcPath == head + "/" + tail;
    assert InjectDestination(dstPath, srcPath) == dstPath + "/" + head;
    assert dstPath + "/" + head + "/" + tail == dstPath + "/" + (head + "/" + tail);
  }

  lemma InjectDestinationFlat(dstPath: string, srcPath: string)
    requires '/' !in srcPath
    ensures InjectDestination(dstPath, srcPath) == dstPath
  {
  }

  datatype InjectOutcome = InjectOutcome(upload: Option<Upload>, err: Option<CopyError>)

  /** The checked destination of `injectFile`: the absolute directory, followed through one link. */
  function InjectTarget(srcPath: string, dstPath: string, w: World): Result<CopyInfo, CopyError> {
    var dst := InjectDestination(dstPath, srcPath);
    match w.abs(dst)
    case None => Err(AbsPathFailed(dst, srcPath))
    case Some(absPath) =>
      var path := w.preserveTrailing(absPath, dst);
      match w.stat(path)
      case None => Err(StatFailed(path, srcPath))
      case Some(first) =>
        var infoPath := if first.kind == Symlink then LinkPath(path, first.linkTarget, w) else path;
        var final := if first.kind == Symlink then w.stat(infoPath).GetOr(ZeroStat) else first;
        if !DirectoryOrRegular(final.kind) then Err(NotDirectoryOrFile(path))
        else Ok(CopyInfo(infoPath, true, final.kind == Directory, ""))
  }

  /** Packing the host path and sending it to the checked destination. */
  function InjectArchive(srcPath: string, dstInfo: CopyInfo, w: World): InjectOutcome {
    match w.sourceInfo(srcPath)
    case None => InjectOutcome(None, Some(SourceInfoFailed(srcPath)))
    case Some(srcInfo) =>
      if !w.tarResource(srcInfo) then InjectOutcome(None, Some(TarResourceFailed(srcPath)))
      else
        match w.prepareCopy(srcInfo, dstInfo)
        case None => InjectOutcome(None, Some(PrepareFailed(srcPath)))
        case Some(dstDir) =>
          var up := HostArchive(dstDir, srcInfo, dstInfo);
          InjectOutcome(Some(up), if w.copyTo(up).Some? then Some(CopyToFailed(dstDir, srcPath)) else None)
  }

  /** What `injectFile` does with one matched path. */
  function InjectFileOutcome(srcPath: string, dstPath: string, w: World): InjectOutcome {
    match InjectTarget(srcPath, dstPath, w)
    case Err(e) => InjectOutcome(None, Some(e))
    case Ok(dstInfo) => InjectArchive(srcPath, dstInfo, w)
  }

  /** The first half of docker_cp.go `injectFile`: where the archive goes, and that it may go there. */
  method CheckTarget(srcPath: string, dstPath0: string, w: World) returns (target: Result<CopyInfo, CopyError>)
    ensures target == InjectTarget(srcPath, dstPath0, w)
  {
    var dstPath := InjectDestination(dstPath0, srcPath);
    var absPath := w.abs(dstPath);
    if absPath.None? {
      return Err(AbsPathFailed(dstPath, srcPath));
    }
    dstPath := w.preserveTrailing(absPath.value, dstPath);
    var dstInfo := CopyInfo(dstPath, false, false, "");
    var dstStat := w.stat(dstPath);
    if dstStat.None? {
      return Err(StatFailed(dstPath, srcPath));
    }
    var stat := dstStat.value;
    if stat.kind == Symlink {
      var linkTarget := stat.linkTarget;
      if !IsAbs(linkTarget) {
        var dstParent := w.splitDirEntry(dstPath).0;
        linkTarget := w.join(dstParent, linkTarget);
      }
      dstInfo := dstInfo.(path := linkTarget);
      // the error of this second stat is overwritten by the mode check below
      stat := w.stat(linkTarget).GetOr(ZeroStat);
    }
    if !DirectoryOrRegular(stat.kind) {
      return Err(NotDirectoryOrFile(dstPath));
    }
    target := Ok(dstInfo.(present := true, isDir := stat.kind == Directory));
  }

  /** docker_cp.go `injectFile`. */
  method InjectFile(srcPath: string, dstPath: string, w: World) returns (upload: Option<Upload>, err: Option<CopyError>)
    ensures InjectOutcome(upload, err) == InjectFileOutcome(srcPath, dstPath, w)
  {
    upload, err := None, None;
    var target := CheckTarget(srcPath, dstPath, w);
    if target.Err? {
      return None, Some(target.error);
    }
    var dstInfo := target.value;
    var srcInfo := w.sourceInfo(srcPath);
    if srcInfo.None? {
      return None, Some(SourceInfoFailed(srcPath));
    }
    if !w.tarResource(srcInfo.value) {
      return None, Some(TarResourceFailed(srcPath));
    }
    var dstDir := w.prepareCopy(srcInfo.value, dstInfo);
    if dstDir.None? {
      return None, Some(PrepareFailed(srcPath));
    }
    upload := Some(HostArchive(dstDir.value, srcInfo.value, dstInfo));
    if w.copyTo(upload.value).Some? {
      err := Some(CopyToFailed(dstDir.value, srcPath));
    }
  }

  /**
   * When the destination is a link, the link target is what gets checked and written to; a
   * failing second stat is read as a regular file, so it never causes the mode error.
   */
  lemma InjectThroughSymlink(srcPath: string, dstPath: string, w: World)
    requires w.abs(InjectDestination(dstPath, srcPath)).Some?
    requires var path := w.preserveTrailing(w.abs(InjectDestination(dstPath, srcPath)).value, InjectDestination(dstPath, srcPath));
      w.stat(path).Some? && w.stat(path).value.kind == Symlink
    ensures var path := w.preserveTrailing(w.abs(InjectDestination(dstPath, srcPath)).value, InjectDestination(dstPath, srcPath));
      var target := LinkPath(path, w.stat(path).value.linkTarget, w);
      var t := InjectTarget(srcPath, dstPath, w);
      && (t == Err(NotDirectoryOrFile(path)) <==> w.stat(target).Some? && !DirectoryOrRegular(w.stat(target).value.kind))
      && (t.Ok? ==> t.value == CopyInfo(target, true, w.stat(target).Some? && w.stat(target).value.kind == Directory, ""))
  {
  }

  /** Without a link, the destination itself must be a directory or a regular file. */
  lemma InjectModeCheck(srcPath: string, dstPath: string, w: World)
    requires w.abs(InjectDestination(dstPath, srcPath)).Some?
    requires var path := w.preserveTrailing(w.abs(InjectDestination(dstPath, srcPath)).value, InjectDestination(dstPath, srcPath));
      w.stat(path).Some? && w.stat(path).value.kind != Symlink
    ensures var path := w.preserveTrailing(w.abs(InjectDestination(dstPath, srcPath)).value, InjectDestination(dstPath, srcPath));
      var t := InjectTarget(srcPath, dstPath, w);
      && (t == Err(NotDirectoryOrFile(path)) <==> !DirectoryOrRegular(w.stat(path).value.kind))
      && (t.Ok? ==> t.value == CopyInfo(path, true, w.stat(path).value.kind == Directory, ""))
  {
  }

  /** A copy call is made only to a checked destination, and its failure is the last possible error. */
  lemma InjectUploadsToTarget(srcPath: string, dstPath: string, w: World)
    ensures var o := InjectFileOutcome(srcPath, dstPath, w);
      && (o.upload.Some? <==> (InjectTarget(srcPath, dstPath, w).Ok? && w.sourceInfo(srcPath).Some? && w.tarResource(w.sourceInfo(srcPath).value)
                               && w.prepareCopy(w.sourceInfo(srcPath).value, InjectTarget(srcPath, dstPath, w).value).Some?))
      && (o.upload.Some? ==> o.upload.value.HostArchive? && o.upload.value.destination == InjectTarget(srcPath, dstPath, w).value
                             && (o.err.Some? <==> w.copyTo(o.upload.value).Some?))
      && (o.upload.None? ==> o.err.Some?)
  {
  }

  /** The number of bytes of the UTF-8 encoding of a text: `len([]byte(data))` in Go. */
  function Utf8Length(s: string): (n: nat)
    ensures n >= |s|
  {
    if s == [] then 0
    else (if s[0] as int < 0x80 then 1 else if s[0] as int < 0x800 then 2 else if s[0] as int < 0x10000 then 3 else 4)
         + Utf8Length(s[1..])
  }

  lemma {:induction false} Utf8LengthAscii(s: string)
    requires forall k :: 0 <= k < |s| ==> s[k] as int < 0x80
    ensures Utf8Length(s) == |s|
  {
    if s != [] {
      Utf8LengthAscii(s[1..]);
    }
  }

  /** docker_cp.go `createFile`: one archive entry named `name` holding `data`. */
  method CreateFile(name: string, data: string, dir: string, w: World) returns (upload: Upload, err: Option<CopyError>)
    ensures upload == InlineFile(dir, TarHeader(name, InlineFileMode, Utf8Length(data)), data)
    ensures err.Some? <==> w.copyTo(upload).Some?
    ensures err.Some? ==> err.value == CreateFailed(name, dir)
  {
    upload := InlineFile(dir, TarHeader(name, InlineFileMode, Utf8Length(data)), data);
    err := if w.copyTo(upload).Some? then Some(CreateFailed(name, dir)) else None;
  }

  /** Copy calls made, and the error that stopped them. */
  datatype Attempt = Attempt(uploads: seq<Upload>, err: Option<CopyError>)

  function Then(done: seq<Upload>, rest: Attempt): Attempt {
    Attempt(done + rest.uploads, rest.err)
  }

  function MatchesOutcome(matches: seq<string>, dest: string, w: World): Attempt
    decreases |matches|
  {
    if matches == [] then Attempt([], None)
    else
      var o := InjectFileOutcome(matches[0], dest, w);
      var done := if o.upload.Some? then [o.upload.value] else [];
      if o.err.Some? then Attempt(done, Some(InjectFailed(matches[0], o.err.value)))
      else Then(done, MatchesOutcome(matches[1..], dest, w))
  }

  /** An entry with a pattern and no inline content is globbed; every other entry is an inline file. */
  predicate Globbed(f: Config.File) {
    |f.inject| > 0 && |f.content| == 0
  }

  function InlineUpload(f: Config.File, dest: string): Upload {
    InlineFile(dest, TarHeader(f.inject, InlineFileMode, Utf8Length(f.content)), f.content)
  }

  function EntryOutcome(f: Config.File, dest: string, w: World): Attempt {
    if Globbed(f) then
      match w.glob(f.inject)
      case None => Attempt([], Some(GlobFailed(f.inject)))
      case Some(matches) =>
        if |matches| == 0 then Attempt([], Some(NoMatch(f.inject)))
        else MatchesOutcome(matches, dest, w)
    else
      Attempt([InlineUpload(f, dest)], if w.copyTo(InlineUpload(f, dest)).Some? then Some(CreateFailed(f.inject, dest)) else None)
  }

  /** What `copyFilesToContainer` does: entries in order, stopping at the first failure. */
  function Injection(files: seq<Config.File>, dest: string, w: World): Attempt
    decreases |files|
  {
    if files == [] then Attempt([], None)
    else
      var a := EntryOutcome(files[0], dest, w);
      if a.err.Some? then a else Then(a.uploads, Injection(files[1..], dest, w))
  }

  lemma ThenAssoc(a: seq<Upload>, b: seq<Upload>, r: Attempt)
    ensures Then(a, Then(b, r)) == Then(a + b, r)
  {
    assert a + (b + r.uploads) == (a + b) + r.uploads;
  }

  lemma MatchesAt(matches: seq<string>, i: nat, dest: string, w: World)
    requires i < |matches|
    ensures var o := InjectFileOutcome(matches[i], dest, w);
      var done := if o.upload.Some? then [o.upload.value] else [];
      MatchesOutcome(matches[i..], dest, w) ==
        if o.err.Some? then Attempt(done, Some(InjectFailed(matches[i], o.err.value)))
        else Then(done, MatchesOutcome(matches[i + 1..], dest, w))
  {
    assert matches[i..][0] == matches[i] && matches[i..][1..] == matches[i + 1..];
  }

  /** The inner loop of `copyFilesToContainer` over the matches of one pattern. */
  method InjectMatches(matches: seq<string>, dest: string, w: World) returns (uploads: seq<Upload>, err: Option<CopyError>)
    ensures Attempt(uploads, err) == MatchesOutcome(matches, dest, w)
  {
    uploads := [];
    for i := 0 to |matches|
      invariant MatchesOutcome(matches, dest, w) == Then(uploads, MatchesOutcome(matches[i..], dest, w))
    {
      MatchesAt(matches, i, dest, w);
      var upload, e := InjectFile(matches[i], dest, w);
      var done := if upload.Some? then [upload.value] else [];
      ThenAssoc(uploads, done, MatchesOutcome(matches[i + 1..], dest, w));
      uploads := uploads + done;
      if e.Some? {
        return uploads, Some(InjectFailed(matches[i], e.value));
      }
    }
    assert matches[|matches|..] == [];
    err := None;
  }

  lemma InjectionAt(files: seq<Config.File>, i: nat, dest: string, w: World)
    requires i < |files|
    ensures var a := EntryOutcome(files[i], dest, w);
      Injection(files[i..], dest, w) == if a.err.Some? then a else Then(a.uploads, Injection(files[i + 1..], dest, w))
  {
    assert files[i..][0] == files[i] && files[i..][1..] == files[i + 1..];
  }

  /** One entry of `copyFilesToContainer`: a glob and its matches, or one inline file. */
  method InjectEntry(file: Config.File, destination: string, w: World) returns (uploads: seq<Upload>, err: Option<CopyError>)
    ensures Attempt(uploads, err) == EntryOutcome(file, destination, w)
  {
    if |file.inject| > 0 && |file.content| == 0 {
      var matches := w.glob(file.inject);
      if matches.None? {
        return [], Some(GlobFailed(file.inject));
      }
      if |matches.value| == 0 {
        return [], Some(NoMatch(file.inject));
      }
      uploads, err := InjectMatches(matches.value, destination, w);
    } else {
      var upload;
      upload, err := CreateFile(file.inject, file.content, destination, w);
      uploads := [upload];
    }
  }

  /** docker_cp.go `copyFilesToContainer`. */
  method CopyFilesToContainer(files: seq<Config.File>, destination: string, w: World)
    returns (uploads: seq<Upload>, err: Option<CopyError>)
    ensures Attempt(uploads, err) == Injection(files, destination, w)
  {
    uploads := [];
    for i := 0 to |files|
      invariant Injection(files, destination, w) == Then(uploads, Injection(files[i..], destination, w))
    {
      InjectionAt(files, i, destination, w);
      var done, e := InjectEntry(files[i], destination, w);
      ThenAssoc(uploads, done, Injection(files[i + 1..], destination, w));
      uploads := uploads + done;
      if e.Some? {
        return uploads, e;
      }
    }
    assert files[|files|..] == [];
    err := None;
  }

  /** All copy calls of the given entries, each run to its end. */
  function AllUploads(files: seq<Config.File>, dest: string, w: World): seq<Upload>
  {
    if files == [] then [] else EntryOutcome(files[0], dest, w).uploads + AllUploads(files[1..], dest, w)
  }

  /** The position of the first failing entry, or the number of entries. */
  function FirstFailure(files: seq<Config.File>, dest: string, w: World): (k: nat)
    ensures k <= |files|
    ensures forall j :: 0 <= j < k ==> EntryOutcome(files[j], dest, w).err.None?
    ensures k < |files| ==> EntryOutcome(files[k], dest, w).err.Some?
  {
    if files == [] then 0
    else if EntryOutcome(files[0], dest, w).err.Some? then 0
    else 1 + FirstFailure(files[1..], dest, w)
  }

  lemma AllUploadsPrefix(files: seq<Config.File>, k: nat, dest: string, w: World)
    requires 0 < k <= |files|
    ensures AllUploads(files[..k], dest, w) == EntryOutcome(files[0], dest, w).uploads + AllUploads(files[1..][..k - 1], dest, w)
  {
    assert files[..k][0] == files[0] && files[..k][1..] == files[1..][..k - 1];
  }

  /**
   * Injection makes the copy calls of every entry before the first failing one, then those of
   * the failing one, and reports its error; when no entry fails it makes all of them.
   */
  lemma {:induction false} InjectionStopsAtFirstFailure(files: seq<Config.File>, dest: string, w: World)
    ensures var k := FirstFailure(files, dest, w);
      Injection(files, dest, w) ==
        if k == |files| then Attempt(AllUploads(files, dest, w), None)
        else Then(AllUploads(files[..k], dest, w), EntryOutcome(files[k], dest, w))
  {
    if files != [] {
      if EntryOutcome(files[0], dest, w).err.Some? {
        InjectionFailsAtHead(files, dest, w);
      } else {
        InjectionStopsAtFirstFailure(files[1..], dest, w);
        InjectionPastHead(files, dest, w);
      }
    }
  }

  /** The base case: a failing first entry is the whole outcome. */
  lemma InjectionFailsAtHead(files: seq<Config.File>, dest: string, w: World)
    requires files != [] && EntryOutcome(files[0], dest, w).err.Some?
    ensures FirstFailure(files, dest, w) == 0
    ensures Injection(files, dest, w) == Then(AllUploads(files[..0], dest, w), EntryOutcome(files[0], dest, w))
  {
    assert files[..0] == [];
    assert [] + EntryOutcome(files[0], dest, w).uploads == EntryOutcome(files[0], dest, w).uploads;
  }

  /** The inductive step: an entry that succeeds puts its copy calls in front of the rest's. */
  lemma InjectionPastHead(files: seq<Config.File>, dest: string, w: World)
    requires files != [] && EntryOutcome(files[0], dest, w).err.None?
    requires var k := FirstFailure(files[1..], dest, w);
      Injection(files[1..], dest, w) ==
        if k == |files[1..]| then Attempt(AllUploads(files[1..], dest, w), None)
        else Then(AllUploads(files[1..][..k], dest, w), EntryOutcome(files[1..][k], dest, w))
    ensures var k := FirstFailure(files, dest, w);
      Injection(files, dest, w) ==
        if k == |files| then Attempt(AllUploads(files, dest, w), None)
        else Then(AllUploads(files[..k], dest, w), EntryOutcome(files[k], dest, w))
  {
    var k := FirstFailure(files, dest, w);
    var a := EntryOutcome(files[0], dest, w);
    assert k == 1 + FirstFailure(files[1..], dest, w);
    assert Injection(files, dest, w) == Then(a.uploads, Injection(files[1..], dest, w));
    AllUploadsPrefix(files, k, dest, w);
    if k < |files| {
      assert files[k] == files[1..][k - 1];
      ThenAssoc(a.uploads, AllUploads(files[1..][..k - 1], dest, w), EntryOutcome(files[k], dest, w));
    } else {
      assert files[..k] == files;
    }
  }

  /** A pattern matching nothing is an error, and nothing is copied. */
  lemma ZeroMatchesIsError(f: Config.File, dest: string, w: World)
    requires Globbed(f) && w.glob(f.inject) == Some([])
    ensures EntryOutcome(f, dest, w) == Attempt([], Some(NoMatch(f.inject)))
  {
  }

  /** Every entry that is not globbed, including one with an empty name, is a single inline file. */
  lemma InlineEntry(f: Config.File, dest: string, w: World)
    requires !Globbed(f)
    ensures EntryOutcome(f, dest, w).uploads == [InlineFile(dest, TarHeader(f.inject, InlineFileMode, Utf8Length(f.content)), f.content)]
    ensures EntryOutcome(f, dest, w).err.Some? <==> w.copyTo(InlineUpload(f, dest)).Some?
  {
  }

  // ---------------------------------------------------------------- extraction

  datatype Retrieval = Retrieval(downloads: seq<Download>, err: Option<CopyError>)

  function ThenR(done: seq<Download>, rest: Retrieval): Retrieval {
    Retrieval(done + rest.downloads, rest.err)
  }

  lemma ThenRAssoc(a: seq<Download>, b: seq<Download>, r: Retrieval)
    ensures ThenR(a, ThenR(b, r)) == ThenR(a + b, r)
  {
    assert a + (b + r.downloads) == (a + b) + r.downloads;
  }

  /** The checked paths of one entry: where to write, what to read, and the name to give it. */
  datatype Route = Route(dstPath: string, srcPath: string, rebaseName: string)

  function ExtractRoute(f: Config.File, dir: string, w: World): Result<Route, CopyError> {
    var srcPath := dir + "/" + f.extract;
    match w.abs(f.destination)
    case None => Err(ExtractAbsFailed(f.destination, srcPath))
    case Some(absPath) =>
      var dstPath := w.preserveTrailing(absPath, f.destination);
      if !w.validateOutputPath(dstPath) then Err(ValidateFailed(dstPath))
      else
        match w.stat(srcPath)
        case None => Err(SourceStatFailed(dstPath, srcPath))
        case Some(srcStat) =>
          if srcStat.kind == Symlink then
            var r := w.rebaseName(srcPath, LinkPath(srcPath, srcStat.linkTarget, w));
            Ok(Route(dstPath, r.0, r.1))
          else Ok(Route(dstPath, srcPath, ""))
  }

  function Fetch(r: Route, w: World): Retrieval {
    match w.copyFrom(r.srcPath)
    case None => Retrieval([], Some(CopyFromFailed(r.srcPath)))
    case Some(stat) =>
      var srcInfo := CopyInfo(r.srcPath, true, stat.kind == Directory, r.rebaseName);
      var d := Download(srcInfo, if |r.rebaseName| != 0 then Some((w.splitDirEntry(r.srcPath).1, r.rebaseName)) else None, r.dstPath);
      Retrieval([d], if w.writeTo(d).Some? then Some(WriteFailed(r.dstPath)) else None)
  }

  /** What `copyFilesFromContainer` does with one entry. */
  function ExtractEntry(f: Config.File, dir: string, w: World): Retrieval {
    if |f.extract| == 0 then Retrieval([], None)
    else
      match ExtractRoute(f, dir, w)
      case Err(e) => Retrieval([], Some(e))
      case Ok(r) => Fetch(r, w)
  }

  function Extraction(files: seq<Config.File>, dir: string, w: World): Retrieval
    decreases |files|
  {
    if files == [] then Retrieval([], None)
    else
      var a := ExtractEntry(files[0], dir, w);
      if a.err.Some? then a else ThenR(a.downloads, Extraction(files[1..], dir, w))
  }

  lemma ExtractionAt(files: seq<Config.File>, i: nat, dir: string, w: World)
    requires i < |files|
    ensures var a := ExtractEntry(files[i], dir, w);
      Extraction(files[i..], dir, w) == if a.err.Some? then a else ThenR(a.downloads, Extraction(files[i + 1..], dir, w))
  {
    assert files[i..][0] == files[i] && files[i..][1..] == files[i + 1..];
  }

  /** All downloads of the given entries, each run to its end. */
  function AllDownloads(files: seq<Config.File>, dir: string, w: World): seq<Download>
  {
    if files == [] then [] else ExtractEntry(files[0], dir, w).downloads + AllDownloads(files[1..], dir, w)
  }

  /** The position of the first entry whose extraction fails, or the number of entries. */
  function FirstExtractFailure(files: seq<Config.File>, dir: string, w: World): (k: nat)
    ensures k <= |files|
    ensures forall j :: 0 <= j < k ==> ExtractEntry(files[j], dir, w).err.None?
    ensures k < |files| ==> ExtractEntry(files[k], dir, w).err.Some?
  {
    if files == [] then 0
    else if ExtractEntry(files[0], dir, w).err.Some? then 0
    else 1 + FirstExtractFailure(files[1..], dir, w)
  }

  lemma AllDownloadsPrefix(files: seq<Config.File>, k: nat, dir: string, w: World)
    requires 0 < k <= |files|
    ensures AllDownloads(files[..k], dir, w) == ExtractEntry(files[0], dir, w).downloads + AllDownloads(files[1..][..k - 1], dir, w)
  {
    assert files[..k][0] == files[0] && files[..k][1..] == files[1..][..k - 1];
  }

  /**
   * Extraction makes the downloads of every entry before the first failing one, then those of
   * the failing one, and returns its error at once: later entries are not read. When no entry
   * fails it makes all of them.
   */
  lemma {:induction false} ExtractionStopsAtFirstFailure(files: seq<Config.File>, dir: string, w: World)
    ensures var k := FirstExtractFailure(files, dir, w);
      Extraction(files, dir, w) ==
        if k == |files| then Retrieval(AllDownloads(files, dir, w), None)
        else ThenR(AllDownloads(files[..k], dir, w), ExtractEntry(files[k], dir, w))
  {
    if files != [] {
      var k := FirstExtractFailure(files, dir, w);
      if k == 0 {
        assert files[..0] == [];
        assert [] + ExtractEntry(files[0], dir, w).downloads == ExtractEntry(files[0], dir, w).downloads;
      } else {
        ExtractionStopsAtFirstFailure(files[1..], dir, w);
        AllDownloadsPrefix(files, k, dir, w);
        var a := ExtractEntry(files[0], dir, w);
        var rest := Extraction(files[1..], dir, w);
        assert FirstExtractFailure(files[1..], dir, w) == k - 1;
        assert Extraction(files, dir, w) == ThenR(a.downloads, rest);
        if k < |files| {
          assert files[k] == files[1..][k - 1];
          assert rest == ThenR(AllDownloads(files[1..][..k - 1], dir, w), ExtractEntry(files[k], dir, w));
          ThenRAssoc(a.downloads, AllDownloads(files[1..][..k - 1], dir, w), ExtractEntry(files[k], dir, w));
        } else {
          assert rest == Retrieval(AllDownloads(files[1..], dir, w), None);
          assert AllDownloads(files, dir, w) == a.downloads + AllDownloads(files[1..], dir, w);
        }
      }
    }
  }

  /** The body of the loop in `copyFilesFromContainer`: an entry without an `Extract` path is skipped. */
  method ExtractFile(file: Config.File, dir: string, w: World) returns (downloads: seq<Download>, err: Option<CopyError>)
    ensures Retrieval(downloads, err) == ExtractEntry(file, dir, w)
  {
    if |file.extract| == 0 {
      return [], None;
    }
    var srcPath := dir + "/" + file.extract;
    var dstPath := file.destination;
    var absPath := w.abs(dstPath);
    if absPath.None? {
      return [], Some(ExtractAbsFailed(dstPath, srcPath));
    }
    dstPath := w.preserveTrailing(absPath.value, dstPath);
    if !w.validateOutputPath(dstPath) {
      return [], Some(ValidateFailed(dstPath));
    }
    var rebaseName := "";
    var srcStat := w.stat(srcPath);
    if srcStat.None? {
      return [], Some(SourceStatFailed(dstPath, srcPath));
    }
    if srcStat.value.kind == Symlink {
      var linkTarget := srcStat.value.linkTarget;
      if !IsAbs(linkTarget) {
        var srcParent := w.splitDirEntry(srcPath).0;
        linkTarget := w.join(srcParent, linkTarget);
      }
      var rebased := w.rebaseName(srcPath, linkTarget);
      srcPath, rebaseName := rebased.0, rebased.1;
    }
    assert ExtractRoute(file, dir, w) == Ok(Route(dstPath, srcPath, rebaseName));
    var stat := w.copyFrom(srcPath);
    if stat.None? {
      return [], Some(CopyFromFailed(srcPath));
    }
    var srcInfo := CopyInfo(srcPath, true, stat.value.kind == Directory, rebaseName);
    var rebase := None;
    if |srcInfo.rebaseName| != 0 {
      var srcBase := w.splitDirEntry(srcInfo.path).1;
      rebase := Some((srcBase, srcInfo.rebaseName));
    }
    var d := Download(srcInfo, rebase, dstPath);
    downloads := [d];
    if w.writeTo(d).Some? {
      err := Some(WriteFailed(dstPath));
    } else {
      err := None;
    }
  }

  /** docker_cp.go `copyFilesFromContainer`. */
  method CopyFilesFromContainer(files: seq<Config.File>, dir: string, w: World)
    returns (downloads: seq<Download>, err: Option<CopyError>)
    ensures Retrieval(downloads, err) == Extraction(files, dir, w)
  {
    downloads := [];
    for i := 0 to |files|
      invariant Extraction(files, dir, w) == ThenR(downloads, Extraction(files[i..], dir, w))
    {
      ExtractionAt(files, i, dir, w);
      var done, e := ExtractFile(files[i], dir, w);
      ThenRAssoc(downloads, done, Extraction(files[i + 1..], dir, w));
      downloads := downloads + done;
      if e.Some? {
        return downloads, e;
      }
    }
    assert files[|files|..] == [];
    err := None;
  }

  function NonEmptyExtracts(files: seq<Config.File>): (r: seq<Config.File>)
    ensures |r| <= |files|
    ensures forall k :: 0 <= k < |r| ==> r[k] in files && |r[k].extract| > 0
    ensures forall k :: 0 <= k < |files| && |files[k].extract| > 0 ==> files[k] in r
  {
    if files == [] then []
    else
      var tail := NonEmptyExtracts(files[1..]);
      assert forall k :: 1 <= k < |files| ==> files[k] == files[1..][k - 1];
      (if |files[0].extract| > 0 then [files[0]] else []) + tail
  }

  /** Entries without an `Extract` path are skipped: removing them changes nothing. */
  lemma {:induction false} ExtractionSkipsEmpty(files: seq<Config.File>, dir: string, w: World)
    ensures Extraction(files, dir, w) == Extraction(NonEmptyExtracts(files), dir, w)
  {
    if files != [] {
      ExtractionSkipsEmpty(files[1..], dir, w);
      var tail := NonEmptyExtracts(files[1..]);
      if |files[0].extract| == 0 {
        assert NonEmptyExtracts(files) == tail;
        assert ExtractEntry(files[0], dir, w) == Retrieval([], None);
        assert [] + Extraction(files[1..], dir, w).downloads == Extraction(files[1..], dir, w).downloads;
      } else {
        assert NonEmptyExtracts(files) == [files[0]] + tail;
        assert ([files[0]] + tail)[0] == files[0];
        assert ([files[0]] + tail)[1..] == tail;
      }
    }
  }

  /** A read archive is renamed exactly when a rebase name was computed, and to that name. */
  predicate WellRebased(d: Download) {
    && (d.rebase.Some? <==> d.source.rebaseName != "")
    && (d.rebase.Some? ==> d.rebase.value.1 == d.source.rebaseName)
  }

  lemma {:induction false} EveryDownloadWellRebased(files: seq<Config.File>, dir: string, w: World)
    ensures forall d :: d in Extraction(files, dir, w).downloads ==> WellRebased(d)
  {
    if files != [] {
      EveryDownloadWellRebased(files[1..], dir, w);
    }
  }

  /** Without a link, an entry reads `dir/Extract` itself under its own name. */
  lemma PlainSourceNotRebased(f: Config.File, dir: string, w: World)
    requires |f.extract| > 0
    requires w.stat(dir + "/" + f.extract).Some? && w.stat(dir + "/" + f.extract).value.kind != Symlink
    ensures forall d :: d in ExtractEntry(f, dir, w).downloads ==>
      d.source.path == dir + "/" + f.extract && d.source.rebaseName == "" && d.rebase.None?
  {
  }
}
