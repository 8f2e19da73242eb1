/**
 * The URL and path logic of the local file system used by the exporter:
 * external URLs are left alone, "g/" game-directory prefixes are stripped,
 * and `readDir` filters a directory listing by a case-insensitive suffix.
 *
 * Node's `path` functions are not part of this model and are given as a
 * `PathLibrary` of functions; the file system is given as the listing
 * `readDir` sees and as the outcome of the copy in `copyFile`.
 */
module LocalFileSystem {
  import opened Common

  /** The `path` functions used by the file system helpers. */
  datatype PathLibrary = PathLibrary(
    basename: string -> string,
    dirname: string -> string,
    resolve: string -> string,
    resolveFrom: (string, string) -> string,
    normalize: string -> string,
    relative: (string, string) -> string)

  /**
   * `_isExternalURL`: the first four characters are "http", or are "ftp" --
   * which only the exact string "ftp" satisfies, since a four-character
   * prefix never equals a three-character string.
   */
  predicate IsExternalUrl(filename: string)
  {
    Prefix(filename, 4) == "http" || Prefix(filename, 4) == "ftp"
  }

  /** A URL is external exactly when it starts with "http", or is "ftp" itself. */
  lemma ExternalUrlExactly(filename: string)
    ensures IsExternalUrl(filename) <==> StartsWith(filename, "http") || filename == "ftp"
  {
  }

  /** "ftp://" addresses are not taken for external URLs. */
  lemma FtpAddressIsNotExternal(rest: string)
    ensures !IsExternalUrl("ftp://" + rest)
  {
    assert Prefix("ftp://" + rest, 4) == "ftp:";
  }

  /** `_translateURL`: one leading "g/" or "g\" is removed, and nothing else changes. */
  function TranslateUrl(filename: string): (r: string)
    ensures (StartsWith(filename, "g/") || StartsWith(filename, "g\\")) ==> filename == filename[..2] + r
    ensures !(StartsWith(filename, "g/") || StartsWith(filename, "g\\")) ==> r == filename
  {
    if Prefix(filename, 2) == "g/" || Prefix(filename, 2) == "g\\" then DropPrefix(filename, 2) else filename
  }

  /** Only one prefix is stripped: "g/g/x" becomes "g/x". */
  lemma TranslateStripsOnce(rest: string)
    ensures TranslateUrl("g/" + rest) == rest
    ensures TranslateUrl("g\\" + rest) == rest
  {
    assert ("g/" + rest)[..2] == "g/";
    assert ("g\\" + rest)[..2] == "g\\";
  }

  /**
   * `isAbsolute`: external URLs and the empty string are absolute; otherwise
   * the translated path must start with '/' or have ':' as second character.
   */
  predicate IsAbsolute(fullpath: string)
  {
    if IsExternalUrl(fullpath) then true
    else if |fullpath| == 0 then true
    else
      var p := TranslateUrl(fullpath);
      (|p| > 0 && p[0] == '/') || (|p| > 1 && p[1] == ':')
  }

  /** A path starting with '/' or '.', or with ':' second, is neither translated nor external. */
  lemma KeptAsIs(p: string)
    requires |p| > 0 && (p[0] == '/' || p[0] == '.' || (|p| > 1 && p[1] == ':'))
    ensures TranslateUrl(p) == p && !IsExternalUrl(p)
  {
    assert Prefix(p, 2)[0] == p[0] && (|p| > 1 ==> Prefix(p, 2)[1] == p[1]);
    assert Prefix(p, 4)[0] == p[0] && (|p| > 1 ==> Prefix(p, 4)[1] == p[1]);
  }

  /**
   * The path forms `isAbsolute` accepts and rejects: a Unix root, a
   * Windows drive, either behind the "g/" game prefix, and the empty
   * string are absolute; "./" and "../" paths are not.
   */
  lemma AbsolutePathForms(rest: string, drive: char)
    ensures IsAbsolute("")
    ensures IsAbsolute("/" + rest)
    ensures IsAbsolute([drive, ':'] + rest)
    ensures IsAbsolute("g/" + "/" + rest)
    ensures IsAbsolute("g/" + [drive, ':'] + rest)
    ensures !IsAbsolute("./" + rest)
    ensures !IsAbsolute("../" + rest)
  {
    KeptAsIs("/" + rest);
    KeptAsIs([drive, ':'] + rest);
    KeptAsIs("./" + rest);
    KeptAsIs("../" + rest);
    TranslateStripsOnce("/" + rest);
    TranslateStripsOnce([drive, ':'] + rest);
    assert "g/" + "/" + rest == "g/" + ("/" + rest);
    assert "g/" + [drive, ':'] + rest == "g/" + ([drive, ':'] + rest);
  }

  /** "g/" followed by an absolute Unix path is absolute; "g/" followed by a relative one is not. */
  lemma GamePrefixedPaths(rest: string)
    requires |rest| > 0 && rest[0] != '/' && (|rest| < 2 || rest[1] != ':')
    ensures IsAbsolute("g/" + "/" + rest)
    ensures !IsAbsolute("g/" + rest)
  {
    TranslateStripsOnce("/" + rest);
    TranslateStripsOnce(rest);
    assert ("g/" + "/" + rest) == "g/" + ("/" + rest);
    assert Prefix("g/" + rest, 4)[..2] == "g/";
  }

  /** `fileNameFrom`: an external URL unchanged, else the basename of the translated path. */
  function FileNameFrom(lib: PathLibrary, fullpath: string): (r: string)
    ensures IsExternalUrl(fullpath) ==> r == fullpath
    ensures !IsExternalUrl(fullpath) ==> r == lib.basename(TranslateUrl(fullpath))
  {
    if IsExternalUrl(fullpath) then fullpath else lib.basename(TranslateUrl(fullpath))
  }

  /** `dirNameFrom`: "" for an external URL, else the dirname of the translated path. */
  function DirNameFrom(lib: PathLibrary, fullpath: string): (r: string)
    ensures IsExternalUrl(fullpath) ==> r == ""
    ensures !IsExternalUrl(fullpath) ==> r == lib.dirname(TranslateUrl(fullpath))
  {
    if IsExternalUrl(fullpath) then "" else lib.dirname(TranslateUrl(fullpath))
  }

  /**
   * `makeAbsolute`: an external URL unchanged; otherwise the normalized
   * translated file name resolved against the base directory, which is
   * itself resolved first when it is not absolute.
   */
  function MakeAbsolute(lib: PathLibrary, filename: string, baseDirectory: string): (r: string)
    ensures IsExternalUrl(filename) ==> r == filename
    ensures !IsExternalUrl(filename) && IsAbsolute(baseDirectory) ==>
      r == lib.resolveFrom(baseDirectory, lib.normalize(TranslateUrl(filename)))
    ensures !IsExternalUrl(filename) && !IsAbsolute(baseDirectory) ==>
      r == lib.resolveFrom(lib.resolve(baseDirectory), lib.normalize(TranslateUrl(filename)))
  {
    if IsExternalUrl(filename) then filename
    else
      var base := if IsAbsolute(baseDirectory) then baseDirectory else lib.resolve(baseDirectory);
      lib.resolveFrom(base, lib.normalize(TranslateUrl(filename)))
  }

  /** `makeRelative`: an external URL unchanged, else the normalized translated name relative to the base. */
  function MakeRelative(lib: PathLibrary, filename: string, baseDirectory: string): (r: string)
    ensures IsExternalUrl(filename) ==> r == filename
    ensures !IsExternalUrl(filename) ==> r == lib.relative(baseDirectory, lib.normalize(TranslateUrl(filename)))
  {
    if IsExternalUrl(filename) then filename
    else lib.relative(baseDirectory, lib.normalize(TranslateUrl(filename)))
  }

  /** What `copyFile` returns and which copy, if any, it asks the file system for. */
  datatype CopyOutcome = CopyOutcome(returned: bool, copied: Option<(string, string)>)

  /**
   * `copyFile`: external URLs are not copied and report success; a source
   * equal to the destination (after translation) is not copied either;
   * otherwise the copy is attempted and a failure (`copyThrows`) gives false.
   */
  function CopyFile(source: string, dest: string, copyThrows: bool): (r: CopyOutcome)
    ensures IsExternalUrl(source) ==> r == CopyOutcome(true, None)
    ensures !IsExternalUrl(source) && TranslateUrl(source) == dest ==> r == CopyOutcome(true, None)
    ensures !IsExternalUrl(source) && TranslateUrl(source) != dest ==>
      r.copied == Some((TranslateUrl(source), dest)) && (r.returned <==> !copyThrows)
  {
    if IsExternalUrl(source) then CopyOutcome(true, None)
    else
      var src := TranslateUrl(source);
      if src != dest then CopyOutcome(!copyThrows, Some((src, dest))) else CopyOutcome(true, None)
  }

  /** A copy that fails is the only way `copyFile` returns false. */
  lemma CopyFileFalseOnlyOnFailure(source: string, dest: string, copyThrows: bool)
    ensures !CopyFile(source, dest, copyThrows).returned ==> copyThrows && CopyFile(source, dest, copyThrows).copied.Some?
    ensures !copyThrows ==> CopyFile(source, dest, copyThrows).returned
  {
  }

  /** `sub` occurs in `s` at index `j`. */
  predicate OccursAt(s: string, sub: string, j: int)
  {
    0 <= j && j + |sub| <= |s| && s[j..j + |sub|] == sub
  }

  /** The first index at or after `k` where `sub` occurs in `s`, or -1. */
  function IndexOfFrom(s: string, sub: string, k: nat): (r: int)
    requires |sub| > 0
    ensures r == -1 || (k <= r && OccursAt(s, sub, r))
    ensures r >= 0 ==> forall j :: k <= j < r ==> !OccursAt(s, sub, j)
    ensures r == -1 ==> forall j :: k <= j ==> !OccursAt(s, sub, j)
    decreases |s| - k
  {
    if k + |sub| > |s| then -1
    else if s[k..k + |sub|] == sub then k
    else IndexOfFrom(s, sub, k + 1)
  }

  /**
   * JavaScript `s.indexOf(sub, from)` for a non-empty `sub`: the first
   * index at or after `from` (taken as 0 when negative) where `sub` occurs,
   * or -1.
   */
  function IndexOf(s: string, sub: string, from: int): (r: int)
    requires |sub| > 0
    ensures r == -1 || (from <= r && OccursAt(s, sub, r))
    ensures r >= 0 ==> forall j :: from <= j < r ==> !OccursAt(s, sub, j)
    ensures r == -1 ==> forall j :: from <= j ==> !OccursAt(s, sub, j)
  {
    IndexOfFrom(s, sub, if from < 0 then 0 else from)
  }

  /** The filter of `readDir`: an empty extension keeps everything. */
  predicate KeepsFile(file: string, ext: string)
  {
    var e := ToUpper(ext);
    |e| == 0 || IndexOf(ToUpper(file), e, |file| - |e|) != -1
  }

  /**
   * Searching from `|s| - |sub|` finds `sub` exactly when `s` ends with it,
   * so the filter keeps a file iff its upper-cased name ends with the
   * upper-cased extension.
   */
  lemma KeepsFileIffEndsWith(file: string, ext: string)
    ensures KeepsFile(file, ext) <==> ext == "" || EndsWith(ToUpper(file), ToUpper(ext))
  {
    var e := ToUpper(ext);
    var f := ToUpper(file);
    if |e| > 0 {
      var from := |file| - |e|;
      if from < 0 {
        assert IndexOfFrom(f, e, 0) == -1;
      } else {
        assert f[from..from + |e|] == f[|f| - |e|..];
        if f[from..from + |e|] != e {
          assert IndexOfFrom(f, e, from + 1) == -1;
        }
      }
    }
  }

  /** The entries `readDir` outputs for the files of a listing, in listing order. */
  function Listed(path: string, ext: string, files: seq<string>): (r: seq<string>)
    ensures |r| <= |files|
  {
    if files == [] then []
    else
      var last := files[|files| - 1];
      Listed(path, ext, files[..|files| - 1]) + (if KeepsFile(last, ext) then [path + "/" + last] else [])
  }

  /** Every listed entry is the directory path, '/' and a kept file name from the listing. */
  lemma {:induction false} ListedEntries(path: string, ext: string, files: seq<string>)
    ensures forall x :: x in Listed(path, ext, files) ==>
      exists file :: file in files && KeepsFile(file, ext) && x == path + "/" + file
    ensures forall file :: file in files && KeepsFile(file, ext) ==> path + "/" + file in Listed(path, ext, files)
  {
    if files != [] {
      var init := files[..|files| - 1];
      ListedEntries(path, ext, init);
      assert files == init + [files[|files| - 1]];
    }
  }

  /** With an empty extension every file is listed. */
  lemma {:induction false} ListedAllWithoutExtension(path: string, files: seq<string>)
    ensures |Listed(path, "", files)| == |files|
  {
    if files != [] {
      ListedAllWithoutExtension(path, files[..|files| - 1]);
    }
  }

  /** The listing of the first `i + 1` files extends that of the first `i` by file `i`'s entry, if kept. */
  lemma ListedStep(path: string, ext: string, files: seq<string>, i: nat)
    requires i < |files|
    ensures Listed(path, ext, files[..i + 1]) ==
      Listed(path, ext, files[..i]) + (if KeepsFile(files[i], ext) then [path + "/" + files[i]] else [])
  {
    assert files[..i + 1][..i] == files[..i];
  }

  /**
   * `readDir`: lists `path + "/" + file` for each file of the directory
   * whose name ends with `ext`, ignoring case. `listing` is what the
   * directory holds, or `None` when it does not exist (an empty result).
   */
  method ReadDir(path: string, ext: string, listing: Option<seq<string>>) returns (output: seq<string>)
    ensures listing.None? ==> output == []
    ensures listing.Some? ==> output == Listed(path, ext, listing.value)
  {
    output := [];
    if listing.Some? {
      var files := listing.value;
      var i := 0;
      while i < |files|
        invariant 0 <= i <= |files|
        invariant output == Listed(path, ext, files[..i])
      {
        ListedStep(path, ext, files, i);
        if KeepsFile(files[i], ext) {
          output := output + [path + "/" + files[i]];
        }
        i := i + 1;
      }
      assert files[..|files|] == files;
    }
  }
}
