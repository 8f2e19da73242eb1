/**
 * The predicates that decide which files of the game engine runtime are
 * bundled, which are skipped as tests, and which are copied as they are
 * instead of being transformed by the bundler.
 *
 * Paths use '/' as separator. `path.basename` and `path.extname` are
 * written out below for paths without a trailing '/'; `path.resolve` of a
 * relative entry against the runtime directory is taken to be the plain
 * join `runtimePath + "/" + entry`.
 */
module RuntimeFilesList {
  import opened Common

  /** Extensions of the files included in the bundled runtime. */
  const AllowedExtensions: seq<string> := [".js", ".ts", ".html", ".json", ".xml"]

  /** Extensions of the files that the bundler transforms. */
  const TransformIncludedExtensions: seq<string> := [".js", ".ts"]

  /** Among those, the extensions that are copied instead. */
  const TransformExcludedExtensions: seq<string> := [".min.js", ".d.ts"]

  /** Prebuilt files and directories, relative to the runtime directory, that are copied as they are. */
  const UntransformedEntries: seq<string> := [
    "pixi-renderers/pixi.js",
    "fontfaceobserver-font-manager/fontfaceobserver.js",
    "Cocos2d",
    "Cordova",
    "Electron",
    "FacebookInstantGames",
    "libs/CocoonJS",
    "libs/rbush.js",
    "Extensions/Firebase/B_firebasejs",
    "Extensions/BBText/pixi-multistyle-text/dist",
    "Extensions/DialogueTree/bondage.js/dist",
    "Extensions/Effects/pixi-filters",
    "Extensions/P2P/A_peer.js",
    "Extensions/ParticleSystem/pixi-particles-pixi-renderer.min.js",
    "Extensions/Physics2Behavior/box2d.js",
    "Extensions/PhysicsBehavior/box2djs",
    "Extensions/Shopify/shopify-buy.umd.polyfilled.min.js",
    "Extensions/TweenBehavior/shifty.js",
    "Extensions/JsExtensionTypes.flow.js"
  ]

  const TestDirectoryNames: set<string> := {"test", "tests", "__tests__"}

  const JsExtensionFileName: string := "JsExtension.js"

  /** The index of the last `c` in `s`, or -1. */
  function LastIndexOf(s: string, c: char): (r: int)
    ensures -1 <= r < |s|
    ensures r >= 0 ==> s[r] == c
    ensures forall k :: r < k < |s| ==> s[k] != c
  {
    if |s| == 0 then -1
    else if s[|s| - 1] == c then |s| - 1
    else LastIndexOf(s[..|s| - 1], c)
  }

  /** `path.basename`: what follows the last '/'. */
  function Basename(p: string): (r: string)
    ensures EndsWith(p, r)
    ensures forall k :: 0 <= k < |r| ==> r[k] != '/'
  {
    p[LastIndexOf(p, '/') + 1..]
  }

  /**
   * `path.extname`: the basename from its last '.' on, or "" when it has no
   * '.', when the only leading character is that '.', or when it is "..".
   */
  function Extname(p: string): (r: string)
    ensures r == "" || (r[0] == '.' && EndsWith(Basename(p), r) && |r| < |Basename(p)|)
    ensures forall k :: 1 <= k < |r| ==> r[k] != '.'
    ensures r == "" <==> Basename(p) == ".." || forall k :: 0 < k < |Basename(p)| ==> Basename(p)[k] != '.'
  {
    var base := Basename(p);
    var dot := LastIndexOf(base, '.');
    if dot <= 0 || base == ".." then "" else base[dot..]
  }

  /** The untransformed entries resolved against the runtime directory. */
  function UntransformedPaths(runtimePath: string): (r: seq<string>)
    ensures |r| == |UntransformedEntries|
    ensures forall i :: 0 <= i < |r| ==> r[i] == runtimePath + "/" + UntransformedEntries[i]
  {
    seq(|UntransformedEntries|, i requires 0 <= i < |UntransformedEntries| => runtimePath + "/" + UntransformedEntries[i])
  }

  /** `isNotAllowedExtension`: a file (never a directory) whose extension is not an allowed one. */
  predicate IsNotAllowedExtension(p: string, isDirectory: bool)
  {
    !isDirectory && Extname(p) !in AllowedExtensions
  }

  /** `isTestDirectory`: a directory named test, tests or __tests__. */
  predicate IsTestDirectory(p: string, isDirectory: bool)
  {
    isDirectory && Basename(p) in TestDirectoryNames
  }

  /** `isJsExtensionDeclaration`: the file is named JsExtension.js. */
  predicate IsJsExtensionDeclaration(p: string)
  {
    Basename(p) == JsExtensionFileName
  }

  /** The path ends with an included extension and with no excluded one. */
  predicate IsSupportedExtension(p: string)
  {
    (exists e :: e in TransformIncludedExtensions && EndsWith(p, e))
    && !(exists e :: e in TransformExcludedExtensions && EndsWith(p, e))
  }

  /** `isUntransformedFile`: the file is copied as it is rather than transformed. */
  predicate IsUntransformedFile(runtimePath: string, p: string)
  {
    || !IsSupportedExtension(p)
    || IsJsExtensionDeclaration(p)
    || (exists u :: u in UntransformedPaths(runtimePath) && StartsWith(p, u))
  }

  /** The path is the name `n` alone, or ends with "/" and `n`. */
  predicate PathNamed(p: string, n: string)
  {
    p == n || EndsWith(p, "/" + n)
  }

  /** A path's basename is the name `n`, which holds no '/', exactly when the path is named `n`. */
  lemma BasenameIs(p: string, n: string)
    requires |n| > 0 && forall k :: 0 <= k < |n| ==> n[k] != '/'
    ensures Basename(p) == n <==> PathNamed(p, n)
  {
    var slash := LastIndexOf(p, '/');
    if Basename(p) == n && slash >= 0 {
      assert p[slash..] == "/" + n;
    }
    if EndsWith(p, "/" + n) {
      var m := |p| - |n| - 1;
      assert p[m] == '/';
      assert p[m + 1..] == n;
      assert slash == m;
    }
  }

  /**
   * The test directories are the directories whose path is "test",
   * "tests" or "__tests__", or ends with "/" and one of those names.
   */
  lemma TestDirectoryPaths(p: string, isDirectory: bool)
    ensures IsTestDirectory(p, isDirectory) <==>
      isDirectory && (PathNamed(p, "test") || PathNamed(p, "tests") || PathNamed(p, "__tests__"))
  {
    var b := Basename(p);
    assert b in TestDirectoryNames <==> b == "test" || b == "tests" || b == "__tests__";
    BasenameIs(p, "test");
    BasenameIs(p, "tests");
    BasenameIs(p, "__tests__");
  }

  /** A path ending with `suffix`, which holds no '/', has a basename ending with it. */
  lemma {:induction false} BasenameKeepsSuffix(p: string, suffix: string)
    requires EndsWith(p, suffix)
    requires forall k :: 0 <= k < |suffix| ==> suffix[k] != '/'
    ensures EndsWith(Basename(p), suffix)
  {
    var n := |p| - |suffix|;
    var slash := LastIndexOf(p, '/');
    assert p[n..] == suffix;
    assert slash < n;
    var base := p[slash + 1..];
    assert base == Basename(p);
    assert base[|base| - |suffix|..] == p[n..];
  }

  /** A basename ending with ".x" for a one- or two-letter extension x has that extension, unless it is ".x" itself. */
  lemma {:induction false} ExtnameOfSuffix(p: string, ext: string)
    requires ext == ".js" || ext == ".ts"
    requires EndsWith(p, ext) && Basename(p) != ext
    ensures Extname(p) == ext
  {
    BasenameKeepsSuffix(p, ext);
    var base := Basename(p);
    var dot := LastIndexOf(base, '.');
    assert base[|base| - 3] == '.';
    assert dot == |base| - 3;
    assert dot > 0;
    assert base[dot..] == ext;
  }

  /**
   * Every file that is transformed passes the allowed-extension filter,
   * provided its name is not just ".js" or ".ts" (a dot-file, whose
   * extension is empty for `path.extname`).
   */
  lemma TransformedFilesAreAllowed(runtimePath: string, p: string)
    requires !IsUntransformedFile(runtimePath, p)
    requires Basename(p) != ".js" && Basename(p) != ".ts"
    ensures !IsNotAllowedExtension(p, false)
    ensures !IsJsExtensionDeclaration(p)
  {
    var e :| e in TransformIncludedExtensions && EndsWith(p, e);
    ExtnameOfSuffix(p, e);
  }

  /** Each of the four conditions on its own makes a file untransformed. */
  lemma UntransformedConditions(runtimePath: string, p: string)
    ensures !(EndsWith(p, ".js") || EndsWith(p, ".ts")) ==> IsUntransformedFile(runtimePath, p)
    ensures EndsWith(p, ".min.js") || EndsWith(p, ".d.ts") ==> IsUntransformedFile(runtimePath, p)
    ensures IsJsExtensionDeclaration(p) ==> IsUntransformedFile(runtimePath, p)
    ensures forall i :: 0 <= i < |UntransformedEntries| && StartsWith(p, runtimePath + "/" + UntransformedEntries[i])
              ==> IsUntransformedFile(runtimePath, p)
  {
    assert ".min.js" in TransformExcludedExtensions && ".d.ts" in TransformExcludedExtensions;
    forall i | 0 <= i < |UntransformedEntries| && StartsWith(p, runtimePath + "/" + UntransformedEntries[i])
      ensures IsUntransformedFile(runtimePath, p)
    {
      assert UntransformedPaths(runtimePath)[i] in UntransformedPaths(runtimePath);
    }
  }

  /** A plain source file outside the prebuilt paths is transformed. */
  lemma PlainSourceIsTransformed(runtimePath: string, p: string)
    requires EndsWith(p, ".js") && !EndsWith(p, ".min.js")
    requires !IsJsExtensionDeclaration(p)
    requires forall u :: u in UntransformedPaths(runtimePath) ==> !StartsWith(p, u)
    ensures !IsUntransformedFile(runtimePath, p)
  {
    assert ".js" in TransformIncludedExtensions;
    assert !EndsWith(p, ".d.ts") by {
      assert p[|p| - 3..][1] == 'j';
    }
  }
}
