/** The two bundling helpers of the CDK stack in
    cdk-common-sample-project/lib/cdk-common-sample-project-stack.ts: the shell
    command run inside the bundling container (getBundlingCommand) and the
    local bundling that copies directories one by one (bundleLocally).

    The shell and the file system are not modelled: `execSync` is an oracle
    that says whether a command succeeds, and `pathJoin` stands for
    path.join. */
module CommonStack {
  import opened Prelude

  const DefaultInputPath := "/asset-input"
  const DefaultOutputPath := "/asset-output"

  /** What the commands of the bundling container are joined with. */
  const Separator := " && "

  // ---------------------------------------------------------------------------
  // Array.prototype.join and String.prototype.split
  // ---------------------------------------------------------------------------

  /** parts.join(sep). */
  function Join(parts: seq<string>, sep: string): string
    decreases |parts|
  {
    if parts == [] then ""
    else if |parts| == 1 then parts[0]
    else parts[0] + sep + Join(parts[1..], sep)
  }

  /** `sep` occurs in `s` at position `j`. */
  predicate OccursAt(s: string, sep: string, j: nat) {
    j + |sep| <= |s| && s[j..j + |sep|] == sep
  }

  /** s.indexOf(sep, from): the first position at or after `from` where `sep`
      occurs in `s`, or -1. */
  function IndexOf(s: string, sep: string, from: nat): (i: int)
    requires |sep| > 0
    ensures i == -1 || (from <= i && OccursAt(s, sep, i))
    ensures forall j: nat :: from <= j && (i == -1 || j < i) ==> !OccursAt(s, sep, j)
    decreases |s| - from
  {
    if from + |sep| > |s| then -1
    else if s[from..from + |sep|] == sep then from
    else IndexOf(s, sep, from + 1)
  }

  /** s.split(sep) for a non-empty separator: the pieces between the
      occurrences of `sep`, found left to right. */
  function Split(s: string, sep: string): (pieces: seq<string>)
    requires |sep| > 0
    ensures |pieces| >= 1
    decreases |s|
  {
    var i := IndexOf(s, sep, 0);
    if i < 0 then [s] else [s[..i]] + Split(s[i + |sep|..], sep)
  }

  /** `s` holds `sep` somewhere. */
  ghost predicate Contains(s: string, sep: string) {
    exists j: nat :: OccursAt(s, sep, j)
  }

  /** Every occurrence of the separator holds an '&', so a string without
      '&' holds none. */
  lemma AmpersandFreeHasNoSeparator(s: string)
    requires '&' !in s
    ensures !Contains(s, Separator)
  {
    forall j: nat | j + |Separator| <= |s|
      ensures !OccursAt(s, Separator, j)
    {
      assert s[j..j + |Separator|][1] == s[j + 1];
    }
  }

  /** In `p + Separator + rest` with no '&' in `p`, the first separator is the
      one right after `p`. */
  lemma {:induction false} IndexOfAfterAmpersandFree(p: string, rest: string, from: nat)
    requires '&' !in p
    requires from <= |p|
    ensures IndexOf(p + Separator + rest, Separator, from) == |p|
    decreases |p| - from
  {
    var s := p + Separator + rest;
    if from < |p| {
      var w := s[from..from + |Separator|];
      assert w[1] == s[from + 1];
      if from + 1 < |p| {
        assert s[from + 1] == p[from + 1];
      } else {
        assert s[from + 1] == ' ';
      }
      assert w != Separator;
      IndexOfAfterAmpersandFree(p, rest, from + 1);
    } else {
      assert s[|p|..|p| + |Separator|] == Separator;
    }
  }

  /** A string without '&' is not split. */
  lemma SplitAmpersandFree(p: string)
    requires '&' !in p
    ensures Split(p, Separator) == [p]
  {
    AmpersandFreeHasNoSeparator(p);
  }

  /** Splitting at the separator undoes joining with it, when no part holds '&'. */
  lemma {:induction false} SplitJoin(parts: seq<string>)
    requires |parts| >= 1
    requires forall k :: 0 <= k < |parts| ==> '&' !in parts[k]
    ensures Split(Join(parts, Separator), Separator) == parts
    decreases |parts|
  {
    if |parts| == 1 {
      SplitAmpersandFree(parts[0]);
    } else {
      var p, rest := parts[0], Join(parts[1..], Separator);
      var s := p + Separator + rest;
      IndexOfAfterAmpersandFree(p, rest, 0);
      assert s[..|p|] == p;
      assert s[|p| + |Separator|..] == rest;
      SplitJoin(parts[1..]);
      assert [parts[0]] + parts[1..] == parts;
    }
  }

  // ---------------------------------------------------------------------------
  // getBundlingCommand
  // ---------------------------------------------------------------------------

  function MkdirCommand(outputPath: string): string {
    "mkdir -p " + outputPath
  }

  function CopyCommand(inputPath: string, dir: string, outputPath: string): string {
    "cp -R " + inputPath + "/" + dir + " " + outputPath + "/"
  }

  /** The commands run in the container: create the output directory, then
      copy each directory, in order. */
  function BundlingSegments(dirs: seq<string>, inputPath: string, outputPath: string): seq<string> {
    [MkdirCommand(outputPath)] + seq(|dirs|, i requires 0 <= i < |dirs| => CopyCommand(inputPath, dirs[i], outputPath))
  }

  /** No '&' in any directory name and in neither path. */
  predicate AmpersandFree(dirs: seq<string>, inputPath: string, outputPath: string) {
    && '&' !in inputPath
    && '&' !in outputPath
    && forall i :: 0 <= i < |dirs| ==> '&' !in dirs[i]
  }

  /** When no name holds '&', the command splits at " && " into exactly
      |dirs| + 1 commands: mkdir of the output path, then one cp -R per
      directory, in order. */
  lemma BundlingCommandSegments(dirs: seq<string>, inputPath: string, outputPath: string)
    requires AmpersandFree(dirs, inputPath, outputPath)
    ensures var pieces := Split(Join(BundlingSegments(dirs, inputPath, outputPath), Separator), Separator);
      && |pieces| == |dirs| + 1
      && pieces[0] == MkdirCommand(outputPath)
      && forall i :: 0 <= i < |dirs| ==> pieces[i + 1] == CopyCommand(inputPath, dirs[i], outputPath)
  {
    var segs := BundlingSegments(dirs, inputPath, outputPath);
    forall k | 0 <= k < |segs| ensures '&' !in segs[k] {
      if k == 0 {
        assert segs[0] == "mkdir -p " + outputPath;
      } else {
        var c := segs[k];
        assert c == "cp -R " + inputPath + "/" + dirs[k - 1] + " " + outputPath + "/";
      }
    }
    SplitJoin(segs);
  }

  /** The command always starts with the mkdir of the output path, and for no
      directories it is exactly that command. */
  lemma BundlingCommandStart(dirs: seq<string>, inputPath: string, outputPath: string)
    ensures var command := Join(BundlingSegments(dirs, inputPath, outputPath), Separator);
      && MkdirCommand(outputPath) <= command
      && (dirs == [] ==> command == MkdirCommand(outputPath))
  {
  }

  /** With no directories and no '&' in the output path the command holds no " && ". */
  lemma NoDirsNoSeparator(inputPath: string, outputPath: string)
    requires '&' !in outputPath
    ensures !Contains(Join(BundlingSegments([], inputPath, outputPath), Separator), Separator)
  {
    BundlingCommandStart([], inputPath, outputPath);
    assert '&' !in MkdirCommand(outputPath);
    AmpersandFreeHasNoSeparator(MkdirCommand(outputPath));
  }

  /** getBundlingCommand: builds the list of commands one push at a time and
      joins it with " && ". */
  method GetBundlingCommand(dirs: seq<string>, inputPath: string := DefaultInputPath, outputPath: string := DefaultOutputPath)
    returns (command: string)
    ensures command == Join(BundlingSegments(dirs, inputPath, outputPath), Separator)
    ensures MkdirCommand(outputPath) <= command
    ensures AmpersandFree(dirs, inputPath, outputPath) ==>
      var pieces := Split(command, Separator);
      && |pieces| == |dirs| + 1
      && pieces[0] == MkdirCommand(outputPath)
      && forall i :: 0 <= i < |dirs| ==> pieces[i + 1] == CopyCommand(inputPath, dirs[i], outputPath)
  {
    var commands := [MkdirCommand(outputPath)];
    for i := 0 to |dirs|
      invariant commands == BundlingSegments(dirs[..i], inputPath, outputPath)
    {
      commands := commands + [CopyCommand(inputPath, dirs[i], outputPath)];
    }
    assert dirs[..|dirs|] == dirs;
    command := Join(commands, Separator);
    BundlingCommandStart(dirs, inputPath, outputPath);
    if AmpersandFree(dirs, inputPath, outputPath) {
      BundlingCommandSegments(dirs, inputPath, outputPath);
    }
  }

  /** The mkdir and copy commands with the default paths, written out. */
  lemma DefaultPathCommands(dir: string)
    ensures MkdirCommand(DefaultOutputPath) == "mkdir -p /asset-output"
    ensures CopyCommand(DefaultInputPath, dir, DefaultOutputPath) == "cp -R /asset-input/" + dir + " /asset-output/"
  {
    var head := "cp -R " + DefaultInputPath + "/";
    var tail := " " + DefaultOutputPath + "/";
    assert head == "cp -R /asset-input/";
    assert tail == " /asset-output/";
    assert CopyCommand(DefaultInputPath, dir, DefaultOutputPath) == head + dir + tail;
  }

  /** The command for two directories splits into mkdir and the two copies. */
  lemma TwoDirectorySegments(first: string, second: string, inputPath: string, outputPath: string)
    requires AmpersandFree([first, second], inputPath, outputPath)
    ensures Split(Join(BundlingSegments([first, second], inputPath, outputPath), Separator), Separator)
         == [MkdirCommand(outputPath), CopyCommand(inputPath, first, outputPath), CopyCommand(inputPath, second, outputPath)]
  {
    var dirs := [first, second];
    BundlingCommandSegments(dirs, inputPath, outputPath);
    var pieces := Split(Join(BundlingSegments(dirs, inputPath, outputPath), Separator), Separator);
    assert pieces[1] == CopyCommand(inputPath, dirs[0], outputPath);
    assert pieces[2] == CopyCommand(inputPath, dirs[1], outputPath);
    assert pieces == [pieces[0], pieces[1], pieces[2]];
  }

  /** The container command both functions use: their own directory, then
      common, with the default paths; three commands. */
  method FunctionBundlingCommand(functionDir: string) returns (command: string)
    ensures '&' !in functionDir ==>
      Split(command, Separator)
        == [MkdirCommand(DefaultOutputPath),
            CopyCommand(DefaultInputPath, functionDir, DefaultOutputPath),
            CopyCommand(DefaultInputPath, "common", DefaultOutputPath)]
  {
    command := GetBundlingCommand([functionDir, "common"]);
    if '&' !in functionDir {
      assert AmpersandFree([functionDir, "common"], DefaultInputPath, DefaultOutputPath);
      TwoDirectorySegments(functionDir, "common", DefaultInputPath, DefaultOutputPath);
    }
  }

  // ---------------------------------------------------------------------------
  // bundleLocally
  // ---------------------------------------------------------------------------

  /** The command execSync runs to copy `src` into `outputDir`. */
  function LocalCopyCommand(src: string, outputDir: string): string {
    "cp -R \"" + src + "\" \"" + outputDir + "/\""
  }

  /** The copy commands of bundleLocally, one per directory, in order. */
  function LocalCopyCommands(dirs: seq<string>, inputPath: string, outputDir: string,
                             pathJoin: (string, string) -> string): (cmds: seq<string>)
    ensures |cmds| == |dirs|
  {
    seq(|dirs|, i requires 0 <= i < |dirs| => LocalCopyCommand(pathJoin(inputPath, dirs[i]), outputDir))
  }

  /** bundleLocally: copies the directories one at a time and stops at the
      first copy that fails; `executed` lists the commands run, in order. */
  method BundleLocally(dirs: seq<string>, inputPath: string, outputDir: string,
                       pathJoin: (string, string) -> string, execSync: string -> bool)
    returns (ok: bool, executed: seq<string>)
    ensures var cmds := LocalCopyCommands(dirs, inputPath, outputDir, pathJoin);
      ok <==> forall i :: 0 <= i < |cmds| ==> execSync(cmds[i])
    ensures var cmds, k := LocalCopyCommands(dirs, inputPath, outputDir, pathJoin),
                           FirstFailure(LocalCopyCommands(dirs, inputPath, outputDir, pathJoin), execSync);
      executed == if ok then cmds else cmds[..k + 1]
  {
    ghost var cmds := LocalCopyCommands(dirs, inputPath, outputDir, pathJoin);
    executed := [];
    var i := 0;
    while i < |dirs|
      invariant 0 <= i <= |dirs|
      invariant executed == cmds[..i]
      invariant forall j :: 0 <= j < i ==> execSync(cmds[j])
    {
      var dirSrc := pathJoin(inputPath, dirs[i]);
      var command := LocalCopyCommand(dirSrc, outputDir);
      executed := executed + [command];
      if !execSync(command) {
        FirstFailureIs(cmds, execSync, i);
        return false, executed;
      }
      i := i + 1;
    }
    FirstFailureIs(cmds, execSync, |dirs|);
    return true, executed;
  }

  /** tryBundle of both functions: bundle the function's own directory and
      common from the functions directory into the output directory. */
  method TryBundle(functionDir: string, functionsDir: string, outputDir: string,
                   pathJoin: (string, string) -> string, execSync: string -> bool)
    returns (ok: bool, executed: seq<string>)
    ensures var own, common := LocalCopyCommand(pathJoin(functionsDir, functionDir), outputDir),
                               LocalCopyCommand(pathJoin(functionsDir, "common"), outputDir);
      && (ok <==> execSync(own) && execSync(common))
      && executed == if execSync(own) then [own, common] else [own]
  {
    ok, executed := BundleLocally([functionDir, "common"], functionsDir, outputDir, pathJoin, execSync);
  }
}
