/**
  The commands the checker starts and what it makes of their results:
  run_cmd's return triple, run_checkbuild's classification, commit_file's
  commit-then-push and the choice of the commit description.
 */
module Build {
  import opened Wrappers
  import opened Text

  /** The five commands the checker can start. */
  datatype Command =
    | GitLog     // git log -1 --no-decorate, in the source directory
    | GitCommit  // git commit -m "Auto Commit: Update new commit id" <marker>
    | GitPush    // git push upstream main
    | Configure  // ./bootstrap-configure, in the source directory
    | Make       // make, in the source directory

  /**
    What happens when a command is started: it runs and exits with a code
    (its stdout and stderr text in full), or it cannot be started at all
    (Popen raises OSError).
   */
  datatype CmdOutcome =
    | Exited(code: int, stdout: string, stderr: string)
    | LaunchFailed

  /** The first element of run_cmd's triple: -1 when the command could not be started. */
  function ReturnCode(o: CmdOutcome): (rc: int)
    ensures o.LaunchFailed? ==> rc == -1
    ensures o.Exited? ==> rc == o.code
  {
    if o.Exited? then o.code else -1
  }

  /** The second element of run_cmd's triple (None when the command could not be started). */
  function Stdout(o: CmdOutcome): (out: Option<string>)
    ensures out.None? <==> o.LaunchFailed?
    ensures o.Exited? ==> out == Some(o.stdout)
  {
    if o.Exited? then Some(o.stdout) else None
  }

  /** The third element of run_cmd's triple (None when the command could not be started). */
  function Stderr(o: CmdOutcome): (err: Option<string>)
    ensures err.None? <==> o.LaunchFailed?
    ensures o.Exited? ==> err == Some(o.stderr)
  {
    if o.Exited? then Some(o.stderr) else None
  }

  /** `if ret:` in the script: any nonzero code, -1 included, is a failure. */
  predicate Failed(o: CmdOutcome): (failed: bool)
    ensures o.LaunchFailed? ==> failed
    ensures o.Exited? ==> (failed <==> o.code != 0)
  {
    ReturnCode(o) != 0
  }

  /**
    run_cmd's capture loop: stdout is accumulated line by line while the
    command runs; what is accumulated is the whole stream, in order.
   */
  method CaptureOutput(stream: string) returns (stdout: string)
    ensures stdout == stream
  {
    var lines := Lines(stream);
    stdout := "";
    for i := 0 to |lines|
      invariant stdout == Concat(lines[..i])
    {
      ConcatSnoc(lines[..i], lines[i]);
      assert lines[..i + 1] == lines[..i] + [lines[i]];
      stdout := stdout + lines[i];
    }
    assert lines[..|lines|] == lines;
    ConcatLines(stream);
  }

  /** run_checkbuild's result: 0, 1 or 2 and the failing step's stderr. */
  datatype CheckResult = CheckResult(ret: int, err: Option<string>)

  /** run_checkbuild: configure, then make, stopping at the first failure. */
  function CheckBuild(configure: CmdOutcome, make: CmdOutcome): (r: CheckResult)
    ensures r.ret in {0, 1, 2}
    ensures r.ret == 0 <==> !Failed(configure) && !Failed(make)
    ensures r.ret != 0 ==> r.err == Stderr(if Failed(configure) then configure else make)
  {
    if Failed(configure) then CheckResult(1, Stderr(configure))
    else if Failed(make) then CheckResult(2, Stderr(make))
    else CheckResult(0, None)
  }

  /** The commands run_checkbuild starts, in order. */
  function BuildLaunches(configure: CmdOutcome): (cmds: seq<Command>)
    ensures 1 <= |cmds| <= 2 && cmds[0] == Configure
    ensures Make in cmds <==> !Failed(configure)
  {
    if Failed(configure) then [Configure] else [Configure, Make]
  }

  /** Configure failing (or not starting) gives (1, its stderr) and make is never started. */
  lemma ConfigureFailure(configure: CmdOutcome, make: CmdOutcome)
    requires Failed(configure)
    ensures CheckBuild(configure, make) == CheckResult(1, Stderr(configure))
    ensures BuildLaunches(configure) == [Configure] && Make !in BuildLaunches(configure)
    ensures forall other :: CheckBuild(configure, other) == CheckBuild(configure, make)
  {
  }

  /** Configure succeeding and make failing gives (2, make's stderr). */
  lemma MakeFailure(configure: CmdOutcome, make: CmdOutcome)
    requires !Failed(configure) && Failed(make)
    ensures CheckBuild(configure, make) == CheckResult(2, Stderr(make))
    ensures BuildLaunches(configure) == [Configure, Make]
  {
  }

  /**
    Both steps at zero give (0, None); the classification is complete and
    exclusive, and a failure carries the failing step's stderr only.
   */
  lemma BuildClassification(configure: CmdOutcome, make: CmdOutcome)
    ensures var r := CheckBuild(configure, make);
      && (r.ret == 0 <==> !Failed(configure) && !Failed(make))
      && (r.ret == 1 <==> Failed(configure))
      && (r.ret == 2 <==> !Failed(configure) && Failed(make))
      && (r.ret == 0 ==> r.err == None)
      && (r.ret == 1 ==> r.err == Stderr(configure))
      && (r.ret == 2 ==> r.err == Stderr(make))
      && (Make in BuildLaunches(configure) <==> !Failed(configure))
  {
  }

  /** A build step that cannot be started is classified as that step's failure, with no stderr. */
  lemma LaunchFailureIsFailure(configure: CmdOutcome, make: CmdOutcome)
    ensures CheckBuild(LaunchFailed, make) == CheckResult(1, None)
    ensures !Failed(configure) ==> CheckBuild(configure, LaunchFailed) == CheckResult(2, None)
  {
  }

  /** The commands commit_file starts: push only after a successful commit. */
  function CommitLaunches(commit: CmdOutcome): (cmds: seq<Command>)
    ensures 1 <= |cmds| <= 2 && cmds[0] == GitCommit
    ensures GitPush in cmds <==> !Failed(commit)
    ensures Configure !in cmds && Make !in cmds
  {
    if Failed(commit) then [GitCommit] else [GitCommit, GitPush]
  }

  /** commit_file's return value. */
  function CommitOk(commit: CmdOutcome, push: CmdOutcome): (ok: bool)
    ensures ok ==> GitPush in CommitLaunches(commit)
    ensures ok <==> ReturnCode(commit) == 0 && ReturnCode(push) == 0
  {
    !Failed(commit) && !Failed(push)
  }

  lemma CommitFileDecision(commit: CmdOutcome, push: CmdOutcome)
    ensures GitPush in CommitLaunches(commit) <==> !Failed(commit)
    ensures CommitOk(commit, push) <==> |CommitLaunches(commit)| == 2 && !Failed(push)
  {
  }

  /**
    The commit description used in the report: git log's stdout, or the
    raw head identifier when git log fails or cannot be started.
   */
  function TopLog(log: CmdOutcome, head: string): (description: string)
    ensures Failed(log) ==> description == head
    ensures !Failed(log) ==> Stdout(log) == Some(description)
  {
    if Failed(log) then head else log.stdout
  }
}
