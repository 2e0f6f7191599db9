/**
  The script as it runs: the marker file and the record of what the
  process has done are the state; each helper of the script is a method
  that appends its effects and is proved against the functions of the
  other modules, and RunOnce is proved to behave as Orchestrator.Run says.
 */
module Checker {
  import opened Wrappers
  import opened Text
  import opened Marker
  import opened Build
  import opened Notify
  import opened Orchestrator

  class Checker {
    var marker: Option<string>  // content of the marker file; None when it does not exist
    var effects: seq<Effect>    // every marker write, command start and message, in order

    constructor (marker: Option<string>)
      ensures this.marker == marker && effects == []
    {
      this.marker := marker;
      effects := [];
    }

    /** run_cmd: start a command, capture its output, return its triple. */
    method RunCmd(cmd: Command, o: CmdOutcome) returns (ret: int, stdout: Option<string>, stderr: Option<string>)
      modifies this`effects
      ensures effects == old(effects) + [Start(cmd)]
      ensures ret == ReturnCode(o) && stdout == Stdout(o) && stderr == Stderr(o)
    {
      effects := effects + [Start(cmd)];
      if o.LaunchFailed? {
        return -1, None, None;
      }
      var captured := CaptureOutput(o.stdout);
      return o.code, Some(captured), Some(o.stderr);
    }

    /** write_sha_to_file: replace the whole marker file. */
    method WriteShaToFile(newSha: string)
      modifies this
      ensures marker == Some(newSha)
      ensures effects == old(effects) + [WriteMarker(newSha)]
    {
      marker := Some(WriteSha(newSha));
      effects := effects + [WriteMarker(newSha)];
    }

    /** commit_file: commit the marker, and push only when the commit succeeded. */
    method CommitFile(commit: CmdOutcome, push: CmdOutcome) returns (ok: bool)
      modifies this`effects
      ensures ok == CommitOk(commit, push)
      ensures effects == old(effects) + Starts(CommitLaunches(commit))
    {
      var ret, _, _ := RunCmd(GitCommit, commit);
      if ret != 0 {
        return false;
      }
      var pushRet, _, _ := RunCmd(GitPush, push);
      assert CommitLaunches(commit)[1..] == [GitPush] && [GitPush][1..] == [];
      assert Starts(CommitLaunches(commit)) == [Start(GitCommit), Start(GitPush)];
      if pushRet != 0 {
        return false;
      }
      return true;
    }

    /** run_checkbuild: configure, then make, stopping at the first failure. */
    method RunCheckBuild(configure: CmdOutcome, make: CmdOutcome) returns (ret: int, err: Option<string>)
      modifies this`effects
      ensures CheckResult(ret, err) == CheckBuild(configure, make)
      ensures effects == old(effects) + Starts(BuildLaunches(configure))
    {
      var code, _, stderr := RunCmd(Configure, configure);
      if code != 0 {
        return 1, stderr;
      }
      var makeCode, _, makeErr := RunCmd(Make, make);
      assert BuildLaunches(configure)[1..] == [Make] && [Make][1..] == [];
      assert Starts(BuildLaunches(configure)) == [Start(Configure), Start(Make)];
      if makeCode != 0 {
        return 2, makeErr;
      }
      return 0, None;
    }

    /**
      send_email up to the transport. completed is false when a key it reads
      is missing from the section (KeyError); then nothing is recorded.
     */
    method SendEmail(cfg: Section, subject: string, message: string, tokenPresent: bool) returns (completed: bool)
      modifies this`effects
      ensures completed == Mail(cfg, subject, message, tokenPresent).Some?
      ensures effects == old(effects) + (if completed then [Send(Mail(cfg, subject, message, tokenPresent).value)] else [])
    {
      var receivers: seq<string> := [];
      if OnlyMaintainers(cfg) {
        if "maintainers" !in cfg {
          return false;
        }
        receivers := receivers + Split(DeleteLineBreaks(cfg["maintainers"]), ',');
      } else {
        if "default-to" !in cfg {
          return false;
        }
        receivers := receivers + [cfg["default-to"]];
      }
      if "user" !in cfg {
        return false;
      }
      assert receivers == Recipients(cfg).value;
      var msg := Message(cfg["user"], receivers, Join(receivers, ','), subject, message);
      if !tokenPresent {
        // EMAIL_TOKEN is missing: send_email returns -1 before connecting
        effects := effects + [Send(Notification(msg, NoToken))];
        return true;
      }
      effects := effects + [Send(Notification(msg, Connect(UseStartTls(cfg))))];
      return true;
    }

    /** report_result: fill the templates and send. */
    method ReportResult(cfg: Section, result: string, repoUrl: string, branch: string, commitLog: string,
                        output: string, date: string, tokenPresent: bool) returns (completed: bool)
      modifies this`effects
      ensures var n := Report(cfg, result, repoUrl, branch, commitLog, output, date, tokenPresent);
        && completed == n.Some?
        && effects == old(effects) + (if completed then [Send(n.value)] else [])
    {
      var subject := Subject(result, date);
      var message := Body(result, repoUrl, branch, commitLog, output);
      completed := SendEmail(cfg, subject, message, tokenPresent);
    }

    /** main: one invocation of the checker. */
    method RunOnce(env: Env) returns (outcome: Outcome)
      modifies this
      ensures var r := Run(old(marker), env);
        && marker == r.marker
        && effects == old(effects) + r.trace
        && outcome == r.outcome
    {
      if !env.configFileExists {
        return Exit(1);
      }
      if marker.None? {
        return Exit(1);
      }
      if !env.sourceExists {
        return Exit(1);
      }
      var lastKnownSha := ReadSha(marker.value);
      if lastKnownSha == "" {
        return Exit(1);
      }
      if CompareSha(env.repo.head, lastKnownSha) {
        return Exit(0);
      }
      outcome := NewCommit(env);
    }

    /** The steps of main after a new commit is found. */
    method NewCommit(env: Env) returns (outcome: Outcome)
      modifies this
      ensures var r := Changed(env);
        && marker == r.marker
        && effects == old(effects) + r.trace
        && outcome == r.outcome
    {
      var commitLog, ret, outputErr := Checkpoint(env);
      outcome := ReportBuild(env, commitLog, ret, outputErr);
      ChangedCases(env);
    }

    /**
      The end of main: a report is due after a failed build, or after a
      successful one with -e; the run then exits with the build's code, or
      crashes when the report cannot be composed.
     */
    method ReportBuild(env: Env, commitLog: string, ret: int, outputErr: Option<string>) returns (outcome: Outcome)
      requires commitLog == TopLog(env.gitLog, env.repo.head)
      requires CheckResult(ret, outputErr) == CheckBuild(env.configure, env.make)
      modifies this`effects
      ensures var due := ret != 0 || env.emailOnSuccess;
        && effects == old(effects) + (if due && ReportFor(env).Some? then [Send(ReportFor(env).value)] else [])
        && outcome == (if !due then Exit(0) else if ReportFor(env).None? then Crash else Exit(ret))
    {
      if ret == 0 && !env.emailOnSuccess {
        return Exit(0);
      }
      if "email" !in env.config {
        return Crash;
      }
      var result, output := "FAIL", Render(outputErr);
      if ret == 0 {
        result, output := "SUCCESS", "success";
      }
      assert Reported(env, result, output) == ReportFor(env);
      var completed := ReportResult(env.config["email"], result, env.repo.url, env.repo.branch,
                                    commitLog, output, env.date, env.tokenPresent);
      if !completed {
        return Crash;
      }
      return Exit(ret);
    }

    /**
      git log, the marker write, the commit and the build: everything main
      does after a new commit is found and before it reports.
     */
    method Checkpoint(env: Env) returns (commitLog: string, ret: int, outputErr: Option<string>)
      modifies this
      ensures marker == Some(WriteSha(env.repo.head))
      ensures effects == old(effects) + ChangeTrace(env)
      ensures commitLog == TopLog(env.gitLog, env.repo.head)
      ensures CheckResult(ret, outputErr) == CheckBuild(env.configure, env.make)
    {
      var head := env.repo.head;
      var logRet, topLog, _ := RunCmd(GitLog, env.gitLog);
      commitLog := head;
      if logRet == 0 {
        commitLog := topLog.value;
      }
      // write_sha_to_file returns None, so its error branch is never taken
      WriteShaToFile(head);
      // a failed commit or push is only logged
      var _ := CommitFile(env.commit, env.push);
      ret, outputErr := RunCheckBuild(env.configure, env.make);
    }
  }
}
