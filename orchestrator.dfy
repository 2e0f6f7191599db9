/**
  One invocation of the checker (main) as a function from the marker file
  and the answers of its collaborators to the marker file afterwards, the
  effects in the order they happen, and how the process ends.
 */
module Orchestrator {
  import opened Wrappers
  import opened Text
  import opened Marker
  import opened Build
  import opened Notify

  /** What GitPython reports about the tracked repository. */
  datatype Repo = Repo(url: string, branch: string, head: string)

  /** Everything main learns from outside, as already-decided answers. */
  datatype Env = Env(
    configFileExists: bool,         // the -c configuration file exists
    config: map<string, Section>,   // its sections, as configparser reads them
    sourceExists: bool,             // the -s source directory exists
    repo: Repo,
    gitLog: CmdOutcome,
    commit: CmdOutcome,
    push: CmdOutcome,
    configure: CmdOutcome,
    make: CmdOutcome,
    emailOnSuccess: bool,           // the -e flag
    tokenPresent: bool,             // EMAIL_TOKEN is in the environment
    date: string)                   // the date the report is stamped with

  /** What a run does to the world, in order. */
  datatype Effect =
    | WriteMarker(content: string)  // the marker file is overwritten
    | Start(cmd: Command)           // a command is started (or its start attempted)
    | Send(n: Notification)         // send_email composes a message and decides its delivery

  /**
    How the process ends: sys.exit with a code, or an uncaught KeyError
    from a configuration entry the report needs.
   */
  datatype Outcome = Exit(code: int) | Crash

  /** The marker file afterwards (None: absent), the effects and the outcome. */
  datatype RunResult = RunResult(marker: Option<string>, trace: seq<Effect>, outcome: Outcome)

  /** The four setup checks, in the order main makes them. */
  predicate SetupOk(marker: Option<string>, env: Env): (ok: bool)
    ensures ok ==> marker.Some? && ReadSha(marker.value) != ""
    ensures !env.configFileExists || marker.None? || !env.sourceExists || marker == Some("") ==> !ok
  {
    && env.configFileExists
    && marker.Some?
    && env.sourceExists
    && ReadSha(marker.value) != ""
  }

  /** The head is the commit the marker already records. */
  predicate NoNewCommit(marker: Option<string>, env: Env): (same: bool)
    requires SetupOk(marker, env)
    ensures env.repo.head == ReadSha(marker.value) ==> same
    ensures same ==> RStrip(env.repo.head) == RStrip(ReadSha(marker.value))
  {
    CompareSha(env.repo.head, ReadSha(marker.value))
  }

  function Starts(cmds: seq<Command>): seq<Effect> {
    if cmds == [] then [] else [Start(cmds[0])] + Starts(cmds[1..])
  }

  /** The effects of a run that found a new commit, up to the report. */
  function ChangeTrace(env: Env): (trace: seq<Effect>)
    ensures |trace| >= 4
    ensures trace[0] == Start(GitLog) && trace[1] == WriteMarker(env.repo.head) && trace[2] == Start(GitCommit)
  {
    [Start(GitLog), WriteMarker(WriteSha(env.repo.head))]
    + Starts(CommitLaunches(env.commit))
    + Starts(BuildLaunches(env.configure))
  }

  /** report_result called from main: config['email'] is looked up first. */
  function Reported(env: Env, result: string, output: string): (n: Option<Notification>)
    ensures n.Some? <==> "email" in env.config && Recipients(env.config["email"]).Some? && "user" in env.config["email"]
    ensures n.Some? ==>
              && n.value.msg.subject == Subject(result, env.date)
              && n.value.msg.text == Body(result, env.repo.url, env.repo.branch, TopLog(env.gitLog, env.repo.head), output)
  {
    if "email" !in env.config then None
    else Report(env.config["email"], result, env.repo.url, env.repo.branch,
                TopLog(env.gitLog, env.repo.head), output, env.date, env.tokenPresent)
  }

  /** The report a changed run sends when it reports at all. */
  function ReportFor(env: Env): (n: Option<Notification>)
    ensures var build := CheckBuild(env.configure, env.make);
      n.Some? ==>
        && n.value.msg.subject == Subject(if build.ret == 0 then "SUCCESS" else "FAIL", env.date)
        && (build.ret != 0 ==>
              n.value.msg.text == Body("FAIL", env.repo.url, env.repo.branch, TopLog(env.gitLog, env.repo.head), Render(build.err)))
  {
    var build := CheckBuild(env.configure, env.make);
    if build.ret == 0 then Reported(env, "SUCCESS", "success")
    else Reported(env, "FAIL", Render(build.err))
  }

  /** The part of main after a new commit is found. */
  function Changed(env: Env): (r: RunResult)
    ensures r.marker == Some(env.repo.head)
    ensures |ChangeTrace(env)| <= |r.trace| <= |ChangeTrace(env)| + 1
    ensures r.trace[..|ChangeTrace(env)|] == ChangeTrace(env)
    ensures var ret := CheckBuild(env.configure, env.make).ret;
      && (r.outcome == Crash <==> (ret != 0 || env.emailOnSuccess) && ReportFor(env).None?)
      && (r.outcome != Crash ==> r.outcome == Exit(ret))
  {
    var written := Some(WriteSha(env.repo.head));
    var trace := ChangeTrace(env);
    var ret := CheckBuild(env.configure, env.make).ret;
    if ret == 0 && !env.emailOnSuccess then RunResult(written, trace, Exit(0))
    else
      match ReportFor(env)
      case None => RunResult(written, trace, Crash)
      case Some(n) => RunResult(written, trace + [Send(n)], Exit(ret))
  }

  /** Changed, read case by case from the build code and the report. */
  lemma ChangedCases(env: Env)
    ensures var ret := CheckBuild(env.configure, env.make).ret;
      var written := Some(env.repo.head);
      Changed(env) == if ret == 0 && !env.emailOnSuccess then RunResult(written, ChangeTrace(env), Exit(0))
                      else if ReportFor(env).None? then RunResult(written, ChangeTrace(env), Crash)
                      else RunResult(written, ChangeTrace(env) + [Send(ReportFor(env).value)], Exit(ret))
  {
  }

  /** main. */
  function Run(marker: Option<string>, env: Env): (r: RunResult)
    ensures r.outcome in {Exit(0), Exit(1), Exit(2), Crash}
    ensures r.marker == marker || r.marker == Some(env.repo.head)
    ensures r.trace == [] <==> !(SetupOk(marker, env) && !NoNewCommit(marker, env))
    ensures r.trace != [] ==> r.trace[0] == Start(GitLog)
  {
    if !SetupOk(marker, env) then RunResult(marker, [], Exit(1))
    else if NoNewCommit(marker, env) then RunResult(marker, [], Exit(0))
    else Changed(env)
  }

  // Projections of a trace onto each kind of effect.

  function Written(trace: seq<Effect>): seq<string> {
    if trace == [] then []
    else (if trace[0].WriteMarker? then [trace[0].content] else []) + Written(trace[1..])
  }

  function Started(trace: seq<Effect>): seq<Command> {
    if trace == [] then []
    else (if trace[0].Start? then [trace[0].cmd] else []) + Started(trace[1..])
  }

  function Sent(trace: seq<Effect>): seq<Notification> {
    if trace == [] then []
    else (if trace[0].Send? then [trace[0].n] else []) + Sent(trace[1..])
  }

  lemma {:induction false} WrittenAppend(a: seq<Effect>, b: seq<Effect>)
    ensures Written(a + b) == Written(a) + Written(b)
  {
    if a == [] {
      assert a + b == b;
    } else {
      assert (a + b)[0] == a[0] && (a + b)[1..] == a[1..] + b;
      WrittenAppend(a[1..], b);
    }
  }

  lemma {:induction false} StartedAppend(a: seq<Effect>, b: seq<Effect>)
    ensures Started(a + b) == Started(a) + Started(b)
  {
    if a == [] {
      assert a + b == b;
    } else {
      assert (a + b)[0] == a[0] && (a + b)[1..] == a[1..] + b;
      StartedAppend(a[1..], b);
    }
  }

  lemma {:induction false} SentAppend(a: seq<Effect>, b: seq<Effect>)
    ensures Sent(a + b) == Sent(a) + Sent(b)
  {
    if a == [] {
      assert a + b == b;
    } else {
      assert (a + b)[0] == a[0] && (a + b)[1..] == a[1..] + b;
      SentAppend(a[1..], b);
    }
  }

  lemma ProjectionsAppend(a: seq<Effect>, b: seq<Effect>)
    ensures Written(a + b) == Written(a) + Written(b)
    ensures Started(a + b) == Started(a) + Started(b)
    ensures Sent(a + b) == Sent(a) + Sent(b)
  {
    WrittenAppend(a, b);
    StartedAppend(a, b);
    SentAppend(a, b);
  }

  lemma {:induction false} ProjectStarts(cmds: seq<Command>)
    ensures Written(Starts(cmds)) == [] && Sent(Starts(cmds)) == []
    ensures Started(Starts(cmds)) == cmds
  {
    if cmds != [] {
      ProjectStarts(cmds[1..]);
      ProjectionsAppend([Start(cmds[0])], Starts(cmds[1..]));
    }
  }

  /** A changed run writes the marker once, starts git log, the commit steps and the build steps, and sends nothing yet. */
  lemma ChangeTraceShape(env: Env)
    ensures Written(ChangeTrace(env)) == [env.repo.head]
    ensures Started(ChangeTrace(env)) == [GitLog] + CommitLaunches(env.commit) + BuildLaunches(env.configure)
    ensures Sent(ChangeTrace(env)) == []
    ensures ChangeTrace(env)[0] == Start(GitLog) && ChangeTrace(env)[1] == WriteMarker(env.repo.head)
    ensures forall j :: (0 <= j < |ChangeTrace(env)| && ChangeTrace(env)[j].Start?
                         && ChangeTrace(env)[j].cmd in {Configure, Make}) ==> 1 < j
  {
    var c := Starts(CommitLaunches(env.commit));
    var b := Starts(BuildLaunches(env.configure));
    var head := [Start(GitLog), WriteMarker(env.repo.head)];
    assert ChangeTrace(env) == head + c + b;
    ProjectStarts(CommitLaunches(env.commit));
    ProjectStarts(BuildLaunches(env.configure));
    ProjectionsAppend(head + c, b);
    ProjectionsAppend(head, c);
    assert [Start(GitLog)] + [WriteMarker(env.repo.head)] == head;
    ProjectionsAppend([Start(GitLog)], [WriteMarker(env.repo.head)]);
    assert Started(head) == [GitLog];
    assert (head + c + b)[0] == Start(GitLog) && (head + c + b)[1] == WriteMarker(env.repo.head);
  }

  /** A changed run's trace is the checkpoint trace, then at most the one report. */
  lemma ChangedShape(env: Env)
    ensures var r := Changed(env);
      && r.marker == Some(env.repo.head)
      && (r.trace == ChangeTrace(env) || (ReportFor(env).Some? && r.trace == ChangeTrace(env) + [Send(ReportFor(env).value)]))
      && (r.outcome == Crash <==> (CheckBuild(env.configure, env.make).ret != 0 || env.emailOnSuccess) && ReportFor(env).None?)
      && Written(r.trace) == [env.repo.head]
      && Started(r.trace) == Started(ChangeTrace(env))
      && Sent(r.trace) == (if r.trace == ChangeTrace(env) then [] else [ReportFor(env).value])
      && Sent(r.trace) == (if (CheckBuild(env.configure, env.make).ret == 0 && !env.emailOnSuccess) || ReportFor(env).None?
                           then [] else [ReportFor(env).value])
  {
    ChangeTraceShape(env);
    if ReportFor(env).Some? {
      ProjectionsAppend(ChangeTrace(env), [Send(ReportFor(env).value)]);
    }
  }

  /** Setup errors: exit 1 with no effect at all, and only they end that way. */
  lemma SetupErrors(marker: Option<string>, env: Env)
    ensures !SetupOk(marker, env) ==> Run(marker, env) == RunResult(marker, [], Exit(1))
    ensures Run(marker, env).outcome == Exit(1) && Run(marker, env).trace == [] <==> !SetupOk(marker, env)
  {
    if SetupOk(marker, env) && !NoNewCommit(marker, env) {
      assert Run(marker, env).trace[0] == Start(GitLog);
    }
  }

  /** The four setup checks, each on its own. */
  lemma SetupErrorCases(marker: Option<string>, env: Env)
    ensures !env.configFileExists ==> Run(marker, env).outcome == Exit(1)
    ensures Run(None, env).outcome == Exit(1)
    ensures !env.sourceExists ==> Run(marker, env).outcome == Exit(1)
    ensures Run(Some(""), env).outcome == Exit(1)
  {
  }

  /** No new commit: exit 0 with no marker write, no command and no mail. */
  lemma NoChangeIsNoOp(marker: Option<string>, env: Env)
    requires SetupOk(marker, env) && NoNewCommit(marker, env)
    ensures Run(marker, env) == RunResult(marker, [], Exit(0))
  {
  }

  /** A marker holding the head followed by a newline (e.g. "abcdef1\n" against "abcdef1") is no change. */
  lemma NoChangeTrailingNewline(sha: string, env: Env)
    requires env.configFileExists && env.sourceExists && env.repo.head == sha
    requires '\n' !in sha && '\r' !in sha
    ensures Run(Some(sha + "\n"), env) == RunResult(Some(sha + "\n"), [], Exit(0))
  {
    var content := sha + "\n";
    assert '\r' !in content;
    TranslateIdentity(content);
    FirstLineOfLine(sha);
    assert ReadSha(content) == content;
    assert AllSpace("\n");
    CompareShaIgnoresTrailingSpace(sha, sha, "\n");
  }

  /**
    A new commit: the marker is overwritten exactly once, with the head,
    after git log and before any build step, whatever the commit, push and
    build outcomes.
   */
  lemma CheckpointExactlyOnce(marker: Option<string>, env: Env)
    requires SetupOk(marker, env) && !NoNewCommit(marker, env)
    ensures var r := Run(marker, env);
      && r.marker == Some(env.repo.head)
      && Written(r.trace) == [env.repo.head]
      && r.trace[0] == Start(GitLog)
      && r.trace[1] == WriteMarker(env.repo.head)
      && (forall j :: 0 <= j < |r.trace| && r.trace[j].Start? && r.trace[j].cmd in {Configure, Make} ==> 1 < j)
  {
    ChangedShape(env);
    ChangeTraceShape(env);
    var r := Changed(env);
    assert forall j :: 0 <= j < |ChangeTrace(env)| ==> r.trace[j] == ChangeTrace(env)[j];
  }

  /** A failed commit or push is only logged: nothing else about the run changes. */
  lemma CommitDoesNotBlock(marker: Option<string>, env: Env, commit: CmdOutcome, push: CmdOutcome)
    ensures var r := Run(marker, env);
      var r' := Run(marker, env.(commit := commit, push := push));
      && r'.marker == r.marker
      && r'.outcome == r.outcome
      && Sent(r'.trace) == Sent(r.trace)
  {
    var env' := env.(commit := commit, push := push);
    assert SetupOk(marker, env') == SetupOk(marker, env);
    if SetupOk(marker, env) && !NoNewCommit(marker, env) {
      assert Run(marker, env) == Changed(env) && Run(marker, env') == Changed(env');
      ChangedIgnoresCommit(env, env');
    }
  }

  /** The part of CommitDoesNotBlock after a change is found. */
  lemma ChangedIgnoresCommit(env: Env, other: Env)
    requires other == env.(commit := other.commit, push := other.push)
    ensures Changed(other).marker == Changed(env).marker
    ensures Changed(other).outcome == Changed(env).outcome
    ensures Sent(Changed(other).trace) == Sent(Changed(env).trace)
  {
    assert CheckBuild(other.configure, other.make) == CheckBuild(env.configure, env.make);
    assert ReportFor(other) == ReportFor(env);
    ChangedShape(env);
    ChangedShape(other);
  }

  /** The commit description in every report is git log's stdout, or the raw head when git log fails. */
  lemma ReportUsesTopLog(env: Env, result: string, output: string)
    requires Reported(env, result, output).Some?
    ensures var text := Reported(env, result, output).value.msg.text;
      && (Failed(env.gitLog) ==> text == Body(result, env.repo.url, env.repo.branch, env.repo.head, output))
      && (env.gitLog.Exited? && env.gitLog.code == 0 ==>
            text == Body(result, env.repo.url, env.repo.branch, env.gitLog.stdout, output))
  {
  }

  /** A successful build: mail only with -e, one SUCCESS report saying "success", exit 0. */
  lemma SuccessNotification(marker: Option<string>, env: Env)
    requires SetupOk(marker, env) && !NoNewCommit(marker, env)
    requires !Failed(env.configure) && !Failed(env.make)
    ensures var r := Run(marker, env);
      && Started(r.trace) == [GitLog] + CommitLaunches(env.commit) + [Configure, Make]
      && (!env.emailOnSuccess ==> r.outcome == Exit(0) && Sent(r.trace) == [])
      && (env.emailOnSuccess && Reported(env, "SUCCESS", "success").Some? ==>
            && r.outcome == Exit(0)
            && Sent(r.trace) == [Reported(env, "SUCCESS", "success").value])
      && (env.emailOnSuccess && Reported(env, "SUCCESS", "success").None? ==>
            r.outcome == Crash && Sent(r.trace) == [])
  {
    ChangedShape(env);
    ChangeTraceShape(env);
  }

  /** What the SUCCESS report holds. */
  lemma SuccessReportContents(env: Env)
    requires Reported(env, "SUCCESS", "success").Some?
    ensures var n := Reported(env, "SUCCESS", "success").value;
      && n.msg.subject == Subject("SUCCESS", env.date)
      && n.msg.text == Body("SUCCESS", env.repo.url, env.repo.branch, TopLog(env.gitLog, env.repo.head), "success")
  {
  }

  /** A failed build never starts make after a failed configure, and always starts it otherwise. */
  lemma FailureStepOrder(marker: Option<string>, env: Env)
    requires SetupOk(marker, env) && !NoNewCommit(marker, env)
    ensures Make in Started(Run(marker, env).trace) <==> !Failed(env.configure)
    ensures Started(Run(marker, env).trace) == [GitLog] + CommitLaunches(env.commit) + BuildLaunches(env.configure)
  {
    ChangedShape(env);
    ChangeTraceShape(env);
    assert Make !in CommitLaunches(env.commit);
  }

  /**
    A failed build: one FAIL report carrying only the failing step's
    stderr, and exit 1 (configure) or 2 (make); a crash instead when the
    configuration lacks an entry the report needs.
   */
  lemma FailureNotification(marker: Option<string>, env: Env)
    requires SetupOk(marker, env) && !NoNewCommit(marker, env)
    requires Failed(env.configure) || Failed(env.make)
    ensures var r := Run(marker, env);
      var failing := if Failed(env.configure) then env.configure else env.make;
      var code := if Failed(env.configure) then 1 else 2;
      var report := Reported(env, "FAIL", Render(Stderr(failing)));
      && (report.Some? ==>
            && r.outcome == Exit(code)
            && Sent(r.trace) == [report.value]
            && report.value.msg.text
               == Body("FAIL", env.repo.url, env.repo.branch, TopLog(env.gitLog, env.repo.head), Render(Stderr(failing))))
      && (report.None? ==> r.outcome == Crash && Sent(r.trace) == [])
  {
    var failing := if Failed(env.configure) then env.configure else env.make;
    BuildClassification(env.configure, env.make);
    assert ReportFor(env) == Reported(env, "FAIL", Render(Stderr(failing)));
    ChangedShape(env);
  }

  /** Every run ends with exit 0, 1 or 2, or with a crash while reporting after the checkpoint. */
  lemma Outcomes(marker: Option<string>, env: Env)
    ensures Run(marker, env).outcome in {Exit(0), Exit(1), Exit(2), Crash}
    ensures Run(marker, env).outcome == Crash ==>
              && SetupOk(marker, env) && !NoNewCommit(marker, env)
              && Run(marker, env).marker == Some(env.repo.head)
              && Sent(Run(marker, env).trace) == []
  {
    if Run(marker, env).outcome == Crash {
      ChangedShape(env);
    }
  }

  /** Exit code 1 does not tell a configure failure from a setup error. */
  lemma ExitOneIsAmbiguous(marker: Option<string>, env: Env)
    requires SetupOk(marker, env) && !NoNewCommit(marker, env) && Failed(env.configure)
    requires Reported(env, "FAIL", Render(Stderr(env.configure))).Some?
    ensures Run(marker, env).outcome == Run(None, env).outcome == Exit(1)
    ensures Run(marker, env).trace != []
  {
  }

  /**
    Runs are idempotent until the repository advances: once a run has
    passed the setup checks, a second run against the same head changes
    nothing and exits 0.
   */
  lemma SecondRunIsNoOp(marker: Option<string>, env: Env)
    requires SetupOk(marker, env)
    requires env.repo.head != "" && '\n' !in env.repo.head && '\r' !in env.repo.head
    ensures var m := Run(marker, env).marker;
      Run(m, env) == RunResult(m, [], Exit(0))
  {
    if !NoNewCommit(marker, env) {
      WriteThenRead(env.repo.head);
    }
  }
}
