# ell-checker, modelled in Dafny

`ell-checker.py` is a build checker for the ELL library, started periodically by an outside
scheduler. One run goes like this:

1. It checks its setup: the configuration file, the head-SHA marker file and the source
   directory must exist, and the marker's first line must not be empty.
2. It compares the marker with the head commit of the source repository. If they match, it
   stops with nothing done.
3. Otherwise it reads the top commit log and overwrites the marker with the new head. It then
   commits and pushes the marker file.
4. It runs `./bootstrap-configure` and then `make`.
5. It mails a SUCCESS report (only with `--email-on-success`) or a FAIL report, and exits with
   0, 1 or 2.

The model keeps each decision the script takes and replaces each outside system with an
answer given as input:

- whether each path exists;
- the configuration as parsed sections;
- the repository URL, branch and head;
- each command's exit code and output;
- the `--email-on-success` flag;
- whether `EMAIL_TOKEN` is set;
- the date.

Modules:

- `Text` (text.dfy): the Python string operations the script relies on. These are
  `rstrip()` with Python's whitespace set, universal-newline translation with `readline()`,
  line iteration over a stream, `"".join(s.splitlines())`, and `str.split`/`str.join` on a
  comma.
- `Marker` (marker.dfy): reading, writing and comparing the head-SHA marker.
- `Build` (build.dfy): the triple `run_cmd` returns and its output-capture loop; how
  `run_checkbuild` classifies the two steps; `commit_file`; and the choice of commit
  description.
- `Notify` (notify.dfy): the subject and message templates of `report_result`, and the
  recipient, STARTTLS and token checks of `send_email`.
- `Orchestrator` (orchestrator.dfy): `main` as a pure function `Run`. Its inputs are the marker
  file and the answers above. Its result is the marker afterwards, the ordered trace of effects
  (marker writes, command starts, composed messages) and the outcome (an exit code, or a crash
  on a missing configuration entry). The lemmas state each branch of `main`.
- `Checker` (checker.dfy): the script as it runs. A class holds the marker file and the effect
  log, and each helper of the script is a method that appends its effects. `Checker.RunOnce` is
  proved to end in the state and outcome `Run` gives.

Where the code behaves otherwise than one would expect, the model follows the code:

- The marker is written in place, not by an atomic replace.
- Only the existence of the configuration file is checked. `not config` is never true for a
  `ConfigParser`, so an empty or unreadable configuration is not a setup error. The run then
  crashes with `KeyError` when it reaches the report, after the marker has been rewritten.
- The write-then-read round trip holds for identifiers without line breaks
  (`Marker.WriteThenRead`). It does not hold for every non-empty value, because only the
  first line is read back (`Marker.ReadShaStopsAtNewline`).
- The marker check rejects only an empty file. A marker holding just `"\n"` passes
  (`Marker.BlankLineMarkerIsNotEmpty`).
- Exit code 1 stands both for a setup error and for a configure failure
  (`Orchestrator.ExitOneIsAmbiguous`). A crash (an uncaught `KeyError` while reporting) also
  ends the Python process with status 1, which is a third meaning of that code; the model
  keeps the crash as its own outcome `Crash`.
- A configure or make step that cannot be started reports the output text `None`, because
  `run_cmd` returns no stderr in that case (`Build.LaunchFailureIsFailure`, `Notify.Render`).

## Model

| member | source | states |
|---|---|---|
| `Text.IsSpace` | ell-checker.py:154-157 | `str.isspace()`, what `rstrip()` removes: blank, tab, `\n` and `\r` are whitespace; ASCII letters and digits, all the characters of a commit identifier, never are |
| `Text.RStrip` | ell-checker.py:154-157 | `rstrip()` gives a prefix of its argument that is empty or ends in a non-whitespace character; everything cut off is whitespace |
| `Text.RStripUnique` | ell-checker.py:154-157 | those three properties determine the stripped string uniquely |
| `Text.RStripAppendSpaces` | ell-checker.py:154-157 | appending whitespace never changes what `rstrip()` keeps |
| `Text.RStripIdempotent` | ell-checker.py:154-157 | stripping twice is stripping once |
| `Text.Translate` | ell-checker.py:144-148 | text-mode reading leaves no `\r`, and gives empty text exactly for an empty file |
| `Text.TranslateIdentity` | ell-checker.py:144-148 | content without `\r` is read unchanged |
| `Text.TranslateSteps` | ell-checker.py:144-148 | `"\r\n"` and a lone `\r` each become one `\n`; every other character is kept, in order |
| `Text.FirstLine` | ell-checker.py:144-148 | `readline()` returns a prefix of the text, non-empty for non-empty text, without `\n` before its last character, and ending in `\n` unless it is the whole text |
| `Text.FirstLineWhole` | ell-checker.py:144-148 | text without `\n` is read whole |
| `Text.FirstLineOfLine` | ell-checker.py:144-148 | a single line ending in `\n` is read whole, newline included |
| `Text.ReadLine` | ell-checker.py:147 | `readline()` on a text-mode file returns a prefix of the translated content with no `\r` and no `\n` before its last character; it ends in `\n` unless it is the whole content; it is empty exactly for an empty file |
| `Text.Lines` | ell-checker.py:133-135 | iterating a stream gives no lines exactly for an empty stream; every line is non-empty, and every line but the last ends in `\n` |
| `Text.ConcatLines` | ell-checker.py:133-135 | the lines a stream is iterated in, put back together, are the stream |
| `Text.LineBreakCharacters` | ell-checker.py:53 | the boundaries `splitlines()` uses: `\n` and `\r` are among them; each is whitespace, and neither the blank nor the comma is one |
| `Text.DeleteLineBreaks` | ell-checker.py:53 | `"".join(s.splitlines())` leaves no line-boundary character and never lengthens the text |
| `Text.DeleteLineBreaksAppend` | ell-checker.py:53 | deleting line breaks works piecewise over concatenation |
| `Text.DeleteLineBreaksIdentity` | ell-checker.py:53 | text without line breaks is unchanged |
| `Text.DeleteLineBreaksDrops` | ell-checker.py:53 | each line-boundary character on its own is deleted; with the two rows above this fixes the deletion on every input |
| `Text.Split` | ell-checker.py:53 | `split(",")` always yields at least one piece, and no piece contains the separator |
| `Text.Join` | ell-checker.py:61 | `",".join` of one piece is that piece; with more pieces the first piece is followed by the separator |
| `Text.JoinSplit` | ell-checker.py:53 | joining the pieces of a split with the separator gives the original string |
| `Text.SplitJoin` | ell-checker.py:53 | splitting a join of separator-free pieces gives the pieces back |
| `Marker.ReadSha` | ell-checker.py:144-148 | the marker read is a prefix of the translated file, and it is empty exactly when the file is empty |
| `Marker.WriteSha` | ell-checker.py:150-152 | the file holds exactly the new value, with nothing appended; a line-break-free value reads back whole |
| `Marker.CompareSha` | ell-checker.py:154-157 | equal strings match, and two all-whitespace strings match |
| `Marker.CompareShaSymmetric` | ell-checker.py:154-157 | `compare_sha(a, b)` holds exactly when `compare_sha(b, a)` does |
| `Marker.CompareShaTransitive` | ell-checker.py:154-157 | `compare_sha` is transitive |
| `Marker.CompareShaIgnoresTrailingSpace` | ell-checker.py:154-157 | trailing whitespace on an argument never changes the verdict |
| `Marker.CompareShaNewlineExample` | ell-checker.py:154-157 | `"abcdef1\n"` matches `"abcdef1"` in both orders |
| `Marker.CompareShaExact` | ell-checker.py:154-157 | for strings not ending in whitespace, `compare_sha` is plain equality |
| `Marker.WriteThenRead` | ell-checker.py:144-152 | writing a line-break-free identifier and reading the marker back gives the identifier |
| `Marker.ReadShaStopsAtNewline` | ell-checker.py:144-152 | for the value `"abc\ndef"` only the first line `"abc\n"` is read back, and it does not match the value (a value whose text after the first line break is all whitespace would still match) |
| `Marker.BlankLineMarkerIsNotEmpty` | ell-checker.py:144-148 | a marker holding `"\n"` or `"\r\n"` reads as `"\n"`, which is not empty |
| `Build.ReturnCode` | ell-checker.py:129-142 | the first element of `run_cmd`'s triple: `-1` when the command cannot start, its exit code otherwise |
| `Build.Stdout` | ell-checker.py:129-142 | the second element: `None` exactly when the command cannot start, the whole stdout otherwise |
| `Build.Stderr` | ell-checker.py:129-142 | the third element: `None` exactly when the command cannot start, the stderr otherwise |
| `Build.Failed` | ell-checker.py:179 | the `if ret:` tests at lines 179, 186, 200, 207 and 291: a command that cannot start has failed, one that exited has failed iff its code is nonzero |
| `Build.CaptureOutput` | ell-checker.py:125-142 | the stdout accumulated line by line is exactly the whole stream |
| `Build.CheckBuild` | ell-checker.py:176-192 | the code is 0, 1 or 2; it is 0 iff both steps succeed; a nonzero code carries the stderr of the first failing step |
| `Build.BuildLaunches` | ell-checker.py:176-192 | configure is started first, and make is started iff configure succeeded |
| `Build.ConfigureFailure` | ell-checker.py:176-183 | a configure step that exits nonzero or cannot start gives `(1, configure stderr)`; make is never started and its result is irrelevant |
| `Build.MakeFailure` | ell-checker.py:185-190 | configure at zero and make nonzero gives `(2, make stderr)`, after starting both |
| `Build.BuildClassification` | ell-checker.py:176-192 | code 0 iff both steps succeed, 1 iff configure fails, 2 iff only make fails; success carries no output, a failure carries its own step's stderr; make starts iff configure succeeded |
| `Build.LaunchFailureIsFailure` | ell-checker.py:126-131 | a configure or make step that cannot start counts as a failure of that step, with no stderr |
| `Build.CommitLaunches` | ell-checker.py:194-212 | `git commit` is started first; push is started iff the commit succeeded; no build step is among them |
| `Build.CommitOk` | ell-checker.py:194-212 | `commit_file` is true iff both commands return 0, and then push was started |
| `Build.CommitFileDecision` | ell-checker.py:194-212 | push is started iff the commit succeeded; `commit_file` is true iff both commands succeeded |
| `Build.TopLog` | ell-checker.py:288-294 | the commit description is the raw head when `git log` fails or cannot start, and its stdout otherwise |
| `Notify.Subject` | ell-checker.py:26 | the subject is the fixed prefix, then the result label, then ` - `, then the date |
| `Notify.BodyHead` | ell-checker.py:27-41 | the message starts with the fixed preamble and the result label; `url:branch` follows the `Repo:` label; the commit description sits right before the fixed text that closes the commit rule and opens the output |
| `Notify.Body` | ell-checker.py:27-47 | the message is the fixed head, then the output verbatim, then the fixed footer |
| `Notify.BodyDeterminesOutput` | ell-checker.py:88-97 | two messages of the same run are equal iff their outputs are |
| `Notify.Render` | ell-checker.py:90-94 | a present value is formatted as itself and `None` as the text `None` |
| `Notify.OnlyMaintainers` | ell-checker.py:51 | maintainer mode is off without the `only-maintainers` key, and with it on iff its value is exactly `yes` |
| `Notify.Recipients` | ell-checker.py:50-57 | receivers exist iff the key the mode needs (maintainers or default-to) is present; there is at least one; in maintainer mode none contains a comma |
| `Notify.MaintainerRecipients` | ell-checker.py:50-54 | in maintainer mode the recipients, comma-joined, are the maintainers value with line breaks deleted; no recipient contains a comma |
| `Notify.DefaultRecipient` | ell-checker.py:55-57 | otherwise the recipients are exactly `[default-to]`; a missing default-to gives no message |
| `Notify.MaintainerLineBreakAfterComma` | ell-checker.py:53 | `"a,\nb"` gives the two addresses `a`, `b` |
| `Notify.MaintainerLineBreakMerges` | ell-checker.py:53 | `"a\nb"` gives the single address `ab`, because only commas split |
| `Notify.MaintainerSpacesKept` | ell-checker.py:53 | `"a, b"` gives `a` and `" b"`, because blanks are not stripped |
| `Notify.UseStartTls` | ell-checker.py:73 | STARTTLS is skipped exactly when `starttls` is present with a value other than `yes` |
| `Notify.StartTlsDecision` | ell-checker.py:73 | STARTTLS is used when the key is absent, and otherwise iff its value is exactly `yes` |
| `Notify.Mail` | ell-checker.py:49-77 | a message exists iff the recipients and `user` can be read; it is from `user`, goes to the resolved recipients, has their comma-join as To header and the given subject and text; it ends before any connection iff `EMAIL_TOKEN` is missing, and otherwise connects with the STARTTLS choice of `UseStartTls` |
| `Notify.Report` | ell-checker.py:88-97 | a report exists iff `send_email` can compose one; it carries the filled subject and message, from `user` to the resolved recipients |
| `Orchestrator.SetupOk` | ell-checker.py:259-277 | setup passes only with a marker whose first line is not empty; a missing configuration file, missing marker, missing source directory or empty marker fails it |
| `Orchestrator.NoNewCommit` | ell-checker.py:284 | a head equal to the marker's first line is no new commit, and no new commit means both agree up to trailing whitespace |
| `Orchestrator.ChangeTrace` | ell-checker.py:288-311 | a changed run's effects before the report: at least four, starting with `git log`, the marker write of the head and `git commit` |
| `Orchestrator.Reported` | ell-checker.py:313-324 | a report exists iff the `email` section exists and holds the keys `send_email` needs; it carries the subject for the result and the message filled with the commit description and the output |
| `Orchestrator.ReportFor` | ell-checker.py:313-326 | a report carries the SUCCESS subject after a successful build and the FAIL subject otherwise; a FAIL report's output is the failing step's stderr |
| `Orchestrator.Changed` | ell-checker.py:288-326 | after a change the marker is the head; the trace extends the checkpoint trace by at most one effect; the run crashes iff a report was due (failure, or success with `-e`) and could not be composed, and otherwise exits with the build code |
| `Orchestrator.Run` | ell-checker.py:246-326 | every run exits 0, 1 or 2 or crashes; the marker is unchanged or the head; the trace is empty iff setup failed or no new commit was found, and otherwise starts with `git log` |
| `Orchestrator.ChangeTraceShape` | ell-checker.py:288-311 | a changed run first starts `git log`, then writes the head (its only marker write), then runs the commit steps and the build steps; no build step precedes the write |
| `Orchestrator.ChangedShape` | ell-checker.py:288-326 | after a change, the trace is the checkpoint trace plus at most the one report; the run crashes iff a report was due (failure, or success with `-e`) and could not be composed |
| `Orchestrator.SetupErrors` | ell-checker.py:259-277 | a setup error exits 1 with no marker write, command or mail; exit 1 with an empty trace happens only then |
| `Orchestrator.SetupErrorCases` | ell-checker.py:259-277 | a missing configuration file, missing marker, missing source directory or empty marker each exit 1 |
| `Orchestrator.NoChangeIsNoOp` | ell-checker.py:283-286 | a head matching the marker exits 0 with no marker write, no command and no mail |
| `Orchestrator.NoChangeTrailingNewline` | ell-checker.py:274-286 | a marker holding the head followed by a newline is such a no-change run |
| `Orchestrator.CheckpointExactlyOnce` | ell-checker.py:288-303 | on a new commit the marker ends as the head and is written exactly once, after `git log` and before any build step, whatever the commit, push and build results |
| `Orchestrator.CommitDoesNotBlock` | ell-checker.py:301-303 | the results of the commit and push leave the marker, the mail and the outcome unchanged |
| `Orchestrator.ReportUsesTopLog` | ell-checker.py:288-294 | every report carries `git log`'s stdout, or the raw head when `git log` failed |
| `Orchestrator.SuccessNotification` | ell-checker.py:313-318 | a successful build starts configure then make; without the flag it exits 0 and mails nothing; with it, it mails exactly one SUCCESS report and exits 0, or crashes with no mail when the report cannot be composed |
| `Orchestrator.SuccessReportContents` | ell-checker.py:315-317 | the SUCCESS report has the SUCCESS subject and the output text `success` |
| `Orchestrator.FailureStepOrder` | ell-checker.py:176-192 | in a run that found a change, make is started iff configure succeeded; the commands started are git log, the commit steps, then the build steps |
| `Orchestrator.FailureNotification` | ell-checker.py:320-326 | a failed build sends exactly one FAIL report carrying only the failing step's stderr and exits 1 (configure) or 2 (make); it crashes instead, with no mail, when the report cannot be composed |
| `Orchestrator.Outcomes` | ell-checker.py:246-326 | every run exits 0, 1 or 2, or crashes; a crash happens only after the marker was rewritten and with no mail sent |
| `Orchestrator.ExitOneIsAmbiguous` | ell-checker.py:259-277 | a configure failure and a missing marker both exit 1 |
| `Orchestrator.SecondRunIsNoOp` | ell-checker.py:274-303 | after a run that passed setup, a second run against the same head exits 0 with no effect |
| `Checker.Checker.RunCmd` | ell-checker.py:117-142 | records the start and returns the command's code, stdout and stderr, or `(-1, None, None)` when it cannot start |
| `Checker.Checker.WriteShaToFile` | ell-checker.py:150-152 | the marker file becomes exactly the new value, recorded as one write |
| `Checker.Checker.CommitFile` | ell-checker.py:194-212 | starts commit, then push only after a successful commit, and returns `CommitOk` |
| `Checker.Checker.RunCheckBuild` | ell-checker.py:176-192 | starts the build steps `BuildLaunches` gives and returns `CheckBuild`'s classification |
| `Checker.Checker.SendEmail` | ell-checker.py:49-77 | records exactly the message and delivery decision `Mail` gives, or nothing when a key is missing |
| `Checker.Checker.ReportResult` | ell-checker.py:88-97 | fills both templates and sends them |
| `Checker.Checker.Checkpoint` | ell-checker.py:288-311 | git log, the marker write, commit and build, ending in `ChangeTrace` with the classification and the commit description |
| `Checker.Checker.NewCommit` | ell-checker.py:288-326 | ends with the marker, trace and outcome `Changed` gives |
| `Checker.Checker.ReportBuild` | ell-checker.py:313-326 | a report is due after a failed build or a successful one with `-e`; it records the report `ReportFor` gives and exits with the build code, crashes when the report cannot be composed, and exits 0 with nothing recorded when no report is due |
| `Checker.Checker.RunOnce` | ell-checker.py:246-326 | ends with the marker file, appended effects and outcome that `Orchestrator.Run` gives |

## Left out

- Process execution in `run_cmd` (Popen, pipes, `communicate`): each command is an abstract
  outcome. The outcome is an exit code with its stdout and stderr, or a failure to start.
  stdout is given as text already decoded and newline-translated.
- Exceptions raised inside `run_cmd` other than the `OSError` of Popen, and the re-raise at
  lines 306-310. The model has no outcome for them; such a run would abort with no mail.
- GitPython in `get_repo_info`. The URL, branch and head arrive as inputs, and the library's
  failure paths are not modelled.
- Option parsing, logging setup, `os.path.abspath` and the date format. The paths are reduced
  to existence flags, and the date is an opaque string.
- configparser parsing. The configuration arrives as a map of sections. Fallback to the
  `DEFAULT` section is not modelled. A malformed configuration file makes `config.read` raise
  at line 107, before any setup check; that crash is outside the model, so
  `Orchestrator.Outcomes` (a crash only after the marker was rewritten) does not cover it.
- An unreadable marker file: `open` raising at line 146, or `readline()` raising
  `UnicodeDecodeError` at line 147 on content that is not valid text. Only a missing file and
  an empty file are modelled, and the content is given as text already decoded.
- Checker.Checker.WriteShaToFile: a failing write at lines 151-152 (read-only marker, full
  disk) is not modelled. The script would then crash after `git log`, before the commit, the
  build and the mail, possibly leaving the marker truncated; the model's write always succeeds.
- The process exit status of a crash: Python ends with status 1 on an uncaught exception.
  The model keeps `Crash` distinct from `Exit(1)` instead of folding it into that code.
- The SMTP session: `int(config['port'])`, connecting, logging in, sending, and the
  `finally: session.quit()` that raises on an unbound `session` when the connection fails.
  Once a token is present the model records the connection attempt with its STARTTLS choice,
  and stops there.
- MIME construction. A message is modelled by its sender, recipient list, To header, subject
  and text.
- Filesystem atomicity and concurrent runs: the script does neither a replace nor locking.
