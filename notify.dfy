/**
  The result report: filling the subject and message templates
  (report_result) and the decisions send_email takes before it hands the
  message to the mail transport (recipients, STARTTLS, the token check).
 */
module Notify {
  import opened Wrappers
  import opened Text

  /** The [email] section of the configuration file, after parsing. */
  type Section = map<string, string>

  const SubjectPrefix := "[Intel - Internal] ELL Check Build Result: "
  const Rule := "-----------------------------------------------------------------------"
  const OutputRule := "--------------"
  const Preamble := "This is automated email and please do not reply to this email!\n\nELL Build Test Report:\n\nResult: "
  const Footer := "\n\n---\nRegards,\nLinux Bluetooth\n"

  /** EMAIL_SUBJECT with its two fields filled in; the date is an opaque input. */
  function Subject(result: string, date: string): (s: string)
    ensures |s| == |SubjectPrefix| + |result| + 3 + |date|
    ensures s[..|SubjectPrefix|] == SubjectPrefix
    ensures s[|SubjectPrefix|..|SubjectPrefix| + |result|] == result
    ensures s[|SubjectPrefix| + |result|..] == " - " + date
  {
    SubjectPrefix + result + " - " + date
  }

  /** Seven pieces laid end to end, each recoverable by slicing at its offset. */
  function Lay(a: string, b: string, c: string, d: string, e: string, f: string, g: string): (s: string)
    ensures |s| == |a| + |b| + |c| + |d| + |e| + |f| + |g|
    ensures s[..|a|] == a
    ensures s[|a|..|a| + |b|] == b
    ensures s[|a| + |b|..|a| + |b| + |c|] == c
    ensures s[|a| + |b| + |c|..|a| + |b| + |c| + |d|] == d
    ensures var q := |s| - |g| - |f|;
      && s[q - |e|..q] == e
      && s[q..q + |f|] == f
      && s[q + |f|..] == g
  {
    a + b + c + d + e + f + g
  }

  const RepoLabel := "\n\nRepo: "
  const CommitLabel := "\n\nLast Commit:\n" + Rule + "\n"
  const HeadTail := "\n" + Rule + "\n\nOutput:\n" + OutputRule + "\n"

  /**
    The part of EMAIL_MESSAGE before the {output} field: the preamble and
    result, the repository URL and branch after the Repo label, and the
    commit description between the two rules.
   */
  function BodyHead(result: string, repoUrl: string, branch: string, commitLog: string): (head: string)
    ensures |head| == |Preamble| + |result| + |RepoLabel| + |repoUrl| + 1 + |branch| + |CommitLabel| + |commitLog| + |HeadTail|
    ensures head[..|Preamble|] == Preamble
    ensures head[|Preamble|..|Preamble| + |result|] == result
    ensures var p := |Preamble| + |result| + |RepoLabel|;
      && head[p - |RepoLabel|..p] == RepoLabel
      && head[p..p + |repoUrl| + 1 + |branch|] == repoUrl + ":" + branch
    ensures var q := |head| - |HeadTail| - |commitLog|;
      && head[q..q + |commitLog|] == commitLog
      && head[q + |commitLog|..] == HeadTail
  {
    Lay(Preamble, result, RepoLabel, repoUrl + ":" + branch, CommitLabel, commitLog, HeadTail)
  }

  /**
    EMAIL_MESSAGE with its five fields filled in: the output field sits
    verbatim between the fixed head and the footer.
   */
  function Body(result: string, repoUrl: string, branch: string, commitLog: string, output: string): (body: string)
    ensures var head := BodyHead(result, repoUrl, branch, commitLog);
      && |body| == |head| + |output| + |Footer|
      && body[..|head|] == head
      && body[|head|..|head| + |output|] == output
      && body[|head| + |output|..] == Footer
  {
    BodyHead(result, repoUrl, branch, commitLog) + output + Footer
  }

  /** Two reports of the same run differ exactly when their outputs differ. */
  lemma BodyDeterminesOutput(result: string, repoUrl: string, branch: string, commitLog: string, o1: string, o2: string)
    ensures Body(result, repoUrl, branch, commitLog, o1) == Body(result, repoUrl, branch, commitLog, o2) <==> o1 == o2
  {
  }

  /** str.format of a value that may be None: None is written as "None". */
  function Render(o: Option<string>): (text: string)
    ensures o.Some? ==> text == o.value
    ensures o.None? ==> text == "None"
  {
    match o
    case Some(s) => s
    case None => "None"
  }

  /** Whether send_email sends to the maintainers only. */
  predicate OnlyMaintainers(cfg: Section): (only: bool)
    ensures "only-maintainers" !in cfg ==> !only
    ensures "only-maintainers" in cfg ==> (only <==> cfg["only-maintainers"] == "yes")
  {
    "only-maintainers" in cfg && cfg["only-maintainers"] == "yes"
  }

  /**
    send_email's receivers: the maintainers value with line breaks deleted,
    split on commas, or the single default-to address. None when the key
    it needs is missing (the script then raises KeyError).
   */
  function Recipients(cfg: Section): (receivers: Option<seq<string>>)
    ensures receivers.Some? <==> if OnlyMaintainers(cfg) then "maintainers" in cfg else "default-to" in cfg
    ensures receivers.Some? ==> |receivers.value| >= 1
    ensures receivers.Some? && OnlyMaintainers(cfg) ==> forall i :: 0 <= i < |receivers.value| ==> ',' !in receivers.value[i]
  {
    if OnlyMaintainers(cfg) then
      if "maintainers" in cfg then Some(Split(DeleteLineBreaks(cfg["maintainers"]), ',')) else None
    else
      if "default-to" in cfg then Some([cfg["default-to"]]) else None
  }

  /** Maintainer mode: the addresses, comma-joined, are the maintainers value without line breaks. */
  lemma MaintainerRecipients(cfg: Section)
    requires OnlyMaintainers(cfg) && "maintainers" in cfg
    ensures Recipients(cfg).Some?
    ensures var rs := Recipients(cfg).value;
      && |rs| >= 1
      && Join(rs, ',') == DeleteLineBreaks(cfg["maintainers"])
      && forall i :: 0 <= i < |rs| ==> ',' !in rs[i]
  {
    JoinSplit(DeleteLineBreaks(cfg["maintainers"]), ',');
  }

  /** Any other value of only-maintainers, or none, sends to default-to alone. */
  lemma DefaultRecipient(cfg: Section)
    requires !OnlyMaintainers(cfg)
    ensures "default-to" in cfg <==> Recipients(cfg).Some?
    ensures "default-to" in cfg ==> Recipients(cfg).value == [cfg["default-to"]]
  {
  }

  /** Maintainer mode with the given maintainers value. */
  function MaintainersOnly(maintainers: string): Section {
    map["only-maintainers" := "yes", "maintainers" := maintainers]
  }

  predicate PlainAddress(a: string) {
    forall i :: 0 <= i < |a| ==> a[i] != ',' && !IsLineBreak(a[i])
  }

  lemma JoinTwo(a: string, b: string)
    ensures Join([a, b], ',') == a + [','] + b
  {
  }

  /** A line break after a comma is dropped: "a,\nb" names the two addresses a and b. */
  lemma MaintainerLineBreakAfterComma(a: string, b: string)
    requires PlainAddress(a) && PlainAddress(b)
    ensures Recipients(MaintainersOnly(a + ",\n" + b)) == Some([a, b])
  {
    var cfg := MaintainersOnly(a + ",\n" + b);
    assert OnlyMaintainers(cfg);
    DeleteLineBreaksAppend(a + ",\n", b);
    DeleteLineBreaksAppend(a, ",\n");
    DeleteLineBreaksIdentity(a);
    DeleteLineBreaksIdentity(b);
    assert DeleteLineBreaks(",\n") == ",";
    JoinTwo(a, b);
    SplitJoin([a, b], ',');
  }

  /** Addresses are split on commas only: a bare line break between a and b merges them into one. */
  lemma MaintainerLineBreakMerges(a: string, b: string)
    requires PlainAddress(a) && PlainAddress(b)
    ensures Recipients(MaintainersOnly(a + "\n" + b)) == Some([a + b])
  {
    var s := a + ['\n'] + b;
    assert s == a + "\n" + b;
    assert OnlyMaintainers(MaintainersOnly(s));
    DeleteLineBreaksAppend(a + ['\n'], b);
    DeleteLineBreaksAppend(a, ['\n']);
    DeleteLineBreaksIdentity(a);
    DeleteLineBreaksIdentity(b);
    assert DeleteLineBreaks(['\n']) == [];
    assert a + [] == a;
    assert PlainAddress(a + b) by {
      assert forall i :: 0 <= i < |a + b| ==> (a + b)[i] == if i < |a| then a[i] else b[i - |a|];
    }
    SplitJoin([a + b], ',');
  }

  /** Blanks after a comma are kept: "a, b" gives a and " b". */
  lemma MaintainerSpacesKept(a: string, b: string)
    requires PlainAddress(a) && PlainAddress(b)
    ensures Recipients(MaintainersOnly(a + ", " + b)) == Some([a, " " + b])
  {
    var s := a + [','] + (" " + b);
    assert s == a + ", " + b;
    assert PlainAddress(" " + b) by {
      assert forall i :: 1 <= i < |" " + b| ==> (" " + b)[i] == b[i - 1];
    }
    assert forall i :: 0 <= i < |s| ==> !IsLineBreak(s[i]) by {
      assert forall i :: 0 <= i < |s| ==> s[i] == if i < |a| then a[i] else if i == |a| then ',' else (" " + b)[i - |a| - 1];
    }
    DeleteLineBreaksIdentity(s);
    JoinTwo(a, " " + b);
    SplitJoin([a, " " + b], ',');
  }

  /** STARTTLS is used unless starttls is present with a value other than "yes". */
  predicate UseStartTls(cfg: Section): (startTls: bool)
    ensures !startTls <==> "starttls" in cfg && cfg["starttls"] != "yes"
  {
    "starttls" !in cfg || cfg["starttls"] == "yes"
  }

  lemma StartTlsDecision(cfg: Section, v: string)
    ensures UseStartTls(map[])
    ensures UseStartTls(cfg["starttls" := v]) <==> v == "yes"
  {
  }

  /** The composed message: sender (user), recipient list, To header, subject and text. */
  datatype Message = Message(sender: string, receivers: seq<string>, toHeader: string, subject: string, text: string)

  /**
    What send_email does with the message: nothing more when EMAIL_TOKEN is
    not set (it returns -1 before connecting), otherwise it opens an SMTP
    session, with or without STARTTLS.
   */
  datatype Delivery = NoToken | Connect(startTls: bool)

  datatype Notification = Notification(msg: Message, delivery: Delivery)

  /** send_email up to the transport; None when a key it reads is missing. */
  function Mail(cfg: Section, subject: string, text: string, tokenPresent: bool): (n: Option<Notification>)
    ensures n.Some? <==> Recipients(cfg).Some? && "user" in cfg
    ensures n.Some? ==>
              && n.value.msg.receivers == Recipients(cfg).value
              && n.value.msg.sender == cfg["user"]
              && n.value.msg.toHeader == Join(n.value.msg.receivers, ',')
              && n.value.msg.subject == subject && n.value.msg.text == text
              && (n.value.delivery == NoToken <==> !tokenPresent)
              && (tokenPresent ==> n.value.delivery == Connect(UseStartTls(cfg)))
  {
    match Recipients(cfg)
    case None => None
    case Some(receivers) =>
      if "user" !in cfg then None
      else
        var msg := Message(cfg["user"], receivers, Join(receivers, ','), subject, text);
        Some(Notification(msg, if tokenPresent then Connect(UseStartTls(cfg)) else NoToken))
  }

  /** report_result: fill both templates and hand them to send_email. */
  function Report(cfg: Section, result: string, repoUrl: string, branch: string, commitLog: string,
                  output: string, date: string, tokenPresent: bool): (n: Option<Notification>)
    ensures n.Some? <==> Recipients(cfg).Some? && "user" in cfg
    ensures n.Some? ==>
              && n.value.msg.subject == Subject(result, date)
              && n.value.msg.text == Body(result, repoUrl, branch, commitLog, output)
              && n.value.msg.sender == cfg["user"]
              && n.value.msg.receivers == Recipients(cfg).value
  {
    Mail(cfg, Subject(result, date), Body(result, repoUrl, branch, commitLog, output), tokenPresent)
  }
}
