/** The mail integration (`Mail`): settings from the INI file, the report
    summary turned into the figures of the e-mail, the template data, the
    subject, and the `send` flow that ties template, mailer and SMTP server
    together. Timestamps are rendered by a caller-supplied function. */
module MailManager {
  import opened Common
  import opened Strings
  import opened Values
  import opened Reports
  import opened IniConfig
  import opened EmailTemplates
  import opened Mailers

  const MAIL_SECTION: string := "mail"
  const SUITE_SECTION: string := "suite_info"
  const HTML_REPORT: string := "reports/report.html"

  // ---------------------------------------------------------------------------
  // Settings

  datatype MailSettings = MailSettings(
    smtpServer: string,
    port: int,
    username: string,
    password: string,
    useTls: bool,
    sender: string,
    recipients: string,
    yourName: string,
    yourPosition: string,
    suiteName: string,
    buildVersion: string,
    branch: string,
    triggeredBy: string)

  /** `Mail.__init__`: the `[mail]` options, read in the order the code reads
      them (the first missing one is the error), with the defaults for port,
      use-tls and recipients, and the `[suite_info]` options with theirs. */
  function ReadMailSettings(cfg: ConfigFile): (r: Result<MailSettings>)
    ensures r.Ok? <==>
      && MAIL_SECTION in cfg
      && "smtp_server" in cfg[MAIL_SECTION] && "username" in cfg[MAIL_SECTION]
      && "password" in cfg[MAIL_SECTION] && "sender" in cfg[MAIL_SECTION]
      && "your_name" in cfg[MAIL_SECTION] && "your_position" in cfg[MAIL_SECTION]
      && ConfigGetInt(cfg, MAIL_SECTION, "port", DEFAULT_SMTP_PORT).Ok?
      && ConfigGetBool(cfg, MAIL_SECTION, "use-tls", true).Ok?
    ensures MAIL_SECTION !in cfg ==> r == Err(NoSection(MAIL_SECTION))
    ensures MAIL_SECTION in cfg ==>
      var opts, port, tls :=
        cfg[MAIL_SECTION], ConfigGetInt(cfg, MAIL_SECTION, "port", DEFAULT_SMTP_PORT),
        ConfigGetBool(cfg, MAIL_SECTION, "use-tls", true);
      && ("smtp_server" !in opts ==> r == Err(NoOption(MAIL_SECTION, "smtp_server")))
      && ("smtp_server" in opts && port.Err? ==> r == Err(port.error))
      && ("smtp_server" in opts && port.Ok? && "username" !in opts ==> r == Err(NoOption(MAIL_SECTION, "username")))
      && ("smtp_server" in opts && port.Ok? && "username" in opts && "password" !in opts ==>
            r == Err(NoOption(MAIL_SECTION, "password")))
      && ("smtp_server" in opts && port.Ok? && "username" in opts && "password" in opts && tls.Err? ==>
            r == Err(tls.error))
      && ((&& "smtp_server" in opts && port.Ok? && "username" in opts && "password" in opts && tls.Ok?
           && "sender" !in opts) ==> r == Err(NoOption(MAIL_SECTION, "sender")))
      && ((&& "smtp_server" in opts && port.Ok? && "username" in opts && "password" in opts && tls.Ok?
           && "sender" in opts && "your_name" !in opts) ==> r == Err(NoOption(MAIL_SECTION, "your_name")))
      && ((&& "smtp_server" in opts && port.Ok? && "username" in opts && "password" in opts && tls.Ok?
           && "sender" in opts && "your_name" in opts && "your_position" !in opts) ==>
            r == Err(NoOption(MAIL_SECTION, "your_position")))
    ensures r.Ok? ==>
      && ConfigGet(cfg, MAIL_SECTION, "smtp_server") == Ok(r.value.smtpServer)
      && ConfigGetInt(cfg, MAIL_SECTION, "port", DEFAULT_SMTP_PORT) == Ok(r.value.port)
      && ConfigGet(cfg, MAIL_SECTION, "username") == Ok(r.value.username)
      && ConfigGet(cfg, MAIL_SECTION, "password") == Ok(r.value.password)
      && ConfigGetBool(cfg, MAIL_SECTION, "use-tls", true) == Ok(r.value.useTls)
      && ConfigGet(cfg, MAIL_SECTION, "sender") == Ok(r.value.sender)
      && r.value.recipients == ConfigGetOr(cfg, MAIL_SECTION, "recipients", "")
      && ConfigGet(cfg, MAIL_SECTION, "your_name") == Ok(r.value.yourName)
      && ConfigGet(cfg, MAIL_SECTION, "your_position") == Ok(r.value.yourPosition)
    ensures r.Ok? ==>
      && r.value.suiteName == ConfigGetOr(cfg, SUITE_SECTION, "suite_name", "Automation Suite")
      && r.value.buildVersion == ConfigGetOr(cfg, SUITE_SECTION, "build_version", "N/A")
      && r.value.branch == ConfigGetOr(cfg, SUITE_SECTION, "branch", "N/A")
      && r.value.triggeredBy == ConfigGetOr(cfg, SUITE_SECTION, "triggered_by", "Automation")
  {
    var server :- ConfigGet(cfg, MAIL_SECTION, "smtp_server");
    var port :- ConfigGetInt(cfg, MAIL_SECTION, "port", DEFAULT_SMTP_PORT);
    var username :- ConfigGet(cfg, MAIL_SECTION, "username");
    var password :- ConfigGet(cfg, MAIL_SECTION, "password");
    var useTls :- ConfigGetBool(cfg, MAIL_SECTION, "use-tls", true);
    var sender :- ConfigGet(cfg, MAIL_SECTION, "sender");
    var recipients := ConfigGetOr(cfg, MAIL_SECTION, "recipients", "");
    var yourName :- ConfigGet(cfg, MAIL_SECTION, "your_name");
    var yourPosition :- ConfigGet(cfg, MAIL_SECTION, "your_position");
    Ok(MailSettings(server, port, username, password, useTls, sender, recipients, yourName, yourPosition,
                    ConfigGetOr(cfg, SUITE_SECTION, "suite_name", "Automation Suite"),
                    ConfigGetOr(cfg, SUITE_SECTION, "build_version", "N/A"),
                    ConfigGetOr(cfg, SUITE_SECTION, "branch", "N/A"),
                    ConfigGetOr(cfg, SUITE_SECTION, "triggered_by", "Automation")))
  }

  /** `self.smtp_config`: the dict handed to `Mailer(config=...)`. */
  function SmtpConfig(st: MailSettings): Dict {
    DictOf(SmtpPairs(st))
  }

  function SmtpPairs(st: MailSettings): seq<(string, Value)> {
    [("smtp_server", Str(st.smtpServer)), ("port", Int(st.port)), ("username", Str(st.username)),
     ("password", Str(st.password)), ("use_tls", Bool(st.useTls)), ("sender", Str(st.sender))]
  }

  /** The mailer built from that dict uses exactly the configured values, and
      refuses it iff server, username, password or sender is empty. */
  lemma SmtpConfigAsMailer(st: MailSettings, args: MailerArgs)
    ensures Effective(args, Some(SmtpConfig(st))) ==
      MailerArgs(Str(st.smtpServer), Int(st.port), Str(st.username), Str(st.password), Bool(st.useTls), Str(st.sender))
    ensures SettingsCheck(Effective(args, Some(SmtpConfig(st)))).Ok? <==>
      st.smtpServer != "" && st.username != "" && st.password != "" && st.sender != ""
  {
    var pairs := SmtpPairs(st);
    DictOfValue(pairs, 0);
    DictOfValue(pairs, 1);
    DictOfValue(pairs, 2);
    DictOfValue(pairs, 3);
    DictOfValue(pairs, 4);
    DictOfValue(pairs, 5);
  }

  // ---------------------------------------------------------------------------
  // The summary

  /** The figures `_parse_summary` returns. */
  datatype MailStats = MailStats(total: int, passed: int, failed: int, skipped: int, duration: string, date: string)

  /** `f"{mins}m {secs}s"` or `f"{secs}s"` after `divmod(seconds, 60)`
      (for the divisor 60, floor division as in Python). */
  function DurationText(seconds: int): (t: string)
    ensures |t| >= 2 && t[|t| - 1] == 's'
  {
    var mins, secs := seconds / 60, seconds % 60;
    if mins != 0 then IntToString(mins) + "m " + IntToString(secs) + "s" else IntToString(secs) + "s"
  }

  /** The duration text reads back as the duration: without its final `s`
      it is either the seconds alone, for durations in [0, 60), or minutes
      and seconds around `"m "` with non-zero minutes, seconds in [0, 60)
      and `60 * minutes + seconds` the duration, negative durations included. */
  lemma DurationReadsBack(seconds: int)
    ensures var t := DurationText(seconds);
      var parts := Split(t[..|t| - 1], "m ");
      && t[|t| - 1] == 's'
      && (|parts| == 1 || |parts| == 2)
      && (|parts| == 1 ==> ParseInt(parts[0]) == Some(seconds) && 0 <= seconds < 60)
      && (|parts| == 2 ==>
            (&& ParseInt(parts[0]).Some? && ParseInt(parts[1]).Some?
             && var q, r := ParseInt(parts[0]).value, ParseInt(parts[1]).value;
             q != 0 && 0 <= r < 60 && seconds == 60 * q + r))
  {
    var t := DurationText(seconds);
    var q, r := seconds / 60, seconds % 60;
    assert seconds == 60 * q + r && 0 <= r < 60;
    var secs := IntToString(r);
    ParseIntToString(r);
    if q != 0 {
      var mins := IntToString(q);
      ParseIntToString(q);
      assert t == mins + "m " + secs + "s";
      assert t[..|t| - 1] == mins + "m " + secs;
      MinutesSplit(q, r);
    } else {
      assert t == secs + "s";
      assert t[..|t| - 1] == secs;
      SecondsSplit(r);
    }
  }

  /** Minutes and seconds around `"m "` split back into the two numbers' texts. */
  lemma MinutesSplit(q: int, r: int)
    ensures Split(IntToString(q) + "m " + IntToString(r), "m ") == [IntToString(q), IntToString(r)]
  {
    var mins, secs := IntToString(q), IntToString(r);
    IntTextFree(q, 'm');
    IntTextFree(r, 'm');
    assert [mins, secs][1..] == [secs];
    assert Join([mins, secs], "m ") == mins + "m " + secs;
    SplitJoin([mins, secs], "m ");
  }

  /** The seconds alone contain no `"m "`. */
  lemma SecondsSplit(r: int)
    ensures Split(IntToString(r), "m ") == [IntToString(r)]
  {
    IntTextFree(r, 'm');
    assert Join([IntToString(r)], "m ") == IntToString(r);
    SplitJoin([IntToString(r)], "m ");
  }

  /** The minutes appear iff the duration is at least a minute, and the
      seconds shown are below 60. */
  lemma DurationShowsMinutes(seconds: nat)
    ensures 'm' in DurationText(seconds) <==> seconds >= 60
    ensures seconds < 60 ==> DurationText(seconds) == NatToString(seconds) + "s"
  {
    var t := DurationText(seconds);
    var secs := NatToString(seconds % 60);
    if seconds < 60 {
      assert t == secs + "s";
      forall i | 0 <= i < |t|
        ensures t[i] != 'm'
      {
        if i < |secs| {
          assert IsDigit(secs[i]);
        }
      }
    } else {
      assert t == IntToString(seconds / 60) + "m " + IntToString(seconds % 60) + "s";
      assert t[|IntToString(seconds / 60)|] == 'm';
    }
  }

  /** `_parse_summary` on a loaded report: counts default to 0, the
      duration to 0 seconds, and the date is "" unless `created` is truthy. */
  function SummaryOf(rep: Report, stamp: int -> string): (s: MailStats)
    ensures !TruthyInt(rep.created) ==> s.date == ""
    ensures TruthyInt(rep.created) ==> s.date == stamp(rep.created.value)
    ensures s.duration == DurationText(rep.duration.GetOr(0))
    ensures rep.summary.None? ==> s.total == 0 && s.passed == 0 && s.failed == 0 && s.skipped == 0
    ensures rep.summary.Some? ==>
      && s.total == rep.summary.value.total.GetOr(0) && s.passed == rep.summary.value.passed.GetOr(0)
      && s.failed == rep.summary.value.failed.GetOr(0) && s.skipped == rep.summary.value.skipped.GetOr(0)
  {
    var summary := rep.summary.GetOr(Summary(None, None, None, None));
    var date := if TruthyInt(rep.created) then stamp(rep.created.value) else "";
    MailStats(summary.total.GetOr(0), summary.passed.GetOr(0), summary.failed.GetOr(0), summary.skipped.GetOr(0),
              DurationText(rep.duration.GetOr(0)), date)
  }

  // ---------------------------------------------------------------------------
  // The template data and the subject

  /** `email_data` of `send`: the twelve fields from the settings and the
      figures, and the HTML report path when that file exists. */
  function MailData(st: MailSettings, stats: MailStats, htmlExists: bool): Dict {
    DictOf(MailPairs(st, stats, htmlExists))
  }

  function MailPairs(st: MailSettings, stats: MailStats, htmlExists: bool): seq<(string, Value)> {
    [(BUILD_VERSION, Str(st.buildVersion)), (SUITE_NAME, Str(st.suiteName)), (DATE, Str(stats.date)),
     (DURATION, Str(stats.duration)), (BRANCH, Str(st.branch)), (TRIGGERED_BY, Str(st.triggeredBy)),
     (TOTAL, Int(stats.total)), (PASSED, Int(stats.passed)), (FAILED, Int(stats.failed)),
     (SKIPPED, Int(stats.skipped)), (YOUR_NAME, Str(st.yourName)), (YOUR_POSITION, Str(st.yourPosition))]
    + (if htmlExists then [(HTML_REPORT_PATH, Str(HTML_REPORT))] else [])
  }

  /** That data always passes the template's validation, and holds the
      HTML report path iff the file exists. */
  lemma MailDataFitsTemplate(st: MailSettings, stats: MailStats, htmlExists: bool)
    ensures var d := MailData(st, stats, htmlExists);
      && FieldCheck(d).Ok?
      && (HTML_REPORT_PATH in d <==> htmlExists)
      && (htmlExists ==> d[HTML_REPORT_PATH] == Str(HTML_REPORT))
  {
    var pairs := MailPairs(st, stats, htmlExists);
    DictOfKeys(pairs);
    if htmlExists {
      DictOfValue(pairs, 12);
    }
    var ks := Keys(pairs);
    assert && ks[0] == BUILD_VERSION && ks[1] == SUITE_NAME && ks[3] == DURATION && ks[4] == BRANCH
           && ks[5] == TRIGGERED_BY && ks[6] == TOTAL && ks[7] == PASSED && ks[8] == FAILED
           && ks[9] == SKIPPED && ks[10] == YOUR_NAME && ks[11] == YOUR_POSITION;
  }

  /** Its counts are the integers of the figures, so the failure rate is
      computed from them. */
  lemma MailDataCounts(st: MailSettings, stats: MailStats, htmlExists: bool)
    ensures var d := MailData(st, stats, htmlExists);
      && TOTAL in d && d[TOTAL] == Int(stats.total) && FAILED in d && d[FAILED] == Int(stats.failed)
      && FailRate(d).Ok?
  {
    var pairs := MailPairs(st, stats, htmlExists);
    DictOfValue(pairs, 6);
    DictOfValue(pairs, 8);
  }

  /** The attachments `prepare_email_data` yields for that data, whatever
      the date default and the failure rate add. */
  lemma MailAttachments(st: MailSettings, stats: MailStats, htmlExists: bool, rate: Value, now: string)
    ensures Attachments(WithDate(MailData(st, stats, htmlExists)[FAIL_RATE := rate], now)) ==
      if htmlExists then [Str(HTML_REPORT)] else []
  {
    MailDataFitsTemplate(st, stats, htmlExists);
    var d := MailData(st, stats, htmlExists)[FAIL_RATE := rate];
    assert HTML_REPORT_PATH != FAIL_RATE && HTML_REPORT_PATH != DATE;
    assert HTML_REPORT_PATH in WithDate(d, now) <==> htmlExists;
  }

  const SUBJECT_PREFIX: string := "Test Report - "
  const SUBJECT_SUFFIX: string := " Passed"

  /** `f"Test Report - {suite_name} | {passed}/{total} Passed"`. */
  function Subject(suiteName: string, stats: MailStats): string {
    SUBJECT_PREFIX + suiteName + " | " + CountsText(stats) + SUBJECT_SUFFIX
  }

  /** The subject names the suite first, and the text between the `" | "`
      after it and the closing " Passed" reads back as the passed and the
      total counts, separated by `/`. */
  lemma SubjectReadsBack(suiteName: string, stats: MailStats)
    ensures var s, head := Subject(suiteName, stats), SUBJECT_PREFIX + suiteName + " | ";
      && |s| >= |head| + |SUBJECT_SUFFIX| && s[..|head|] == head && s[|s| - |SUBJECT_SUFFIX|..] == SUBJECT_SUFFIX
      && var counts := Split(s[|head|..|s| - |SUBJECT_SUFFIX|], "/");
         |counts| == 2 && ParseInt(counts[0]) == Some(stats.passed) && ParseInt(counts[1]) == Some(stats.total)
  {
    var head := SUBJECT_PREFIX + suiteName + " | ";
    var mid := CountsText(stats);
    assert Subject(suiteName, stats) == head + mid + SUBJECT_SUFFIX;
    SliceBetween(head, mid, SUBJECT_SUFFIX);
    CountsReadBack(stats);
  }

  /** The `passed/total` part of the subject. */
  function CountsText(stats: MailStats): string {
    IntToString(stats.passed) + "/" + IntToString(stats.total)
  }

  lemma CountsReadBack(stats: MailStats)
    ensures var counts := Split(CountsText(stats), "/");
      |counts| == 2 && ParseInt(counts[0]) == Some(stats.passed) && ParseInt(counts[1]) == Some(stats.total)
  {
    var a, b := IntToString(stats.passed), IntToString(stats.total);
    assert CountsText(stats) == a + ['/'] + b;
    IntTextFree(stats.passed, '/');
    IntTextFree(stats.total, '/');
    SplitPair(a, b, '/');
    ParseIntToString(stats.passed);
    ParseIntToString(stats.total);
  }

  // ---------------------------------------------------------------------------
  // `send`

  /** The template steps of `send`: the data is validated, the failure
      rate added and the body prepared; the first step that raises is the
      error. */
  function PreparedData(st: MailSettings, stats: MailStats, htmlExists: bool, now: string): Result<EmailData> {
    var d := MailData(st, stats, htmlExists);
    var _ :- FieldCheck(d);
    var rate :- FailRate(d);
    var d' := d[FAIL_RATE := rate];
    var body :- Body(d', now);
    Ok(EmailData(body, Attachments(WithDate(d', now))))
  }

  /** The template never fails on the data `send` builds: the body is the
      rendered template and the HTML report is the one attachment iff it
      exists. */
  lemma PreparedDataOutcome(st: MailSettings, stats: MailStats, htmlExists: bool, now: string)
    ensures var p, d := PreparedData(st, stats, htmlExists, now), MailData(st, stats, htmlExists);
      && p.Ok? && FailRate(d).Ok?
      && p.value.body == Body(d[FAIL_RATE := FailRate(d).value], now).value
      && p.value.attachments == if htmlExists then [Str(HTML_REPORT)] else []
  {
    MailDataFitsTemplate(st, stats, htmlExists);
    MailDataCounts(st, stats, htmlExists);
    var d := MailData(st, stats, htmlExists);
    var rate := FailRate(d).value;
    PrepareBodyTotal(d[FAIL_RATE := rate], now);
    MailAttachments(st, stats, htmlExists, rate, now);
  }

  /** The message the mailer sends for the prepared data: to the recipients
      joined by ", ", with the subject and the body as plain text. */
  function OutgoingMessage(st: MailSettings, stats: MailStats, p: EmailData, sender: Value,
                           files: map<string, FileContent>): Message
  {
    Message(sender, Join(RecipientList(Line(st.recipients)).value, ", "), Subject(st.suiteName, stats),
            MimeText(p.body, Subtype(false)), Parts(p.attachments, files))
  }

  /** The mailer part of `send`: the verdict, the files opened and the SMTP
      commands the server received. */
  function DispatchSpec(st: MailSettings, stats: MailStats, p: EmailData, files: map<string, FileContent>,
                        refused: set<SmtpCommand>): (bool, seq<Access>, seq<SmtpCommand>)
  {
    var settings := Effective(DEFAULT_ARGS, Some(SmtpConfig(st)));
    if SettingsCheck(settings).Err? then (false, [], [])
    else
      var cmds := SessionCommands(settings, OutgoingMessage(st, stats, p, settings.sender, files));
      (Accepted(cmds, refused), Opens(p.attachments), Delivered(cmds, refused))
  }

  /** The mailer refuses incomplete settings before anything is opened or
      sent. */
  lemma DispatchIncomplete(st: MailSettings, stats: MailStats, p: EmailData, files: map<string, FileContent>,
                           refused: set<SmtpCommand>)
    requires st.smtpServer == "" || st.username == "" || st.password == "" || st.sender == ""
    ensures DispatchSpec(st, stats, p, files, refused) == (false, [], [])
  {
    SmtpConfigAsMailer(st, DEFAULT_ARGS);
  }

  /** With complete settings the session uses the configured server,
      credentials and sender, opens the attachments, and succeeds iff the
      server accepts every command. */
  lemma DispatchSession(st: MailSettings, stats: MailStats, p: EmailData, files: map<string, FileContent>,
                        refused: set<SmtpCommand>)
    requires st.smtpServer != "" && st.username != "" && st.password != "" && st.sender != ""
    ensures var out := DispatchSpec(st, stats, p, files, refused);
      var settings := MailerArgs(Str(st.smtpServer), Int(st.port), Str(st.username), Str(st.password),
                                 Bool(st.useTls), Str(st.sender));
      var cmds := SessionCommands(settings, OutgoingMessage(st, stats, p, Str(st.sender), files));
      && out.1 == Opens(p.attachments)
      && out.2 == Delivered(cmds, refused)
      && (out.0 <==> Accepted(cmds, refused))
  {
    SmtpConfigAsMailer(st, DEFAULT_ARGS);
  }

  /** The message is addressed to the stripped pieces of the recipients
      option, joined by ", ". */
  lemma OutgoingRecipients(st: MailSettings, stats: MailStats, p: EmailData, sender: Value,
                           files: map<string, FileContent>)
    ensures OutgoingMessage(st, stats, p, sender, files).to == Join(StripEach(Split(st.recipients, ",")), ", ")
    ensures OutgoingMessage(st, stats, p, sender, files).body.subtype == "plain"
  {
  }

  /** `send`, from the report cache, the files and the server's refusals:
      the verdict, the new cache, the file accesses and the SMTP commands. */
  function SendSpec(st: MailSettings, cache: Option<Report>, files: map<string, FileContent>,
                    refused: set<SmtpCommand>, stamp: int -> string, now: string)
    : (bool, Option<Report>, seq<Access>, seq<SmtpCommand>)
  {
    match LoadOutcome(cache, files)
    case Err(_) => (false, cache, LoadAccesses(cache, files), [])
    case Ok(rep) =>
      var stats := SummaryOf(rep, stamp);
      var probed := LoadAccesses(cache, files) + [Probe(HTML_REPORT)];
      match PreparedData(st, stats, HTML_REPORT in files, now)
      case Err(_) => (false, Some(rep), probed, [])
      case Ok(p) =>
        var out := DispatchSpec(st, stats, p, files, refused);
        (out.0, Some(rep), probed + out.1, out.2)
  }

  /** `send` returns False without contacting the server when the report
      does not load or the SMTP settings are incomplete. */
  lemma SendFailsEarly(st: MailSettings, cache: Option<Report>, files: map<string, FileContent>,
                       refused: set<SmtpCommand>, stamp: int -> string, now: string)
    requires LoadOutcome(cache, files).Err? || st.smtpServer == "" || st.username == "" || st.password == ""
             || st.sender == ""
    ensures !SendSpec(st, cache, files, refused, stamp, now).0 && SendSpec(st, cache, files, refused, stamp, now).3 == []
  {
    var rep := LoadOutcome(cache, files);
    if rep.Ok? {
      var stats := SummaryOf(rep.value, stamp);
      PreparedDataOutcome(st, stats, HTML_REPORT in files, now);
      DispatchIncomplete(st, stats, PreparedData(st, stats, HTML_REPORT in files, now).value, files, refused);
    }
  }

  /** Once the report loads, `send` caches it and its verdict and SMTP
      commands are those of the mailer part on the prepared data. */
  lemma SendDispatches(st: MailSettings, cache: Option<Report>, files: map<string, FileContent>,
                       refused: set<SmtpCommand>, stamp: int -> string, now: string)
    requires LoadOutcome(cache, files).Ok?
    ensures var out, rep := SendSpec(st, cache, files, refused, stamp, now), LoadOutcome(cache, files).value;
      var stats := SummaryOf(rep, stamp);
      var p := PreparedData(st, stats, HTML_REPORT in files, now);
      && p.Ok?
      && out.1 == Some(rep)
      && out.0 == DispatchSpec(st, stats, p.value, files, refused).0
      && out.3 == DispatchSpec(st, stats, p.value, files, refused).2
  {
    var stats := SummaryOf(LoadOutcome(cache, files).value, stamp);
    PreparedDataOutcome(st, stats, HTML_REPORT in files, now);
  }

  /** Otherwise the report is cached, the session starts by connecting to
      the configured server, and `send` returns True iff the server accepts
      every command. */
  lemma SendReachesServer(st: MailSettings, cache: Option<Report>, files: map<string, FileContent>,
                          refused: set<SmtpCommand>, stamp: int -> string, now: string)
    requires LoadOutcome(cache, files).Ok?
    requires st.smtpServer != "" && st.username != "" && st.password != "" && st.sender != ""
    ensures var out, rep := SendSpec(st, cache, files, refused, stamp, now), LoadOutcome(cache, files).value;
      var stats := SummaryOf(rep, stamp);
      var p := PreparedData(st, stats, HTML_REPORT in files, now);
      var settings := MailerArgs(Str(st.smtpServer), Int(st.port), Str(st.username), Str(st.password),
                                 Bool(st.useTls), Str(st.sender));
      && p.Ok?
      && out.1 == Some(rep) && out.3 != [] && out.3[0] == Connect(Str(st.smtpServer), Int(st.port))
      && (out.0 <==> Accepted(SessionCommands(settings, OutgoingMessage(st, stats, p.value, Str(st.sender), files)),
                              refused))
  {
    SendDispatches(st, cache, files, refused, stamp, now);
    var stats := SummaryOf(LoadOutcome(cache, files).value, stamp);
    var p := PreparedData(st, stats, HTML_REPORT in files, now).value;
    DispatchSession(st, stats, p, files, refused);
    var settings := MailerArgs(Str(st.smtpServer), Int(st.port), Str(st.username), Str(st.password),
                               Bool(st.useTls), Str(st.sender));
    var cmds := SessionCommands(settings, OutgoingMessage(st, stats, p, Str(st.sender), files));
    assert Delivered(cmds, refused)[0] == cmds[0];
  }

  lemma AppendAssoc<T>(a: seq<T>, b: seq<T>, c: seq<T>)
    ensures (a + b) + c == a + (b + c)
  {
  }

  // ---------------------------------------------------------------------------
  // The integration object

  class Mail {
    const settings: MailSettings
    const loader: ReportLoader
    const server: SmtpServer
    const stamp: int -> string

    /** `__init__` once the settings are read; no report yet. */
    constructor (settings: MailSettings, fs: FileSystem, server: SmtpServer, stamp: int -> string)
      ensures this.settings == settings && this.server == server && this.stamp == stamp
      ensures fresh(loader) && loader.fs == fs && loader.cached == None
    {
      this.settings := settings;
      this.server := server;
      this.stamp := stamp;
      loader := new ReportLoader(fs);
    }

    /** `_parse_summary`. */
    method ParseSummary() returns (r: Result<MailStats>)
      modifies loader, loader.fs`accesses
      ensures var rep := LoadOutcome(old(loader.cached), loader.fs.files);
        && (rep.Ok? ==> r == Ok(SummaryOf(rep.value, stamp)) && loader.cached == Some(rep.value))
        && (rep.Err? ==> r == Err(rep.error) && loader.cached == old(loader.cached))
      ensures loader.fs.accesses == old(loader.fs.accesses) + LoadAccesses(old(loader.cached), loader.fs.files)
    {
      var rep := loader.Load();
      if rep.Err? {
        return Err(rep.error);
      }
      return Ok(SummaryOf(rep.value, stamp));
    }

    /** The template part of `send`, on a fresh dict. */
    method PrepareData(stats: MailStats, html: bool, now: string) returns (r: Result<EmailData>)
      ensures r == PreparedData(settings, stats, html, now)
    {
      var data := new DataDict(MailData(settings, stats, html));
      var template := NewEmailTemplate(data);
      if template.Err? {
        return Err(template.error);
      }
      r := template.value.PrepareEmailData(now);
    }

    /** `send`. */
    method Send(now: string) returns (ok: bool)
      modifies loader, loader.fs`accesses, server`log
      ensures var out := SendSpec(settings, old(loader.cached), loader.fs.files, server.refused, stamp, now);
        && ok == out.0 && loader.cached == out.1
        && loader.fs.accesses == old(loader.fs.accesses) + out.2
        && server.log == old(server.log) + out.3
    {
      ghost var loaded := LoadAccesses(loader.cached, loader.fs.files);
      var stats := ParseSummary();
      if stats.Err? {
        return false;
      }
      var html := loader.fs.Exists(HTML_REPORT);
      ghost var probed := loaded + [Probe(HTML_REPORT)];
      AppendAssoc(old(loader.fs.accesses), loaded, [Probe(HTML_REPORT)]);
      var prepared := PrepareData(stats.value, html, now);
      if prepared.Err? {
        return false;
      }
      ok := Dispatch(stats.value, prepared.value);
      ghost var attached := DispatchSpec(settings, stats.value, prepared.value, loader.fs.files, server.refused).1;
      AppendAssoc(old(loader.fs.accesses), probed, attached);
    }

    /** The mailer part of `send`. */
    method Dispatch(stats: MailStats, p: EmailData) returns (ok: bool)
      modifies loader.fs`accesses, server`log
      ensures var out := DispatchSpec(settings, stats, p, loader.fs.files, server.refused);
        && ok == out.0 && loader.fs.accesses == old(loader.fs.accesses) + out.1
        && server.log == old(server.log) + out.2
    {
      var subject := Subject(settings.suiteName, stats);
      var mailer := NewMailer(DEFAULT_ARGS, Some(SmtpConfig(settings)));
      if mailer.Err? {
        return false;
      }
      var sent := mailer.value.SendMail(Line(settings.recipients), subject, p.body, Some(p.attachments), false,
                                        loader.fs, server);
      ok := sent.Ok?;
    }
  }

  /** `Mail()`: the settings are read from the parsed configuration. */
  method NewMail(cfg: ConfigFile, fs: FileSystem, server: SmtpServer, stamp: int -> string) returns (r: Result<Mail>)
    ensures r.Ok? <==> ReadMailSettings(cfg).Ok?
    ensures r.Err? ==> r.error == ReadMailSettings(cfg).error
    ensures r.Ok? ==> && fresh(r.value) && fresh(r.value.loader) && r.value.settings == ReadMailSettings(cfg).value
                      && r.value.loader.fs == fs && r.value.loader.cached == None && r.value.server == server
  {
    var settings := ReadMailSettings(cfg);
    if settings.Err? {
      return Err(settings.error);
    }
    var m := new Mail(settings.value, fs, server, stamp);
    return Ok(m);
  }
}
