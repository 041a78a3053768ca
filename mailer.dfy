/** The SMTP mailer (`Mailer`): settings from arguments or a config dict,
    their validation, recipient parsing, message assembly with per-file
    attachment failures isolated, and the SMTP session. The SMTP server is
    modelled by the commands it receives and the ones it refuses. */
module Mailers {
  import opened Common
  import opened Strings
  import opened Values
  import opened Reports

  const DEFAULT_SMTP_PORT: int := 587

  const MISSING_MAIL_CONFIG: string :=
    "Missing required mail configuration parameters: smtp_server, username, password, and sender are required"

  const NO_RECIPIENT: string := "At least one recipient is required"

  /** The constructor's arguments, which are also the settings it stores. */
  datatype MailerArgs = MailerArgs(
    smtpServer: Value,
    port: Value,
    username: Value,
    password: Value,
    useTls: Value,
    sender: Value)

  /** The arguments a caller leaves at their defaults. */
  const DEFAULT_ARGS: MailerArgs :=
    MailerArgs(NoneValue, Int(DEFAULT_SMTP_PORT), NoneValue, NoneValue, Bool(true), NoneValue)

  /** The settings after the config override: a non-empty config dict
      replaces every argument, absent keys giving None, except `port` (587)
      and `use_tls` (True). */
  function Effective(args: MailerArgs, config: Option<Dict>): (e: MailerArgs)
    ensures config.None? || config.value == map[] ==> e == args
    ensures config.Some? && config.value != map[] ==>
      var c := config.value;
      && e.smtpServer == Get(c, "smtp_server", NoneValue) && e.username == Get(c, "username", NoneValue)
      && e.password == Get(c, "password", NoneValue) && e.sender == Get(c, "sender", NoneValue)
      && e.port == Get(c, "port", Int(DEFAULT_SMTP_PORT)) && e.useTls == Get(c, "use_tls", Bool(true))
  {
    match config
    case Some(c) =>
      if c == map[] then args
      else MailerArgs(Get(c, "smtp_server", NoneValue), Get(c, "port", Int(DEFAULT_SMTP_PORT)),
                      Get(c, "username", NoneValue), Get(c, "password", NoneValue),
                      Get(c, "use_tls", Bool(true)), Get(c, "sender", NoneValue))
    case None => args
  }

  /** With a non-empty config the explicit arguments do not matter. */
  lemma ConfigOverridesArguments(a: MailerArgs, b: MailerArgs, c: Dict)
    requires c != map[]
    ensures Effective(a, Some(c)) == Effective(b, Some(c))
  {
  }

  /** The constructor's check: server, username, password and sender must
      all be truthy; port and use_tls are not checked. */
  function SettingsCheck(s: MailerArgs): (r: Result<()>)
    ensures r.Ok? <==> Truthy(s.smtpServer) && Truthy(s.username) && Truthy(s.password) && Truthy(s.sender)
    ensures r.Err? ==> r.error == ValueError(MISSING_MAIL_CONFIG)
  {
    if Truthy(s.smtpServer) && Truthy(s.username) && Truthy(s.password) && Truthy(s.sender) then Ok(())
    else Err(ValueError(MISSING_MAIL_CONFIG))
  }

  // ---------------------------------------------------------------------------
  // Recipients

  /** `recipients` as passed: one comma-separated string or a list. */
  datatype Recipients = Line(text: string) | List(addresses: seq<string>)

  /** Each piece with its surrounding whitespace removed. */
  function StripEach(pieces: seq<string>): (r: seq<string>)
    ensures |r| == |pieces|
    ensures forall k :: 0 <= k < |r| ==> r[k] == Strip(pieces[k])
  {
    seq(|pieces|, k requires 0 <= k < |pieces| => Strip(pieces[k]))
  }

  /** The recipient list: a string is split on "," and each piece stripped;
      only an empty list is refused. */
  function RecipientList(r: Recipients): (l: Result<seq<string>>)
    ensures l.Err? <==> r == List([])
    ensures l.Err? ==> l.error == ValueError(NO_RECIPIENT)
    ensures r.List? && l.Ok? ==> l.value == r.addresses
    ensures r.Line? ==> l == Ok(StripEach(Split(r.text, ",")))
  {
    match r
    case Line(text) => Ok(StripEach(Split(text, ",")))
    case List(addresses) => if addresses == [] then Err(ValueError(NO_RECIPIENT)) else Ok(addresses)
  }

  /** A string always gives one address more than it has commas, so never
      the "at least one recipient" error, and `""` gives `[""]`. */
  lemma RecipientLineCount(text: string)
    ensures RecipientList(Line(text)).Ok?
    ensures |RecipientList(Line(text)).value| == CountChar(text, ',') + 1
    ensures text == "" ==> RecipientList(Line(text)).value == [""]
  {
    SplitCount(text, ',');
    if text == "" {
      assert Split(text, ",") == [""];
      assert Strip("") == "";
    }
  }

  /** For addresses without commas or surrounding blanks, the recipients
      string written as their `","` join reads back as the same list. */
  lemma RecipientLineRoundTrip(addresses: seq<string>)
    requires |addresses| >= 1
    requires forall k :: 0 <= k < |addresses| ==> Free(addresses[k], ',') && Strip(addresses[k]) == addresses[k]
    ensures RecipientList(Line(Join(addresses, ","))).value == addresses
  {
    SplitJoin(addresses, ",");
  }

  // ---------------------------------------------------------------------------
  // The message

  /** A `MIMEText` part: its text and subtype. */
  datatype MimeText = MimeText(text: string, subtype: string)

  /** An attached file: its name, its Content-Disposition and its bytes. */
  datatype Part = Part(name: string, disposition: string, content: FileContent)

  datatype Message = Message(sender: Value, to: string, subject: string, body: MimeText, parts: seq<Part>)

  /** The body's subtype, `html` iff `html` is set. */
  function Subtype(html: bool): (t: string)
    ensures t == "html" <==> html
    ensures t == "plain" <==> !html
  {
    if html then "html" else "plain"
  }

  function Disposition(name: string): string {
    "attachment; filename=\"" + name + "\""
  }

  /** What one attachment path contributes: the file under its basename, or
      nothing when it cannot be opened. */
  function PartOf(path: Value, files: map<string, FileContent>): (p: seq<Part>)
    ensures |p| <= 1
    ensures p != [] <==> path.Str? && path.s in files
    ensures p != [] ==> p[0] == Part(Basename(path.s), Disposition(Basename(path.s)), files[path.s])
  {
    if path.Str? && path.s in files then
      var name := Basename(path.s);
      [Part(name, Disposition(name), files[path.s])]
    else []
  }

  /** The parts attached for a list of paths. */
  function Parts(paths: seq<Value>, files: map<string, FileContent>): (parts: seq<Part>)
    ensures |parts| <= |paths|
    decreases |paths|
  {
    if paths == [] then [] else PartOf(paths[0], files) + Parts(paths[1..], files)
  }

  /** The files `open` is called on: every string path, in order. */
  function Opens(paths: seq<Value>): (tried: seq<Access>)
    ensures |tried| <= |paths|
    decreases |paths|
  {
    if paths == [] then [] else (if paths[0].Str? then [Open(paths[0].s)] else []) + Opens(paths[1..])
  }

  /** Attaching is done path by path: the parts of two lists are the parts
      of the first followed by those of the second. */
  lemma {:induction false} PartsAppend(a: seq<Value>, b: seq<Value>, files: map<string, FileContent>)
    ensures Parts(a + b, files) == Parts(a, files) + Parts(b, files)
    decreases |a|
  {
    if a == [] {
      assert a + b == b;
    } else {
      assert (a + b)[0] == a[0] && (a + b)[1..] == a[1..] + b;
      PartsAppend(a[1..], b, files);
      assert Parts(a + b, files) == PartOf(a[0], files) + Parts(a[1..] + b, files);
    }
  }

  /** The same for the files opened. */
  lemma {:induction false} OpensAppend(a: seq<Value>, b: seq<Value>)
    ensures Opens(a + b) == Opens(a) + Opens(b)
    decreases |a|
  {
    if a == [] {
      assert a + b == b;
    } else {
      assert (a + b)[0] == a[0] && (a + b)[1..] == a[1..] + b;
      OpensAppend(a[1..], b);
      assert Opens(a + b) == (if a[0].Str? then [Open(a[0].s)] else []) + Opens(a[1..] + b);
    }
  }

  /** The step of the attachment loop. */
  lemma PartsSnoc(a: seq<Value>, x: Value, files: map<string, FileContent>)
    ensures Parts(a + [x], files) == Parts(a, files) + PartOf(x, files)
    ensures Opens(a + [x]) == Opens(a) + (if x.Str? then [Open(x.s)] else [])
  {
    PartsAppend(a, [x], files);
    OpensAppend(a, [x]);
    assert [x][1..] == [];
  }

  /** A path that cannot be opened is skipped and nothing else changes:
      the message is the one built without it. */
  lemma FailedAttachmentSkipped(paths: seq<Value>, k: nat, files: map<string, FileContent>)
    requires k < |paths| && !(paths[k].Str? && paths[k].s in files)
    ensures Parts(paths, files) == Parts(paths[..k] + paths[k + 1..], files)
  {
    var pre, x, post := paths[..k], paths[k], paths[k + 1..];
    assert paths == pre + ([x] + post);
    PartsAppend(pre, [x] + post, files);
    assert ([x] + post)[0] == x && ([x] + post)[1..] == post;
    assert Parts([x] + post, files) == Parts(post, files);
    PartsAppend(pre, post, files);
  }

  /** Every file that opens is attached, in order. */
  lemma {:induction false} OpenableAttached(paths: seq<Value>, files: map<string, FileContent>)
    requires forall k :: 0 <= k < |paths| ==> paths[k].Str? && paths[k].s in files
    ensures |Parts(paths, files)| == |paths|
    ensures forall k :: 0 <= k < |paths| ==> Parts(paths, files)[k].content == files[paths[k].s]
    decreases |paths|
  {
    if paths != [] {
      OpenableAttached(paths[1..], files);
      var rest := Parts(paths[1..], files);
      assert Parts(paths, files) == PartOf(paths[0], files) + rest;
      forall k | 1 <= k < |paths|
        ensures Parts(paths, files)[k].content == files[paths[k].s]
      {
        assert Parts(paths, files)[k] == rest[k - 1];
        assert paths[1..][k - 1] == paths[k];
      }
    }
  }

  // ---------------------------------------------------------------------------
  // The SMTP session

  datatype SmtpCommand =
    | Connect(host: Value, port: Value)
    | StartTls
    | Login(username: Value, password: Value)
    | SendMessage(message: Message)

  /** The commands `send_mail` issues: connect, STARTTLS iff `use_tls` is
      truthy, login, then the message. */
  function SessionCommands(s: MailerArgs, m: Message): (cmds: seq<SmtpCommand>)
    ensures |cmds| == if Truthy(s.useTls) then 4 else 3
    ensures Truthy(s.useTls) ==> cmds[1] == StartTls
    ensures cmds[0] == Connect(s.smtpServer, s.port) && cmds[|cmds| - 1] == SendMessage(m)
    ensures StartTls in cmds <==> Truthy(s.useTls)
    ensures cmds[|cmds| - 2] == Login(s.username, s.password)
  {
    [Connect(s.smtpServer, s.port)] + (if Truthy(s.useTls) then [StartTls] else []) + [Login(s.username, s.password), SendMessage(m)]
  }

  /** The commands a server receives: all of them, or up to and including
      the first one it refuses. */
  function Delivered(cmds: seq<SmtpCommand>, refused: set<SmtpCommand>): seq<SmtpCommand>
    decreases |cmds|
  {
    if cmds == [] then []
    else if cmds[0] in refused then [cmds[0]]
    else [cmds[0]] + Delivered(cmds[1..], refused)
  }

  /** What reaches the server is a prefix of the session whose commands
      were all accepted but possibly the last, which ended it. */
  lemma {:induction false} DeliveredIsPrefix(cmds: seq<SmtpCommand>, refused: set<SmtpCommand>)
    ensures var sent := Delivered(cmds, refused);
      && sent <= cmds
      && (forall k :: 0 <= k < |sent| - 1 ==> sent[k] !in refused)
      && (sent == cmds || (sent != [] && sent[|sent| - 1] in refused))
    decreases |cmds|
  {
    if cmds != [] && cmds[0] !in refused {
      DeliveredIsPrefix(cmds[1..], refused);
      var rest := Delivered(cmds[1..], refused);
      assert Delivered(cmds, refused) == [cmds[0]] + rest;
      forall k | 1 <= k < |rest| + 1 - 1
        ensures ([cmds[0]] + rest)[k] !in refused
      {
        assert ([cmds[0]] + rest)[k] == rest[k - 1];
      }
    }
  }

  /** The session succeeds iff the server accepts every command. */
  predicate Accepted(cmds: seq<SmtpCommand>, refused: set<SmtpCommand>) {
    forall k :: 0 <= k < |cmds| ==> cmds[k] !in refused
  }

  /** The message is handed over only in a session that succeeds. */
  lemma MessageSentOnlyOnSuccess(s: MailerArgs, m: Message, refused: set<SmtpCommand>)
    ensures var cmds := SessionCommands(s, m);
      Accepted(cmds, refused) <==> Delivered(cmds, refused) == cmds && SendMessage(m) !in refused
  {
    var cmds := SessionCommands(s, m);
    var sent := Delivered(cmds, refused);
    if Accepted(cmds, refused) {
      DeliveredAll(cmds, refused);
      assert cmds[|cmds| - 1] == SendMessage(m);
    } else if sent == cmds {
      DeliveredIsPrefix(cmds, refused);
      var k :| 0 <= k < |cmds| && cmds[k] in refused;
      assert k == |cmds| - 1;
    }
  }

  /** A server that refuses the command at `k` and none before receives
      the first `k + 1` commands. */
  lemma {:induction false} DeliveredUpTo(cmds: seq<SmtpCommand>, k: nat, refused: set<SmtpCommand>)
    requires k < |cmds| && cmds[k] in refused
    requires forall j :: 0 <= j < k ==> cmds[j] !in refused
    ensures Delivered(cmds, refused) == cmds[..k + 1]
    decreases k
  {
    if k > 0 {
      assert cmds[0] !in refused;
      DeliveredUpTo(cmds[1..], k - 1, refused);
      assert cmds[..k + 1] == [cmds[0]] + cmds[1..][..k];
    }
  }

  lemma {:induction false} DeliveredAll(cmds: seq<SmtpCommand>, refused: set<SmtpCommand>)
    requires Accepted(cmds, refused)
    ensures Delivered(cmds, refused) == cmds
    decreases |cmds|
  {
    if cmds != [] {
      assert cmds[0] !in refused;
      DeliveredAll(cmds[1..], refused);
    }
  }

  /** An SMTP server: the commands it has received and those it refuses. */
  class SmtpServer {
    const refused: set<SmtpCommand>
    var log: seq<SmtpCommand>

    constructor (refused: set<SmtpCommand>)
      ensures this.refused == refused && log == []
    {
      this.refused := refused;
      log := [];
    }

    /** One command and the server's answer. */
    method Command(c: SmtpCommand) returns (ok: bool)
      modifies this`log
      ensures ok <==> c !in refused
      ensures log == old(log) + [c]
    {
      log := log + [c];
      ok := c !in refused;
    }
  }

  // ---------------------------------------------------------------------------
  // The mailer

  class Mailer {
    const settings: MailerArgs

    /** Stores the settings once they passed validation. */
    constructor (settings: MailerArgs)
      requires SettingsCheck(settings).Ok?
      ensures this.settings == settings
    {
      this.settings := settings;
    }

    /** The attachment loop: every path is tried, and one that fails to open
        is skipped. */
    method AttachFiles(paths: seq<Value>, fs: FileSystem) returns (parts: seq<Part>)
      modifies fs`accesses
      ensures parts == Parts(paths, fs.files)
      ensures fs.accesses == old(fs.accesses) + Opens(paths)
    {
      parts := [];
      var i := 0;
      while i < |paths|
        invariant 0 <= i <= |paths|
        invariant parts == Parts(paths[..i], fs.files)
        invariant fs.accesses == old(fs.accesses) + Opens(paths[..i])
        invariant fs.files == old(fs.files)
      {
        var path := paths[i];
        assert paths[..i + 1] == paths[..i] + [path];
        PartsSnoc(paths[..i], path, fs.files);
        ghost var before := parts;
        if path.Str? {
          var content := fs.ReadFile(path.s);
          if content.Ok? {
            var name := Basename(path.s);
            parts := parts + [Part(name, Disposition(name), content.value)];
            assert parts == before + PartOf(path, fs.files);
          } else {
            assert parts == before + PartOf(path, fs.files);
          }
        } else {
          assert parts == before + PartOf(path, fs.files);
        }
        i := i + 1;
      }
      assert paths[..i] == paths;
    }

    /** The SMTP session; a refused command ends it with an SmtpError. */
    method Deliver(m: Message, server: SmtpServer) returns (r: Result<()>)
      modifies server`log
      ensures server.log == old(server.log) + Delivered(SessionCommands(settings, m), server.refused)
      ensures r.Ok? <==> Accepted(SessionCommands(settings, m), server.refused)
      ensures r.Err? ==> r.error == SmtpError
    {
      ghost var cmds := SessionCommands(settings, m);
      ghost var k: nat := 0;
      var ok := server.Command(Connect(settings.smtpServer, settings.port));
      if !ok {
        DeliveredUpTo(cmds, 0, server.refused);
        return Err(SmtpError);
      }
      if Truthy(settings.useTls) {
        k := 1;
        ok := server.Command(StartTls);
        if !ok {
          DeliveredUpTo(cmds, 1, server.refused);
          assert cmds[..2] == [cmds[0], cmds[1]];
          return Err(SmtpError);
        }
      }
      assert cmds[k + 1] == Login(settings.username, settings.password);
      assert server.log == old(server.log) + cmds[..k + 1];
      ok := server.Command(Login(settings.username, settings.password));
      if !ok {
        DeliveredUpTo(cmds, k + 1, server.refused);
        assert cmds[..k + 2] == cmds[..k + 1] + [cmds[k + 1]];
        return Err(SmtpError);
      }
      assert server.log == old(server.log) + cmds[..k + 2];
      ok := server.Command(SendMessage(m));
      if !ok {
        DeliveredUpTo(cmds, k + 2, server.refused);
        assert cmds[..k + 3] == cmds[..k + 2] + [cmds[k + 2]];
        return Err(SmtpError);
      }
      DeliveredAll(cmds, server.refused);
      assert cmds == cmds[..k + 2] + [cmds[k + 2]];
      return Ok(());
    }

    /** `send_mail`: the recipients are checked before anything is opened or
        sent; the message gets the joined recipients, the body with its
        subtype and every attachment that opens. */
    method SendMail(recipients: Recipients, subject: string, body: string, attachments: Option<seq<Value>>,
                    html: bool, fs: FileSystem, server: SmtpServer) returns (r: Result<()>)
      modifies fs`accesses, server`log
      ensures RecipientList(recipients).Err? ==>
        && r == Err(RecipientList(recipients).error)
        && fs.accesses == old(fs.accesses) && server.log == old(server.log)
      ensures RecipientList(recipients).Ok? ==>
        var paths := attachments.GetOr([]);
        var m := Message(settings.sender, Join(RecipientList(recipients).value, ", "), subject,
                         MimeText(body, Subtype(html)), Parts(paths, fs.files));
        && fs.accesses == old(fs.accesses) + Opens(paths)
        && server.log == old(server.log) + Delivered(SessionCommands(settings, m), server.refused)
        && (r.Ok? <==> Accepted(SessionCommands(settings, m), server.refused))
        && (r.Err? ==> r.error == SmtpError)
    {
      var list := RecipientList(recipients);
      if list.Err? {
        return Err(list.error);
      }
      var paths := attachments.GetOr([]);
      var parts := AttachFiles(paths, fs);
      var m := Message(settings.sender, Join(list.value, ", "), subject, MimeText(body, Subtype(html)), parts);
      r := Deliver(m, server);
    }
  }

  /** `Mailer(...)`: the config override, then validation. */
  method NewMailer(args: MailerArgs, config: Option<Dict>) returns (r: Result<Mailer>)
    ensures r.Ok? <==> SettingsCheck(Effective(args, config)).Ok?
    ensures r.Err? ==> r.error == ValueError(MISSING_MAIL_CONFIG)
    ensures r.Ok? ==> fresh(r.value) && r.value.settings == Effective(args, config)
  {
    var settings := Effective(args, config);
    var valid := SettingsCheck(settings);
    if valid.Err? {
      return Err(valid.error);
    }
    var m := new Mailer(settings);
    return Ok(m);
  }
}
