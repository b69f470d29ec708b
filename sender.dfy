/** The message-composition layer of `EmailSender` (redmail/email/sender.py):
    per-call arguments fall back to instance defaults, a missing subject is
    rejected, the headers are set, and the text body, the HTML body and the
    attachments are attached in that order, each only when it is wanted. */
module Sender {
  import opened Py
  import opened Templates
  import opened Mime

  /** Class-level defaults of `EmailSender`. */
  const DefaultHtmlTheme := "modest.html"
  const DefaultTextTheme := "pandas.txt"
  const DefaultAttachmentEncoding := "UTF-8"

  /** The content types of the error marker given to HTML and to text templates. */
  const HtmlInline := "html-inline"
  const TextInline := "text"

  /** The message of the `ValueError` raised for a missing subject. */
  const MissingSubject := "Email must have a subject"

  /** The globals installed into both class-level table environments. */
  const TableGlobals: set<string> := {"get_span", "is_last_group_row"}

  /** The class-level Jinja environments, by their loader directory under the package. */
  const TemplatesHtml := TemplateEnv("templates/html", {})
  const TemplatesHtmlTable := TemplateEnv("templates/html/table", TableGlobals)
  const TemplatesText := TemplateEnv("templates/text", {})
  const TemplatesTextTable := TemplateEnv("templates/text/table", TableGlobals)

  /** `jinja2.Environment(loader=jinja2.FileSystemLoader(path))`: a fresh
      environment without the table globals. */
  function LoaderEnv(path: string): TemplateEnv {
    TemplateEnv(path, {})
  }

  /** What `node()`, `getuser()` and `datetime.datetime.now()` return at the
      moment the parameters are built. */
  datatype SystemInfo = SystemInfo(node: string, user: string, now: int)

  /** The keyword arguments of `send` and `get_message`. */
  datatype Arguments = Arguments(
    subject: Option<string>,
    sender: Option<string>,
    receivers: Recipients,
    cc: Recipients,
    bcc: Recipients,
    html: Option<string>,
    text: Option<string>,
    htmlTemplate: Option<string>,
    textTemplate: Option<string>,
    bodyImages: Option<map<string, Content>>,
    bodyTables: Option<map<string, Content>>,
    bodyParams: Option<Params>,
    attachments: Option<map<string, Content>>)

  /** Every keyword argument left at its default, None. */
  const NoArguments := Arguments(None, None, NoRecipients, NoRecipients, NoRecipients,
                                 None, None, None, None, None, None, None, None)

  /** The effective values `get_message` works with once the fallbacks are applied. */
  datatype Resolved = Resolved(
    subject: Option<string>,
    sender: Option<string>,
    receivers: Recipients,
    cc: Recipients,
    bcc: Recipients,
    html: Option<string>,
    text: Option<string>,
    htmlTemplate: Option<string>,
    textTemplate: Option<string>)

  /** `get_receivers`, `get_cc` and `get_bcc` as a subclass may override them;
      `Inherited` is `EmailSender`'s own fallback to the instance field. */
  datatype RecipientHooks =
    | Inherited
    | Overrides(receivers: Recipients -> Recipients, cc: Recipients -> Recipients, bcc: Recipients -> Recipients)

  /** A built message, or the `ValueError` raised before anything is built. */
  datatype Outcome = Built(msg: Message) | Raised(error: string)

  const BaseKeys: set<string> := {"node", "user", "now", "sender"}

  /** `get_params`: the parameters every body template receives. */
  function GetParams(sys: SystemInfo, sender: Option<string>): (p: Params)
    ensures p.Keys == BaseKeys
    ensures p["node"] == NodeName(sys.node) && p["user"] == UserName(sys.user) && p["now"] == Timestamp(sys.now)
    ensures p["sender"] == SenderAddress(sender)
  {
    map["node" := NodeName(sys.node), "user" := UserName(sys.user),
        "now" := Timestamp(sys.now), "sender" := SenderAddress(sender)]
  }

  /** `get_html_params` and `get_text_params`: the base parameters, then the
      error marker for `contentType`, then the caller's `extra` when it is truthy. */
  function TemplateParams(sys: SystemInfo, sender: Option<string>, contentType: string, extra: Option<Params>): (p: Params)
    ensures p.Keys == BaseKeys + {"error"} + (if DictTruthy(extra) then extra.value.Keys else {})
  {
    var params := GetParams(sys, sender)["error" := ErrorMarker(contentType)];
    if DictTruthy(extra) then params + extra.value else params
  }

  /** Override precedence: `extra` beats the error marker, which beats the base keys. */
  lemma ParamsPrecedence(sys: SystemInfo, sender: Option<string>, contentType: string, extra: Option<Params>, key: string)
    ensures var p := TemplateParams(sys, sender, contentType, extra);
      && (key in p <==> key in BaseKeys || key == "error" || (extra.Some? && key in extra.value))
      && (extra.Some? && key in extra.value ==> p[key] == extra.value[key])
      && (key == "error" && (extra.None? || key !in extra.value) ==> p[key] == ErrorMarker(contentType))
      && (key in BaseKeys && (extra.None? || key !in extra.value) ==> p[key] == GetParams(sys, sender)[key])
  {
  }

  /** Sets header `name` to `v` after `hs` when `cond` holds (`if cond: msg[name] = v`). */
  function AddIf(hs: seq<Header>, cond: bool, name: string, v: HeaderValue): seq<Header> {
    if cond then hs + [Header(name, v)] else hs
  }

  /** Looking up headers after `AddIf`: the added header is found only when
      no earlier header has its name, and other names are unaffected. */
  lemma GetAddIf(hs: seq<Header>, cond: bool, name: string, v: HeaderValue, key: string)
    ensures Get(AddIf(hs, cond, name, v), key) ==
      if cond && key == name && Get(hs, key).None? then Some(v) else Get(hs, key)
  {
    if cond {
      GetAppend(hs, [Header(name, v)], key);
    }
  }

  /** `_create_body`'s headers: from and subject always, then to, cc and bcc
      each only when truthy. */
  function BodyHeaders(subject: string, sender: Option<string>, receivers: Recipients, cc: Recipients, bcc: Recipients): (hs: seq<Header>)
    ensures 2 <= |hs| <= 5
    ensures hs[0] == Header("from", AddressValue(sender))
    ensures hs[1] == Header("subject", SubjectValue(subject))
  {
    var h0 := [Header("from", AddressValue(sender)), Header("subject", SubjectValue(subject))];
    var h1 := AddIf(h0, receivers.Truthy(), "to", RecipientsValue(receivers));
    var h2 := AddIf(h1, cc.Truthy(), "cc", RecipientsValue(cc));
    AddIf(h2, bcc.Truthy(), "bcc", RecipientsValue(bcc))
  }

  /** A recipient header is present exactly when its resolved value is truthy,
      and then it carries that value unchanged. */
  function RecipientHeader(rs: Recipients): Option<HeaderValue> {
    if rs.Truthy() then Some(RecipientsValue(rs)) else None
  }

  /** What `msg[key]` returns on the headers `_create_body` sets. */
  lemma {:induction false} BodyHeadersLookup(subject: string, sender: Option<string>, receivers: Recipients, cc: Recipients, bcc: Recipients, key: string)
    ensures Get(BodyHeaders(subject, sender, receivers, cc, bcc), key) ==
      if key == "from" then Some(AddressValue(sender))
      else if key == "subject" then Some(SubjectValue(subject))
      else if key == "to" then RecipientHeader(receivers)
      else if key == "cc" then RecipientHeader(cc)
      else if key == "bcc" then RecipientHeader(bcc)
      else None
  {
    var h0 := [Header("from", AddressValue(sender)), Header("subject", SubjectValue(subject))];
    var h1 := AddIf(h0, receivers.Truthy(), "to", RecipientsValue(receivers));
    var h2 := AddIf(h1, cc.Truthy(), "cc", RecipientsValue(cc));
    var h3 := AddIf(h2, bcc.Truthy(), "bcc", RecipientsValue(bcc));
    assert h3 == BodyHeaders(subject, sender, receivers, cc, bcc);
    assert Get(h0, key) == if key == "from" then Some(AddressValue(sender))
      else if key == "subject" then Some(SubjectValue(subject)) else None;
    GetAddIf(h0, receivers.Truthy(), "to", RecipientsValue(receivers), key);
    GetAddIf(h1, cc.Truthy(), "cc", RecipientsValue(cc), key);
    GetAddIf(h2, bcc.Truthy(), "bcc", RecipientsValue(bcc), key);
  }

  /** The position of a header name in the order `_create_body` sets them. */
  function Slot(name: string): nat {
    if name == "from" then 0
    else if name == "subject" then 1
    else if name == "to" then 2
    else if name == "cc" then 3
    else 4
  }

  /** Header names strictly follow the order `_create_body` sets them in,
      so none appears twice. */
  predicate InSetOrder(hs: seq<Header>) {
    forall i, j | 0 <= i < j < |hs| :: Slot(hs[i].name) < Slot(hs[j].name)
  }

  /** Only the five known headers appear, each at most once, in the order
      from, subject, to, cc, bcc. */
  lemma BodyHeadersOrdered(subject: string, sender: Option<string>, receivers: Recipients, cc: Recipients, bcc: Recipients)
    ensures var hs := BodyHeaders(subject, sender, receivers, cc, bcc);
      && (forall i | 0 <= i < |hs| :: hs[i].name in {"from", "subject", "to", "cc", "bcc"})
      && InSetOrder(hs)
  {
  }

  /** The external mail server the message is handed to; `delivered` records
      each delivery in order. */
  class MailServer {
    var delivered: seq<Message>

    constructor ()
      ensures delivered == []
    {
      delivered := [];
    }

    method Deliver(msg: Message)
      modifies this
      ensures delivered == old(delivered) + [msg]
    {
      delivered := delivered + [msg];
    }
  }

  class EmailSender {
    var host: string
    var port: int
    var userName: Option<string>
    var password: Option<string>
    var useStarttls: bool

    // Defaults for the arguments of `send`.
    var sender: Option<string>
    var receivers: Recipients
    var cc: Recipients
    var bcc: Recipients
    var subject: Option<string>
    var text: Option<string>
    var html: Option<string>
    var htmlTemplate: Option<string>
    var textTemplate: Option<string>

    // Class attributes, which an instance may shadow.
    var defaultHtmlTheme: Option<string>
    var defaultTextTheme: Option<string>
    var templatesHtml: TemplateEnv
    var templatesHtmlTable: TemplateEnv
    var templatesText: TemplateEnv
    var templatesTextTable: TemplateEnv
    var attachmentEncoding: string

    var recipientHooks: RecipientHooks

    constructor (host: string, port: int, userName: Option<string>, password: Option<string>, useStarttls: bool)
      ensures this.host == host && this.port == port && this.useStarttls == useStarttls
      ensures this.userName == userName && this.password == password
      ensures sender.None? && subject.None? && text.None? && html.None?
      ensures htmlTemplate.None? && textTemplate.None?
      ensures receivers == NoRecipients && cc == NoRecipients && bcc == NoRecipients
      ensures defaultHtmlTheme == Some(DefaultHtmlTheme) && defaultTextTheme == Some(DefaultTextTheme)
      ensures templatesHtml == TemplatesHtml && templatesHtmlTable == TemplatesHtmlTable
      ensures templatesText == TemplatesText && templatesTextTable == TemplatesTextTable
      ensures attachmentEncoding == DefaultAttachmentEncoding
      ensures recipientHooks.Inherited?
    {
      this.host := host;
      this.port := port;
      this.userName := userName;
      this.password := password;
      sender := None;
      receivers := NoRecipients;
      cc := NoRecipients;
      bcc := NoRecipients;
      subject := None;
      text := None;
      html := None;
      htmlTemplate := None;
      textTemplate := None;
      this.useStarttls := useStarttls;
      defaultHtmlTheme := Some(DefaultHtmlTheme);
      defaultTextTheme := Some(DefaultTextTheme);
      templatesHtml := TemplatesHtml;
      templatesHtmlTable := TemplatesHtmlTable;
      templatesText := TemplatesText;
      templatesTextTable := TemplatesTextTable;
      attachmentEncoding := DefaultAttachmentEncoding;
      recipientHooks := Inherited;
    }

    /** `get_sender`: the argument, else the instance sender, else the user name. */
    function GetSender(sender: Option<string>): (r: Option<string>)
      reads this
      ensures StrTruthy(sender) ==> r == sender
      ensures !StrTruthy(sender) && StrTruthy(this.sender) ==> r == this.sender
      ensures !StrTruthy(sender) && !StrTruthy(this.sender) ==> r == userName
    {
      StrOr(StrOr(sender, this.sender), userName)
    }

    /** `get_receivers`: the argument, else the instance receivers. */
    function GetReceivers(receivers: Recipients): (r: Recipients)
      reads this
      ensures recipientHooks.Inherited? ==> r == (if receivers.Truthy() then receivers else this.receivers)
      ensures recipientHooks.Overrides? ==> r == recipientHooks.receivers(receivers)
    {
      match recipientHooks
      case Inherited => RecipientsOr(receivers, this.receivers)
      case Overrides(f, _, _) => f(receivers)
    }

    /** `get_cc`: the argument, else the instance cc. */
    function GetCc(cc: Recipients): (r: Recipients)
      reads this
      ensures recipientHooks.Inherited? ==> r == (if cc.Truthy() then cc else this.cc)
      ensures recipientHooks.Overrides? ==> r == recipientHooks.cc(cc)
    {
      match recipientHooks
      case Inherited => RecipientsOr(cc, this.cc)
      case Overrides(_, f, _) => f(cc)
    }

    /** `get_bcc`: the argument, else the instance bcc. */
    function GetBcc(bcc: Recipients): (r: Recipients)
      reads this
      ensures recipientHooks.Inherited? ==> r == (if bcc.Truthy() then bcc else this.bcc)
      ensures recipientHooks.Overrides? ==> r == recipientHooks.bcc(bcc)
    {
      match recipientHooks
      case Inherited => RecipientsOr(bcc, this.bcc)
      case Overrides(_, _, f) => f(bcc)
    }

    /** The fallbacks at the top of `get_message`. */
    function Resolve(a: Arguments): (r: Resolved)
      reads this
      ensures r.subject == StrOr(a.subject, subject) && r.text == StrOr(a.text, text) && r.html == StrOr(a.html, html)
      ensures r.htmlTemplate == StrOr(a.htmlTemplate, htmlTemplate) && r.textTemplate == StrOr(a.textTemplate, textTemplate)
      ensures r.subject.None? <==> !StrTruthy(a.subject) && subject.None?
      ensures r.text.Some? <==> StrTruthy(a.text) || text.Some?
      ensures r.html.Some? <==> StrTruthy(a.html) || html.Some?
      ensures r.textTemplate.Some? <==> StrTruthy(a.textTemplate) || textTemplate.Some?
      ensures r.htmlTemplate.Some? <==> StrTruthy(a.htmlTemplate) || htmlTemplate.Some?
      ensures r.sender == GetSender(a.sender)
      ensures r.receivers == GetReceivers(a.receivers) && r.cc == GetCc(a.cc) && r.bcc == GetBcc(a.bcc)
    {
      Resolved(StrOr(a.subject, subject), GetSender(a.sender),
               GetReceivers(a.receivers), GetCc(a.cc), GetBcc(a.bcc),
               StrOr(a.html, html), StrOr(a.text, text),
               StrOr(a.htmlTemplate, htmlTemplate), StrOr(a.textTemplate, textTemplate))
    }

    /** `get_html_table_template`: a missing layout selects the default HTML theme. */
    function GetHtmlTableTemplate(layout: Option<string>): (t: Option<Template>)
      reads this
      ensures layout.Some? ==> t == Some(Template(templatesHtmlTable, layout.value))
      ensures layout.None? ==> (t.None? <==> defaultHtmlTheme.None?)
      ensures layout.None? && defaultHtmlTheme.Some? ==> t == Some(Template(templatesHtmlTable, defaultHtmlTheme.value))
    {
      var layout := if layout.None? then defaultHtmlTheme else layout;
      if layout.None? then None else Some(Template(templatesHtmlTable, layout.value))
    }

    /** `get_html_template`: no layout, no template. */
    function GetHtmlTemplate(layout: Option<string>): (t: Option<Template>)
      reads this
      ensures t.None? <==> layout.None?
      ensures t.Some? ==> t.value == Template(templatesHtml, layout.value)
    {
      if layout.None? then None else Some(Template(templatesHtml, layout.value))
    }

    /** `get_text_table_template`: a missing layout selects the default text theme. */
    function GetTextTableTemplate(layout: Option<string>): (t: Option<Template>)
      reads this
      ensures layout.Some? ==> t == Some(Template(templatesTextTable, layout.value))
      ensures layout.None? ==> (t.None? <==> defaultTextTheme.None?)
      ensures layout.None? && defaultTextTheme.Some? ==> t == Some(Template(templatesTextTable, defaultTextTheme.value))
    {
      var layout := if layout.None? then defaultTextTheme else layout;
      if layout.None? then None else Some(Template(templatesTextTable, layout.value))
    }

    /** `get_text_template`: no layout, no template. */
    function GetTextTemplate(layout: Option<string>): (t: Option<Template>)
      reads this
      ensures t.None? <==> layout.None?
      ensures t.Some? ==> t.value == Template(templatesText, layout.value)
    {
      if layout.None? then None else Some(Template(templatesText, layout.value))
    }

    /** The text part `get_message` attaches, if any. */
    function TextParts(a: Arguments, textSys: SystemInfo): (ps: seq<Part>)
      reads this
      ensures |ps| <= 1 && forall i | 0 <= i < |ps| :: ps[i].TextPart?
    {
      var r := Resolve(a);
      if r.text.Some? || r.textTemplate.Some? then
        [TextPart(GetTextTemplate(r.textTemplate), GetTextTableTemplate(None), r.text, a.bodyTables,
                  TemplateParams(textSys, r.sender, TextInline, a.bodyParams))]
      else []
    }

    /** The HTML part `get_message` attaches, if any. */
    function HtmlParts(a: Arguments, htmlSys: SystemInfo): (ps: seq<Part>)
      reads this
      ensures |ps| <= 1 && forall i | 0 <= i < |ps| :: ps[i].HtmlPart?
    {
      var r := Resolve(a);
      if r.html.Some? || r.htmlTemplate.Some? then
        [HtmlPart(GetHtmlTemplate(r.htmlTemplate), GetHtmlTableTemplate(None), r.html, a.bodyImages, a.bodyTables,
                  TemplateParams(htmlSys, r.sender, HtmlInline, a.bodyParams))]
      else []
    }

    /** The attachments part `get_message` attaches, if any. */
    function AttachmentParts(a: Arguments): (ps: seq<Part>)
      reads this
      ensures |ps| <= 1 && forall i | 0 <= i < |ps| :: ps[i].AttachmentsPart?
    {
      if DictTruthy(a.attachments) then [AttachmentsPart(a.attachments.value, attachmentEncoding)] else []
    }

    /** The parts `get_message` attaches, in order. */
    function PartsFor(a: Arguments, textSys: SystemInfo, htmlSys: SystemInfo): (ps: seq<Part>)
      reads this
      ensures |ps| <= 3
      ensures forall i, j | 0 <= i < j < |ps| :: ps[i].Rank() < ps[j].Rank()
    {
      TextParts(a, textSys) + HtmlParts(a, htmlSys) + AttachmentParts(a)
    }

    /** `_create_body`: a fresh message carrying only the headers. */
    method CreateBody(subject: string, sender: Option<string>, receivers: Recipients, cc: Recipients, bcc: Recipients)
      returns (msg: Message)
      ensures fresh(msg)
      ensures msg.headers == BodyHeaders(subject, sender, receivers, cc, bcc) && msg.parts == []
    {
      msg := new Message();
      msg.SetHeader("from", AddressValue(sender));
      msg.SetHeader("subject", SubjectValue(subject));
      ghost var h0 := msg.headers;
      assert h0 == [Header("from", AddressValue(sender)), Header("subject", SubjectValue(subject))];
      if receivers.Truthy() {
        msg.SetHeader("to", RecipientsValue(receivers));
      }
      ghost var h1 := msg.headers;
      assert h1 == AddIf(h0, receivers.Truthy(), "to", RecipientsValue(receivers));
      if cc.Truthy() {
        msg.SetHeader("cc", RecipientsValue(cc));
      }
      ghost var h2 := msg.headers;
      assert h2 == AddIf(h1, cc.Truthy(), "cc", RecipientsValue(cc));
      if bcc.Truthy() {
        msg.SetHeader("bcc", RecipientsValue(bcc));
      }
      assert msg.headers == AddIf(h2, bcc.Truthy(), "bcc", RecipientsValue(bcc));
    }

    /** `get_html_params`, updating the dictionary in place. */
    method GetHtmlParams(extra: Option<Params>, sys: SystemInfo, sender: Option<string>) returns (params: Params)
      ensures params == TemplateParams(sys, sender, HtmlInline, extra)
    {
      params := GetParams(sys, sender);
      params := params + map["error" := ErrorMarker(HtmlInline)];
      if DictTruthy(extra) {
        params := params + extra.value;
      }
    }

    /** `get_text_params`, updating the dictionary in place. */
    method GetTextParams(extra: Option<Params>, sys: SystemInfo, sender: Option<string>) returns (params: Params)
      ensures params == TemplateParams(sys, sender, TextInline, extra)
    {
      params := GetParams(sys, sender);
      params := params + map["error" := ErrorMarker(TextInline)];
      if DictTruthy(extra) {
        params := params + extra.value;
      }
    }

    /** `get_message`. `textSys` and `htmlSys` are what the system calls return
        when the text and the HTML parameters are built. */
    method GetMessage(a: Arguments, textSys: SystemInfo, htmlSys: SystemInfo) returns (r: Outcome)
      ensures r.Raised? <==> Resolve(a).subject.None?
      ensures r.Raised? ==> r.error == MissingSubject
      ensures r.Built? ==> fresh(r.msg)
      ensures r.Built? ==> var res := Resolve(a);
        && r.msg.headers == BodyHeaders(res.subject.value, res.sender, res.receivers, res.cc, res.bcc)
        && r.msg.parts == PartsFor(a, textSys, htmlSys)
    {
      var subject := StrOr(a.subject, this.subject);
      var sender := GetSender(a.sender);

      var receivers := GetReceivers(a.receivers);
      var cc := GetCc(a.cc);
      var bcc := GetBcc(a.bcc);

      var html := StrOr(a.html, this.html);
      var text := StrOr(a.text, this.text);
      var htmlTemplate := StrOr(a.htmlTemplate, this.htmlTemplate);
      var textTemplate := StrOr(a.textTemplate, this.textTemplate);

      if subject.None? {
        return Raised(MissingSubject);
      }

      var msg := CreateBody(subject.value, sender, receivers, cc, bcc);
      assert Resolve(a) == Resolved(subject, sender, receivers, cc, bcc, html, text, htmlTemplate, textTemplate);

      if text.Some? || textTemplate.Some? {
        var params := GetTextParams(a.bodyParams, textSys, sender);
        msg.Attach(TextPart(GetTextTemplate(textTemplate), GetTextTableTemplate(None), text, a.bodyTables, params));
      }
      assert msg.parts == TextParts(a, textSys);

      if html.Some? || htmlTemplate.Some? {
        var params := GetHtmlParams(a.bodyParams, htmlSys, sender);
        msg.Attach(HtmlPart(GetHtmlTemplate(htmlTemplate), GetHtmlTableTemplate(None), html, a.bodyImages, a.bodyTables, params));
      }
      assert msg.parts == TextParts(a, textSys) + HtmlParts(a, htmlSys);

      if DictTruthy(a.attachments) {
        msg.Attach(AttachmentsPart(a.attachments.value, attachmentEncoding));
      }
      return Built(msg);
    }

    /** `send_message`: hands the message to the server once. Connecting,
        STARTTLS, login and quit are not modelled. */
    method SendMessage(server: MailServer, msg: Message)
      modifies server
      ensures server.delivered == old(server.delivered) + [msg]
    {
      server.Deliver(msg);
    }

    /** `send`: builds the message, delivers it once, and returns it; nothing
        is delivered when building raises. */
    method Send(server: MailServer, a: Arguments, textSys: SystemInfo, htmlSys: SystemInfo) returns (r: Outcome)
      modifies server
      ensures r.Raised? <==> Resolve(a).subject.None?
      ensures r.Raised? ==> r.error == MissingSubject && server.delivered == old(server.delivered)
      ensures r.Built? ==> fresh(r.msg) && server.delivered == old(server.delivered) + [r.msg]
      ensures r.Built? ==> var res := Resolve(a);
        && r.msg.headers == BodyHeaders(res.subject.value, res.sender, res.receivers, res.cc, res.bcc)
        && r.msg.parts == PartsFor(a, textSys, htmlSys)
    {
      r := GetMessage(a, textSys, htmlSys);
      if r.Raised? {
        return;
      }
      SendMessage(server, r.msg);
    }

    /** `set_template_paths`: replaces exactly the environments whose path is given. */
    method SetTemplatePaths(html: Option<string>, text: Option<string>, htmlTable: Option<string>, textTable: Option<string>)
      modifies this`templatesHtml, this`templatesText, this`templatesHtmlTable, this`templatesTextTable
      ensures templatesHtml == if html.Some? then LoaderEnv(html.value) else old(templatesHtml)
      ensures templatesText == if text.Some? then LoaderEnv(text.value) else old(templatesText)
      ensures templatesHtmlTable == if htmlTable.Some? then LoaderEnv(htmlTable.value) else old(templatesHtmlTable)
      ensures templatesTextTable == if textTable.Some? then LoaderEnv(textTable.value) else old(templatesTextTable)
    {
      if html.Some? {
        templatesHtml := LoaderEnv(html.value);
      }
      if text.Some? {
        templatesText := LoaderEnv(text.value);
      }
      if htmlTable.Some? {
        templatesHtmlTable := LoaderEnv(htmlTable.value);
      }
      if textTable.Some? {
        templatesTextTable := LoaderEnv(textTable.value);
      }
    }
  }

  /** A text part is attached exactly when the resolved text or text template is not None. */
  lemma TextPartIff(s: EmailSender, a: Arguments, textSys: SystemInfo, htmlSys: SystemInfo)
    ensures var ps := s.PartsFor(a, textSys, htmlSys);
      (exists i | 0 <= i < |ps| :: ps[i].TextPart?) <==>
        StrTruthy(a.text) || s.text.Some? || StrTruthy(a.textTemplate) || s.textTemplate.Some?
  {
    var ps := s.PartsFor(a, textSys, htmlSys);
    var t, h, at := s.TextParts(a, textSys), s.HtmlParts(a, htmlSys), s.AttachmentParts(a);
    if t != [] {
      assert ps[0] == t[0];
    } else {
      assert ps == h + at;
      assert forall i | 0 <= i < |ps| :: !ps[i].TextPart? by {
        forall i | 0 <= i < |ps| ensures !ps[i].TextPart? {
          if i < |h| { assert ps[i] == h[i]; } else { assert ps[i] == at[i - |h|]; }
        }
      }
    }
  }

  /** An HTML part is attached exactly when the resolved HTML or HTML template is not None. */
  lemma HtmlPartIff(s: EmailSender, a: Arguments, textSys: SystemInfo, htmlSys: SystemInfo)
    ensures var ps := s.PartsFor(a, textSys, htmlSys);
      (exists i | 0 <= i < |ps| :: ps[i].HtmlPart?) <==>
        StrTruthy(a.html) || s.html.Some? || StrTruthy(a.htmlTemplate) || s.htmlTemplate.Some?
  {
    var ps := s.PartsFor(a, textSys, htmlSys);
    var t, h, at := s.TextParts(a, textSys), s.HtmlParts(a, htmlSys), s.AttachmentParts(a);
    if h != [] {
      assert ps[|t|] == h[0];
    } else {
      assert ps == t + at;
      forall i | 0 <= i < |ps| ensures !ps[i].HtmlPart? {
        if i < |t| { assert ps[i] == t[i]; } else { assert ps[i] == at[i - |t|]; }
      }
    }
  }

  /** The attachments are attached exactly when the attachments dict is truthy,
      as the last part and unchanged. */
  lemma AttachmentsPartIff(s: EmailSender, a: Arguments, textSys: SystemInfo, htmlSys: SystemInfo)
    ensures var ps := s.PartsFor(a, textSys, htmlSys);
      && ((exists i | 0 <= i < |ps| :: ps[i].AttachmentsPart?) <==> DictTruthy(a.attachments))
      && (DictTruthy(a.attachments) ==> ps[|ps| - 1] == AttachmentsPart(a.attachments.value, s.attachmentEncoding))
  {
  }

  /** The text part, when present, is the first part; it renders with the
      resolved text template and the default text table theme, and gets the
      text parameters for the resolved sender. */
  lemma TextPartContents(s: EmailSender, a: Arguments, textSys: SystemInfo, htmlSys: SystemInfo, i: nat)
    requires var ps := s.PartsFor(a, textSys, htmlSys); i < |ps| && ps[i].TextPart?
    ensures var p := s.PartsFor(a, textSys, htmlSys)[i];
      && i == 0
      && p.text == StrOr(a.text, s.text)
      && p.template == s.GetTextTemplate(StrOr(a.textTemplate, s.textTemplate))
      && p.tableTemplate == s.GetTextTableTemplate(None)
      && p.tables == a.bodyTables
      && p.params == TemplateParams(textSys, s.GetSender(a.sender), TextInline, a.bodyParams)
  {
  }

  /** The HTML part, when present, comes right after the text part if there is
      one; it renders with the resolved HTML template and the default HTML table
      theme, carries the images and tables, and gets the HTML parameters. */
  lemma HtmlPartContents(s: EmailSender, a: Arguments, textSys: SystemInfo, htmlSys: SystemInfo, i: nat)
    requires var ps := s.PartsFor(a, textSys, htmlSys); i < |ps| && ps[i].HtmlPart?
    ensures var p := s.PartsFor(a, textSys, htmlSys)[i];
      && i == |s.TextParts(a, textSys)|
      && p.html == StrOr(a.html, s.html)
      && p.template == s.GetHtmlTemplate(StrOr(a.htmlTemplate, s.htmlTemplate))
      && p.tableTemplate == s.GetHtmlTableTemplate(None)
      && p.images == a.bodyImages && p.tables == a.bodyTables
      && p.params == TemplateParams(htmlSys, s.GetSender(a.sender), HtmlInline, a.bodyParams)
  {
  }
}
