# Red Mail: the message-composition layer of `EmailSender`

This project models how Red Mail's `EmailSender` decides what goes into an
email before any MIME encoding or SMTP traffic happens:

- **Fallbacks.** The per-call `subject`, `sender`, `receivers`, `cc`, `bcc`,
  `html`, `text`, `html_template` and `text_template` fall back to the
  instance default with Python's `or`, so `None`, `""` and `[]` count as
  missing. The sender falls back further to `user_name`. `body_images`,
  `body_tables`, `body_params` and `attachments` have no instance default
  and pass straight through; an empty dict counts as missing only in the
  `if attachments:` and `if extra:` tests. Recipients,
  cc and bcc are resolved only through the overridable hooks `get_receivers`,
  `get_cc` and `get_bcc`.
- **Validation.** A resolved subject of `None` raises
  `ValueError("Email must have a subject")` before any message is built. An
  explicit `""` with a `None` default raises too. A `""` default does not.
- **Headers.** `from` and `subject` are always set, in that order. Then `to`,
  `cc` and `bcc` follow, each only when its resolved value is truthy.
- **Parts.** The text body is attached when the resolved text or text
  template is not `None`. The HTML body is attached after it under the same
  rule for HTML. The attachments come last, and only for a non-empty dict.
- **Template parameters and layouts.** Parameters start with the base keys
  `node`, `user`, `now` and `sender`. The `error` marker is added next
  (`html-inline` for HTML, `text` for text). The caller's `body_params`
  override both. A table layout of `None` selects the default theme
  (`modest.html` or `pandas.txt`). A body layout of `None` selects no
  template.
- **Sending and template paths.** `send` delivers the message it built
  once and returns it. `set_template_paths` replaces exactly the Jinja
  environments whose path is given.

Layout:

- `py.dfy`, module `Py`: `Option`, Python truthiness and `or` on optional
  strings and on recipient arguments (`Union[List[str], str, None]`).
- `templates.dfy`, module `Templates`: Jinja environments, templates named
  by layout, and the template parameter dictionaries.
- `mime.dfy`, module `Mime`: the abstract message. `Message` is a class whose
  `headers` and `parts` lists are appended to in place, as `msg[name] = v` and
  the body builders' `attach` calls do. `Get` is `msg[name]`, the first header
  with that name.
- `sender.dfy`, module `Sender`: the `EmailSender` class and the functions
  that specify its methods (`BodyHeaders`, `TemplateParams`, `TextParts`,
  `HtmlParts`, `AttachmentParts`, `PartsFor`), with lemmas about them.
  `MailServer` stands for the SMTP server; it records each delivery.
- `cookbook.dfy`, module `Cookbook`: the distribution-list recipe from the
  cookbook test, where a subclass overrides the three recipient hooks.

Modelling choices:

- A subclass's overrides of `get_receivers`/`get_cc`/`get_bcc` are the
  `recipientHooks` field. `Inherited` is the base class's own behaviour, and
  `Overrides` holds the subclass's three functions.
- `node()`, `getuser()` and `datetime.now()` are a `SystemInfo` parameter.
  The text and the HTML parameters each call `get_params`, and `now()` may
  differ between the two calls. So `GetMessage` takes one snapshot for each.
- A Jinja environment is its loader directory plus the globals the sender
  installs (`get_span` and `is_last_group_row` in the two class-level table
  environments). A template is its environment plus its layout name. An
  environment made by `set_template_paths` has no such globals, because the
  source installs them only into the class-level table environments.
- A part records what `get_message` hands to `TextBody`, `HTMLBody` or
  `Attachments`: templates, content, tables, images and parameters.
- The code has no empty-message error: a message with a subject but no body
  and no attachments is built with headers only. The model follows the code.

## Model

| member | source | states |
|---|---|---|
| `Py.StrOr` | redmail/email/sender.py:287 | `a or b` on optional strings: the result is `a` when `a` is truthy and `b` otherwise; so it is truthy iff either is, and `None` iff `a` is falsy and `b` is `None` |
| `Py.RecipientsOr` | redmail/email/sender.py:339-349 | `a or b` on recipient arguments: the result is `a` when `a` is truthy and `b` otherwise; so it is truthy iff either is |
| `Mime.Message.constructor` | redmail/email/sender.py:356 | a new message has no headers and no parts |
| `Mime.Message.SetHeader` | redmail/email/sender.py:357-366 | setting a header appends it after the existing ones and leaves the parts alone |
| `Mime.Message.Attach` | redmail/email/sender.py:315-336 | attaching appends a part after the existing ones and leaves the headers alone |
| `Sender.GetParams` | redmail/email/sender.py:390-398 | the base template parameters have exactly the keys `node`, `user`, `now`, `sender`, holding the host name, the user name, the current time and the resolved sender address |
| `Sender.TemplateParams` | redmail/email/sender.py:400-418 | the parameter keys are the base keys, `error`, and the keys of `extra` when `extra` is truthy |
| `Sender.ParamsPrecedence` | redmail/email/sender.py:400-418 | per key: a key of `extra` wins, even over `error`; otherwise `error` is the marker for the content type; otherwise a base key keeps its base value; nothing else is present |
| `Sender.BodyHeaders` | redmail/email/sender.py:355-367 | the header list has 2 to 5 entries and always starts with `from` = sender, then `subject` = subject |
| `Sender.BodyHeadersLookup` | redmail/email/sender.py:355-367 | `msg["from"]` is the sender and `msg["subject"]` the subject; `msg["to"]`, `msg["cc"]` and `msg["bcc"]` are the resolved value exactly when it is truthy and absent otherwise; no other header is present |
| `Sender.BodyHeadersOrdered` | redmail/email/sender.py:355-367 | only `from`, `subject`, `to`, `cc`, `bcc` appear, each at most once, in that order |
| `Sender.MailServer.Deliver` | redmail/email/sender.py:373 | the server records the delivered message after the earlier ones |
| `Sender.EmailSender.constructor` | redmail/email/sender.py:112-151 | the connection settings are stored; every send default is `None`; the themes are `modest.html` and `pandas.txt`; the environments are the class-level ones; the attachment encoding is `UTF-8`; no recipient hook is overridden |
| `Sender.EmailSender.GetSender` | redmail/email/sender.py:351-353 | the argument if truthy, else the instance sender if truthy, else the user name |
| `Sender.EmailSender.GetReceivers` | redmail/email/sender.py:339-341 | the base class gives the argument if truthy, else the instance receivers; an override's result is used as it is |
| `Sender.EmailSender.GetCc` | redmail/email/sender.py:343-345 | the base class gives the argument if truthy, else the instance cc; an override's result is used as it is |
| `Sender.EmailSender.GetBcc` | redmail/email/sender.py:347-349 | the base class gives the argument if truthy, else the instance bcc; an override's result is used as it is |
| `Sender.EmailSender.Resolve` | redmail/email/sender.py:287-297 | subject, text, html and both templates are `argument or default`; so the subject resolves to `None` iff the argument is falsy and the default is `None`; text, HTML and both templates resolve to non-`None` iff the argument is truthy or the default is non-`None`; sender through `get_sender`; receivers, cc and bcc through the overridable hooks |
| `Sender.EmailSender.GetHtmlTableTemplate` | redmail/email/sender.py:420-425 | a given layout is loaded from the HTML table environment; with no layout the default HTML theme is used, and there is no template iff that theme is `None` |
| `Sender.EmailSender.GetHtmlTemplate` | redmail/email/sender.py:427-431 | there is a template iff a layout is given, and it comes from the HTML environment |
| `Sender.EmailSender.GetTextTableTemplate` | redmail/email/sender.py:433-438 | a given layout is loaded from the text table environment; with no layout the default text theme is used, and there is no template iff that theme is `None` |
| `Sender.EmailSender.GetTextTemplate` | redmail/email/sender.py:440-444 | there is a template iff a layout is given, and it comes from the text environment |
| `Sender.EmailSender.TextParts` | redmail/email/sender.py:310-320 | at most one part is produced, and it is a text part |
| `Sender.EmailSender.HtmlParts` | redmail/email/sender.py:322-333 | at most one part is produced, and it is an HTML part |
| `Sender.EmailSender.AttachmentParts` | redmail/email/sender.py:334-336 | at most one part is produced, and it is the attachments part |
| `Sender.EmailSender.CreateBody` | redmail/email/sender.py:355-367 | builds a fresh message whose headers are `BodyHeaders` and which has no parts |
| `Sender.EmailSender.GetHtmlParams` | redmail/email/sender.py:400-408 | the dict updated in place ends as `TemplateParams` with the `html-inline` marker |
| `Sender.EmailSender.GetTextParams` | redmail/email/sender.py:410-418 | the dict updated in place ends as `TemplateParams` with the `text` marker |
| `Sender.EmailSender.GetMessage` | redmail/email/sender.py:271-337 | raises `Email must have a subject` iff the resolved subject is `None`, and then builds nothing; otherwise returns a fresh message with `BodyHeaders` of the resolved values and the parts `PartsFor` |
| `Sender.EmailSender.SendMessage` | redmail/email/sender.py:369-375 | the message is delivered to the server exactly once |
| `Sender.EmailSender.Send` | redmail/email/sender.py:253-269 | returns the message `GetMessage` specifies, after delivering it once; when building raises, nothing is delivered |
| `Sender.EmailSender.SetTemplatePaths` | redmail/email/sender.py:446-469 | each environment whose path is given is replaced by a fresh loader for that path; the others and every other field are unchanged |
| `Sender.EmailSender.PartsFor` | redmail/email/sender.py:310-336 | at most three parts, in the order text, HTML, attachments, each kind at most once |
| `Sender.TextPartIff` | redmail/email/sender.py:294-320 | a text part is attached iff the text or text-template argument is truthy or its default is not `None` |
| `Sender.HtmlPartIff` | redmail/email/sender.py:294-333 | an HTML part is attached iff the html or html-template argument is truthy or its default is not `None` |
| `Sender.AttachmentsPartIff` | redmail/email/sender.py:334-336 | the attachments part is present iff the attachments dict is truthy, and then it is the last part and carries the dict and the encoding |
| `Sender.TextPartContents` | redmail/email/sender.py:310-320 | the text part is first; it has the resolved text, the text template for the resolved layout, the default text table theme, the tables, and the text parameters for the resolved sender |
| `Sender.HtmlPartContents` | redmail/email/sender.py:322-333 | the HTML part comes right after the text part, if there is one; it has the resolved HTML, the HTML template, the default HTML table theme, the images, the tables, and the HTML parameters for the resolved sender |
| `Cookbook.DistributionList` | redmail/test/email/test_cookbook.py:8-53 | with overridden hooks that expand group names, the headers are exactly from, subject, to = group 1 and cc = group 2, there is no bcc, and no part is attached |

## Left out

- SMTP transport: `connect` (building the `cls_smtp` client with `kws_smtp`, STARTTLS, login) and `quit`. This is network I/O. Delivery is the `MailServer.delivered` record.
- Jinja: template loading, rendering and `TemplateNotFound` belong to a foreign library. A template is its environment and layout name.
- `TextBody`, `HTMLBody`, `Attachments`, `get_span`, `is_last_group_row`, `EmailAddress` and `Error` are defined in files that are not part of this model. Their rendering, table grouping, image embedding, MIME types and attachment encoding are not modelled. A part records what is handed to them.
- MIME serialisation, multipart nesting and case-insensitive header names belong to Python's `email` package. Header names are compared exactly as the sender writes them.
- `node()`, `getuser()` and `datetime.now()` are nondeterministic. They are given as `SystemInfo` values.
- Class-level attributes shared by all instances: the model gives each instance its own copy of the themes, environments and encoding. Changing a class attribute after construction is not modelled.
- The package directory that prefixes the default template paths is omitted; the paths are relative to it.
- Runtime type errors from arguments of the wrong Python type (a list as subject, for example) are not modelled. The argument types are those the signatures declare.
- The cookbook recipe's hook raises `KeyError` for an unknown group name and `TypeError` for a truthy list argument, since a list cannot be a dict key (redmail/test/email/test_cookbook.py:15-25). The model returns `None` in both cases; the recipe reaches neither.
- Cookbook.DistributionList: the recipe's expected text (redmail/test/email/test_cookbook.py:50-51) also has `Message-ID` and `Date` lines. redmail/email/sender.py never sets them, and the code that adds them is not part of this model. The model follows sender.py, so the message has four headers.
