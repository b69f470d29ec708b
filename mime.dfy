/** The message the sender builds, kept abstract: an ordered list of headers
    and an ordered list of body or attachment parts. MIME serialisation and
    multipart nesting belong to Python's `email` package and are not modelled;
    a part records what the sender hands to the body or attachment builder. */
module Mime {
  import opened Py
  import opened Templates

  /** Content passed through to the body, table and attachment builders:
      a string, bytes, a path, or an object such as a DataFrame or a figure. */
  datatype Content =
    | StrContent(s: string)
    | BytesContent(bytes: seq<bv8>)
    | PathContent(path: string)
    | ObjectContent(id: nat)

  datatype HeaderValue =
    | AddressValue(address: Option<string>)
    | SubjectValue(text: string)
    | RecipientsValue(recipients: Recipients)

  datatype Header = Header(name: string, value: HeaderValue)

  /** One `attach` call on the message: the text body, the HTML body, or the
      attachments, with everything the sender passes to the builder. */
  datatype Part =
    | TextPart(template: Option<Template>, tableTemplate: Option<Template>, text: Option<string>,
               tables: Option<map<string, Content>>, params: Params)
    | HtmlPart(template: Option<Template>, tableTemplate: Option<Template>, html: Option<string>,
               images: Option<map<string, Content>>, tables: Option<map<string, Content>>, params: Params)
    | AttachmentsPart(files: map<string, Content>, encoding: string)
  {
    /** Position of this kind of part in a message: text, then HTML, then attachments. */
    function Rank(): nat {
      match this
      case TextPart(_, _, _, _, _) => 0
      case HtmlPart(_, _, _, _, _, _) => 1
      case AttachmentsPart(_, _) => 2
    }
  }

  /** `msg[name]`: the value of the first header called `name`, or None. */
  function Get(hs: seq<Header>, name: string): (r: Option<HeaderValue>)
    ensures r.None? <==> forall i | 0 <= i < |hs| :: hs[i].name != name
    ensures r.Some? ==> exists i | 0 <= i < |hs| :: hs[i] == Header(name, r.value)
  {
    if hs == [] then None
    else if hs[0].name == name then Some(hs[0].value)
    else
      var r := Get(hs[1..], name);
      assert r.Some? ==> exists i | 0 <= i < |hs[1..]| :: hs[1..][i] == Header(name, r.value);
      r
  }

  /** Looking a header up in two consecutive runs of headers. */
  lemma {:induction false} GetAppend(xs: seq<Header>, ys: seq<Header>, name: string)
    ensures Get(xs + ys, name) == if Get(xs, name).Some? then Get(xs, name) else Get(ys, name)
  {
    if xs == [] {
      assert xs + ys == ys;
    } else {
      assert (xs + ys)[1..] == xs[1..] + ys;
      GetAppend(xs[1..], ys, name);
    }
  }

  /** The message under construction (`email.message.EmailMessage`). */
  class Message {
    var headers: seq<Header>
    var parts: seq<Part>

    constructor ()
      ensures headers == [] && parts == []
    {
      headers := [];
      parts := [];
    }

    /** `msg[name] = value`: adds a header after those already set. */
    method SetHeader(name: string, value: HeaderValue)
      modifies this
      ensures headers == old(headers) + [Header(name, value)]
      ensures parts == old(parts)
    {
      headers := headers + [Header(name, value)];
    }

    /** Adds a part after those already attached. */
    method Attach(p: Part)
      modifies this
      ensures parts == old(parts) + [p]
      ensures headers == old(headers)
    {
      parts := parts + [p];
    }
  }
}
