/** The distribution-list recipe of the cookbook tests: a subclass overrides
    `get_receivers`, `get_cc` and `get_bcc` to expand a group name into the
    group's addresses, and the headers carry exactly what the hooks return. */
module Cookbook {
  import opened Py
  import opened Mime
  import opened Sender

  const Group1 := ["me@example.com", "you@example.com"]
  const Group2 := ["he@example.com", "she@example.com"]

  /** The overridden hook: a truthy group name becomes that group's list,
      a falsy argument becomes None. Only names present in `lists` are
      used here: the KeyError for an unknown name and the TypeError for a
      truthy list argument (a list is not a dict key) are not modelled, and
      both cases yield None instead. */
  function DistributionHook(lists: map<string, seq<string>>): Recipients -> Recipients {
    (rs: Recipients) => if rs.Truthy() && rs.Address? && rs.address in lists then AddressList(lists[rs.address]) else NoRecipients
  }

  /** The headers `_create_body` sets for the recipe's resolved values. */
  lemma DistributionHeaders()
    ensures BodyHeaders("Some email", Some("me@example.com"), AddressList(Group1), AddressList(Group2), NoRecipients) == [
      Header("from", AddressValue(Some("me@example.com"))),
      Header("subject", SubjectValue("Some email")),
      Header("to", RecipientsValue(AddressList(Group1))),
      Header("cc", RecipientsValue(AddressList(Group2)))]
  {
  }

  /** Builds the recipe's message and returns its headers and parts: from,
      subject, to and cc in that order, no bcc, and no body. The recipe's
      expected text also has `Message-ID` and `Date` lines; `_create_body`
      never sets those, so they are not among these headers. */
  method DistributionList(sys: SystemInfo) returns (headers: seq<Header>, parts: seq<Part>)
    ensures headers == [
      Header("from", AddressValue(Some("me@example.com"))),
      Header("subject", SubjectValue("Some email")),
      Header("to", RecipientsValue(AddressList(Group1))),
      Header("cc", RecipientsValue(AddressList(Group2)))]
    ensures Get(headers, "bcc").None?
    ensures parts == []
  {
    var email := new EmailSender("localhost", 0, None, None, true);
    var hook := DistributionHook(map["group1" := Group1, "group2" := Group2]);
    email.recipientHooks := Overrides(hook, hook, hook);
    var args := NoArguments.(sender := Some("me@example.com"), receivers := Address("group1"),
                             cc := Address("group2"), subject := Some("Some email"));
    ghost var res := email.Resolve(args);
    assert res.subject == Some("Some email") && res.sender == Some("me@example.com");
    assert res.receivers == AddressList(Group1) && res.cc == AddressList(Group2) && res.bcc == NoRecipients;
    assert email.PartsFor(args, sys, sys) == [];
    var r := email.GetMessage(args, sys, sys);
    assert r.Built? && r.msg.parts == [];
    assert r.msg.headers == BodyHeaders("Some email", Some("me@example.com"), AddressList(Group1), AddressList(Group2), NoRecipients);
    headers, parts := r.msg.headers, r.msg.parts;
    DistributionHeaders();
    BodyHeadersLookup("Some email", Some("me@example.com"), AddressList(Group1), AddressList(Group2), NoRecipients, "bcc");
  }
}
