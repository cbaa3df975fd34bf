/**
 * The two sides of the `/api/send-zeel` call put together: the JSON body the
 * form posts for a draft, what the handler does with it, and what the form
 * makes of the handler's answer.
 */
module EndToEnd {
  import opened Wrappers
  import opened JsString
  import SendZeel
  import LoanApplicationForm

  /** The parsed body of the form's POST: every property is present as a string. */
  function FieldsOf(p: LoanApplicationForm.Payload): SendZeel.Fields {
    SendZeel.Fields(Some(p.surname), Some(p.name), Some(p.phone),
                    Some(p.loanType), Some(p.loanTypeLabel),
                    Some(p.branch), Some(p.branchLabel), Some(p.comment))
  }

  /** The request `handleSubmit` sends for a draft. */
  function RequestOf(form: LoanApplicationForm.Form): SendZeel.Request {
    SendZeel.Request("POST", SendZeel.Json(FieldsOf(LoanApplicationForm.PayloadOf(form))))
  }

  /**
   * How the form reads the handler's answer: a 2xx status is `res.ok`; any
   * other status carries the `error` property of the JSON body, when it has one.
   */
  function Observe(resp: SendZeel.Response): (r: LoanApplicationForm.FetchOutcome)
    ensures r.Ok? <==> 200 <= resp.status < 300
    ensures r.HttpError? ==> (r.error.Some? <==> resp.body.ErrorJson?)
    ensures r.HttpError? && resp.body.ErrorJson? ==> r.error.value == resp.body.error
  {
    if 200 <= resp.status < 300 then LoanApplicationForm.Ok
    else if resp.body.ErrorJson? then LoanApplicationForm.HttpError(Some(resp.body.error))
    else LoanApplicationForm.HttpError(None)
  }

  /**
   * A draft that passes the form's own validation never fails the handler's
   * required-field check: the form checks a superset of what the handler needs.
   */
  lemma ValidDraftHasRequiredFields(form: LoanApplicationForm.Form)
    requires LoanApplicationForm.Complete(form)
    ensures !SendZeel.MissingRequired(RequestOf(form).body.fields)
  {
    LoanApplicationForm.PayloadOfComplete(form);
  }

  /**
   * The comment row appears in the e-mail exactly when the comment typed into
   * the form holds something other than white space.
   */
  lemma CommentRowExactlyWhenWritten(form: LoanApplicationForm.Form)
    ensures var f := RequestOf(form).body.fields;
      var rows := SendZeel.RowPairs(SendZeel.MailFields(f.surname.value, f.name.value, f.phone.value,
                                                        f.loanTypeLabel.value, f.branchLabel.value,
                                                        OrElse(f.comment, "")));
      |rows| == 6 <==> !AllSpace(form.comment)
  {
    TrimSpec(form.comment);
  }

  /**
   * A validated draft posted to the handler: it is e-mailed exactly when the
   * API key is set and the chosen branch resolves to a recipient; the e-mail
   * shows the trimmed fields and the looked-up labels; and whatever the
   * handler answers, the form sees success exactly when the e-mail went out
   * and the provider accepted it, and otherwise always gets an error text of
   * the handler's own, never its generic fallback.
   */
  method Submit(form: LoanApplicationForm.Form, cfg: SendZeel.Config, outcome: SendZeel.SendResult)
    returns (resp: SendZeel.Response, sent: Option<SendZeel.Email>)
    requires LoanApplicationForm.Complete(form)
    ensures sent.Some? <==> Truthy(cfg.apiKey) && Truthy(SendZeel.GetToEmail(cfg, form.branch))
    ensures sent.Some? ==>
              var loanTypeLabel := LoanApplicationForm.LabelFor(LoanApplicationForm.LoanTypes, form.loanType);
              var branchLabel := LoanApplicationForm.LabelFor(LoanApplicationForm.Branches, form.branch);
              var mail := SendZeel.MailFields(Trim(form.surname), Trim(form.name), Trim(form.phone),
                                              loanTypeLabel, branchLabel, Trim(form.comment));
              && sent.value.rows == SendZeel.BuildRows(mail)
              && SendZeel.Shown(sent.value.rows) == SendZeel.RowPairs(mail)
              && SendZeel.NoRawMarkup(sent.value.rows)
              && sent.value.subject == SendZeel.Subject(branchLabel, Trim(form.name), Trim(form.surname))
    ensures Observe(resp).Ok? <==> sent.Some? && outcome.Delivered?
    ensures Observe(resp).HttpError? ==> Truthy(Observe(resp).error)
  {
    ValidDraftHasRequiredFields(form);
    var req := RequestOf(form);
    resp, sent := SendZeel.Handle(req, cfg, outcome);
    assert OrElse(req.body.fields.comment, "") == Trim(form.comment);
  }
}
