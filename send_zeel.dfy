/**
 * The notification handler behind `POST /api/send-zeel`: it checks the method
 * and the configuration, parses and checks the submitted fields, resolves the
 * branch's inbox, renders the e-mail rows with HTML escaping and hands the
 * e-mail to the provider, reporting the outcome as an HTTP status and body.
 *
 * The environment (`process.env`), the result of `JSON.parse` and the result
 * of the provider call are inputs of the model.
 */
module SendZeel {
  import opened Wrappers
  import opened JsString

  // ---------------------------------------------------------------------------
  // escape

  /** The HTML entity `escape` writes for one character, or the character itself. */
  function EscapeChar(c: char): string {
    if c == '&' then "&amp;"
    else if c == '<' then "&lt;"
    else if c == '>' then "&gt;"
    else if c == '"' then "&quot;"
    else [c]
  }

  /** Reference definition of escaping: every character is rewritten on its own. */
  function EscapeEach(s: string): string {
    if s == [] then [] else EscapeChar(s[0]) + EscapeEach(s[1..])
  }

  /** The chain of four global replacements of `escape`, `&` first. */
  function EscapeText(s: string): string {
    ReplaceChar(ReplaceChar(ReplaceChar(ReplaceChar(s, '&', "&amp;"), '<', "&lt;"), '>', "&gt;"), '"', "&quot;")
  }

  /**
   * `escape(str)`: null, undefined and the empty string give the empty string;
   * any other string is escaped character by character, so that no entity that
   * one replacement introduces is rewritten again by a later one.
   */
  function Escape(v: Option<string>): (r: string)
    ensures v.None? ==> r == ""
    ensures v.Some? ==> r == EscapeEach(v.value)
  {
    if v.None? || v.value == "" then ""
    else EscapeTextIsPerChar(v.value); EscapeText(v.value)
  }

  lemma EscapeTextAppend(a: string, b: string)
    ensures EscapeText(a + b) == EscapeText(a) + EscapeText(b)
  {
    var s1, s2, s3 := ReplaceChar(a + b, '&', "&amp;"), ReplaceChar(a, '&', "&amp;"), ReplaceChar(b, '&', "&amp;");
    ReplaceCharAppend(a, b, '&', "&amp;");
    var t1, t2 := ReplaceChar(s2, '<', "&lt;"), ReplaceChar(s3, '<', "&lt;");
    ReplaceCharAppend(s2, s3, '<', "&lt;");
    var u1, u2 := ReplaceChar(t1, '>', "&gt;"), ReplaceChar(t2, '>', "&gt;");
    ReplaceCharAppend(t1, t2, '>', "&gt;");
    ReplaceCharAppend(u1, u2, '"', "&quot;");
  }

  /** A string without `c` is left alone by replacing `c`. */
  lemma {:induction false} ReplaceCharAbsent(s: string, c: char, rep: string)
    requires c !in s
    ensures ReplaceChar(s, c, rep) == s
  {
    if s != [] {
      ReplaceCharAbsent(s[1..], c, rep);
    }
  }

  /** Replacing in a one-character string. */
  lemma ReplaceCharSingle(c: char, d: char, rep: string)
    ensures ReplaceChar([c], d, rep) == if c == d then rep else [c]
  {
    assert [c][1..] == [];
  }

  /** A character `escape` rewrites: the first replacement that matches gives its entity, the others leave it. */
  lemma EscapeTextSpecial(c: char)
    requires c == '&' || c == '<' || c == '>' || c == '"'
    ensures EscapeText([c]) == EscapeChar(c)
  {
    var e := EscapeChar(c);
    ReplaceCharSingle(c, '&', "&amp;");
    if c == '&' {
      ReplaceCharAbsent(e, '<', "&lt;");
      ReplaceCharAbsent(e, '>', "&gt;");
      ReplaceCharAbsent(e, '"', "&quot;");
    } else {
      ReplaceCharSingle(c, '<', "&lt;");
      if c == '<' {
        ReplaceCharAbsent(e, '>', "&gt;");
        ReplaceCharAbsent(e, '"', "&quot;");
      } else {
        ReplaceCharSingle(c, '>', "&gt;");
        if c == '>' {
          ReplaceCharAbsent(e, '"', "&quot;");
        } else {
          ReplaceCharSingle(c, '"', "&quot;");
        }
      }
    }
  }

  /** On one character the chain of replacements gives that character's entity. */
  lemma EscapeTextChar(c: char)
    ensures EscapeText([c]) == EscapeChar(c)
  {
    if c == '&' || c == '<' || c == '>' || c == '"' {
      EscapeTextSpecial(c);
    } else {
      ReplaceCharSingle(c, '&', "&amp;");
      ReplaceCharSingle(c, '<', "&lt;");
      ReplaceCharSingle(c, '>', "&gt;");
      ReplaceCharSingle(c, '"', "&quot;");
    }
  }

  /** Because `&` is replaced first, the replacement chain equals per-character escaping. */
  lemma {:induction false} EscapeTextIsPerChar(s: string)
    ensures EscapeText(s) == EscapeEach(s)
  {
    if s == [] {
      assert EscapeText(s) == [];
    } else {
      assert s == [s[0]] + s[1..];
      EscapeTextAppend([s[0]], s[1..]);
      EscapeTextChar(s[0]);
      EscapeTextIsPerChar(s[1..]);
    }
  }

  /** No raw markup character: `<`, `>` or `"`. */
  predicate FreeOfMarkup(s: string) {
    forall i :: 0 <= i < |s| ==> s[i] != '<' && s[i] != '>' && s[i] != '"'
  }

  /** Nothing in `s` that `escape` would rewrite. */
  predicate NeedsNoEscaping(s: string) {
    FreeOfMarkup(s) && '&' !in s
  }

  /** Escaped text never contains a raw `<`, `>` or `"`. */
  lemma {:induction false} EscapeFreeOfMarkup(s: string)
    ensures FreeOfMarkup(EscapeEach(s))
  {
    if s != [] {
      EscapeFreeOfMarkup(s[1..]);
      var e, rest := EscapeChar(s[0]), EscapeEach(s[1..]);
      assert FreeOfMarkup(e);
      forall i | 0 <= i < |e + rest|
        ensures (e + rest)[i] != '<' && (e + rest)[i] != '>' && (e + rest)[i] != '"'
      {
        if i >= |e| {
          assert (e + rest)[i] == rest[i - |e|];
        }
      }
    }
  }

  /** Text with nothing to escape comes out unchanged. */
  lemma {:induction false} EscapeIdentityOnSafe(s: string)
    requires NeedsNoEscaping(s)
    ensures EscapeEach(s) == s
  {
    if s != [] {
      assert s[0] == s[..1][0];
      EscapeIdentityOnSafe(s[1..]);
    }
  }

  /** Each `&` grows by 4 characters, each `<` and `>` by 3, each `"` by 5. */
  lemma {:induction false} EscapeLength(s: string)
    ensures |EscapeEach(s)| == |s| + 4 * Count(s, '&') + 3 * Count(s, '<') + 3 * Count(s, '>') + 5 * Count(s, '"')
  {
    if s != [] {
      EscapeLength(s[1..]);
    }
  }

  /** What an HTML reader shows for text that may hold the four entities `escape` writes. */
  function DecodeEntities(s: string): string
    decreases |s|
  {
    if s == [] then []
    else if StartsWith(s, "&amp;") then "&" + DecodeEntities(s[5..])
    else if StartsWith(s, "&lt;") then "<" + DecodeEntities(s[4..])
    else if StartsWith(s, "&gt;") then ">" + DecodeEntities(s[4..])
    else if StartsWith(s, "&quot;") then "\"" + DecodeEntities(s[6..])
    else [s[0]] + DecodeEntities(s[1..])
  }

  /** Decoding an escaped character followed by more text gives the character back first. */
  lemma DecodeEscapedChar(c: char, rest: string)
    ensures DecodeEntities(EscapeChar(c) + rest) == [c] + DecodeEntities(rest)
  {
    var e := EscapeChar(c);
    var t := e + rest;
    assert t[..|e|] == e && t[|e|..] == rest;
    if c == '&' {
      assert StartsWith(t, "&amp;");
    } else if c == '<' {
      assert |t| >= 5 ==> t[..5][1] == 'l';
      assert StartsWith(t, "&lt;");
    } else if c == '>' {
      assert |t| >= 5 ==> t[..5][1] == 'g';
      assert t[..4][1] == 'g';
      assert StartsWith(t, "&gt;");
    } else if c == '"' {
      assert t[..5][1] == 'q';
      assert t[..4][1] == 'q';
      assert StartsWith(t, "&quot;");
    } else {
      assert t[0] == c && t[1..] == rest;
      assert !StartsWith(t, "&amp;") by { assert |t| < 5 || t[..5][0] == c; }
      assert !StartsWith(t, "&lt;") by { assert |t| < 4 || t[..4][0] == c; }
      assert !StartsWith(t, "&gt;") by { assert |t| < 4 || t[..4][0] == c; }
      assert !StartsWith(t, "&quot;") by { assert |t| < 6 || t[..6][0] == c; }
    }
  }

  /** Escaping loses nothing: decoding the entities gives back exactly the original text. */
  lemma {:induction false} DecodeEscape(s: string)
    ensures DecodeEntities(EscapeEach(s)) == s
  {
    if s != [] {
      DecodeEscapedChar(s[0], EscapeEach(s[1..]));
      DecodeEscape(s[1..]);
      assert s == [s[0]] + s[1..];
    }
  }

  // ---------------------------------------------------------------------------
  // configuration and getToEmail

  /** The process environment the handler reads. */
  datatype Config = Config(
    apiKey: Option<string>,                       // RESEND_API_KEY
    toEmail: Option<string>,                      // RESEND_TO_EMAIL, the default inbox
    branchEmails: Option<map<string, string>>,    // BRANCH_EMAILS once parsed; None when unset, empty or malformed
    from: Option<string>)                         // RESEND_FROM

  /** The per-branch table has a non-empty address for `branch`. */
  predicate HasRoute(table: Option<map<string, string>>, branch: string) {
    table.Some? && branch in table.value && table.value[branch] != ""
  }

  /** `getToEmail(branch)`: the branch's table entry overrides the default inbox. */
  function GetToEmail(cfg: Config, branch: string): (r: Option<string>)
    ensures HasRoute(cfg.branchEmails, branch) ==> r == Some(cfg.branchEmails.value[branch])
    ensures !HasRoute(cfg.branchEmails, branch) ==> r == cfg.toEmail
    ensures Truthy(r) <==> HasRoute(cfg.branchEmails, branch) || Truthy(cfg.toEmail)
  {
    if cfg.branchEmails.Some? then
      var table := cfg.branchEmails.value;
      if branch in table && table[branch] != "" then Some(table[branch]) else cfg.toEmail
    else
      cfg.toEmail
  }

  // ---------------------------------------------------------------------------
  // buildHtml: the label/value rows of the e-mail

  /** The values `buildHtml` receives. */
  datatype MailFields = MailFields(
    surname: string, name: string, phone: string,
    loanTypeLabel: string, branchLabel: string, comment: string)

  /** One `<tr>` of the e-mail: its two cells, already escaped. */
  datatype Row = Row(labelCell: string, valueCell: string)

  function MakeRow(caption: string, text: string): Row {
    Row(Escape(Some(caption)), Escape(Some(text)))
  }

  const PhonePrefix := "+976 "

  /** What a reader of the e-mail sees in each row. */
  function Shown(rows: seq<Row>): seq<(string, string)> {
    seq(|rows|, i requires 0 <= i < |rows| => (DecodeEntities(rows[i].labelCell), DecodeEntities(rows[i].valueCell)))
  }

  /** The fixed row labels of the e-mail. */
  const SurnameLabel := "Овог"
  const NameLabel := "Нэр"
  const PhoneLabel := "Утас"
  const LoanTypeLabel := "Зээлийн төрөл"
  const BranchLabel := "Салбар"
  const CommentLabel := "Тайлбар"

  /**
   * The label/value pairs `buildHtml` hands to `row`, in order: the five fixed
   * ones, then the comment only when there is one.
   */
  function RowPairs(m: MailFields): seq<(string, string)> {
    [(SurnameLabel, m.surname), (NameLabel, m.name), (PhoneLabel, PhonePrefix + m.phone),
     (LoanTypeLabel, m.loanTypeLabel), (BranchLabel, m.branchLabel)]
    + (if m.comment != "" then [(CommentLabel, m.comment)] else [])
  }

  /** A row shows exactly its label and value, and neither cell holds raw markup. */
  lemma MakeRowFaithful(caption: string, text: string)
    ensures DecodeEntities(MakeRow(caption, text).labelCell) == caption
    ensures DecodeEntities(MakeRow(caption, text).valueCell) == text
    ensures FreeOfMarkup(MakeRow(caption, text).labelCell) && FreeOfMarkup(MakeRow(caption, text).valueCell)
  {
    DecodeEscape(caption);
    DecodeEscape(text);
    EscapeFreeOfMarkup(caption);
    EscapeFreeOfMarkup(text);
  }

  /** The `rows` array of `buildHtml`: one escaped row per label/value pair. */
  function BuildRows(m: MailFields): (rows: seq<Row>)
    ensures |rows| == if m.comment != "" then 6 else 5
  {
    var pairs := RowPairs(m);
    seq(|pairs|, i requires 0 <= i < |pairs| => MakeRow(pairs[i].0, pairs[i].1))
  }

  /** No cell of any row holds a raw `<`, `>` or `"`. */
  predicate NoRawMarkup(rows: seq<Row>) {
    forall i :: 0 <= i < |rows| ==> FreeOfMarkup(rows[i].labelCell) && FreeOfMarkup(rows[i].valueCell)
  }

  /**
   * The e-mail shows every label and submitted value exactly (the phone behind
   * its country prefix, the comment only when there is one), in the fixed
   * order, and no cell holds a raw `<`, `>` or `"`.
   */
  lemma BuildRowsFaithful(m: MailFields)
    ensures Shown(BuildRows(m)) == RowPairs(m)
    ensures NoRawMarkup(BuildRows(m))
  {
    var rows, pairs := BuildRows(m), RowPairs(m);
    forall i | 0 <= i < |rows|
      ensures Shown(rows)[i] == pairs[i]
      ensures FreeOfMarkup(rows[i].labelCell) && FreeOfMarkup(rows[i].valueCell)
    {
      MakeRowFaithful(pairs[i].0, pairs[i].1);
    }
  }

  // ---------------------------------------------------------------------------
  // handler

  /** The destructured request body; a missing property is None. */
  datatype Fields = Fields(
    surname: Option<string>, name: Option<string>, phone: Option<string>,
    loanType: Option<string>, loanTypeLabel: Option<string>,
    branch: Option<string>, branchLabel: Option<string>, comment: Option<string>)

  /** The body after the handler's parse step: a string that is not JSON, or a parsed object. */
  datatype Body = InvalidJson | Json(fields: Fields)

  datatype Request = Request(httpMethod: string, body: Body)

  /** What the e-mail provider's `send` does with the e-mail. */
  datatype SendResult =
    | Delivered(id: Option<string>)          // `{ data: { id } }`
    | ProviderError(message: Option<string>) // `{ error: { message } }`
    | Threw(message: Option<string>)         // the call raised an exception

  /** The e-mail handed to the provider. */
  datatype Email = Email(from: string, to: string, subject: string, rows: seq<Row>)

  datatype ResponseBody = NoContent | ErrorJson(error: string) | SuccessJson(id: Option<string>)

  datatype Response = Response(status: nat, headers: map<string, string>, body: ResponseBody)

  const CorsHeaders: map<string, string> := map[
    "Access-Control-Allow-Origin" := "*",
    "Access-Control-Allow-Methods" := "POST, OPTIONS",
    "Access-Control-Allow-Headers" := "Content-Type"]

  const DefaultSender := "onboarding@resend.dev"
  const NoRecipientError := "No email configured for this branch. Set RESEND_TO_EMAIL or BRANCH_EMAILS."

  /** One of surname, name, phone, branch, branchLabel, loanTypeLabel is missing or empty. */
  predicate MissingRequired(f: Fields) {
    !Truthy(f.surname) || !Truthy(f.name) || !Truthy(f.phone)
    || !Truthy(f.branch) || !Truthy(f.branchLabel) || !Truthy(f.loanTypeLabel)
  }

  const SubjectPrefix := "Зээлийн хүсэлт: "

  /** The e-mail subject: `Зээлийн хүсэлт: {branchLabel} - {name} {surname}`. */
  function Subject(branchLabel: string, name: string, surname: string): (r: string)
    ensures StartsWith(r, SubjectPrefix + branchLabel + " - ")
    ensures EndsWith(r, name + " " + surname)
  {
    SubjectPrefix + branchLabel + " - " + name + " " + surname
  }

  /** Every check before the provider call passes. */
  predicate Dispatches(req: Request, cfg: Config) {
    && req.httpMethod == "POST"
    && Truthy(cfg.apiKey)
    && req.body.Json?
    && !MissingRequired(req.body.fields)
    && Truthy(GetToEmail(cfg, req.body.fields.branch.value))
  }

  /**
   * `handler(req, res)`. Returns the response and the e-mail handed to the
   * provider (None when the provider is never called); `outcome` is what the
   * provider answers if it is called.
   */
  method Handle(req: Request, cfg: Config, outcome: SendResult) returns (resp: Response, sent: Option<Email>)
    ensures resp.headers == CorsHeaders
    ensures sent.Some? <==> Dispatches(req, cfg)
    ensures req.httpMethod == "OPTIONS" ==> resp.status == 200 && resp.body == NoContent
    ensures req.httpMethod != "OPTIONS" && req.httpMethod != "POST" ==>
              resp.status == 405 && resp.body == ErrorJson("Method not allowed")
    ensures req.httpMethod == "POST" && !Truthy(cfg.apiKey) ==>
              resp.status == 500 && resp.body == ErrorJson("RESEND_API_KEY is not configured")
    ensures req.httpMethod == "POST" && Truthy(cfg.apiKey) && req.body.InvalidJson? ==>
              resp.status == 400 && resp.body == ErrorJson("Invalid JSON body")
    ensures req.httpMethod == "POST" && Truthy(cfg.apiKey) && req.body.Json? && MissingRequired(req.body.fields) ==>
              resp.status == 400 && resp.body == ErrorJson("Missing required fields")
    ensures req.httpMethod == "POST" && Truthy(cfg.apiKey) && req.body.Json? && !MissingRequired(req.body.fields)
            && !Truthy(GetToEmail(cfg, req.body.fields.branch.value)) ==>
              resp.status == 500 && resp.body == ErrorJson(NoRecipientError)
    ensures sent.Some? ==>
              var f := req.body.fields;
              var mail := MailFields(f.surname.value, f.name.value, f.phone.value,
                                     f.loanTypeLabel.value, f.branchLabel.value, OrElse(f.comment, ""));
              && sent.value.from == OrElse(cfg.from, DefaultSender)
              && sent.value.to == GetToEmail(cfg, f.branch.value).value
              && sent.value.subject == Subject(f.branchLabel.value, f.name.value, f.surname.value)
              && sent.value.rows == BuildRows(mail)
              && Shown(sent.value.rows) == RowPairs(mail)
              && NoRawMarkup(sent.value.rows)
    ensures sent.Some? && outcome.Delivered? ==>
              resp.status == 200 && resp.body == SuccessJson(outcome.id)
    ensures sent.Some? && outcome.ProviderError? ==>
              resp.status == 400 && resp.body == ErrorJson(OrElse(outcome.message, "Resend error"))
    ensures sent.Some? && outcome.Threw? ==>
              resp.status == 500 && resp.body == ErrorJson(OrElse(outcome.message, "Failed to send email"))
  {
    var headers: map<string, string> := map[];
    headers := headers["Access-Control-Allow-Origin" := "*"];
    headers := headers["Access-Control-Allow-Methods" := "POST, OPTIONS"];
    headers := headers["Access-Control-Allow-Headers" := "Content-Type"];
    sent := None;

    if req.httpMethod == "OPTIONS" {
      return Response(200, headers, NoContent), sent;
    }
    if req.httpMethod != "POST" {
      return Response(405, headers, ErrorJson("Method not allowed")), sent;
    }
    if !Truthy(cfg.apiKey) {
      return Response(500, headers, ErrorJson("RESEND_API_KEY is not configured")), sent;
    }
    if req.body.InvalidJson? {
      return Response(400, headers, ErrorJson("Invalid JSON body")), sent;
    }

    var f := req.body.fields;
    if !Truthy(f.surname) || !Truthy(f.name) || !Truthy(f.phone)
       || !Truthy(f.branch) || !Truthy(f.branchLabel) || !Truthy(f.loanTypeLabel) {
      return Response(400, headers, ErrorJson("Missing required fields")), sent;
    }

    var toEmail := GetToEmail(cfg, f.branch.value);
    if !Truthy(toEmail) {
      return Response(500, headers, ErrorJson(NoRecipientError)), sent;
    }

    var from := OrElse(cfg.from, DefaultSender);
    var subject := Subject(f.branchLabel.value, f.name.value, f.surname.value);
    var mail := MailFields(f.surname.value, f.name.value, f.phone.value,
                           f.loanTypeLabel.value, f.branchLabel.value, OrElse(f.comment, ""));
    BuildRowsFaithful(mail);
    sent := Some(Email(from, toEmail.value, subject, BuildRows(mail)));

    match outcome
    case Delivered(id) =>
      resp := Response(200, headers, SuccessJson(id));
    case ProviderError(message) =>
      resp := Response(400, headers, ErrorJson(OrElse(message, "Resend error")));
    case Threw(message) =>
      resp := Response(500, headers, ErrorJson(OrElse(message, "Failed to send email")));
  }
}
