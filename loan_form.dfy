/**
 * The loan-application form on the client: the fixed option lists, the
 * searchable dropdown, the phone input filter and the controller that keeps
 * the draft, the per-field errors, the submitting flag and the result message.
 *
 * The HTTP round trip (`fetch` and `res.json()`) is an input of the model: the
 * submit handler receives what the server answered, or that nothing came back.
 */
module LoanApplicationForm {
  import opened Wrappers
  import opened JsString

  // ---------------------------------------------------------------------------
  // option lists

  /** One entry of a dropdown: the code sent to the server and the label shown. */
  datatype SelectOption = SelectOption(value: string, caption: string)

  const LoanTypes: seq<SelectOption> := [
    SelectOption("business", "Бизнесийн зээл"),
    SelectOption("car", "Автомашин зээл"),
    SelectOption("consumer", "Хэрэглээний зээл"),
    SelectOption("travel", "Аяллын зээл")]

  const Branches: seq<SelectOption> := [
    SelectOption("central", "Төв салбар"),
    SelectOption("22avtokom", "22 автоком салбар"),
    SelectOption("soyoolj", "Соёолж салбар"),
    SelectOption("diesel", "Дизель хүрээ салбар"),
    SelectOption("orkhon-bayanondor", "Орхон Баян-Өндөр салбар")]

  /** No two options share a code, and every option has a label. */
  predicate WellFormedOptions(options: seq<SelectOption>) {
    && (forall i, j :: 0 <= i < j < |options| ==> options[i].value != options[j].value)
    && (forall i :: 0 <= i < |options| ==> options[i].caption != "")
  }

  lemma OptionListsWellFormed()
    ensures WellFormedOptions(LoanTypes) && WellFormedOptions(Branches)
  {
  }

  /** `k` is the position of the first option whose code is `value`. */
  predicate FirstWithCode(options: seq<SelectOption>, value: string, k: int) {
    && 0 <= k < |options| && options[k].value == value
    && forall j :: 0 <= j < k ==> options[j].value != value
  }

  /** `options.find((o) => o.value === value)`: the first option with that code. */
  function Find(options: seq<SelectOption>, value: string): (r: Option<SelectOption>)
    ensures r.None? <==> forall i :: 0 <= i < |options| ==> options[i].value != value
    ensures r.Some? ==> r.value in options && r.value.value == value
    ensures forall k :: FirstWithCode(options, value, k) ==> r == Some(options[k])
  {
    if options == [] then None
    else if options[0].value == value then Some(options[0])
    else Find(options[1..], value)
  }

  /** In a list without duplicate codes, finding an option's code finds that option. */
  lemma FindKnownCode(options: seq<SelectOption>, k: nat)
    requires WellFormedOptions(options) && k < |options|
    ensures Find(options, options[k].value) == Some(options[k])
  {
    var r := Find(options, options[k].value);
    var i :| 0 <= i < |options| && options[i] == r.value;
    assert !(k < i) && !(i < k);
  }

  /** The label `handleSubmit` sends: `find(...)?.label || code`. */
  function LabelFor(options: seq<SelectOption>, code: string): (r: string)
    ensures r == code || exists i :: 0 <= i < |options| && options[i].value == code && options[i].caption == r
    ensures code != "" ==> r != ""
    ensures forall k :: FirstWithCode(options, code, k) && options[k].caption != "" ==> r == options[k].caption
  {
    var found := Find(options, code);
    if found.Some? && found.value.caption != "" then found.value.caption else code
  }

  /** A code from the list is sent with that option's label; a code not in the list is sent as its own label. */
  lemma LabelForCases(options: seq<SelectOption>, code: string)
    requires WellFormedOptions(options)
    ensures forall k :: 0 <= k < |options| && options[k].value == code ==> LabelFor(options, code) == options[k].caption
    ensures (forall k :: 0 <= k < |options| ==> options[k].value != code) ==> LabelFor(options, code) == code
  {
    forall k | 0 <= k < |options| && options[k].value == code
      ensures LabelFor(options, code) == options[k].caption
    {
      FindKnownCode(options, k);
    }
  }

  /** `displayValue`: the label of the option whose code is `value`, else `''`. */
  function DisplayValue(options: seq<SelectOption>, value: string): (r: string)
    ensures (forall i :: 0 <= i < |options| ==> options[i].value != value) ==> r == ""
    ensures forall k :: FirstWithCode(options, value, k) ==> r == options[k].caption
    ensures r != "" ==> exists i :: 0 <= i < |options| && options[i].value == value && options[i].caption == r
  {
    var selected := Find(options, value);
    if selected.Some? then selected.value.caption else ""
  }

  // ---------------------------------------------------------------------------
  // dropdown filtering

  /** The option's label contains the filter text, ignoring case. */
  predicate Matches(o: SelectOption, filter: string) {
    Includes(ToLower(o.caption), ToLower(filter))
  }

  /** `options.filter((opt) => ...includes(...))`: the matching options, in list order. */
  function KeepMatching(options: seq<SelectOption>, filter: string): (r: seq<SelectOption>)
    ensures |r| <= |options|
    ensures forall o :: o in r <==> o in options && Matches(o, filter)
  {
    if options == [] then []
    else if Matches(options[0], filter) then [options[0]] + KeepMatching(options[1..], filter)
    else KeepMatching(options[1..], filter)
  }

  /** Filtering keeps the relative order: it works on the two halves of a list independently. */
  lemma {:induction false} KeepMatchingAppend(a: seq<SelectOption>, b: seq<SelectOption>, filter: string)
    ensures KeepMatching(a + b, filter) == KeepMatching(a, filter) + KeepMatching(b, filter)
  {
    if a == [] {
      assert a + b == b;
    } else {
      assert (a + b)[1..] == a[1..] + b;
      KeepMatchingAppend(a[1..], b, filter);
    }
  }

  /** Every label contains the empty text, so filtering by it keeps every option. */
  lemma {:induction false} KeepMatchingEmptyFilter(options: seq<SelectOption>)
    ensures KeepMatching(options, "") == options
  {
    if options != [] {
      assert StartsWith(ToLower(options[0].caption), ToLower(""));
      KeepMatchingEmptyFilter(options[1..]);
      assert options == [options[0]] + options[1..];
    }
  }

  /**
   * `filteredOptions`: all options when the filter is empty, else the matching
   * ones; either way, the options whose label contains the filter, in list order.
   */
  function FilterOptions(options: seq<SelectOption>, filter: string): (r: seq<SelectOption>)
    ensures r == KeepMatching(options, filter)
    ensures filter == "" ==> r == options
  {
    KeepMatchingEmptyFilter(options);
    if filter != "" then KeepMatching(options, filter) else options
  }

  /** The filter is case-insensitive: typing it in lower case lists the same options. */
  lemma {:induction false} FilterIgnoresCase(options: seq<SelectOption>, filter: string)
    ensures KeepMatching(options, ToLower(filter)) == KeepMatching(options, filter)
  {
    ToLowerIdempotent(filter);
    if options != [] {
      FilterIgnoresCase(options[1..], filter);
      assert Matches(options[0], ToLower(filter)) == Matches(options[0], filter);
    }
  }

  // ---------------------------------------------------------------------------
  // phone input

  const PhoneMaxDigits := 8

  /** The phone input's filter: `value.replace(/\D/g, '').slice(0, 8)`. */
  function PhoneFilter(raw: string): (r: string)
    ensures AllDigits(r) && |r| <= PhoneMaxDigits
    ensures |r| == if |Digits(raw)| <= PhoneMaxDigits then |Digits(raw)| else PhoneMaxDigits
    ensures r == Digits(raw)[..|r|]
  {
    Take(Digits(raw), PhoneMaxDigits)
  }

  /** Filtering an already filtered phone number changes nothing. */
  lemma PhoneFilterIdempotent(raw: string)
    ensures PhoneFilter(PhoneFilter(raw)) == PhoneFilter(raw)
  {
    DigitsOfDigits(PhoneFilter(raw));
  }

  // ---------------------------------------------------------------------------
  // the draft form and its validation

  datatype Field = Surname | Name | Phone | LoanType | Branch | Comment

  const AllFields: set<Field> := {Surname, Name, Phone, LoanType, Branch, Comment}

  datatype Form = Form(surname: string, name: string, phone: string, loanType: string, branch: string, comment: string)
  {
    function Get(f: Field): string {
      match f
      case Surname => surname
      case Name => name
      case Phone => phone
      case LoanType => loanType
      case Branch => branch
      case Comment => comment
    }

    /** `{ ...prev, [f]: v }` */
    function With(f: Field, v: string): (r: Form)
      ensures r.Get(f) == v
      ensures forall g :: g != f ==> r.Get(g) == Get(g)
    {
      match f
      case Surname => this.(surname := v)
      case Name => this.(name := v)
      case Phone => this.(phone := v)
      case LoanType => this.(loanType := v)
      case Branch => this.(branch := v)
      case Comment => this.(comment := v)
    }
  }

  const InitialForm := Form("", "", "", "", "", "")

  const RequiredText := "Заавал бөглөнө үү"
  const LoanTypeRequiredText := "Зээлийн төрөл сонгоно уу"
  const BranchRequiredText := "Салбар сонгоно уу"

  /** `validate` flags this field: a blank name field, or a dropdown with nothing chosen. */
  predicate Missing(form: Form, f: Field) {
    match f
    case Surname | Name | Phone => Trim(form.Get(f)) == ""
    case LoanType | Branch => form.Get(f) == ""
    case Comment => false
  }

  function FieldError(f: Field): string {
    match f
    case LoanType => LoanTypeRequiredText
    case Branch => BranchRequiredText
    case _ => RequiredText
  }

  /** The messages for the missing fields among `fields`. */
  function ErrorsAmong(form: Form, fields: set<Field>): map<Field, string> {
    map f | f in fields && Missing(form, f) :: FieldError(f)
  }

  /** The error map `validate` computes: a message exactly for each missing field. */
  function ValidationErrors(form: Form): map<Field, string> {
    ErrorsAmong(form, AllFields)
  }

  /** Checking one more field adds its message exactly when it is missing. */
  lemma ErrorsAmongAdd(form: Form, fields: set<Field>, f: Field, found: map<Field, string>)
    requires found == ErrorsAmong(form, fields)
    ensures ErrorsAmong(form, fields + {f}) == if Missing(form, f) then found[f := FieldError(f)] else found
  {
  }

  /** `Object.keys(m).length === 0` holds exactly for the empty map. */
  lemma NoKeysIffEmpty(m: map<Field, string>)
    ensures |m| == 0 <==> m == map[]
  {
    if |m| == 0 {
      assert m.Keys == {};
    }
  }

  /** A draft that may be submitted: the required fields are filled in. */
  predicate Complete(form: Form) {
    && Trim(form.surname) != "" && Trim(form.name) != "" && Trim(form.phone) != ""
    && form.loanType != "" && form.branch != ""
  }

  predicate NothingMissing(form: Form) {
    forall f :: !Missing(form, f)
  }

  lemma CompleteIffNothingMissing(form: Form)
    ensures Complete(form) <==> NothingMissing(form)
  {
    if !Complete(form) {
      if Trim(form.surname) == "" { assert Missing(form, Surname); }
      else if Trim(form.name) == "" { assert Missing(form, Name); }
      else if Trim(form.phone) == "" { assert Missing(form, Phone); }
      else if form.loanType == "" { assert Missing(form, LoanType); }
      else { assert Missing(form, Branch); }
    }
  }

  lemma NoErrorsWhenNothingMissing(form: Form)
    requires NothingMissing(form)
    ensures ValidationErrors(form) == map[]
  {
    assert ValidationErrors(form).Keys == {};
  }

  /** `validate` reports a field exactly when it is missing, with that field's message. */
  lemma ErrorExactlyWhenMissing(form: Form, f: Field)
    ensures f in ValidationErrors(form) <==> Missing(form, f)
    ensures f in ValidationErrors(form) ==> ValidationErrors(form)[f] == FieldError(f) != ""
  {
  }

  /** The error map is empty exactly for a complete draft, and a comment is never reported. */
  lemma ValidationErrorsEmptyIff(form: Form)
    ensures ValidationErrors(form) == map[] <==> Complete(form)
    ensures |ValidationErrors(form)| == 0 <==> Complete(form)
    ensures Comment !in ValidationErrors(form)
  {
    NoKeysIffEmpty(ValidationErrors(form));
    CompleteIffNothingMissing(form);
    if NothingMissing(form) {
      NoErrorsWhenNothingMissing(form);
    } else {
      var f :| Missing(form, f);
      ErrorExactlyWhenMissing(form, f);
    }
  }

  /** `code` is unset or the code of an option of the list. */
  predicate CodeListed(options: seq<SelectOption>, code: string) {
    code == "" || exists k :: 0 <= k < |options| && options[k].value == code
  }

  /** The option list each dropdown is given: `LOAN_TYPES` for the loan type, `BRANCHES` for the branch. */
  function OptionsFor(field: Field): (r: seq<SelectOption>)
    requires field == LoanType || field == Branch
    ensures WellFormedOptions(r)
  {
    OptionListsWellFormed();
    if field == LoanType then LoanTypes else Branches
  }

  /** The draft's two codes are unset or come from the dropdowns' option lists. */
  predicate CodesListed(form: Form) {
    CodeListed(LoanTypes, form.loanType) && CodeListed(Branches, form.branch)
  }

  // ---------------------------------------------------------------------------
  // submission

  /** The JSON body `handleSubmit` posts. */
  datatype Payload = Payload(
    surname: string, name: string, phone: string,
    loanType: string, loanTypeLabel: string,
    branch: string, branchLabel: string, comment: string)

  /** The body built from a draft: free-text fields trimmed, labels looked up from the option lists. */
  function PayloadOf(form: Form): (r: Payload)
    ensures r.loanType == form.loanType && r.branch == form.branch
    ensures form.loanType != "" ==> r.loanTypeLabel != ""
    ensures form.branch != "" ==> r.branchLabel != ""
  {
    Payload(Trim(form.surname), Trim(form.name), Trim(form.phone),
            form.loanType, LabelFor(LoanTypes, form.loanType),
            form.branch, LabelFor(Branches, form.branch),
            Trim(form.comment))
  }

  /**
   * What is posted for a complete draft: the required fields are non-empty and
   * carry no surrounding white space, and both labels are non-empty.
   */
  lemma PayloadOfComplete(form: Form)
    requires Complete(form)
    ensures var p := PayloadOf(form);
      && p.surname != "" && p.name != "" && p.phone != "" && p.branch != ""
      && p.loanTypeLabel != "" && p.branchLabel != ""
      && !IsSpace(p.surname[0]) && !IsSpace(p.surname[|p.surname| - 1])
      && !IsSpace(p.name[0]) && !IsSpace(p.name[|p.name| - 1])
      && !IsSpace(p.phone[0]) && !IsSpace(p.phone[|p.phone| - 1])
  {
    TrimSpec(form.surname);
    TrimSpec(form.name);
    TrimSpec(form.phone);
  }

  /**
   * For a complete draft whose codes come from the option lists, the labels
   * posted are the labels of those options, never the raw-code fallback.
   */
  lemma PayloadLabelsFromLists(form: Form)
    requires Complete(form) && CodesListed(form)
    ensures var p := PayloadOf(form);
      && (exists k :: 0 <= k < |LoanTypes| && LoanTypes[k].value == p.loanType && LoanTypes[k].caption == p.loanTypeLabel)
      && (exists k :: 0 <= k < |Branches| && Branches[k].value == p.branch && Branches[k].caption == p.branchLabel)
  {
    OptionListsWellFormed();
    LabelForCases(LoanTypes, form.loanType);
    LabelForCases(Branches, form.branch);
  }

  datatype MessageKind = Success | Error

  /** `submitMessage`: `{ type, text }`. */
  datatype SubmitMessage = SubmitMessage(kind: MessageKind, text: string)

  const SuccessText := "Таны хүсэлт амжилттай илгээгдлээ. Манай зээлийн эдийн засагч тантай холбогдох болно."
  const FallbackErrorText := "Илгээхэд алдаа гарлаа. Дахин оролдоно уу."
  const ConnectionErrorText := "Холболт амжилтгүй. Дахин оролдоно уу."

  /** What came back from the request. */
  datatype FetchOutcome =
    | Ok                                // a 2xx response
    | HttpError(error: Option<string>)  // another status; the `error` property of its JSON body, if any
    | TransportFailure                  // `fetch` rejected: no response at all

  // ---------------------------------------------------------------------------
  // the searchable dropdown

  /** `CustomSelect`: its open/closed state and the filter text typed while open. */
  class CustomSelect {
    const options: seq<SelectOption>
    var open: bool
    var filter: string

    constructor (options: seq<SelectOption>)
      ensures this.options == options && !open && filter == ""
    {
      this.options := options;
      open := false;
      filter := "";
    }

    /** The options listed while the dropdown is open. */
    function Listed(): seq<SelectOption>
      reads this
    {
      FilterOptions(options, filter)
    }

    /** A click on the trigger toggles the dropdown. */
    method ClickTrigger()
      modifies this
      ensures open == !old(open) && filter == old(filter)
    {
      open := !open;
    }

    /** Focusing the input opens the dropdown. */
    method Focus()
      modifies this
      ensures open && filter == old(filter)
    {
      open := true;
    }

    /** Typing replaces the filter and opens the dropdown if it was closed. */
    method TypeFilter(text: string)
      modifies this
      ensures filter == text && open
    {
      filter := text;
      if !open {
        open := true;
      }
    }

    /**
     * A click on a listed option: reports the option's code to the form,
     * clears the filter and closes the dropdown.
     */
    method Choose(opt: SelectOption) returns (chosen: string)
      requires open && opt in Listed()
      modifies this
      ensures chosen == opt.value && opt in options
      ensures filter == "" && !open
    {
      chosen := opt.value;
      filter := "";
      open := false;
    }
  }

  // ---------------------------------------------------------------------------
  // the form controller

  /**
   * The checks of `validate`, one field after the other, each adding its
   * message when the field is missing; the draft is valid when no message
   * was added.
   */
  method CollectErrors(draft: Form) returns (next: map<Field, string>, ok: bool)
    ensures next == ValidationErrors(draft)
    ensures ok <==> Complete(draft)
  {
    next := map[];
    ghost var checked: set<Field> := {};
    assert next == ErrorsAmong(draft, checked);

    ErrorsAmongAdd(draft, checked, Surname, next);
    if Trim(draft.surname) == "" {
      next := next[Surname := RequiredText];
    }
    checked := checked + {Surname};

    ErrorsAmongAdd(draft, checked, Name, next);
    if Trim(draft.name) == "" {
      next := next[Name := RequiredText];
    }
    checked := checked + {Name};

    ErrorsAmongAdd(draft, checked, Phone, next);
    if Trim(draft.phone) == "" {
      next := next[Phone := RequiredText];
    }
    checked := checked + {Phone};

    ErrorsAmongAdd(draft, checked, LoanType, next);
    if draft.loanType == "" {
      next := next[LoanType := LoanTypeRequiredText];
    }
    checked := checked + {LoanType};

    ErrorsAmongAdd(draft, checked, Branch, next);
    if draft.branch == "" {
      next := next[Branch := BranchRequiredText];
    }
    checked := checked + {Branch};

    // the comment is never required, so checking it adds nothing
    ErrorsAmongAdd(draft, checked, Comment, next);
    checked := checked + {Comment};
    assert checked == AllFields;

    assert next == ValidationErrors(draft);

    ok := |next| == 0;
    ValidationErrorsEmptyIff(draft);
  }

  /** `LoanApplicationForm`'s state and its event handlers. */
  class FormController {
    var form: Form
    var errors: map<Field, string>
    var submitting: bool
    var submitMessage: Option<SubmitMessage>

    constructor ()
      ensures form == InitialForm && errors == map[] && !submitting && submitMessage == None
      ensures CodesListed(form)
    {
      form := InitialForm;
      errors := map[];
      submitting := false;
      submitMessage := None;
    }

    /** The phone draft holds at most eight digits, as the phone input lets through. */
    predicate PhoneDraftOk()
      reads this
    {
      AllDigits(form.phone) && |form.phone| <= PhoneMaxDigits
    }

    /**
     * `handleChange(field, value)`: stores the value, clears that field's error
     * and clears the result message; nothing else changes.
     */
    method HandleChange(field: Field, value: string)
      modifies this
      ensures form == old(form).With(field, value)
      ensures errors == old(errors) - {field}
      ensures submitMessage == None && submitting == old(submitting)
      ensures field != LoanType && field != Branch && old(CodesListed(form)) ==> CodesListed(form)
    {
      form := form.With(field, value);
      if field in errors {
        errors := errors - {field};
      }
      submitMessage := None;
    }

    /** The phone input's `onChange`: the typed text goes through the phone filter first. */
    method EditPhone(raw: string)
      modifies this
      ensures form == old(form).With(Phone, PhoneFilter(raw))
      ensures PhoneDraftOk()
      ensures errors == old(errors) - {Phone}
      ensures submitMessage == None && submitting == old(submitting)
      ensures old(CodesListed(form)) ==> CodesListed(form)
    {
      HandleChange(Phone, PhoneFilter(raw));
    }

    /**
     * A dropdown's `onChange`: the chosen option's code becomes the field's
     * value. The loan-type dropdown lists `LOAN_TYPES`, the branch dropdown
     * `BRANCHES`, so the draft's codes stay within those lists.
     */
    method PickOption(select: CustomSelect, field: Field, opt: SelectOption)
      requires field == LoanType || field == Branch
      requires select.options == OptionsFor(field)
      requires select.open && opt in select.Listed()
      modifies this, select
      ensures form == old(form).With(field, opt.value) && opt in select.options
      ensures errors == old(errors) - {field}
      ensures submitMessage == None && submitting == old(submitting)
      ensures !select.open && select.filter == ""
      ensures old(PhoneDraftOk()) ==> PhoneDraftOk()
      ensures exists k :: 0 <= k < |select.options| && select.options[k].value == form.Get(field)
      ensures old(CodesListed(form)) ==> CodesListed(form)
    {
      var chosen := select.Choose(opt);
      HandleChange(field, chosen);
      ghost var k :| 0 <= k < |select.options| && select.options[k] == opt;
      assert select.options[k].value == form.Get(field);
    }

    /** `validate()`: fills a fresh error map field by field, stores it, and reports whether it is empty. */
    method Validate() returns (ok: bool)
      modifies this`errors
      ensures errors == ValidationErrors(form)
      ensures ok <==> Complete(form)
    {
      var next;
      next, ok := CollectErrors(form);
      errors := next;
    }

    /**
     * `handleSubmit`: clears the message and validates; an incomplete draft
     * stops there and nothing is sent. Otherwise the payload is posted and the
     * outcome decides the message; a success also resets the draft. The
     * submitting flag is cleared on every path that set it.
     */
    method HandleSubmit(outcome: FetchOutcome) returns (request: Option<Payload>)
      modifies this
      ensures request.Some? <==> Complete(old(form))
      ensures errors == ValidationErrors(old(form))
      ensures !Complete(old(form)) ==>
                form == old(form) && submitMessage == None && submitting == old(submitting)
      ensures Complete(old(form)) ==> request == Some(PayloadOf(old(form))) && !submitting
      ensures Complete(old(form)) && outcome.Ok? ==>
                form == InitialForm && submitMessage == Some(SubmitMessage(Success, SuccessText))
      ensures Complete(old(form)) && outcome.HttpError? ==>
                form == old(form) && submitMessage == Some(SubmitMessage(Error, OrElse(outcome.error, FallbackErrorText)))
      ensures Complete(old(form)) && outcome.TransportFailure? ==>
                form == old(form) && submitMessage == Some(SubmitMessage(Error, ConnectionErrorText))
      ensures old(PhoneDraftOk()) ==> PhoneDraftOk()
      ensures old(CodesListed(form)) ==> CodesListed(form)
    {
      submitMessage := None;
      var ok := Validate();
      if !ok {
        return None;
      }

      submitting := true;
      request := Some(PayloadOf(form));
      match outcome {
        case HttpError(error) =>
          submitMessage := Some(SubmitMessage(Error, OrElse(error, FallbackErrorText)));
        case Ok =>
          submitMessage := Some(SubmitMessage(Success, SuccessText));
          form := InitialForm;
        case TransportFailure =>
          submitMessage := Some(SubmitMessage(Error, ConnectionErrorText));
      }
      submitting := false;
    }
  }
}
