/** The contact page that posts to the endpoint (app/contact/page.tsx): trimmed
    validation rules, per-field error clearing, and the submit cycle. */
module ContactPageTsx {
  import opened Text
  import opened EmailShape
  import ContactRoute

  /** The form's inputs; `Company` is the hidden honeypot. */
  datatype Field = Name | Email | Subject | Message | Company

  datatype FormData = FormData(name: string, email: string, subject: string, message: string, company: string) {

    function Get(f: Field): string {
      match f
      case Name => name
      case Email => email
      case Subject => subject
      case Message => message
      case Company => company
    }

    /** `{ ...formData, [field]: value }`. */
    function With(f: Field, v: string): (r: FormData)
      ensures r.Get(f) == v
      ensures forall g :: g != f ==> r.Get(g) == Get(g)
    {
      match f
      case Name => this.(name := v)
      case Email => this.(email := v)
      case Subject => this.(subject := v)
      case Message => this.(message := v)
      case Company => this.(company := v)
    }
  }

  const EMPTY_FORM := FormData("", "", "", "", "")

  const NAME_MIN: nat := 2
  const SUBJECT_MIN: nat := 5
  const MESSAGE_MIN: nat := 10

  const NAME_ERROR := "Name is required"
  const EMAIL_ERROR := "Invalid email"
  const SUBJECT_ERROR := "Subject is required"
  const MESSAGE_ERROR := "Message too short"

  /** The errors `validateForm` reports: each rule on its own field alone. */
  function Errors(f: FormData): (e: map<Field, string>)
    ensures Name in e <==> |Trim(f.name)| < NAME_MIN
    ensures Email in e <==> !IsEmailShape(f.email)
    ensures Subject in e <==> |Trim(f.subject)| < SUBJECT_MIN
    ensures Message in e <==> |Trim(f.message)| < MESSAGE_MIN
    ensures Company !in e
    ensures Name in e ==> e[Name] == NAME_ERROR
    ensures Email in e ==> e[Email] == EMAIL_ERROR
    ensures Subject in e ==> e[Subject] == SUBJECT_ERROR
    ensures Message in e ==> e[Message] == MESSAGE_ERROR
  {
    var e0: map<Field, string> := map[];
    var e1 := if |Trim(f.name)| < NAME_MIN then e0[Name := NAME_ERROR] else e0;
    var e2 := if !IsEmailShape(f.email) then e1[Email := EMAIL_ERROR] else e1;
    var e3 := if |Trim(f.subject)| < SUBJECT_MIN then e2[Subject := SUBJECT_ERROR] else e2;
    if |Trim(f.message)| < MESSAGE_MIN then e3[Message := MESSAGE_ERROR] else e3
  }

  /** `{name: "Jo", email: "a@b.com", subject: "Hi there", message: "Hello world!"}`
      gets no errors: the name meets its two-character minimum exactly, the subject
      and message clear theirs, and the email has the shape. */
  lemma WellFormedFormPasses()
    ensures Errors(FormData("Jo", "a@b.com", "Hi there", "Hello world!", "")) == map[]
  {
    TrimUntouched("Jo");
    TrimUntouched("Hi there");
    TrimUntouched("Hello world!");
    MinimalAddressAccepted();
  }

  /** `{name: "Jo", email: "bad-email", subject: "Hi", message: "short"}` is flagged
      on email, subject and message, but not on name: the subject needs five trimmed
      characters and the message ten, while the name needs only two. */
  lemma ShortFieldsFlagged()
    ensures Errors(FormData("Jo", "bad-email", "Hi", "short", "")).Keys == {Email, Subject, Message}
  {
    TrimUntouched("Jo");
    TrimUntouched("Hi");
    TrimUntouched("short");
    NoAtRejected();
  }

  /** How the page sees the reply to its `fetch`: a response (`res.ok` or not), or a throw. */
  datatype Reply = Answered(ok: bool) | Threw

  /** The endpoint's answer as the page sees it: only a 2xx status is `ok`, so a
      honeypot hit looks like a success and every refusal like a failure. */
  function ReplyTo(r: ContactRoute.Response): (reply: Reply)
    ensures reply.Answered?
    ensures reply.ok <==> r == ContactRoute.Sent || r == ContactRoute.HoneypotOk
  {
    Answered(200 <= r.Status() < 300)
  }

  /** The page's state cells. */
  class ContactPage {
    var formData: FormData
    var errors: map<Field, string>
    var isSubmitting: bool
    var isSuccess: bool
    /** Bodies posted to the endpoint, and how many failure alerts were shown. */
    ghost var posted: seq<FormData>
    ghost var alerts: nat

    constructor ()
      ensures formData == EMPTY_FORM && errors == map[] && !isSubmitting && !isSuccess
      ensures posted == [] && alerts == 0
    {
      formData := EMPTY_FORM;
      errors := map[];
      isSubmitting := false;
      isSuccess := false;
      posted := [];
      alerts := 0;
    }

    /** `validateForm`: replaces the shown errors and answers whether there are none. */
    method ValidateForm() returns (ok: bool)
      modifies this`errors
      ensures errors == Errors(formData)
      ensures ok <==> errors == map[]
    {
      var next: map<Field, string> := map[];
      if |Trim(formData.name)| < NAME_MIN {
        next := next[Name := NAME_ERROR];
      }
      if !IsEmailShape(formData.email) {
        next := next[Email := EMAIL_ERROR];
      }
      if |Trim(formData.subject)| < SUBJECT_MIN {
        next := next[Subject := SUBJECT_ERROR];
      }
      if |Trim(formData.message)| < MESSAGE_MIN {
        next := next[Message := MESSAGE_ERROR];
      }
      errors := next;
      ok := |next.Keys| == 0;
    }

    /** `handleChange`: stores the edited value and blanks that field's error if one is shown. */
    method HandleChange(field: Field, value: string)
      modifies this`formData, this`errors
      ensures formData == old(formData).With(field, value)
      ensures forall g :: g != field ==> formData.Get(g) == old(formData).Get(g)
      ensures errors == if field in old(errors) && old(errors)[field] != ""
                        then old(errors)[field := ""] else old(errors)
    {
      formData := formData.With(field, value);
      if field in errors && errors[field] != "" {
        errors := errors[field := ""];
      }
    }

    /** `handleSubmit` run to completion, with the reply the `fetch` would get. */
    method HandleSubmit(reply: Reply) returns (sent: bool)
      modifies this
      ensures errors == Errors(old(formData))
      ensures sent <==> Errors(old(formData)) == map[]
      ensures !sent ==> formData == old(formData) && isSubmitting == old(isSubmitting)
                        && isSuccess == old(isSuccess) && posted == old(posted) && alerts == old(alerts)
      ensures sent ==> posted == old(posted) + [old(formData)] && !isSubmitting
      ensures sent && reply == Answered(true) ==> isSuccess && formData == EMPTY_FORM && alerts == old(alerts)
      ensures sent && reply != Answered(true) ==>
                formData == old(formData) && isSuccess == old(isSuccess) && alerts == old(alerts) + 1
    {
      sent := ValidateForm();
      if !sent {
        return;
      }
      isSubmitting := true;
      posted := posted + [formData];
      if reply == Answered(true) {
        isSuccess := true;
        formData := EMPTY_FORM;
      } else {
        alerts := alerts + 1;
      }
      isSubmitting := false;
    }

    /** The 4-second timer after a success hides the success message. */
    method SuccessTimeout()
      modifies this`isSuccess
      ensures !isSuccess
    {
      isSuccess := false;
    }
  }
}
