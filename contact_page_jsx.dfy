/** The stand-alone contact page (app/contact/page.jsx): the same rules on the raw,
    untrimmed strings, and a simulated send that always succeeds. */
module ContactPageJsx {
  import opened Text
  import opened EmailShape
  import ContactPageTsx

  datatype Field = Name | Email | Subject | Message

  datatype FormData = FormData(name: string, email: string, subject: string, message: string) {

    function Get(f: Field): string {
      match f
      case Name => name
      case Email => email
      case Subject => subject
      case Message => message
    }

    /** `{ ...formData, [field]: value }`. */
    function With(f: Field, v: string): (r: FormData)
      ensures r.Get(f) == v
      ensures forall g :: g != f ==> r.Get(g) == Get(g)
    {
      match f
      case Name => this.(name := v)
      case Email => this.(email := v)
      case Subject => this.(subject := v)
      case Message => this.(message := v)
    }
  }

  const EMPTY_FORM := FormData("", "", "", "")

  const NAME_MIN: nat := 2
  const SUBJECT_MIN: nat := 5
  const MESSAGE_MIN: nat := 10

  const NAME_ERROR := "Name required"
  const EMAIL_ERROR := "Invalid email"
  const SUBJECT_ERROR := "Subject required"
  const MESSAGE_ERROR := "Message too short"

  /** The errors `validateForm` reports, measured on the strings as typed. */
  function Errors(f: FormData): (e: map<Field, string>)
    ensures Name in e <==> |f.name| < NAME_MIN
    ensures Email in e <==> !IsEmailShape(f.email)
    ensures Subject in e <==> |f.subject| < SUBJECT_MIN
    ensures Message in e <==> |f.message| < MESSAGE_MIN
    ensures Name in e ==> e[Name] == NAME_ERROR
    ensures Email in e ==> e[Email] == EMAIL_ERROR
    ensures Subject in e ==> e[Subject] == SUBJECT_ERROR
    ensures Message in e ==> e[Message] == MESSAGE_ERROR
  {
    var e0: map<Field, string> := map[];
    var e1 := if |f.name| < NAME_MIN then e0[Name := NAME_ERROR] else e0;
    var e2 := if !IsEmailShape(f.email) then e1[Email := EMAIL_ERROR] else e1;
    var e3 := if |f.subject| < SUBJECT_MIN then e2[Subject := SUBJECT_ERROR] else e2;
    if |f.message| < MESSAGE_MIN then e3[Message := MESSAGE_ERROR] else e3
  }

  /** The same four fields as the other page's form. */
  function Untrimmed(f: ContactPageTsx.FormData): FormData {
    FormData(f.name, f.email, f.subject, f.message)
  }

  /** Every rule here is at most as strict as on the other page: a field this page
      flags is flagged there too. */
  lemma RawRulesNoStricter(f: ContactPageTsx.FormData)
    ensures Name in Errors(Untrimmed(f)) ==> ContactPageTsx.Name in ContactPageTsx.Errors(f)
    ensures Email in Errors(Untrimmed(f)) <==> ContactPageTsx.Email in ContactPageTsx.Errors(f)
    ensures Subject in Errors(Untrimmed(f)) ==> ContactPageTsx.Subject in ContactPageTsx.Errors(f)
    ensures Message in Errors(Untrimmed(f)) ==> ContactPageTsx.Message in ContactPageTsx.Errors(f)
  {
  }

  /** And strictly looser: a blank two-space name passes here but not there. */
  lemma BlankNamePassesHere(f: ContactPageTsx.FormData)
    requires f.name == "  "
    ensures Name !in Errors(Untrimmed(f))
    ensures ContactPageTsx.Name in ContactPageTsx.Errors(f)
  {
    assert "  "[1..] == " " && " "[1..] == "";
  }

  class ContactPage {
    var formData: FormData
    var errors: map<Field, string>
    var isSubmitting: bool

    constructor ()
      ensures formData == EMPTY_FORM && errors == map[] && !isSubmitting
    {
      formData := EMPTY_FORM;
      errors := map[];
      isSubmitting := false;
    }

    /** `validateForm`: replaces the shown errors and answers whether there are none. */
    method ValidateForm() returns (ok: bool)
      modifies this`errors
      ensures errors == Errors(formData)
      ensures ok <==> errors == map[]
    {
      var next: map<Field, string> := map[];
      if |formData.name| < NAME_MIN {
        next := next[Name := NAME_ERROR];
      }
      if !IsEmailShape(formData.email) {
        next := next[Email := EMAIL_ERROR];
      }
      if |formData.subject| < SUBJECT_MIN {
        next := next[Subject := SUBJECT_ERROR];
      }
      if |formData.message| < MESSAGE_MIN {
        next := next[Message := MESSAGE_ERROR];
      }
      errors := next;
      ok := |next.Keys| == 0;
    }

    /** `handleSubmit` run to completion: the two-second wait stands for the send. */
    method HandleSubmit() returns (sent: bool)
      modifies this
      ensures errors == Errors(old(formData))
      ensures sent <==> Errors(old(formData)) == map[]
      ensures !sent ==> formData == old(formData) && isSubmitting == old(isSubmitting)
      ensures sent ==> formData == EMPTY_FORM && !isSubmitting
    {
      sent := ValidateForm();
      if !sent {
        return;
      }
      isSubmitting := true;
      formData := EMPTY_FORM;
      isSubmitting := false;
    }

    /** `handleChange`: stores the edited value and blanks that field's error if one is shown. */
    method HandleChange(field: Field, value: string)
      modifies this`formData, this`errors
      ensures formData == old(formData).With(field, value)
      ensures forall g :: g != field ==> formData.Get(g) == old(formData).Get(g)
      ensures errors == if field in old(errors) && old(errors)[field] != ""
                        then old(errors)[field := ""] else old(errors)
    {
      formData := formData.With(field, value);
      if field in errors && errors[field] != "" {
        errors := errors[field := ""];
      }
    }
  }
}
