/**
 * The contact form: four text fields, and a submit that hands a prefilled `mailto:` URI
 * (RFC 6068) to the browser's mail client.
 */
module ContactForm {
  import opened Common
  import opened Lists

  datatype FormData = FormData(name: string, email: string, subject: string, message: string)

  /** The `name` attribute of each input, which `handleChange` uses as the key. */
  datatype Field = Name | Email | Subject | Message

  const EmptyForm := FormData("", "", "", "")

  /** The form with one field replaced. */
  function WithField(form: FormData, field: Field, value: string): (r: FormData)
    ensures Get(r, field) == value
    ensures forall f :: f != field ==> Get(r, f) == Get(form, f)
  {
    match field
    case Name => form.(name := value)
    case Email => form.(email := value)
    case Subject => form.(subject := value)
    case Message => form.(message := value)
  }

  function Get(form: FormData, field: Field): string {
    match field
    case Name => form.name
    case Email => form.email
    case Subject => form.subject
    case Message => form.message
  }

  const SubjectTag := "[Portfolio Contact] "
  const Signature := "--- Sent from Neural Interface Portfolio ---"
  const Recipient := "lazarusgero1@gmail.com"

  /** The subject header value before encoding. */
  function SubjectLine(form: FormData): (r: string)
    ensures |r| == |SubjectTag| + |form.subject| && r[..|SubjectTag|] == SubjectTag && r[|SubjectTag|..] == form.subject
  {
    SubjectTag + form.subject
  }

  /** The body before encoding: name and email lines, a blank line, the message, a blank line, the signature. */
  function BodyText(form: FormData): string {
    "Name: " + form.name + "\n" + ("Email: " + form.email) + "\n" + "\n" + form.message + "\n" + "\n" + Signature
  }

  /** When the name and email hold no line break, the body's lines give back the name, the email and the message's own lines. */
  lemma BodyLines(form: FormData)
    requires '\n' !in form.name && '\n' !in form.email
    ensures Split(BodyText(form), '\n') == ["Name: " + form.name, "Email: " + form.email, ""] + Split(form.message, '\n') + ["", Signature]
  {
    NoBreakIn("Name: ", form.name);
    NoBreakIn("Email: ", form.email);
    assert '\n' !in Signature;
    SplitBodyShape("Name: " + form.name, "Email: " + form.email, form.message, Signature, '\n');
  }

  /** The body's shape, over any two header lines, message and signature without a separator. */
  lemma SplitBodyShape(a: string, b: string, m: string, f: string, sep: char)
    requires sep !in a && sep !in b && sep !in f
    ensures Split(a + [sep] + b + [sep] + [sep] + m + [sep] + [sep] + f, sep) == [a, b, ""] + Split(m, sep) + ["", f]
  {
    var r := a + [sep] + b + [sep];
    var q := r + [sep] + m;
    var p := q + [sep];
    SplitWithout(a, sep);
    SplitWithout(b, sep);
    SplitWithout(f, sep);
    SplitAround(a, b, sep);
    assert r == a + [sep] + b + [sep] + [];
    SplitAround(a + [sep] + b, [], sep);
    SplitAround(r, m, sep);
    assert p == q + [sep] + [];
    SplitAround(q, [], sep);
    SplitAround(p, f, sep);
    Regroup(a, b, f, Split(m, sep));
  }

  /** The pieces of the body, regrouped as one list. */
  lemma Regroup(a: string, b: string, f: string, pieces: seq<string>)
    ensures [a] + [b] + [""] + pieces + [""] + [f] == [a, b, ""] + pieces + ["", f]
  {
  }

  lemma NoBreakIn(tag: string, value: string)
    requires '\n' !in tag && '\n' !in value
    ensures '\n' !in tag + value
  {
  }

  /** The URI the submit navigates to, from the already encoded subject and body. */
  function MailtoTarget(encodedSubject: string, encodedBody: string): string {
    "mailto:" + Recipient + "?subject=" + encodedSubject + "&body=" + encodedBody
  }

  /**
   * The URI is the recipient followed by two header fields separated by `&` (section 2 of
   * RFC 6068); with `&` percent-encoded in both values the fields split apart again.
   */
  lemma MailtoHeaderFields(encodedSubject: string, encodedBody: string)
    requires '&' !in encodedSubject && '&' !in encodedBody
    ensures var uri := MailtoTarget(encodedSubject, encodedBody);
      var head := |"mailto:" + Recipient + "?"|;
      && uri[..head] == "mailto:" + Recipient + "?"
      && Split(uri[head..], '&') == ["subject=" + encodedSubject, "body=" + encodedBody]
  {
    var uri := MailtoTarget(encodedSubject, encodedBody);
    var head := |"mailto:" + Recipient + "?"|;
    var fields := ["subject=" + encodedSubject, "body=" + encodedBody];
    assert uri == "mailto:" + Recipient + "?" + ("subject=" + encodedSubject + "&body=" + encodedBody);
    assert uri[head..] == Join(fields, '&');
    assert forall i :: 0 <= i < |fields| ==> '&' !in fields[i];
    SplitJoin(fields, '&');
  }

  class ContactForm {
    var formData: FormData
    var isSubmitting: bool
    var submitSuccess: bool

    /** An empty form, neither submitting nor showing the success notice. */
    constructor ()
      ensures formData == EmptyForm && !isSubmitting && !submitSuccess
    {
      formData := EmptyForm;
      isSubmitting := false;
      submitSuccess := false;
    }

    /** `handleChange`: only the named field takes the new value. */
    method Change(field: Field, value: string)
      modifies this
      ensures Get(formData, field) == value
      ensures forall f :: f != field ==> Get(formData, f) == Get(old(formData), f)
      ensures isSubmitting == old(isSubmitting) && submitSuccess == old(submitSuccess)
    {
      formData := WithField(formData, field, value);
    }

    /**
     * `handleSubmit`. `encode` stands for `encodeURIComponent`; `fails` says whether the
     * browser throws before the success notice. On success the URI is returned, the notice
     * shows and the form is emptied; on failure the form is kept. Submitting is off at the end
     * either way.
     */
    method Submit(encode: string -> string, fails: bool) returns (target: Option<string>)
      modifies this
      ensures !isSubmitting
      ensures !fails ==>
        && target == Some(MailtoTarget(encode(SubjectLine(old(formData))), encode(BodyText(old(formData)))))
        && submitSuccess && formData == EmptyForm
      ensures fails ==> target == None && formData == old(formData) && submitSuccess == old(submitSuccess)
    {
      isSubmitting := true;
      target := None;
      if !fails {
        var subject := encode(SubjectLine(formData));
        var body := encode(BodyText(formData));
        target := Some(MailtoTarget(subject, body));
        submitSuccess := true;
        formData := EmptyForm;
      }
      isSubmitting := false;
    }

    /** The 5 s timeout after a successful submit hides the notice. */
    method ClearSuccess()
      modifies this
      ensures !submitSuccess && formData == old(formData) && isSubmitting == old(isSubmitting)
    {
      submitSuccess := false;
    }
  }
}
