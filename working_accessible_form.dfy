/**
 * The accessible contact form (src/pages/WorkingAccessibleForm.jsx): live
 * validation after every change, and the submit decision that first asks
 * for the missing fields, then for the pending live errors, and only then
 * succeeds.
 */
module WorkingAccessibleForm {
  datatype Field = Name | Email | Message

  datatype Problem =
    | NameTooShort
    | EmailWithoutAt
    | MessageTooShort
    | NameMissing
    | EmailMissing
    | MessageMissing

  function ProblemText(p: Problem): string {
    match p
    case NameTooShort => "Имя должно быть не короче 2 символов"
    case EmailWithoutAt => "Email должен содержать @"
    case MessageTooShort => "Сообщение должно быть не короче 5 символов"
    case NameMissing => "Введите имя"
    case EmailMissing => "Введите email"
    case MessageMissing => "Введите сообщение"
  }

  /** The status line: empty, asking to fill in, asking to fix, or sent. */
  datatype Status = NoStatus | FillIn | FixErrors | Sent

  datatype Contact = Contact(name: string, email: string, message: string, errors: map<Field, Problem>, status: Status)

  /** The effect on `[name, email, message]`: only non-empty fields are judged. */
  function LiveErrors(name: string, email: string, message: string): (e: map<Field, Problem>)
    ensures Name in e <==> name != "" && |name| < 2
    ensures Email in e <==> email != "" && '@' !in email
    ensures Message in e <==> message != "" && |message| < 5
    ensures Name in e ==> e[Name] == NameTooShort
    ensures Email in e ==> e[Email] == EmailWithoutAt
    ensures Message in e ==> e[Message] == MessageTooShort
  {
    var e1 := if name != "" && |name| < 2 then map[Name := NameTooShort] else map[];
    var e2 := if email != "" && '@' !in email then e1[Email := EmailWithoutAt] else e1;
    if message != "" && |message| < 5 then e2[Message := MessageTooShort] else e2
  }

  /** Empty fields never show live errors. */
  lemma EmptyFieldsQuiet()
    ensures LiveErrors("", "", "") == map[]
  {
    var e := LiveErrors("", "", "");
    assert e.Keys == {};
  }

  /** Typing into a field, followed by the validation effect. */
  function Change(c: Contact, field: Field, value: string): (r: Contact)
    ensures r.errors == LiveErrors(r.name, r.email, r.message)
    ensures field == Name ==> r.name == value && r.email == c.email && r.message == c.message
    ensures field == Email ==> r.email == value && r.name == c.name && r.message == c.message
    ensures field == Message ==> r.message == value && r.name == c.name && r.email == c.email
    ensures r.status == c.status
  {
    var next := match field
                case Name => c.(name := value)
                case Email => c.(email := value)
                case Message => c.(message := value);
    next.(errors := LiveErrors(next.name, next.email, next.message))
  }

  /** The errors `handleSubmit` sets for missing fields. */
  function MissingErrors(name: string, email: string, message: string): (e: map<Field, Problem>)
    ensures Name in e <==> name == ""
    ensures Email in e <==> email == ""
    ensures Message in e <==> message == ""
    ensures Name in e ==> e[Name] == NameMissing
    ensures Email in e ==> e[Email] == EmailMissing
    ensures Message in e ==> e[Message] == MessageMissing
  {
    var e1 := if name == "" then map[Name := NameMissing] else map[];
    var e2 := if email == "" then e1[Email := EmailMissing] else e1;
    if message == "" then e2[Message := MessageMissing] else e2
  }

  /** The state after submitting, and whether the data was sent. */
  datatype Submitted = Submitted(contact: Contact, sent: bool)

  /**
   * `handleSubmit`: missing fields come first and replace the errors with
   * exactly the missing ones; otherwise any error still shown blocks the
   * submit; otherwise it succeeds.
   */
  function Submit(c: Contact): (r: Submitted)
    ensures r.sent <==> c.name != "" && c.email != "" && c.message != "" && c.errors == map[]
    ensures (c.name == "" || c.email == "" || c.message == "") ==>
              r.contact.errors == MissingErrors(c.name, c.email, c.message) && r.contact.status == FillIn
    ensures c.name != "" && c.email != "" && c.message != "" && c.errors != map[] ==>
              r.contact == c.(status := FixErrors)
    ensures r.sent ==> r.contact == c.(status := Sent)
    ensures r.contact.name == c.name && r.contact.email == c.email && r.contact.message == c.message
  {
    var missing := MissingErrors(c.name, c.email, c.message);
    if |missing| > 0 then
      Submitted(c.(errors := missing, status := FillIn), false)
    else if |c.errors| > 0 then
      Submitted(c.(status := FixErrors), false)
    else
      Submitted(c.(status := Sent), true)
  }

  /**
   * After the last change the errors are the live ones; then a submit
   * succeeds exactly when every field is filled in validly.
   */
  lemma SubmitAfterChange(c: Contact, field: Field, value: string)
    ensures var d := Change(c, field, value);
            Submit(d).sent <==>
              |d.name| >= 2 && d.email != "" && '@' in d.email && |d.message| >= 5
  {
    var d := Change(c, field, value);
    var e := LiveErrors(d.name, d.email, d.message);
    if |d.name| >= 2 && d.email != "" && '@' in d.email && |d.message| >= 5 {
      assert e.Keys == {};
    } else if d.name != "" && d.email != "" && d.message != "" {
      assert Name in e || Email in e || Message in e;
    }
  }
}
