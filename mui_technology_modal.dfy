/**
 * The add/edit dialog (src/components/MuiTechnologyModal.jsx): the form it
 * fills when opened, the validation of the trimmed title and description
 * and of the deadline, clearing one field's error on change, and the save
 * gate.
 *
 * Dates are day numbers: the deadline field holds one or is empty, and
 * "today" is a parameter.
 */
module MuiTechnologyModal {
  import opened Wrappers
  import opened Technologies

  datatype Form = Form(title: string, description: string, category: string, difficulty: string, deadline: Option<int>)

  /** The form of a new technology. */
  const EmptyForm: Form := Form("", "", "frontend", "beginner", None)

  datatype Field = Title | Description | Category | Difficulty | Deadline

  /** What one `onChange` event carries: the field's name and its new value. */
  datatype Input =
    | TitleInput(text: string)
    | DescriptionInput(text: string)
    | CategoryInput(text: string)
    | DifficultyInput(text: string)
    | DeadlineInput(day: Option<int>)

  function FieldOf(i: Input): Field {
    match i
    case TitleInput(_) => Title
    case DescriptionInput(_) => Description
    case CategoryInput(_) => Category
    case DifficultyInput(_) => Difficulty
    case DeadlineInput(_) => Deadline
  }

  /** The messages `validateForm` can put under a field. */
  datatype Message =
    | TitleRequired
    | TitleTooShort
    | TitleTooLong
    | DescriptionRequired
    | DescriptionTooShort
    | DeadlinePast

  /** The text shown under the field. */
  function Text(m: Message): string {
    match m
    case TitleRequired => "Название обязательно"
    case TitleTooShort => "Название должно быть минимум 2 символа"
    case TitleTooLong => "Название не должно превышать 50 символов"
    case DescriptionRequired => "Описание обязательно"
    case DescriptionTooShort => "Описание должно быть минимум 10 символов"
    case DeadlinePast => "Дедлайн не может быть в прошлом"
  }

  datatype Modal = Modal(form: Form, errors: map<Field, Message>)

  /**
   * The effect on `[open, technology]`: an edited technology's fields are
   * copied, an empty category or difficulty falling back to `frontend` and
   * `beginner`; without a technology the form is reset.  Errors are cleared
   * either way.
   */
  function OnOpen(technology: Option<Tech>): (m: Modal)
    ensures m.errors == map[]
    ensures technology.None? ==> m.form == EmptyForm
    ensures technology.Some? ==>
              var t := technology.value;
              m.form.title == t.title && m.form.description == t.description && m.form.deadline == t.deadline
              && m.form.category == (if t.category.None? || t.category.value == "" then "frontend" else t.category.value)
              && m.form.difficulty == (if t.difficulty == "" then "beginner" else t.difficulty)
    ensures m.form.category != "" && m.form.difficulty != ""
  {
    match technology
    case None => Modal(EmptyForm, map[])
    case Some(t) =>
      Modal(Form(t.title, t.description,
                 if t.category.None? || t.category.value == "" then "frontend" else t.category.value,
                 if t.difficulty == "" then "beginner" else t.difficulty,
                 t.deadline),
            map[])
  }

  /** The title rule on the trimmed title: required, then at least 2, then at most 50. */
  function TitleError(title: string): (r: Option<Message>)
    ensures r.None? <==> 2 <= |Trim(title)| <= 50
    ensures r == Some(TitleRequired) <==> Trim(title) == ""
    ensures r == Some(TitleTooShort) <==> |Trim(title)| == 1
    ensures r == Some(TitleTooLong) <==> |Trim(title)| > 50
  {
    var t := Trim(title);
    if t == "" then Some(TitleRequired)
    else if |t| < 2 then Some(TitleTooShort)
    else if |t| > 50 then Some(TitleTooLong)
    else None
  }

  /** The description rule on the trimmed description: required, then at least 10. */
  function DescriptionError(description: string): (r: Option<Message>)
    ensures r.None? <==> |Trim(description)| >= 10
    ensures r == Some(DescriptionRequired) <==> Trim(description) == ""
    ensures r == Some(DescriptionTooShort) <==> 0 < |Trim(description)| < 10
  {
    var d := Trim(description);
    if d == "" then Some(DescriptionRequired)
    else if |d| < 10 then Some(DescriptionTooShort)
    else None
  }

  /** An empty deadline is never an error; a set one is when it lies before today. */
  function DeadlineError(deadline: Option<int>, today: int): (r: Option<Message>)
    ensures r.Some? <==> deadline.Some? && deadline.value < today
    ensures r.Some? ==> r.value == DeadlinePast
  {
    match deadline
    case Some(day) => if day < today then Some(DeadlinePast) else None
    case None => None
  }

  /** Adds `key := msg` when there is a message. */
  function Put(errors: map<Field, Message>, key: Field, msg: Option<Message>): (r: map<Field, Message>)
    ensures key in r <==> key in errors || msg.Some?
    ensures msg.Some? ==> r[key] == msg.value
    ensures forall k :: k != key ==> (k in r <==> k in errors)
    ensures forall k | k in errors && k != key :: r[k] == errors[k]
  {
    match msg
    case Some(m) => errors[key := m]
    case None => errors
  }

  /** `validateForm()`: a fresh map holding one message per failing field. */
  function ValidateForm(f: Form, today: int): (e: map<Field, Message>)
    ensures Title in e <==> !(2 <= |Trim(f.title)| <= 50)
    ensures Title in e ==> Some(e[Title]) == TitleError(f.title)
    ensures Description in e <==> |Trim(f.description)| < 10
    ensures Description in e ==> Some(e[Description]) == DescriptionError(f.description)
    ensures Deadline in e <==> f.deadline.Some? && f.deadline.value < today
    ensures Deadline in e ==> e[Deadline] == DeadlinePast
    ensures f.deadline.None? ==> Deadline !in e
    ensures Category !in e && Difficulty !in e
  {
    var title := TitleError(f.title);
    var description := DescriptionError(f.description);
    var deadline := DeadlineError(f.deadline, today);
    var e1 := Put(map[], Title, title);
    assert Title in e1 <==> title.Some?;
    var e2 := Put(e1, Description, description);
    assert (Title in e2 <==> title.Some?) && (Description in e2 <==> description.Some?);
    var e3 := Put(e2, Deadline, deadline);
    assert Title in e3 <==> title.Some?;
    assert Description in e3 <==> description.Some?;
    assert Deadline in e3 <==> deadline.Some?;
    e3
  }

  /** The form with one input applied. */
  function Apply(f: Form, i: Input): Form {
    match i
    case TitleInput(v) => f.(title := v)
    case DescriptionInput(v) => f.(description := v)
    case CategoryInput(v) => f.(category := v)
    case DifficultyInput(v) => f.(difficulty := v)
    case DeadlineInput(v) => f.(deadline := v)
  }

  /** `handleChange`: the field takes the value and loses its error; every other error stays. */
  function HandleChange(m: Modal, i: Input): (r: Modal)
    ensures r.form == Apply(m.form, i)
    ensures FieldOf(i) !in r.errors
    ensures forall k :: k != FieldOf(i) ==> (k in r.errors <==> k in m.errors)
    ensures forall k | k in r.errors :: r.errors[k] == m.errors[k]
  {
    var name := FieldOf(i);
    Modal(Apply(m.form, i), if name in m.errors then m.errors - {name} else m.errors)
  }

  /** The result of pressing save: the dialog's state, what `onSave` got, and whether `onClose` ran. */
  datatype SaveOutcome = SaveOutcome(modal: Modal, saved: Option<Form>, closed: bool)

  /**
   * `handleSave()`: with any error the errors are shown and nothing is saved;
   * otherwise the form, untrimmed, is handed to `onSave` and the dialog closes.
   */
  function HandleSave(m: Modal, today: int): (r: SaveOutcome)
    ensures r.saved.Some? <==> ValidateForm(m.form, today) == map[]
    ensures r.saved.Some? ==> r.saved.value == m.form && r.closed && r.modal == m
    ensures r.saved.None? ==> !r.closed && r.modal == Modal(m.form, ValidateForm(m.form, today))
  {
    var errors := ValidateForm(m.form, today);
    if |errors| > 0 then SaveOutcome(Modal(m.form, errors), None, false)
    else SaveOutcome(m, Some(m.form), true)
  }

  /**
   * A saved form has a trimmed title of 2 to 50 characters, a trimmed
   * description of at least 10 and no deadline before today.
   */
  lemma SavedFormIsValid(m: Modal, today: int)
    requires HandleSave(m, today).saved.Some?
    ensures var f := HandleSave(m, today).saved.value;
            2 <= |Trim(f.title)| <= 50 && |Trim(f.description)| >= 10
            && (f.deadline.Some? ==> f.deadline.value >= today)
  {
    var e := ValidateForm(m.form, today);
    assert Title !in e && Description !in e && Deadline !in e;
  }

  /**
   * A form whose title and description are blank after trimming, like the
   * freshly opened empty dialog, gets both required-field messages.
   */
  lemma BlankFormRefused(f: Form, today: int)
    requires Trim(f.title) == "" && Trim(f.description) == ""
    ensures var e := ValidateForm(f, today);
            Title in e && e[Title] == TitleRequired
            && Description in e && e[Description] == DescriptionRequired
  {
    var e := ValidateForm(f, today);
    assert Some(e[Title]) == TitleError(f.title);
    assert Some(e[Description]) == DescriptionError(f.description);
  }

  lemma EmptyFormIsBlank()
    ensures Trim(EmptyForm.title) == "" && Trim(EmptyForm.description) == ""
  {
    assert Trim("") == "";
  }

  /** What the form contributes to a record: `{...tech, ...formData}`. */
  function FormPatch(f: Form): (p: Patch)
    ensures p.id.None? && p.status.None? && p.notes.None? && p.resources.None?
    ensures forall t: Tech :: Merge(t, p) == t.(title := f.title, description := f.description,
                                              category := Some(f.category), difficulty := f.difficulty,
                                              deadline := f.deadline)
  {
    Patch(None, Some(f.title), Some(f.description), Some(f.category), Some(f.difficulty),
          None, None, None, Some(f.deadline))
  }
}
