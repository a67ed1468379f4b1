/** The profile page (src/pages/dashboard/profile.tsx): the form state, the
    generic field-change handler and the password rule. */
module ProfilePage {
  import opened Seqs
  import opened Text
  import opened Types

  /** The `name` attributes of the page's inputs. */
  datatype Field = Name | Email | PhoneNumber | Password | ConfirmPassword

  datatype ProfileForm = ProfileForm(name: string, email: string, phoneNumber: string, password: string, confirmPassword: string) {
    function Get(f: Field): string {
      match f
      case Name => name
      case Email => email
      case PhoneNumber => phoneNumber
      case Password => password
      case ConfirmPassword => confirmPassword
    }
  }

  /** The form's first value: the user's name and email (or ""), a demo
      phone number and empty passwords. */
  function InitialForm(user: Option<User>): (f: ProfileForm)
    ensures f.password == "" && f.confirmPassword == "" && f.phoneNumber == "1234567890"
    ensures user.None? ==> f.name == "" && f.email == ""
    ensures user.Some? ==> f.name == user.value.name && f.email == user.value.email
  {
    if user.Some? then ProfileForm(user.value.name, user.value.email, "1234567890", "", "")
    else ProfileForm("", "", "1234567890", "", "")
  }

  /** `{ ...prev, [name]: value }`. */
  function Changed(form: ProfileForm, f: Field, value: string): (r: ProfileForm)
    ensures r.Get(f) == value
    ensures forall g :: g != f ==> r.Get(g) == form.Get(g)
  {
    match f
    case Name => form.(name := value)
    case Email => form.(email := value)
    case PhoneNumber => form.(phoneNumber := value)
    case Password => form.(password := value)
    case ConfirmPassword => form.(confirmPassword := value)
  }

  /** A change is undone by changing the field back, and writing the value
      a field already has changes nothing. */
  lemma {:induction false} ChangeLaws(form: ProfileForm, f: Field, value: string)
    ensures Changed(Changed(form, f, value), f, form.Get(f)) == form
    ensures Changed(form, f, form.Get(f)) == form
  {
    match f
    case Name =>
    case Email =>
    case PhoneNumber =>
    case Password =>
    case ConfirmPassword =>
  }

  datatype PasswordOutcome = Mismatch | TooShort | PasswordChanged

  /** The password rule: the two entries must agree, then be at least six
      UTF-16 code units long (JavaScript's `length`). */
  function CheckPassword(password: string, confirmPassword: string): (o: PasswordOutcome)
    ensures o == Mismatch <==> password != confirmPassword
    ensures o == TooShort <==> password == confirmPassword && Utf16Length(password) < 6
    ensures o == PasswordChanged <==> password == confirmPassword && Utf16Length(password) >= 6
  {
    if password != confirmPassword then Mismatch
    else if Utf16Length(password) < 6 then TooShort
    else PasswordChanged
  }

  /** Length is counted in code units: three characters outside the Basic
      Multilingual Plane make a six-unit password that passes. */
  lemma {:induction false} AstralPasswordPasses()
    ensures CheckPassword("\U{1F600}\U{1F600}\U{1F600}", "\U{1F600}\U{1F600}\U{1F600}") == PasswordChanged
  {
    var p := "\U{1F600}\U{1F600}\U{1F600}";
    assert Utf16Length(p[2..]) == 2;
    assert Utf16Length(p[1..]) == 4;
  }

  class ProfilePage {
    var form: ProfileForm

    constructor (user: Option<User>)
      ensures form == InitialForm(user)
    {
      form := InitialForm(user);
    }

    /** `handleChange`: only the named field takes the value. */
    method HandleChange(f: Field, value: string)
      modifies this
      ensures form == Changed(old(form), f, value)
    {
      form := Changed(form, f, value);
    }

    /** `handlePasswordChange`: a rejected password leaves the form as it
        was; an accepted one clears only the two password fields. */
    method HandlePasswordChange() returns (o: PasswordOutcome)
      modifies this
      ensures o == CheckPassword(old(form).password, old(form).confirmPassword)
      ensures o != PasswordChanged ==> form == old(form)
      ensures o == PasswordChanged ==> form == old(form).(password := "", confirmPassword := "")
    {
      if form.password != form.confirmPassword {
        return Mismatch;
      }
      if Utf16Length(form.password) < 6 {
        return TooShort;
      }
      form := form.(password := "", confirmPassword := "");
      o := PasswordChanged;
    }
  }
}
