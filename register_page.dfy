/**
 * The sign-up form (app/auth/register/page.tsx): the five fields, the two
 * checks `handleSubmit` makes before calling `register`, and what it does
 * with the answer.
 *
 * `register` (the auth provider's call to the registration route) is
 * recorded in `requests` and its boolean answer is a parameter; the router
 * is recorded in `visited`.
 */
module RegisterPage {

  const MismatchError: string := "Пароли не совпадают"
  const LengthError: string := "Пароль должен содержать минимум 6 символов"
  const FailureError: string := "Ошибка при регистрации. Возможно, пользователь с таким email уже существует."

  /** The least accepted `password.length`. */
  const MinLength: nat := 6

  /** The `name` attributes of the form's inputs. */
  const Fields: seq<string> := ["firstName", "lastName", "email", "password", "confirmPassword"]

  /**
   * `s.length`: JavaScript counts UTF-16 code units, so a character outside
   * the Basic Multilingual Plane counts twice.
   */
  function Utf16Length(s: string): (n: nat)
    ensures |s| <= n <= 2 * |s|
  {
    if s == [] then 0 else (if s[0] as int > 0xFFFF then 2 else 1) + Utf16Length(s[1..])
  }

  /** A string of Basic Multilingual Plane characters has one code unit per character. */
  lemma {:induction false} Utf16LengthBmp(s: string)
    requires forall i :: 0 <= i < |s| ==> s[i] as int <= 0xFFFF
    ensures Utf16Length(s) == |s|
    decreases |s|
  {
    if s != [] {
      Utf16LengthBmp(s[1..]);
    }
  }

  /** Three musical-note emoji are six code units: long enough for the form. */
  lemma ThreeEmojiPass()
    ensures Utf16Length("🎵🎵🎵") == MinLength
  {
    assert "🎵🎵🎵"[1..] == "🎵🎵";
    assert "🎵🎵"[1..] == "🎵";
  }

  /** The outcome of the two checks, in the order they are made. */
  datatype Check = Mismatch | TooShort | Passed

  function Validate(password: string, confirmation: string): (r: Check)
    ensures r == Mismatch <==> password != confirmation
    ensures r == TooShort <==> password == confirmation && Utf16Length(password) < MinLength
    ensures r == Passed <==> password == confirmation && Utf16Length(password) >= MinLength
  {
    if password != confirmation then Mismatch
    else if Utf16Length(password) < MinLength then TooShort
    else Passed
  }

  /** The message a failed check shows. */
  function CheckError(c: Check): string {
    match c
    case Mismatch => MismatchError
    case TooShort => LengthError
    case Passed => ""
  }

  /** The mismatch is reported even when the password is also too short: it is checked first. */
  lemma MismatchFirst(password: string, confirmation: string)
    requires password != confirmation && Utf16Length(password) < MinLength
    ensures CheckError(Validate(password, confirmation)) == MismatchError
  {
  }

  /** One `register(email, password, firstName, lastName)` call. */
  datatype Registration = Registration(email: string, password: string, firstName: string, lastName: string)

  class RegisterForm {
    var formData: map<string, string>
    var loading: bool
    var error: string
    var requests: seq<Registration>
    var visited: seq<string>

    /** Every field of the form has a value. */
    ghost predicate Valid()
      reads this
    {
      forall f :: f in Fields ==> f in formData
    }

    constructor()
      ensures Valid()
      ensures forall f :: f in Fields ==> formData[f] == ""
      ensures !loading && error == "" && requests == [] && visited == []
    {
      formData := map f | f in Fields :: "";
      loading := false;
      error := "";
      requests := [];
      visited := [];
    }

    /** `handleChange`: the input named `name` takes `value`. */
    method HandleChange(name: string, value: string)
      requires Valid()
      modifies this`formData
      ensures Valid()
      ensures formData == old(formData)[name := value]
    {
      formData := formData[name := value];
    }

    /**
     * `handleSubmit`, with `success` the answer `register` gives. A failed
     * check shows its message and calls nothing; otherwise `register` is
     * called once with the four fields, and its answer either navigates home
     * or shows the generic failure message. Loading is off again at the end.
     */
    method HandleSubmit(success: bool)
      requires Valid()
      modifies this`loading, this`error, this`requests, this`visited
      ensures Valid() && !loading
      ensures var check := Validate(formData["password"], formData["confirmPassword"]);
        && (check != Passed ==> error == CheckError(check) && requests == old(requests) && visited == old(visited))
        && (check == Passed ==>
              && requests == old(requests) + [Registration(formData["email"], formData["password"],
                                                            formData["firstName"], formData["lastName"])]
              && (success ==> error == "" && visited == old(visited) + ["/"])
              && (!success ==> error == FailureError && visited == old(visited)))
    {
      loading := true;
      error := "";
      var password, confirmation := formData["password"], formData["confirmPassword"];
      if password != confirmation {
        error := MismatchError;
        loading := false;
        return;
      }
      if Utf16Length(password) < MinLength {
        error := LengthError;
        loading := false;
        return;
      }
      requests := requests + [Registration(formData["email"], password, formData["firstName"], formData["lastName"])];
      if success {
        visited := visited + ["/"];
      } else {
        error := FailureError;
      }
      loading := false;
    }
  }
}
