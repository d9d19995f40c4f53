/**
  The sign-in / registration form of backend/src/components/Authform.jsx:
  the password-strength meter and the submit handler. The server's answer is
  an input of `Submit`; localStorage is the `storage` field.
 */
module AuthForm {
  import opened Wrappers
  import opened Text

  // ------------------------------------------------------- checkStrength

  predicate IsDigit(c: char) { '0' <= c <= '9' }

  predicate IsLetterOrDigit(c: char) { 'A' <= c <= 'Z' || 'a' <= c <= 'z' || IsDigit(c) }

  /** `/[A-Z]/.test(s)` */
  predicate HasUpper(s: string) { |s| > 0 && (IsUpper(s[0]) || HasUpper(s[1..])) }

  /** `/\d/.test(s)` */
  predicate HasDigit(s: string) { |s| > 0 && (IsDigit(s[0]) || HasDigit(s[1..])) }

  /** `/[^A-Za-z0-9]/.test(s)` */
  predicate HasSymbol(s: string) { |s| > 0 && (!IsLetterOrDigit(s[0]) || HasSymbol(s[1..])) }

  datatype Strength = Weak | Medium | Strong {
    /** The text the form shows. */
    function Label(): string {
      match this
      case Weak => "Weak"
      case Medium => "Medium"
      case Strong => "Strong"
    }
  }

  /** `checkStrength`: "Weak" below 6 characters whatever they are; "Strong"
      with an upper-case letter, a digit and a symbol; "Medium" otherwise. */
  function CheckStrength(pwd: string): (s: Strength)
    ensures s == Weak <==> |pwd| < 6
    ensures s == Strong <==> |pwd| >= 6 && HasUpper(pwd) && HasDigit(pwd) && HasSymbol(pwd)
    ensures s == Medium <==> |pwd| >= 6 && !(HasUpper(pwd) && HasDigit(pwd) && HasSymbol(pwd))
  {
    if |pwd| < 6 then Weak
    else if HasUpper(pwd) && HasDigit(pwd) && HasSymbol(pwd) then Strong
    else Medium
  }

  /** A character class found in `s` is still found after appending. */
  lemma {:induction false} ClassesSurviveAppend(s: string, t: string)
    ensures HasUpper(s) ==> HasUpper(s + t)
    ensures HasDigit(s) ==> HasDigit(s + t)
    ensures HasSymbol(s) ==> HasSymbol(s + t)
  {
    if |s| > 0 {
      assert (s + t)[0] == s[0] && (s + t)[1..] == s[1..] + t;
      ClassesSurviveAppend(s[1..], t);
    }
  }

  /** Appending characters to a strong password keeps it strong. */
  lemma StrongStaysStrong(pwd: string, more: string)
    requires CheckStrength(pwd) == Strong
    ensures CheckStrength(pwd + more) == Strong
  {
    ClassesSurviveAppend(pwd, more);
  }

  lemma StrengthExamples()
    ensures CheckStrength("A1!").Label() == "Weak"
    ensures CheckStrength("abcdef").Label() == "Medium"
  {
  }

  // ------------------------------------------------------- handleSubmit

  /** The JSON body sent. */
  datatype Credentials = LoginBody(email: string, password: string)
                       | RegisterBody(name: string, email: string, password: string)

  datatype AuthRequest = AuthRequest(endpoint: string, body: Credentials)

  /** What the server's answer turns into: an ok response with its token, a
      refusal with its optional `error`, or a failure of the fetch or of
      `res.json()` with the exception's message. */
  datatype AuthReply = Accepted(token: string) | Refused(error: Option<string>) | Broken(message: string)

  class AuthFormState {
    var tab: string
    var email: string
    var password: string
    var confirmPassword: string
    var name: string
    var rememberMe: bool
    var error: string
    var loading: bool
    var passwordStrength: string
    /** localStorage */
    var storage: map<string, string>

    /** Mounting: a saved "rememberEmail" fills the email and ticks Remember me. */
    constructor (storage: map<string, string>)
      ensures this.storage == storage && tab == "login" && !loading && error == ""
      ensures "rememberEmail" in storage && storage["rememberEmail"] != "" ==>
        email == storage["rememberEmail"] && rememberMe
      ensures !("rememberEmail" in storage && storage["rememberEmail"] != "") ==>
        email == "" && !rememberMe
    {
      this.storage := storage;
      tab, password, confirmPassword, name := "login", "", "", "";
      error, loading, passwordStrength := "", false, "";
      if "rememberEmail" in storage && storage["rememberEmail"] != "" {
        email, rememberMe := storage["rememberEmail"], true;
      } else {
        email, rememberMe := "", false;
      }
    }

    /** Typing a password updates the strength meter. */
    method SetPassword(pwd: string)
      modifies this
      ensures password == pwd && passwordStrength == CheckStrength(pwd).Label()
      ensures storage == old(storage) && email == old(email) && tab == old(tab)
      ensures confirmPassword == old(confirmPassword) && name == old(name) && rememberMe == old(rememberMe)
      ensures error == old(error) && loading == old(loading)
    {
      password := pwd;
      passwordStrength := CheckStrength(pwd).Label();
    }

    /** `handleSubmit` with the server's `reply`. In register mode a password
        mismatch is reported and nothing is sent. Otherwise the request goes to
        the endpoint of the tab; the token is stored only after an ok answer,
        and then "rememberEmail" is written when Remember me is ticked and
        removed otherwise. `loading` ends false on every path. */
    method Submit(reply: AuthReply) returns (request: Option<AuthRequest>, session: Option<string>)
      modifies this
      ensures !loading
      ensures tab == old(tab) && email == old(email) && password == old(password)
      ensures name == old(name) && rememberMe == old(rememberMe) && confirmPassword == old(confirmPassword)
      ensures passwordStrength == old(passwordStrength)
      ensures old(tab) == "register" && old(password) != old(confirmPassword) ==>
        request == None && session == None && error == "Passwords do not match" && storage == old(storage)
      ensures !(old(tab) == "register" && old(password) != old(confirmPassword)) ==>
        request == Some(if old(tab) == "login"
          then AuthRequest("/api/auth/login", LoginBody(old(email), old(password)))
          else AuthRequest("/api/auth/register", RegisterBody(old(name), old(email), old(password))))
      ensures !(old(tab) == "register" && old(password) != old(confirmPassword)) ==>
        match reply
        case Accepted(token) =>
          && session == Some(token) && error == ""
          && storage == (if old(rememberMe) then old(storage)["token" := token]["rememberEmail" := old(email)]
                         else old(storage)["token" := token] - {"rememberEmail"})
        case Refused(e) =>
          session == None && storage == old(storage)
          && error == (if Truthy(e) then e.value else "Authentication failed")
        case Broken(message) =>
          session == None && storage == old(storage) && error == message
    {
      error := "";
      loading := true;
      session := None;
      if tab == "register" && password != confirmPassword {
        error := "Passwords do not match";
        loading := false;
        return None, None;
      }
      var endpoint := if tab == "login" then "/api/auth/login" else "/api/auth/register";
      var body := if tab == "login" then LoginBody(email, password) else RegisterBody(name, email, password);
      request := Some(AuthRequest(endpoint, body));
      match reply {
        case Refused(e) =>
          error := if Truthy(e) then e.value else "Authentication failed";
        case Broken(message) =>
          error := message;
        case Accepted(token) =>
          storage := storage["token" := token];
          if rememberMe {
            storage := storage["rememberEmail" := email];
          } else {
            storage := storage - {"rememberEmail"};
          }
          session := Some(token);
      }
      loading := false;
    }
  }
}
