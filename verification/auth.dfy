/** The mock sign-in and sign-up handlers: no password is checked against
    anything; a "session" record `{ email, name }` is stored. */
module Auth {
  import opened Wrappers
  import opened Strings

  /** What `localStorage` holds under `mm_user`. */
  datatype Session = Session(email: string, name: string)

  const DefaultName := "Matcha Lover"

  /** `String(fd.get(field) || "")`: a missing or empty field reads as "". */
  function Field(v: Option<string>): (s: string)
    ensures v.Some? ==> s == v.value
    ensures v.None? ==> s == ""
  {
    v.GetOr("")
  }

  /** `finishLogin(email)`: the name is the text before the first '@', or
      the default when that text is empty. */
  function FinishLogin(email: string): (s: Session)
    ensures s.email == email
    ensures s.name != []
    ensures '@' !in s.name
    ensures s.name == DefaultName || (exists i :: 0 <= i <= |email| && s.name == email[..i] && (i == |email| || email[i] == '@'))
  {
    var local := Split(email, '@')[0];
    LocalPart(email);
    Session(email, if local == [] then DefaultName else local)
  }

  /** The first piece of `email.split("@")` is a prefix of the address
      that stops at its first '@' or at its end. */
  lemma LocalPart(email: string)
    ensures var local := Split(email, '@')[0];
      '@' !in local && exists i :: 0 <= i <= |email| && local == email[..i] && (i == |email| || email[i] == '@')
  {
    SplitHead(email, '@');
    if '@' in email {
      var i := IndexOf(email, '@');
      assert Split(email, '@')[0] == email[..i];
    } else {
      assert Split(email, '@')[0] == email[..|email|];
    }
  }

  /** An address with a local part gets that part as its name; one that
      starts with '@' (or is empty) gets the default. */
  lemma FinishLoginName(local: string, domain: string)
    requires '@' !in local
    ensures FinishLogin(local + "@" + domain).name == if local == [] then DefaultName else local
    ensures FinishLogin(local).name == if local == [] then DefaultName else local
  {
    SplitCons(local, '@', domain);
    assert local + "@" + domain == local + ['@'] + domain;
  }

  /** `handleSignUp`: different password and confirmation abort without a
      session; otherwise the user is logged in. */
  function SignUp(email: Option<string>, password: Option<string>, confirm: Option<string>): (r: Option<Session>)
    ensures r.None? <==> Field(password) != Field(confirm)
    ensures r.Some? ==> r.value == FinishLogin(Field(email))
  {
    if Field(password) != Field(confirm) then None else Some(FinishLogin(Field(email)))
  }

  /** `handleSignIn`: every email is accepted and the password is not
      consulted. */
  function SignIn(email: Option<string>, password: Option<string>): (s: Session)
    ensures s.email == Field(email)
  {
    FinishLogin(Field(email))
  }

  /** Sign-in gives the same session whatever password is typed. */
  lemma SignInIgnoresPassword(email: Option<string>, p1: Option<string>, p2: Option<string>)
    ensures SignIn(email, p1) == SignIn(email, p2)
  {
  }

  /** A user who signs up and later signs in with the same email gets the
      same session record. */
  lemma SignUpThenSignIn(email: Option<string>, password: Option<string>, other: Option<string>)
    ensures SignUp(email, password, password) == Some(SignIn(email, other))
  {
  }
}
