/** Account creation in api/auth/register.js: the field checks, the duplicate-email check and
    the append to `keepalive:users`. */
module Registration {
  import opened Basics
  import opened Text

  /** A stored user; the JSON keys are `id`, `name`, `email`, `password_hash`, `created_at`. */
  datatype User = User(id: int, name: string, email: string, passwordHash: string, createdAt: int)

  const NameMessage := "Name must be at least 2 characters"
  const EmailMessage := "Invalid email address"
  const PasswordMessage := "Password must be at least 8 characters"
  const TakenMessage := "Email already registered"
  const MinPasswordLength := 8

  predicate NameValid(name: Option<string>) { name.Some? && |Trim(name.value)| >= 2 }

  /** `isEmail` is `validator.isEmail`, whose behaviour the model does not fix. */
  predicate EmailValid(email: Option<string>, isEmail: string -> bool)
  {
    email.Some? && email.value != "" && isEmail(email.value)
  }

  predicate PasswordValid(password: Option<string>)
  {
    password.Some? && |password.value| >= MinPasswordLength
  }

  /** The checks in the order name, email, password; the first failure gives the message. */
  function RegistrationCheck(name: Option<string>, email: Option<string>, password: Option<string>,
                             isEmail: string -> bool): (c: Check)
    ensures c == Pass <==> NameValid(name) && EmailValid(email, isEmail) && PasswordValid(password)
    ensures !NameValid(name) ==> c == Fail(NameMessage)
    ensures NameValid(name) && !EmailValid(email, isEmail) ==> c == Fail(EmailMessage)
    ensures NameValid(name) && EmailValid(email, isEmail) && !PasswordValid(password) ==>
      c == Fail(PasswordMessage)
  {
    if !NameValid(name) then Fail(NameMessage)
    else if !EmailValid(email, isEmail) then Fail(EmailMessage)
    else if !PasswordValid(password) then Fail(PasswordMessage)
    else Pass
  }

  /** A name of blanks around one letter is too short, a seven-character password is refused
      and an eight-character one accepted. */
  lemma RegistrationCheckExamples(isEmail: string -> bool)
    requires isEmail("a@b.co")
    ensures RegistrationCheck(Some("  A  "), Some("a@b.co"), Some("12345678"), isEmail) == Fail(NameMessage)
    ensures RegistrationCheck(Some("Al"), Some("a@b.co"), Some("1234567"), isEmail) == Fail(PasswordMessage)
    ensures RegistrationCheck(Some("Al"), Some("a@b.co"), Some("12345678"), isEmail) == Pass
  {
    PaddedLetterTooShort();
    TwoLettersLongEnough();
  }

  /** `"  A  ".trim()` is `"A"`, one character. */
  lemma PaddedLetterTooShort()
    ensures !NameValid(Some("  A  "))
  {
    var padded := "  A  ";
    assert LeadingWhitespace(padded) == 2 by {
      assert padded[1..] == " A  " && padded[2..] == "A  ";
    }
    assert |Trim(padded)| <= 1;
  }

  lemma TwoLettersLongEnough()
    ensures NameValid(Some("Al"))
  {
    TrimStartNoop("Al");
    assert TrimEnd("Al") == "Al";
  }

  /** `users.find(u => u.email.toLowerCase() === email.toLowerCase())`. */
  predicate EmailTaken(users: seq<User>, email: string)
  {
    exists i :: 0 <= i < |users| && SameIgnoringCase(users[i].email, email)
  }

  /** The user appended on success; `hash` stands for `bcrypt.hash(password, 10)`. */
  function NewUser(name: string, email: string, password: string, hash: string -> string, now: int): (u: User)
    ensures u.id == now && u.createdAt == now
    ensures u.name == Trim(name) && u.email == ToLower(email) && u.passwordHash == hash(password)
  {
    User(now, Trim(name), ToLower(email), hash(password), now)
  }

  /** No two users share an email, ignoring case. */
  predicate EmailsDistinct(users: seq<User>)
  {
    forall i, j :: 0 <= i < j < |users| ==> !SameIgnoringCase(users[i].email, users[j].email)
  }

  /** Appending a user whose email is not taken keeps the emails distinct: the stored email is
      lower-cased, and lower-casing it again changes nothing. */
  lemma {:induction false} AppendKeepsEmailsDistinct(users: seq<User>, name: string, email: string,
                                                      password: string, hash: string -> string, now: int)
    requires EmailsDistinct(users) && !EmailTaken(users, email)
    ensures EmailsDistinct(users + [NewUser(name, email, password, hash, now)])
  {
    var u := NewUser(name, email, password, hash, now);
    var ext := users + [u];
    ToLowerIdempotent(email);
    forall i, j | 0 <= i < j < |ext| ensures !SameIgnoringCase(ext[i].email, ext[j].email) {
      if j == |users| {
        assert ext[i] == users[i];
        assert !SameIgnoringCase(users[i].email, email);
      } else {
        assert ext[i] == users[i] && ext[j] == users[j];
      }
    }
  }

  /** The stored users; an absent `keepalive:users` value reads as `[]`. */
  class UserStore {
    var users: seq<User>

    constructor (initial: seq<User>)
      ensures users == initial
    {
      users := initial;
    }

    /** POST: 400 with the first failed check, 400 when the email is already registered
        (ignoring case); otherwise exactly one user is appended. */
    method Register(name: Option<string>, email: Option<string>, password: Option<string>,
                    isEmail: string -> bool, hash: string -> string, now: int)
      returns (reply: Reply<()>)
      modifies this
      ensures RegistrationCheck(name, email, password, isEmail).Fail? ==>
        reply == Err(400, RegistrationCheck(name, email, password, isEmail).message) && users == old(users)
      ensures RegistrationCheck(name, email, password, isEmail) == Pass && EmailTaken(old(users), email.value) ==>
        reply == Err(400, TakenMessage) && users == old(users)
      ensures RegistrationCheck(name, email, password, isEmail) == Pass && !EmailTaken(old(users), email.value) ==>
        reply == Ok(()) && users == old(users) + [NewUser(name.value, email.value, password.value, hash, now)]
      ensures EmailsDistinct(old(users)) ==> EmailsDistinct(users)
    {
      var check := RegistrationCheck(name, email, password, isEmail);
      if check.Fail? {
        return Err(400, check.message);
      }
      if EmailTaken(users, email.value) {
        return Err(400, TakenMessage);
      }
      if EmailsDistinct(users) {
        AppendKeepsEmailsDistinct(users, name.value, email.value, password.value, hash, now);
      }
      users := users + [NewUser(name.value, email.value, password.value, hash, now)];
      reply := Ok(());
    }
  }
}
