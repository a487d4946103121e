/**
 * The sign-in / registration dialog: field-by-field validation of the
 * email, password and login inputs, the request it sends when validation
 * passes, and how it reacts to the server's answer.
 */
module AuthModal {
  import opened Wrappers
  import opened Storage
  import opened AuthContext
  import UserUtils

  // ---------------------------------------------------------------------
  // Messages shown under the fields and in the session's error

  const EmailRequired: string := "Email обязателен"
  const EmailBadFormat: string := "Неверный формат email"
  const PasswordRequired: string := "Пароль обязателен"
  const PasswordTooShort: string := "Пароль должен быть не менее 6 символов"
  const LoginRequired: string := "Логин обязателен"
  const LoginTooShort: string := "Логин должен быть не менее 3 символов"
  const UserNotFound: string := "Пользователя нет в системе"
  const ServerError: string := "Ошибка сервера"

  const MinPasswordLength: nat := 6
  const MinLoginLength: nat := 3

  // ---------------------------------------------------------------------
  // Whitespace, as both the regular-expression class \s and String.trim see it

  /** ECMAScript white space and line terminators. */
  predicate IsWhitespace(c: char) {
    c == ' ' || c == '\t' || c == '\n' || c == '\r' || c == '\U{000B}' || c == '\U{000C}'
    || c == '\U{00A0}' || c == '\U{1680}' || ('\U{2000}' <= c <= '\U{200A}')
    || c == '\U{2028}' || c == '\U{2029}' || c == '\U{202F}' || c == '\U{205F}'
    || c == '\U{3000}' || c == '\U{FEFF}'
  }

  /** `!s.trim()`: nothing but whitespace is left of `s`. */
  predicate IsBlank(s: string) {
    forall i :: 0 <= i < |s| ==> IsWhitespace(s[i])
  }

  /** Every character matches \S. */
  predicate NoWhitespace(s: string) {
    forall i :: 0 <= i < |s| ==> !IsWhitespace(s[i])
  }

  // ---------------------------------------------------------------------
  // The email pattern ^\S+@\S+\.\S+$

  /**
   * The pattern's test, by positions: no whitespace anywhere, an '@' after
   * at least one character, then a '.' after at least one more character
   * and before at least one more.
   */
  predicate MatchesEmailPattern(s: string): (b: bool)
    ensures b ==> |s| >= 5 && '@' in s && '.' in s && NoWhitespace(s)
  {
    NoWhitespace(s) &&
    exists i, j :: 1 <= i && i + 2 <= j && j + 2 <= |s| && s[i] == '@' && s[j] == '.'
  }

  /** `s` is `local@domain.suffix` with three non-empty runs of non-whitespace characters. */
  ghost predicate SplitsAsEmail(s: string, local: string, domain: string, suffix: string) {
    s == local + "@" + domain + "." + suffix
    && |local| >= 1 && |domain| >= 1 && |suffix| >= 1
    && NoWhitespace(local) && NoWhitespace(domain) && NoWhitespace(suffix)
  }

  /** The reference meaning of the pattern: some way to read `s` as `\S+ @ \S+ . \S+`. */
  ghost predicate EmailPatternMeaning(s: string) {
    exists local, domain, suffix :: SplitsAsEmail(s, local, domain, suffix)
  }

  /** The positional test is exactly the pattern's meaning. */
  lemma MatchesEmailPatternIff(s: string)
    ensures MatchesEmailPattern(s) <==> EmailPatternMeaning(s)
  {
    if MatchesEmailPattern(s) {
      var i, j :| 1 <= i && i + 2 <= j && j + 2 <= |s| && s[i] == '@' && s[j] == '.';
      var local, domain, suffix := s[..i], s[i + 1..j], s[j + 1..];
      assert s == local + "@" + domain + "." + suffix;
      assert NoWhitespace(local) by {
        forall k | 0 <= k < |local| ensures !IsWhitespace(local[k]) { assert local[k] == s[k]; }
      }
      assert NoWhitespace(domain) by {
        forall k | 0 <= k < |domain| ensures !IsWhitespace(domain[k]) { assert domain[k] == s[i + 1 + k]; }
      }
      assert NoWhitespace(suffix) by {
        forall k | 0 <= k < |suffix| ensures !IsWhitespace(suffix[k]) { assert suffix[k] == s[j + 1 + k]; }
      }
      assert SplitsAsEmail(s, local, domain, suffix);
    }
    if EmailPatternMeaning(s) {
      var local, domain, suffix :| SplitsAsEmail(s, local, domain, suffix);
      var i, j := |local|, |local| + 1 + |domain|;
      assert s[i] == '@' && s[j] == '.';
      forall k | 0 <= k < |s| ensures !IsWhitespace(s[k]) {
        if k < i {
          assert s[k] == local[k];
        } else if i < k < j {
          assert s[k] == domain[k - i - 1];
        } else if j < k {
          assert s[k] == suffix[k - j - 1];
        }
      }
    }
  }

  /** A blank string never matches the pattern. */
  lemma BlankDoesNotMatch(s: string)
    requires IsBlank(s)
    ensures !MatchesEmailPattern(s)
  {
    if |s| > 0 {
      assert IsWhitespace(s[0]);
    }
  }

  // ---------------------------------------------------------------------
  // Field rules

  /** The email's message: required when blank, otherwise a format message unless it matches. */
  function EmailError(email: string): (r: string)
    ensures IsBlank(email) ==> r == EmailRequired
    ensures !IsBlank(email) ==> (r == "" <==> MatchesEmailPattern(email))
    ensures !IsBlank(email) && !MatchesEmailPattern(email) ==> r == EmailBadFormat
    ensures r in {"", EmailRequired, EmailBadFormat}
  {
    if IsBlank(email) then EmailRequired
    else if !MatchesEmailPattern(email) then EmailBadFormat
    else ""
  }

  /** The password is not trimmed: any six characters pass, spaces included. */
  function PasswordError(password: string): (r: string)
    ensures r == "" <==> |password| >= MinPasswordLength
    ensures r == PasswordRequired <==> password == ""
    ensures r == PasswordTooShort <==> 0 < |password| < MinPasswordLength
  {
    if password == "" then PasswordRequired
    else if |password| < MinPasswordLength then PasswordTooShort
    else ""
  }

  /** The login is checked only when registering: blank after trimming, then its untrimmed length. */
  function LoginError(login: string, isLogin: bool): (r: string)
    ensures isLogin ==> r == ""
    ensures !isLogin && IsBlank(login) ==> r == LoginRequired
    ensures !isLogin && !IsBlank(login) ==> (r == "" <==> |login| >= MinLoginLength)
    ensures !isLogin && !IsBlank(login) && |login| < MinLoginLength ==> r == LoginTooShort
    ensures r in {"", LoginRequired, LoginTooShort}
  {
    if isLogin then ""
    else if IsBlank(login) then LoginRequired
    else if |login| < MinLoginLength then LoginTooShort
    else ""
  }

  /** One message per field; the empty string means no message. */
  datatype FieldErrors = FieldErrors(email: string, password: string, login: string) {
    predicate IsClear() {
      email == "" && password == "" && login == ""
    }
  }

  const NoErrors: FieldErrors := FieldErrors("", "", "")

  /** The messages `validateForm` shows for the current inputs. */
  function FormErrors(isLogin: bool, email: string, password: string, login: string): (r: FieldErrors)
    ensures r.email in {"", EmailRequired, EmailBadFormat}
    ensures r.password in {"", PasswordRequired, PasswordTooShort}
    ensures r.login in {"", LoginRequired, LoginTooShort}
    ensures isLogin ==> r.login == ""
  {
    FieldErrors(EmailError(email), PasswordError(password), LoginError(login, isLogin))
  }

  /** The form is accepted exactly when every field meets its rule. */
  lemma FormAcceptedIff(isLogin: bool, email: string, password: string, login: string)
    ensures FormErrors(isLogin, email, password, login).IsClear() <==>
      EmailPatternMeaning(email)
      && |password| >= MinPasswordLength
      && (isLogin || (!IsBlank(login) && |login| >= MinLoginLength))
  {
    MatchesEmailPatternIff(email);
    if IsBlank(email) {
      BlankDoesNotMatch(email);
    }
  }

  // ---------------------------------------------------------------------
  // The request and the reported error

  datatype AuthBody = AuthBody(email: string, password: string, login: Option<string>)

  datatype AuthRequest = AuthRequest(path: string, body: AuthBody)

  /** The POST `handleAuth` sends: to /users/login when signing in, to /users/ when registering. */
  function RequestFor(isLogin: bool, email: string, password: string, login: string): (r: AuthRequest)
    ensures isLogin ==> r.path == "/users/login" && r.body.login == None
    ensures !isLogin ==> r.path == "/users/" && r.body.login == Some(login)
    ensures r.body.email == email && r.body.password == password
  {
    var endpoint := if isLogin then "login" else "";
    AuthRequest("/users/" + endpoint, AuthBody(email, password, if isLogin then None else Some(login)))
  }

  /** A thrown error: the server's message in its response body, and the error's own message. */
  datatype Thrown = Thrown(responseMessage: Option<string>, message: Option<string>)

  /** The first non-empty of the response message, the error message and the generic server error. */
  function ErrorMessage(e: Thrown): (r: string)
    ensures r != ""
    ensures Truthy(e.responseMessage) ==> r == e.responseMessage.value
    ensures !Truthy(e.responseMessage) && Truthy(e.message) ==> r == e.message.value
    ensures !Truthy(e.responseMessage) && !Truthy(e.message) ==> r == ServerError
  {
    if Truthy(e.responseMessage) then e.responseMessage.value
    else if Truthy(e.message) then e.message.value
    else ServerError
  }

  /** What the server did with the request: answered with a body, or the call threw. */
  datatype ServerOutcome =
    | Answered(message: Option<string>, user: Option<User>)
    | Failed(error: Thrown)

  /** The pairs written to storage after a successful sign-in, in the order written. */
  function SessionPairs(u: User): (r: seq<(string, string)>)
    ensures |r| == |SessionKeys|
    ensures forall i :: 0 <= i < |r| ==> r[i].0 == SessionKeys[i]
    ensures RestoredUser(map i | 0 <= i < |r| :: r[i].0 := r[i].1) ==
      if u.userId != "" && u.email != "" && u.login != "" && u.roleName != "" then Some(u) else None
  {
    [(UserIdKey, u.userId), (EmailKey, u.email), (LoginKey, u.login), (RoleKey, u.roleName)]
  }

  /** Writing the session pairs sets the four keys, later pairs over earlier ones. */
  lemma {:induction false} SessionWrites(entries: map<string, string>, u: User)
    ensures SetAll(entries, SessionPairs(u)) ==
      entries[UserIdKey := u.userId][EmailKey := u.email][LoginKey := u.login][RoleKey := u.roleName]
  {
    var pairs := SessionPairs(u);
    calc {
      SetAll(entries, pairs);
      SetAll(entries[UserIdKey := u.userId], pairs[1..]);
      { assert pairs[1..][1..] == pairs[2..]; }
      SetAll(entries[UserIdKey := u.userId][EmailKey := u.email], pairs[2..]);
      { assert pairs[2..][1..] == pairs[3..]; }
      SetAll(entries[UserIdKey := u.userId][EmailKey := u.email][LoginKey := u.login], pairs[3..]);
      { assert pairs[3..][1..] == []; }
      SetAll(entries[UserIdKey := u.userId][EmailKey := u.email][LoginKey := u.login][RoleKey := u.roleName], []);
    }
  }

  /**
   * What sign-in stores, start-up restores: the same user when all four of
   * its fields are non-empty, and nothing otherwise.
   */
  lemma RestoreAfterSignIn(entries: map<string, string>, u: User)
    ensures RestoredUser(SetAll(entries, SessionPairs(u))) ==
      if u.userId != "" && u.email != "" && u.login != "" && u.roleName != "" then Some(u) else None
  {
    SessionWrites(entries, u);
  }

  /**
   * The id sign-in stores is the one the user-id helper reads back: it is
   * returned exactly when it has the UUID-like format.
   */
  lemma UserIdAfterSignIn(entries: map<string, string>, u: User)
    ensures UserUtils.CheckedUserId(Lookup(SetAll(entries, SessionPairs(u)), UserIdKey)) ==
      if UserUtils.IsUserIdFormat(u.userId) then Some(u.userId) else None
  {
    SessionWrites(entries, u);
  }

  // ---------------------------------------------------------------------
  // The dialog's state

  class AuthForm {
    var isLogin: bool
    var email: string
    var password: string
    var login: string
    var inputErrors: FieldErrors

    /** The dialog opens in sign-in mode with empty fields and no messages. */
    constructor ()
      ensures isLogin && email == "" && password == "" && login == "" && inputErrors == NoErrors
    {
      isLogin := true;
      email, password, login := "", "", "";
      inputErrors := NoErrors;
    }

    /** Checks the fields one by one, shows the messages, and reports whether none was raised. */
    method ValidateForm() returns (isValid: bool)
      modifies this`inputErrors
      ensures inputErrors == FormErrors(isLogin, email, password, login)
      ensures isValid <==> inputErrors.IsClear()
    {
      isValid := true;
      var errors := NoErrors;

      if IsBlank(email) {
        errors := errors.(email := EmailRequired);
        isValid := false;
      } else if !MatchesEmailPattern(email) {
        errors := errors.(email := EmailBadFormat);
        isValid := false;
      }

      if password == "" {
        errors := errors.(password := PasswordRequired);
        isValid := false;
      } else if |password| < MinPasswordLength {
        errors := errors.(password := PasswordTooShort);
        isValid := false;
      }

      if !isLogin {
        if IsBlank(login) {
          errors := errors.(login := LoginRequired);
          isValid := false;
        } else if |login| < MinLoginLength {
          errors := errors.(login := LoginTooShort);
          isValid := false;
        }
      }

      inputErrors := errors;
    }

    /** Flips between sign-in and registration and clears every input and message. */
    method HandleSwitchMode()
      modifies this
      ensures isLogin == !old(isLogin)
      ensures email == "" && password == "" && login == ""
      ensures inputErrors == NoErrors
    {
      isLogin := !isLogin;
      email := "";
      password := "";
      login := "";
      inputErrors := NoErrors;
    }

    /**
     * Submits the form. Nothing is sent when validation fails. Otherwise the
     * request is `RequestFor` the inputs and `outcome` is the server's
     * reaction: a returned user is stored (unless the write fails with
     * `saveFault`) and signed in; a thrown error is reported in the session.
     */
    method HandleAuth(session: AuthSession, store: AsyncStorage, outcome: ServerOutcome, saveFault: Option<Thrown>)
      returns (sent: Option<AuthRequest>)
      modifies this`inputErrors, session`user, session`authError, session`isAuthModalOpen, store
      ensures sent.None? <==> !FormErrors(isLogin, email, password, login).IsClear()
      ensures sent.Some? ==> sent.value == RequestFor(isLogin, email, password, login)
      ensures sent.None? ==>
        inputErrors == FormErrors(isLogin, email, password, login)
        && store.entries == old(store.entries)
        && session.user == old(session.user) && session.authError == old(session.authError)
        && session.isAuthModalOpen == old(session.isAuthModalOpen)
      ensures sent.Some? && outcome.Failed? ==>
        session.user == None && session.authError == Some(ErrorMessage(outcome.error))
        && session.isAuthModalOpen == old(session.isAuthModalOpen)
        && store.entries == old(store.entries) && inputErrors == NoErrors
      ensures sent.Some? && outcome.Answered? && outcome.user.None? ==>
        session.user == old(session.user) && session.authError == old(session.authError)
        && session.isAuthModalOpen == old(session.isAuthModalOpen)
        && store.entries == old(store.entries)
        && inputErrors == (if outcome.message == Some(UserNotFound) then NoErrors.(password := UserNotFound) else NoErrors)
      ensures sent.Some? && outcome.Answered? && outcome.user.Some? && saveFault.None? ==>
        store.entries == SetAll(old(store.entries), SessionPairs(outcome.user.value))
        && session.user == outcome.user && session.authError == None && !session.isAuthModalOpen
        && inputErrors == NoErrors
      ensures sent.Some? && outcome.Answered? && outcome.user.Some? && saveFault.Some? ==>
        store.entries == old(store.entries)
        && session.user == None && session.authError == Some(ErrorMessage(saveFault.value))
        && session.isAuthModalOpen == old(session.isAuthModalOpen)
        && inputErrors == (if outcome.message == Some(UserNotFound) then NoErrors.(password := UserNotFound) else NoErrors)
    {
      var valid := ValidateForm();
      if !valid {
        return None;
      }
      var request := RequestFor(isLogin, email, password, login);
      sent := Some(request);

      match outcome {
        case Failed(e) =>
          session.ContextLogin(None, Some(ErrorMessage(e)));
        case Answered(message, user) =>
          if message == Some(UserNotFound) {
            inputErrors := NoErrors.(password := UserNotFound);
          }
          if user.Some? {
            var saved := store.MultiSet(SessionPairs(user.value), saveFault.Some?);
            if saved {
              session.ContextLogin(user, None);
              session.CloseAuthModal();
              inputErrors := NoErrors;
            } else {
              session.ContextLogin(None, Some(ErrorMessage(saveFault.value)));
            }
          }
      }
    }
  }
}
