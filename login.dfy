/** The login screen's `handleLogin`: email shape check, password length
    check, then an exact-match lookup in the fetched user list. */
module Login {
  import opened Wrappers
  import opened ArrayFind

  /** The shortest password accepted. */
  const MinPasswordLength: nat := 8

  /** A user record as decoded from `GET /users`; `senha` is the plaintext password. */
  datatype User = User(email: string, senha: string, name: string, saldo: int)

  predicate NoAtSign(s: string)
  {
    '@' !in s
  }

  /** Positions `i` (of '@') and `j` (of '.') split `s` as A + "@" + B + "." + C
      with A, B and C non-empty and free of '@': one way the regular expression
      `^[^@]+@[^@]+\.[^@]+$` can match `s`. */
  ghost predicate SplitsAsEmail(s: string, i: int, j: int)
  {
    && 0 < i && i + 1 < j && j + 1 < |s|
    && s[i] == '@' && s[j] == '.'
    && NoAtSign(s[..i]) && NoAtSign(s[i + 1..j]) && NoAtSign(s[j + 1..])
  }

  /** The language of `^[^@]+@[^@]+\.[^@]+$`. */
  ghost predicate MatchesEmailPattern(s: string)
  {
    exists i, j :: SplitsAsEmail(s, i, j)
  }

  /** The domain part after the '@': no further '@', and a '.' that is
      neither its first nor its last character. */
  predicate ValidDomain(d: string)
  {
    NoAtSign(d) && |d| >= 3 && '.' in d[1..|d| - 1]
  }

  /** The email test, computed by splitting at the first '@'. Anything
      shorter than "a@b.c" or starting or ending with '@' is refused. */
  function IsValidEmail(s: string): (ok: bool)
    ensures ok ==> |s| >= 5 && s[0] != '@' && s[|s| - 1] != '@'
  {
    match FirstIndex(s, (c: char) => c == '@')
    case None => false
    case Some(i) => i > 0 && ValidDomain(s[i + 1..])
  }

  /** Every string the email test accepts matches the regular expression. */
  lemma AcceptedMatchesPattern(s: string)
    requires IsValidEmail(s)
    ensures MatchesEmailPattern(s)
  {
    var i := FirstIndex(s, (c: char) => c == '@').value;
    var d := s[i + 1..];
    var m :| 0 <= m < |d| - 2 && d[1..|d| - 1][m] == '.';
    var j := i + 2 + m;
    assert s[j] == d[m + 1] == '.';
    assert s[i + 1..j] == d[..m + 1];
    assert s[j + 1..] == d[m + 2..];
    assert NoAtSign(s[..i]) by {
      forall k | 0 <= k < i ensures s[..i][k] != '@' {
        assert s[k] != '@';
      }
    }
    assert SplitsAsEmail(s, i, j);
  }

  /** Every string the regular expression matches is accepted by the email test. */
  lemma PatternIsAccepted(s: string)
    requires MatchesEmailPattern(s)
    ensures IsValidEmail(s)
  {
  }

  /** The email test accepts exactly the strings the regular expression matches. */
  lemma EmailCheckMatchesPattern(s: string)
    ensures IsValidEmail(s) <==> MatchesEmailPattern(s)
  {
    if IsValidEmail(s) {
      AcceptedMatchesPattern(s);
    }
    if MatchesEmailPattern(s) {
      PatternIsAccepted(s);
    }
  }

  /** Any A + "@" + B + "." + C with non-empty, '@'-free parts is accepted. */
  lemma EmailFromParts(a: string, b: string, c: string)
    requires a != [] && b != [] && c != []
    requires NoAtSign(a) && NoAtSign(b) && NoAtSign(c)
    ensures IsValidEmail(a + "@" + b + "." + c)
  {
    var s := a + "@" + b + "." + c;
    var i, j := |a|, |a| + 1 + |b|;
    assert s[..i] == a && s[i + 1..j] == b && s[j + 1..] == c;
    assert SplitsAsEmail(s, i, j);
    EmailCheckMatchesPattern(s);
  }

  /** `i` is the one and only position of '@' in `s`. */
  predicate OnlyAtSignAt(s: string, i: int)
  {
    0 <= i < |s| && s[i] == '@' && forall k :: 0 <= k < |s| && s[k] == '@' ==> k == i
  }

  /** An accepted email has exactly one '@', and its domain holds a '.' that
      is neither the domain's first nor its last character. */
  lemma AcceptedEmailShape(s: string)
    requires IsValidEmail(s)
    ensures exists i :: OnlyAtSignAt(s, i) && i > 0 && i + 2 < |s| && '.' in s[i + 2..|s| - 1]
  {
    var i := FirstIndex(s, (c: char) => c == '@').value;
    var d := s[i + 1..];
    forall k | 0 <= k < |s| && s[k] == '@' ensures k == i {
    }
    assert s[i + 2..|s| - 1] == d[1..|d| - 1];
    assert OnlyAtSignAt(s, i);
  }

  /** What `handleLogin` ends with, one per alert it shows. */
  datatype LoginOutcome = InvalidEmail | ShortPassword | LoginValid | WrongCredentials | ConnectionError

  /** The `find` predicate: both fields equal, case-sensitively. */
  predicate HasCredentials(u: User, email: string, password: string)
  {
    u.email == email && u.senha == password
  }

  /** `handleLogin`, with the result of the users fetch as a parameter. The
      email check comes first, then the password length; only when both pass
      is the fetched list consulted. */
  function HandleLogin(email: string, password: string, users: FetchResult<User>): (r: LoginOutcome)
    ensures !IsValidEmail(email) ==> r == InvalidEmail
    ensures IsValidEmail(email) && |password| < MinPasswordLength ==> r == ShortPassword
    ensures r == LoginValid <==>
      && IsValidEmail(email) && |password| >= MinPasswordLength && users.Fetched?
      && exists i :: 0 <= i < |users.items| && HasCredentials(users.items[i], email, password)
    ensures r == WrongCredentials <==>
      && IsValidEmail(email) && |password| >= MinPasswordLength && users.Fetched?
      && forall i :: 0 <= i < |users.items| ==> !HasCredentials(users.items[i], email, password)
    ensures r == ConnectionError <==>
      IsValidEmail(email) && |password| >= MinPasswordLength && users.FetchFailed?
  {
    if !IsValidEmail(email) then InvalidEmail
    else if |password| < MinPasswordLength then ShortPassword
    else
      match users
      case FetchFailed => ConnectionError
      case Fetched(list) =>
        if Find(list, (u: User) => HasCredentials(u, email, password)).Some? then LoginValid
        else WrongCredentials
  }

  /** The outcome of a rejected email or password does not depend on the user
      list: the fetch is not needed to decide it. */
  lemma ChecksPrecedeFetch(email: string, password: string, a: FetchResult<User>, b: FetchResult<User>)
    requires !IsValidEmail(email) || |password| < MinPasswordLength
    ensures HandleLogin(email, password, a) == HandleLogin(email, password, b)
    ensures HandleLogin(email, password, a) != LoginValid
  {
  }

  /** The text of the alert shown for each outcome. */
  function AlertMessage(outcome: LoginOutcome): string
  {
    match outcome
    case InvalidEmail => "Por favor, insira um email válido."
    case ShortPassword => "A senha deve conter pelo menos 8 caracteres."
    case LoginValid => "Login Válido"
    case WrongCredentials => "Email ou senha incorretos."
    case ConnectionError => "Erro ao conectar com o servidor. Tente novamente."
  }

  /** Different outcomes show different alerts. */
  lemma AlertsDistinguishOutcomes(o1: LoginOutcome, o2: LoginOutcome)
    requires AlertMessage(o1) == AlertMessage(o2)
    ensures o1 == o2
  {
  }
}
