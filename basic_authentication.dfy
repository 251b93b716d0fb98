/**
 * The Basic scheme of HTTP authentication (RFC 7617, section 2) as Plan's
 * web server checks it: the decoded "user:password" text is tokenized, the
 * database must be open, the user must exist and the password must match
 * the stored salted hash. Each check that fails has its own reason.
 */
module BasicAuthentication {
  import opened Wrappers
  import StringUtils

  /** Lifecycle state of the database, observed before every lookup. */
  datatype DbState = Closed | Opening | Open | ClosedWithError

  /** `State.name()`: the enum constant's name. */
  function StateName(s: DbState): (name: string)
    ensures name != [] && forall i :: 0 <= i < |name| ==> 'A' <= name[i] <= 'Z' || name[i] == '_'
    ensures s != Open ==> name != "OPEN"
    ensures s == Open ==> name == "OPEN"
  {
    match s
    case Closed => "CLOSED"
    case Opening => "OPENING"
    case Open => "OPEN"
    case ClosedWithError => "CLOSED_WITH_ERROR"
  }

  /** A registered web user with its stored salted password hash. */
  datatype WebUser = WebUser(name: string, saltedPassHash: string, permissionLevel: int)

  /** What the user query returns: the record, nothing, or a database exception. */
  datatype Lookup = Found(user: WebUser) | NotFound | QueryError(message: string)

  /** What password verification returns: a verdict, or an exception from a corrupt hash. */
  datatype Verdict = Verified(correct: bool) | VerifyError(message: string)

  /** The reasons a `WebUserAuthException` names. */
  datatype FailReason = UserAndPassNotSpecified | DatabaseNotOpen | UserDoesNotExist | UserPassMismatch

  /** The exception a caught database or hashing failure is wrapped in. */
  datatype Cause = DbOpFailure(message: string) | PassEncryptFailure(message: string)

  datatype AuthFailure =
    | Rejected(reason: FailReason, detail: Option<string>)
    | Wrapped(cause: Cause)

  type AuthResult = Result<WebUser, AuthFailure>

  /** The query `WebUserQueries.fetchWebUser`, as a function of the user name. */
  type FetchWebUser = string -> Lookup

  /** `PassEncryptUtil.verifyPassword(password, saltedHash)`. */
  type VerifyPassword = (string, string) -> Verdict

  /** The user/password tokens of a decoded header, when there are exactly two. */
  function Credentials(decoded: string): (c: Option<(string, string)>)
    ensures c.Some? <==> |StringUtils.Split(decoded, ':')| == 2
    ensures c.Some? ==> c.value == (StringUtils.Split(decoded, ':')[0], StringUtils.Split(decoded, ':')[1])
    ensures c.Some? ==> c.value.0 != [] && ':' !in c.value.0 && c.value.1 != [] && ':' !in c.value.1
  {
    var userInfo := StringUtils.Split(decoded, ':');
    if |userInfo| != 2 then None else Some((userInfo[0], userInfo[1]))
  }

  /** `BasicAuthentication.getWebUser`, for the header text already decoded from Base64. */
  function GetWebUser(decoded: string, state: DbState, fetch: FetchWebUser, verify: VerifyPassword): (r: AuthResult)
    ensures Credentials(decoded).None? ==> r == Failure(Rejected(UserAndPassNotSpecified, None))
    ensures Credentials(decoded).Some? && state != Open ==>
      r == Failure(Rejected(DatabaseNotOpen, Some("State was: " + StateName(state))))
    ensures Credentials(decoded).Some? && state == Open && fetch(Credentials(decoded).value.0).NotFound? ==>
      r == Failure(Rejected(UserDoesNotExist, Some(Credentials(decoded).value.0)))
    ensures Credentials(decoded).Some? && state == Open && fetch(Credentials(decoded).value.0).Found?
            && verify(Credentials(decoded).value.1, fetch(Credentials(decoded).value.0).user.saltedPassHash) == Verified(false) ==>
      r == Failure(Rejected(UserPassMismatch, Some(Credentials(decoded).value.0)))
    ensures r.Success? <==>
      && Credentials(decoded).Some?
      && state == Open
      && fetch(Credentials(decoded).value.0).Found?
      && verify(Credentials(decoded).value.1, fetch(Credentials(decoded).value.0).user.saltedPassHash) == Verified(true)
    ensures r.Success? ==> r.value == fetch(Credentials(decoded).value.0).user
  {
    match Credentials(decoded)
    case None => Failure(Rejected(UserAndPassNotSpecified, None))
    case Some((user, passwordRaw)) =>
      if state != Open then
        Failure(Rejected(DatabaseNotOpen, Some("State was: " + StateName(state))))
      else
        match fetch(user)
        case QueryError(m) => Failure(Wrapped(DbOpFailure(m)))
        case NotFound => Failure(Rejected(UserDoesNotExist, Some(user)))
        case Found(webUser) =>
          match verify(passwordRaw, webUser.saltedPassHash)
          case VerifyError(m) => Failure(Wrapped(PassEncryptFailure(m)))
          case Verified(correctPass) =>
            if !correctPass then Failure(Rejected(UserPassMismatch, Some(user)))
            else Success(webUser)
  }

  /** Correct credentials against an open database yield exactly the fetched record. */
  lemma CorrectCredentialsSucceed(user: string, password: string, account: WebUser, fetch: FetchWebUser, verify: VerifyPassword)
    requires user != [] && ':' !in user && password != [] && ':' !in password
    requires fetch(user) == Found(account) && verify(password, account.saltedPassHash) == Verified(true)
    ensures GetWebUser(user + ":" + password, Open, fetch, verify) == Success(account)
  {
    PairSplits(user, 1, password);
    assert StringUtils.Repeat(':', 1) == ":";
  }

  /** A malformed pair is rejected whatever the database state and whatever the query or verifier would answer. */
  lemma NotSpecifiedWhateverTheState(decoded: string, s1: DbState, s2: DbState,
                                     f1: FetchWebUser, f2: FetchWebUser, v1: VerifyPassword, v2: VerifyPassword)
    requires |StringUtils.Split(decoded, ':')| != 2
    ensures GetWebUser(decoded, s1, f1, v1) == GetWebUser(decoded, s2, f2, v2)
    ensures GetWebUser(decoded, s1, f1, v1) == Failure(Rejected(UserAndPassNotSpecified, None))
  {
  }

  /** The state check precedes the lookup: with the database not open, neither the query nor the verifier influences the outcome. */
  lemma DatabaseGateBeforeLookup(decoded: string, state: DbState,
                                 f1: FetchWebUser, f2: FetchWebUser, v1: VerifyPassword, v2: VerifyPassword)
    requires state != Open
    ensures GetWebUser(decoded, state, f1, v1) == GetWebUser(decoded, state, f2, v2)
    ensures GetWebUser(decoded, state, f1, v1).Failure?
  {
  }

  /** An open database and a header whose tokens are (user, password), user unknown: the failure names the user. */
  lemma UnknownUserIsNamed(decoded: string, user: string, password: string, fetch: FetchWebUser, verify: VerifyPassword)
    requires Credentials(decoded) == Some((user, password))
    requires fetch(user) == NotFound
    ensures GetWebUser(decoded, Open, fetch, verify) == Failure(Rejected(UserDoesNotExist, Some(user)))
  {
  }

  /** The same for the header spelled "user:password". */
  lemma UnknownUserIsNamedPlain(user: string, password: string, fetch: FetchWebUser, verify: VerifyPassword)
    requires user != [] && ':' !in user && password != [] && ':' !in password
    requires fetch(user) == NotFound
    ensures GetWebUser(user + ":" + password, Open, fetch, verify) == Failure(Rejected(UserDoesNotExist, Some(user)))
  {
    PairSplits(user, 1, password);
    assert StringUtils.Repeat(':', 1) == ":";
    UnknownUserIsNamed(user + ":" + password, user, password, fetch, verify);
  }

  /** A found user whose password does not verify, for a header whose tokens are (user, password): the failure names the user. */
  lemma MismatchIsNamed(decoded: string, user: string, password: string, account: WebUser, fetch: FetchWebUser, verify: VerifyPassword)
    requires Credentials(decoded) == Some((user, password))
    requires fetch(user) == Found(account) && verify(password, account.saltedPassHash) == Verified(false)
    ensures GetWebUser(decoded, Open, fetch, verify) == Failure(Rejected(UserPassMismatch, Some(user)))
  {
  }

  /** The same for the header spelled "user:password". */
  lemma MismatchIsNamedPlain(user: string, password: string, account: WebUser, fetch: FetchWebUser, verify: VerifyPassword)
    requires user != [] && ':' !in user && password != [] && ':' !in password
    requires fetch(user) == Found(account) && verify(password, account.saltedPassHash) == Verified(false)
    ensures GetWebUser(user + ":" + password, Open, fetch, verify) == Failure(Rejected(UserPassMismatch, Some(user)))
  {
    PairSplits(user, 1, password);
    assert StringUtils.Repeat(':', 1) == ":";
    MismatchIsNamed(user + ":" + password, user, password, account, fetch, verify);
  }

  /** An exception from the query or the verifier is wrapped, and such a request never succeeds. */
  lemma ErrorsAreWrapped(decoded: string, fetch: FetchWebUser, verify: VerifyPassword)
    requires Credentials(decoded).Some?
    ensures var (user, password) := Credentials(decoded).value;
      && (fetch(user).QueryError? ==>
            GetWebUser(decoded, Open, fetch, verify) == Failure(Wrapped(DbOpFailure(fetch(user).message))))
      && (fetch(user).Found? && verify(password, fetch(user).user.saltedPassHash).VerifyError? ==>
            GetWebUser(decoded, Open, fetch, verify)
              == Failure(Wrapped(PassEncryptFailure(verify(password, fetch(user).user.saltedPassHash).message))))
  {
  }

  /** A user name and a password joined by one or more colons tokenize as that pair. */
  lemma PairSplits(user: string, colons: nat, password: string)
    requires user != [] && ':' !in user && password != [] && ':' !in password
    requires colons >= 1
    ensures Credentials(user + StringUtils.Repeat(':', colons) + password) == Some((user, password))
  {
    StringUtils.SplitCollapsesRun(user, colons, password, ':');
    StringUtils.SplitSingleToken(user, ':');
    StringUtils.SplitSingleToken(password, ':');
  }

  /** Adjacent colons collapse: "u::p" authenticates exactly as "u:p" does. */
  lemma DoubleColonActsAsOne(user: string, password: string, state: DbState, fetch: FetchWebUser, verify: VerifyPassword)
    requires user != [] && ':' !in user && password != [] && ':' !in password
    ensures GetWebUser(user + "::" + password, state, fetch, verify) == GetWebUser(user + ":" + password, state, fetch, verify)
    ensures Credentials(user + "::" + password) == Some((user, password))
  {
    PairSplits(user, 2, password);
    PairSplits(user, 1, password);
    assert StringUtils.Repeat(':', 2) == "::";
    assert StringUtils.Repeat(':', 1) == ":";
  }

  /**
   * A password that contains a colon can never be used to log in: whatever
   * the header holds, the verifier is only ever asked about colon-free
   * passwords, so a verifier that accepts exactly that password never approves.
   */
  lemma ColonPasswordNeverAccepted(decoded: string, password: string, state: DbState, fetch: FetchWebUser, verify: VerifyPassword)
    requires ':' in password
    requires forall candidate, hash :: verify(candidate, hash) == Verified(true) ==> candidate == password
    ensures GetWebUser(decoded, state, fetch, verify).Failure?
  {
  }
}
