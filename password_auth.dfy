/**
 * Email/password authentication (ios/KinexFit/Services/EmailPasswordAuthService.swift):
 * the five password rules, the mapping of API errors to `AuthError`, and the
 * sign-up and sign-in sequences with the backend replies as parameters.
 *
 * Character classes are ASCII: a lowercase letter is 'a'..'z', an uppercase
 * letter 'A'..'Z', a number '0'..'9'; every other character is "special".
 */
module PasswordAuth {
  import opened Wrappers
  import opened Text
  import opened UserModel
  import opened ApiModel
  import opened LocalStore
  import opened UserRepository

  /** The password rules, in their declaration order; each case names the rule that failed. */
  datatype PasswordValidationError = TooShort | NoLowercase | NoUppercase | NoNumber | NoSpecialChar

  /** The text shown for each rule. */
  function RequirementText(r: PasswordValidationError): string {
    match r
    case TooShort => "At least 8 characters"
    case NoLowercase => "One lowercase letter"
    case NoUppercase => "One uppercase letter"
    case NoNumber => "One number"
    case NoSpecialChar => "One special character"
  }

  /** `PasswordValidationError.allCases`. */
  const AllRequirements: seq<PasswordValidationError> := [TooShort, NoLowercase, NoUppercase, NoNumber, NoSpecialChar]

  /** The position of a rule in the declaration order. */
  function RequirementIndex(r: PasswordValidationError): (k: nat)
    ensures k < |AllRequirements| && AllRequirements[k] == r
  {
    match r
    case TooShort => 0
    case NoLowercase => 1
    case NoUppercase => 2
    case NoNumber => 3
    case NoSpecialChar => 4
  }

  predicate IsLowercase(c: char) { 'a' <= c <= 'z' }
  predicate IsUppercase(c: char) { 'A' <= c <= 'Z' }
  predicate IsLetter(c: char) { IsLowercase(c) || IsUppercase(c) }
  predicate IsNumber(c: char) { '0' <= c <= '9' }
  /** A special character is neither a letter nor a number. */
  predicate IsSpecial(c: char) { !IsLetter(c) && !IsNumber(c) }

  predicate HasLowercase(p: string) { exists i | 0 <= i < |p| :: IsLowercase(p[i]) }
  predicate HasUppercase(p: string) { exists i | 0 <= i < |p| :: IsUppercase(p[i]) }
  predicate HasNumber(p: string) { exists i | 0 <= i < |p| :: IsNumber(p[i]) }
  predicate HasSpecial(p: string) { exists i | 0 <= i < |p| :: IsSpecial(p[i]) }

  /** `isRequirementMet(_:in:)`: the length rule needs eight characters, every other rule one character of its class. */
  predicate IsRequirementMet(r: PasswordValidationError, p: string)
    ensures IsRequirementMet(r, p) && r == TooShort ==> |p| >= 8
    ensures IsRequirementMet(r, p) && r != TooShort ==> |p| >= 1
  {
    match r
    case TooShort => |p| >= 8
    case NoLowercase => HasLowercase(p)
    case NoUppercase => HasUppercase(p)
    case NoNumber => HasNumber(p)
    case NoSpecialChar => HasSpecial(p)
  }

  /** The rules of `rules` that `p` does not meet, in the order of `rules`. */
  function Unmet(rules: seq<PasswordValidationError>, p: string): (failed: seq<PasswordValidationError>)
    ensures |failed| <= |rules|
  {
    if rules == [] then []
    else (if IsRequirementMet(rules[0], p) then [] else [rules[0]]) + Unmet(rules[1..], p)
  }

  /** `validatePassword(_:)`: one check per rule, each appending its failure. */
  method ValidatePassword(password: string) returns (errors: seq<PasswordValidationError>)
    ensures errors == Unmet(AllRequirements, password)
    ensures forall r :: r in errors <==> !IsRequirementMet(r, password)
  {
    errors := [];
    if |password| < 8 {
      errors := errors + [TooShort];
    }
    assert errors == Check(TooShort, password);
    if !HasLowercase(password) {
      errors := errors + [NoLowercase];
    }
    assert errors == Check(TooShort, password) + Check(NoLowercase, password);
    if !HasUppercase(password) {
      errors := errors + [NoUppercase];
    }
    assert errors == Check(TooShort, password) + Check(NoLowercase, password) + Check(NoUppercase, password);
    if !HasNumber(password) {
      errors := errors + [NoNumber];
    }
    if !HasSpecial(password) {
      errors := errors + [NoSpecialChar];
    }
    UnmetAllRequirements(password);
    forall r ensures r in errors <==> !IsRequirementMet(r, password) {
      UnmetMembers(AllRequirements, password, r);
      assert r == AllRequirements[RequirementIndex(r)];
    }
  }

  /** The errors `AuthError` carries here (its other cases belong to other sign-in services). */
  datatype AuthError =
    | InvalidIdentityToken
    | RateLimited(retryAfter: int)
    | ServerError(message: string)
    | Unknown
    | InvalidPassword(errors: seq<PasswordValidationError>)
    | NetworkError(cause: ErrorCause)

  /** The error `networkError` wraps: a transport failure, or an `AuthError` rethrown from inside the `do` block. */
  datatype ErrorCause = TransportFailure(description: string) | AuthFailure(error: AuthError)

  /** `mapAPIError(_:)`. */
  function MapAPIError(e: APIError): (r: AuthError)
    ensures r == InvalidIdentityToken <==> e == HttpStatus(401)
    ensures r == RateLimited(60) <==> e == HttpStatus(429)
    ensures r.ServerError? <==> (e.HttpStatus? && e.code >= 500) || e.Decoding?
    ensures e.HttpStatus? && e.code >= 500 ==> Contains(r.message, IntToString(e.code))
    ensures e.Decoding? ==> r.message == "Invalid response from server"
    ensures r == Unknown <==> e.InvalidURL? || e.InvalidResponse? || (e.HttpStatus? && e.code != 401 && e.code != 429 && e.code < 500)
  {
    match e
    case HttpStatus(code) =>
      if code == 401 then InvalidIdentityToken
      else if code == 429 then RateLimited(60)
      else if code >= 500 then
        ContainsMiddle("Server error (", IntToString(code), ")");
        ServerError("Server error (" + IntToString(code) + ")")
      else Unknown
    case Decoding(_) => ServerError("Invalid response from server")
    case _ => Unknown
  }

  /** The two `catch` clauses: an `APIError` is mapped, anything else becomes `networkError`. */
  function CaughtSendError(e: SendError): (r: AuthError)
    ensures e.Api? ==> r == MapAPIError(e.error)
    ensures e.Transport? ==> r == NetworkError(TransportFailure(e.description))
  {
    match e
    case Api(a) => MapAPIError(a)
    case Transport(d) => NetworkError(TransportFailure(d))
  }

  /** The requests this service sends. */
  datatype AuthRequest =
    | SignUpRequest(email: string, password: string, firstName: Option<string>, lastName: Option<string>)
    | SignInRequest(email: string, password: string)

  datatype UserData = UserData(
    id: string, email: string, firstName: Option<string>, lastName: Option<string>,
    subscriptionTier: string, onboardingCompleted: bool)

  datatype SignInResponse = SignInResponse(
    accessToken: string, refreshToken: string, expiresIn: int, tokenType: string, isNewUser: bool, user: UserData)

  /** The `User` sign-in builds from the response; `now` is the `Date()` it stamps. */
  function SignedInUser(data: UserData, now: int): User {
    User(data.id, data.email, data.firstName, data.lastName,
         TierFromRawValue(data.subscriptionTier).GetOr(Free), Some(Active), 0, 0, data.onboardingCompleted, now)
  }

  class EmailPasswordAuthService {
    const tokenStore: TokenStore
    const database: AppDatabase
    /** The requests sent to the backend, oldest first. */
    var sent: seq<AuthRequest>

    constructor (tokenStore: TokenStore, database: AppDatabase)
      ensures this.tokenStore == tokenStore && this.database == database && sent == []
    {
      this.tokenStore := tokenStore;
      this.database := database;
      sent := [];
    }

    /**
     * `signIn(email:password:)`: send the credentials; on success store both
     * tokens, then save the user built from the response.
     */
    method SignIn(email: string, password: string, reply: Result<SignInResponse, SendError>, now: int)
      returns (r: Result<User, AuthError>)
      requires database.Valid()
      modifies this`sent, tokenStore, database`users
      ensures database.Valid()
      ensures sent == old(sent) + [SignInRequest(email, password)]
      ensures reply.Failure? ==> r == Failure(CaughtSendError(reply.error))
                                 && unchanged(tokenStore) && database.users == old(database.users)
      ensures reply.Success? ==>
                && r == Success(SignedInUser(reply.value.user, now))
                && tokenStore.accessToken == Some(reply.value.accessToken)
                && tokenStore.refreshToken == Some(reply.value.refreshToken)
                && database.users == SavedRows(old(database.users), r.value)
    {
      sent := sent + [SignInRequest(email, password)];
      if reply.Failure? {
        return Failure(CaughtSendError(reply.error));
      }
      var response := reply.value;
      tokenStore.SetAccessToken(response.accessToken);
      tokenStore.SetRefreshToken(response.refreshToken);
      var user := SignedInUser(response.user, now);
      SaveProperties(database.users, user);
      database.users := SavedRows(database.users, user);
      r := Success(user);
    }

    /**
     * `signUp(email:password:firstName:lastName:)`: the password rules are
     * checked before anything is sent; a successful sign-up is followed by a
     * sign-in, whose `AuthError` the generic `catch` wraps in `networkError`.
     */
    method SignUp(email: string, password: string, firstName: Option<string>, lastName: Option<string>,
                  signUpReply: Result<Unit, SendError>, signInReply: Result<SignInResponse, SendError>, now: int)
      returns (r: Result<User, AuthError>)
      requires database.Valid()
      modifies this`sent, tokenStore, database`users
      ensures database.Valid()
      ensures Unmet(AllRequirements, password) != [] ==>
                && r == Failure(InvalidPassword(Unmet(AllRequirements, password)))
                && sent == old(sent) && unchanged(tokenStore) && database.users == old(database.users)
      ensures Unmet(AllRequirements, password) == [] && signUpReply.Failure? ==>
                && r == Failure(CaughtSendError(signUpReply.error))
                && sent == old(sent) + [SignUpRequest(email, password, firstName, lastName)]
                && unchanged(tokenStore) && database.users == old(database.users)
      ensures Unmet(AllRequirements, password) == [] && signUpReply.Success? ==>
                && sent == old(sent) + [SignUpRequest(email, password, firstName, lastName), SignInRequest(email, password)]
                && (signInReply.Failure? ==>
                      && r == Failure(NetworkError(AuthFailure(CaughtSendError(signInReply.error))))
                      && unchanged(tokenStore) && database.users == old(database.users))
                && (signInReply.Success? ==>
                      && r == Success(SignedInUser(signInReply.value.user, now))
                      && tokenStore.accessToken == Some(signInReply.value.accessToken)
                      && tokenStore.refreshToken == Some(signInReply.value.refreshToken)
                      && database.users == SavedRows(old(database.users), r.value))
    {
      var validationErrors := ValidatePassword(password);
      if validationErrors != [] {
        return Failure(InvalidPassword(validationErrors));
      }
      sent := sent + [SignUpRequest(email, password, firstName, lastName)];
      if signUpReply.Failure? {
        return Failure(CaughtSendError(signUpReply.error));
      }
      var signedIn := SignIn(email, password, signInReply, now);
      if signedIn.Failure? {
        return Failure(NetworkError(AuthFailure(signedIn.error)));
      }
      r := signedIn;
    }
  }

  // ---------------------------------------------------------------------------
  // Properties

  /** A rule fails in `p` exactly when it is one of `rules` that `p` does not meet. */
  lemma {:induction false} UnmetMembers(rules: seq<PasswordValidationError>, p: string, r: PasswordValidationError)
    ensures r in Unmet(rules, p) <==> r in rules && !IsRequirementMet(r, p)
  {
    if rules != [] {
      UnmetMembers(rules[1..], p, r);
      assert rules == [rules[0]] + rules[1..];
    }
  }

  /** The failure a single rule contributes. */
  function Check(r: PasswordValidationError, p: string): seq<PasswordValidationError> {
    if IsRequirementMet(r, p) then [] else [r]
  }

  /** Filtering a concatenation filters each part. */
  lemma {:induction false} UnmetAppend(a: seq<PasswordValidationError>, b: seq<PasswordValidationError>, p: string)
    ensures Unmet(a + b, p) == Unmet(a, p) + Unmet(b, p)
  {
    if a == [] {
      assert a + b == b;
    } else {
      assert (a + b)[1..] == a[1..] + b;
      UnmetAppend(a[1..], b, p);
    }
  }

  /** The successive checks of `validatePassword` compute `Unmet` over the declaration order. */
  lemma UnmetAllRequirements(p: string)
    ensures Unmet(AllRequirements, p)
         == Check(TooShort, p) + Check(NoLowercase, p) + Check(NoUppercase, p) + Check(NoNumber, p) + Check(NoSpecialChar, p)
  {
    forall r ensures Unmet([r], p) == Check(r, p) {
      assert [r][1..] == [];
    }
    assert AllRequirements == [TooShort] + [NoLowercase] + [NoUppercase] + [NoNumber] + [NoSpecialChar];
    UnmetAppend([TooShort] + [NoLowercase] + [NoUppercase] + [NoNumber], [NoSpecialChar], p);
    UnmetAppend([TooShort] + [NoLowercase] + [NoUppercase], [NoNumber], p);
    UnmetAppend([TooShort] + [NoLowercase], [NoUppercase], p);
    UnmetAppend([TooShort], [NoLowercase], p);
  }

  /** A password passes exactly when it meets all five rules; `tooShort` is reported exactly below 8 characters. */
  lemma PasswordAcceptedIffAllMet(p: string)
    ensures Unmet(AllRequirements, p) == [] <==> forall r :: IsRequirementMet(r, p)
    ensures TooShort in Unmet(AllRequirements, p) <==> |p| < 8
  {
    forall r ensures r in Unmet(AllRequirements, p) <==> !IsRequirementMet(r, p) {
      UnmetMembers(AllRequirements, p, r);
      assert AllRequirements[RequirementIndex(r)] == r;
    }
    if Unmet(AllRequirements, p) != [] {
      assert Unmet(AllRequirements, p)[0] in Unmet(AllRequirements, p);
    }
  }

  /** The failures of a rule list ordered by declaration keep that order, so they never repeat. */
  lemma {:induction false} UnmetOrdered(rules: seq<PasswordValidationError>, p: string)
    requires forall i, j :: 0 <= i < j < |rules| ==> RequirementIndex(rules[i]) < RequirementIndex(rules[j])
    ensures forall i, j :: 0 <= i < j < |Unmet(rules, p)| ==> RequirementIndex(Unmet(rules, p)[i]) < RequirementIndex(Unmet(rules, p)[j])
  {
    if rules != [] {
      var rest := rules[1..];
      forall i, j | 0 <= i < j < |rest| ensures RequirementIndex(rest[i]) < RequirementIndex(rest[j]) {
        assert rest[i] == rules[i + 1] && rest[j] == rules[j + 1];
      }
      UnmetOrdered(rest, p);
      var tail := Unmet(rest, p);
      forall r | r in tail ensures RequirementIndex(rules[0]) < RequirementIndex(r) {
        UnmetMembers(rest, p, r);
        var k :| 0 <= k < |rest| && rest[k] == r;
        assert rules[k + 1] == r;
      }
      var failed := Unmet(rules, p);
      if IsRequirementMet(rules[0], p) {
        assert failed == tail;
      } else {
        assert failed == [rules[0]] + tail;
        forall i, j | 0 <= i < j < |failed| ensures RequirementIndex(failed[i]) < RequirementIndex(failed[j]) {
          assert failed[j] == tail[j - 1];
          if i > 0 {
            assert failed[i] == tail[i - 1];
          } else {
            assert tail[j - 1] in tail;
          }
        }
      }
    }
  }

  /** The reported failures follow the fixed order tooShort, noLowercase, noUppercase, noNumber, noSpecialChar, without repeats. */
  lemma ValidationOrderFixed(p: string)
    ensures var failed := Unmet(AllRequirements, p);
            forall i, j :: 0 <= i < j < |failed| ==> RequirementIndex(failed[i]) < RequirementIndex(failed[j]) && failed[i] != failed[j]
  {
    UnmetOrdered(AllRequirements, p);
  }

  /** "Passw0rd!" meets every rule; "abc" fails all but the lowercase rule. */
  lemma PasswordExamples()
    ensures Unmet(AllRequirements, "Passw0rd!") == []
    ensures Unmet(AllRequirements, "abc") == [TooShort, NoUppercase, NoNumber, NoSpecialChar]
  {
    var good := "Passw0rd!";
    assert IsLowercase(good[1]) && IsUppercase(good[0]) && IsNumber(good[5]) && IsSpecial(good[8]);
    var bad := "abc";
    assert IsLowercase(bad[0]);
    assert !HasUppercase(bad) && !HasNumber(bad) && !HasSpecial(bad) by {
      forall i | 0 <= i < |bad| ensures IsLowercase(bad[i]) { }
    }
    UnmetAllRequirements(good);
    UnmetAllRequirements(bad);
  }

  /**
   * Sign-in stores a user whose tier is the response's tier when it names one
   * and free otherwise, with status active and both counters at zero.
   */
  lemma SignedInUserDefaults(data: UserData, now: int, t: SubscriptionTier)
    ensures var u := SignedInUser(data, now);
            && u.subscriptionStatus == Some(Active) && u.scanQuotaUsed == 0 && u.aiQuotaUsed == 0
            && u.id == data.id && u.email == data.email && u.onboardingCompleted == data.onboardingCompleted
            && (data.subscriptionTier == TierRawValue(t) ==> u.subscriptionTier == t)
            && (TierFromRawValue(data.subscriptionTier).None? ==> u.subscriptionTier == Free)
  {
    RawValuesRoundTrip(t, Active);
  }

  /** An unknown tier string such as "platinum" signs in as free. */
  lemma UnknownTierSignsInAsFree(data: UserData, now: int)
    requires data.subscriptionTier == "platinum"
    ensures SignedInUser(data, now).subscriptionTier == Free
  {
    assert data.subscriptionTier[0] == 'p' && data.subscriptionTier[1] == 'l';
  }
}
