/**
 * The onboarding flow (ios/KinexFit/Views/Onboarding/OnboardingCoordinator.swift):
 * eight ordered steps walked forwards and backwards one at a time, a skip to
 * the end, and the completion that submits the profile to the backend, marks
 * every local user as onboarded and then hands control back to the app.
 */
module Onboarding {
  import opened Wrappers
  import opened UserModel
  import opened ApiModel
  import opened LocalStore

  datatype OnboardingStep =
    | Welcome
    | BasicProfile
    | Experience
    | Schedule
    | Equipment
    | Goals
    | PersonalRecords
    | Complete

  /** `allCases`, in declaration order. */
  const AllCases: seq<OnboardingStep> :=
    [Welcome, BasicProfile, Experience, Schedule, Equipment, Goals, PersonalRecords, Complete]

  /** `rawValue`: the position of the step in the flow. */
  function RawValue(s: OnboardingStep): (r: nat)
    ensures r < |AllCases| && AllCases[r] == s
  {
    match s
    case Welcome => 0
    case BasicProfile => 1
    case Experience => 2
    case Schedule => 3
    case Equipment => 4
    case Goals => 5
    case PersonalRecords => 6
    case Complete => 7
  }

  /** `OnboardingStep(rawValue:)`: fails outside 0..7. */
  function FromRawValue(r: int): (s: Option<OnboardingStep>)
    ensures s.Some? <==> 0 <= r < |AllCases|
    ensures s.Some? ==> RawValue(s.value) == r
  {
    if 0 <= r < |AllCases| then Some(AllCases[r]) else None
  }

  /** `title`: the label of the step in the progress header. */
  function Title(s: OnboardingStep): (t: string)
    ensures |t| > 0
  {
    match s
    case Welcome => "Welcome"
    case BasicProfile => "Profile"
    case Experience => "Experience"
    case Schedule => "Schedule"
    case Equipment => "Equipment"
    case Goals => "Goals"
    case PersonalRecords => "Records"
    case Complete => "Ready!"
  }

  /** `progress`: the fraction of the flow reached, counting the current step. */
  function Progress(s: OnboardingStep): (p: real)
    ensures 0.0 < p <= 1.0
  {
    (RawValue(s) + 1) as real / |AllCases| as real
  }

  /** The step `goToNext` moves to: the following one, or the same at the end. */
  function Next(s: OnboardingStep): (n: OnboardingStep)
    ensures s != Complete ==> RawValue(n) == RawValue(s) + 1
    ensures s == Complete ==> n == Complete
  {
    match FromRawValue(RawValue(s) + 1)
    case None => s
    case Some(next) => next
  }

  /** The step `goBack` moves to: the preceding one, or the same at the start. */
  function Prev(s: OnboardingStep): (p: OnboardingStep)
    ensures s != Welcome ==> RawValue(p) == RawValue(s) - 1
    ensures s == Welcome ==> p == Welcome
  {
    if RawValue(s) > 0 then
      match FromRawValue(RawValue(s) - 1)
      case None => s
      case Some(previous) => previous
    else s
  }

  /** `n` presses of "next". */
  function NextTimes(s: OnboardingStep, n: nat): (t: OnboardingStep)
    decreases n
  {
    if n == 0 then s else NextTimes(Next(s), n - 1)
  }

  /** The error text `completeOnboarding` shows. */
  function FailureMessage(description: string): (m: string)
    ensures |m| > |description|
  {
    "Failed to save onboarding data: " + description
  }

  const OnboardingEndpoint: Endpoint := Endpoint(Post, "/api/mobile/user/onboarding")

  /** The `users` table after `markOnboardingComplete` (no WHERE clause: every row). */
  function MarkedComplete(rows: seq<UserRow>, now: int): (r: seq<UserRow>)
    ensures |r| == |rows|
    ensures forall i :: 0 <= i < |r| ==> r[i].user.id == rows[i].user.id
  {
    seq(|rows|, i requires 0 <= i < |rows| =>
      rows[i].(user := rows[i].user.(onboardingCompleted := true, updatedAt := now)))
  }

  class OnboardingViewModel {
    var currentStep: OnboardingStep
    var isSubmitting: bool
    var errorMessage: Option<string>
    /** The database of the user repository the model was given. */
    const database: AppDatabase
    /** The requests sent through the API client, oldest first. */
    var sent: seq<Endpoint>
    /** How many times the `onComplete` callback was invoked. */
    var completions: nat

    constructor (database: AppDatabase)
      ensures currentStep == Welcome && !isSubmitting && errorMessage == None
      ensures this.database == database && sent == [] && completions == 0
    {
      currentStep := Welcome;
      isSubmitting := false;
      errorMessage := None;
      this.database := database;
      sent := [];
      completions := 0;
    }

    /** `goToNext()`. */
    method GoToNext()
      modifies this`currentStep
      ensures currentStep == Next(old(currentStep))
    {
      var next := FromRawValue(RawValue(currentStep) + 1);
      if next.None? {
        return;
      }
      currentStep := next.value;
    }

    /** `goBack()`. */
    method GoBack()
      modifies this`currentStep
      ensures currentStep == Prev(old(currentStep))
    {
      if RawValue(currentStep) <= 0 {
        return;
      }
      var previous := FromRawValue(RawValue(currentStep) - 1);
      if previous.None? {
        return;
      }
      currentStep := previous.value;
    }

    /** `skipToEnd()`. */
    method SkipToEnd()
      modifies this`currentStep
      ensures currentStep == Complete
    {
      currentStep := Complete;
    }

    /** `markOnboardingComplete()`: one UPDATE of every row. */
    method MarkOnboardingComplete(now: int)
      requires database.Valid()
      modifies database`users
      ensures database.users == MarkedComplete(old(database.users), now)
      ensures database.Valid()
    {
      MarkedCompleteKeepsKeys(database.users, now, now);
      database.users := MarkedComplete(database.users, now);
    }

    /**
     * `completeOnboarding()`. `submitReply` is the outcome of the backend call
     * (an error's description on failure); `writeError` is the failure of the
     * local write, if any. On success the submitting flag stays set: the
     * callback replaces the flow.
     */
    method CompleteOnboarding(submitReply: Result<(), string>, writeError: Option<string>, now: int)
      requires database.Valid()
      modifies this`isSubmitting, this`errorMessage, this`sent, this`completions, database`users
      ensures database.Valid()
      ensures sent == old(sent) + [OnboardingEndpoint]
      ensures submitReply.Failure? ==>
                && !isSubmitting && errorMessage == Some(FailureMessage(submitReply.error))
                && database.users == old(database.users) && completions == old(completions)
      ensures submitReply.Success? && writeError.Some? ==>
                && !isSubmitting && errorMessage == Some(FailureMessage(writeError.value))
                && database.users == old(database.users) && completions == old(completions)
      ensures submitReply.Success? && writeError.None? ==>
                && isSubmitting && errorMessage == None
                && database.users == MarkedComplete(old(database.users), now)
                && completions == old(completions) + 1
    {
      isSubmitting := true;
      errorMessage := None;
      sent := sent + [OnboardingEndpoint];
      if submitReply.Failure? {
        errorMessage := Some(FailureMessage(submitReply.error));
        isSubmitting := false;
        return;
      }
      if writeError.Some? {
        errorMessage := Some(FailureMessage(writeError.value));
        isSubmitting := false;
        return;
      }
      MarkOnboardingComplete(now);
      completions := completions + 1;
    }
  }

  // ---------------------------------------------------------------------------
  // Properties

  /** The raw values are 0..7 in order, each naming exactly one step. */
  lemma RawValuesContiguous(s: OnboardingStep, r: int)
    ensures FromRawValue(RawValue(s)) == Some(s)
    ensures FromRawValue(r).Some? <==> 0 <= r <= 7
    ensures RawValue(Welcome) == 0 && RawValue(Complete) == 7
  {
  }

  /** Titles tell the steps apart. */
  lemma TitlesDistinct(s: OnboardingStep, t: OnboardingStep)
    ensures Title(s) == Title(t) <==> s == t
  {
  }

  /** Progress grows strictly with the step and is complete exactly at the last one. */
  lemma ProgressIncreasing(s: OnboardingStep, t: OnboardingStep)
    ensures Progress(s) < Progress(t) <==> RawValue(s) < RawValue(t)
    ensures Progress(s) == 1.0 <==> s == Complete
    ensures Progress(Welcome) == 1.0 / 8.0
  {
    var a := (RawValue(s) + 1) as real;
    var b := (RawValue(t) + 1) as real;
    assert Progress(s) == a / 8.0 && Progress(t) == b / 8.0;
    assert a / 8.0 < b / 8.0 <==> a < b;
  }

  /** Going forward then back restores any step short of the end, and back then forward any step past the start. */
  lemma NextThenBack(s: OnboardingStep)
    ensures s != Complete ==> Prev(Next(s)) == s
    ensures s != Welcome ==> Next(Prev(s)) == s
  {
    if s != Complete {
      assert RawValue(Prev(Next(s))) == RawValue(s);
    }
    if s != Welcome {
      assert RawValue(Next(Prev(s))) == RawValue(s);
    }
  }

  /** Pressing "next" as many times as steps remain reaches the end, and the end is where it stays. */
  lemma {:induction false} NextReachesComplete(s: OnboardingStep, extra: nat)
    ensures NextTimes(s, 7 - RawValue(s) + extra) == Complete
    decreases 7 - RawValue(s) + extra
  {
    if s == Complete {
      if extra > 0 {
        NextReachesComplete(Next(s), extra - 1);
      }
    } else {
      NextReachesComplete(Next(s), extra);
    }
  }

  /** Marking complete sets the two columns on every row and changes nothing else, keeping the primary keys. */
  lemma MarkedCompleteFrame(rows: seq<UserRow>, now: int, i: int)
    requires 0 <= i < |rows|
    ensures var row := MarkedComplete(rows, now)[i];
            && row.user.onboardingCompleted && row.user.updatedAt == now
            && row.user.(onboardingCompleted := rows[i].user.onboardingCompleted, updatedAt := rows[i].user.updatedAt) == rows[i].user
            && row.subscriptionExpiresAt == rows[i].subscriptionExpiresAt
  {
  }

  /** Marking complete keeps the table's primary keys distinct and is idempotent up to the timestamp. */
  lemma MarkedCompleteKeepsKeys(rows: seq<UserRow>, now: int, later: int)
    requires DistinctIds(rows)
    ensures DistinctIds(MarkedComplete(rows, now))
    ensures MarkedComplete(MarkedComplete(rows, now), later) == MarkedComplete(rows, later)
  {
    var r := MarkedComplete(rows, now);
    forall i, j | 0 <= i < j < |r| ensures r[i].user.id != r[j].user.id {
      assert r[i].user.id == rows[i].user.id && r[j].user.id == rows[j].user.id;
    }
  }
}
