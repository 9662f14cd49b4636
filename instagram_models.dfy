/**
 * The payloads of the Instagram import (ios/KinexFit/Models/InstagramFetchModels.swift)
 * and the UI model `FetchedWorkout` built from them, with its fallbacks.
 * Only the fields the core reads are kept.
 */
module InstagramModels {
  import opened Wrappers

  datatype AuthorInfo = AuthorInfo(username: string, fullName: Option<string>)

  datatype ExerciseData = ExerciseData(
    id: Option<string>, name: string, sets: Option<int>, reps: Option<string>,
    weight: Option<string>, unit: Option<string>, notes: Option<string>, restSeconds: Option<int>)

  /** The workout the scraper may already have parsed from the caption. */
  datatype ParsedWorkoutData = ParsedWorkoutData(
    title: Option<string>, workoutType: Option<string>, exercises: Option<seq<ExerciseData>>,
    summary: Option<string>, breakdown: Option<seq<string>>, usedLLM: Option<bool>)

  /** The reply of the fetch endpoint; the quota figures come under two names. */
  datatype InstagramFetchResponse = InstagramFetchResponse(
    url: string, title: string, content: string, author: Option<AuthorInfo>, image: Option<string>,
    timestamp: string, mediaType: Option<string>, parsedWorkout: Option<ParsedWorkoutData>,
    scanQuotaUsed: Option<int>, scanQuotaLimit: Option<int>, quotaUsed: Option<int>, quotaLimit: Option<int>)

  /** The reply of the ingest endpoint (the caption parser). */
  datatype WorkoutIngestResponse = WorkoutIngestResponse(
    title: Option<string>, workoutType: Option<string>, exercises: seq<ExerciseData>,
    summary: Option<string>, breakdown: Option<seq<string>>, usedLLM: Option<bool>)

  /** The UI model (its random `id` and parsed `timestamp` are not modelled). */
  datatype FetchedWorkout = FetchedWorkout(
    title: string, content: string, author: Option<AuthorInfo>, imageURL: Option<string>,
    parsedData: WorkoutIngestResponse, sourceURL: string, quotaUsed: Option<int>, quotaLimit: Option<int>)

  /** `a ?? b` on optionals. */
  function OrElse<T>(a: Option<T>, b: Option<T>): (r: Option<T>)
    ensures r.Some? <==> a.Some? || b.Some?
    ensures a.Some? ==> r == a
    ensures a.None? ==> r == b
  {
    if a.Some? then a else b
  }

  /** `FetchedWorkout.init(from:ingestResponse:)`. */
  function FetchedWorkoutFrom(fetch: InstagramFetchResponse, ingest: WorkoutIngestResponse): (w: FetchedWorkout)
    ensures ingest.title.Some? ==> w.title == ingest.title.value
    ensures ingest.title.None? ==> w.title == fetch.title
    ensures w.parsedData == ingest && w.sourceURL == fetch.url
  {
    FetchedWorkout(
      ingest.title.GetOr(fetch.title), fetch.content, fetch.author, fetch.image, ingest, fetch.url,
      OrElse(fetch.scanQuotaUsed, fetch.quotaUsed), OrElse(fetch.scanQuotaLimit, fetch.quotaLimit))
  }

  /** `exerciseCount`. */
  function ExerciseCount(w: FetchedWorkout): (n: nat)
    ensures n == 0 <==> w.parsedData.exercises == []
  {
    |w.parsedData.exercises|
  }

  /** `hasQuotaInfo`. */
  predicate HasQuotaInfo(w: FetchedWorkout)
    ensures HasQuotaInfo(w) ==> w.quotaUsed != None && w.quotaLimit != None
  {
    w.quotaUsed.Some? && w.quotaLimit.Some?
  }

  /** `authorName`: the full name, else the username, else "Unknown". */
  function AuthorName(w: FetchedWorkout): (name: string)
    ensures w.author.None? ==> name == "Unknown"
    ensures w.author.Some? && w.author.value.fullName.Some? ==> name == w.author.value.fullName.value
    ensures w.author.Some? && w.author.value.fullName.None? ==> name == w.author.value.username
  {
    match w.author
    case None => "Unknown"
    case Some(a) => a.fullName.GetOr(a.username)
  }

  const Ellipsis := "..."

  /** `shortContent`: text longer than 100 characters is cut to 97 and marked with an ellipsis. */
  function ShortContent(content: string): (s: string)
    ensures |s| <= 100 || s == content
    ensures |content| <= 100 ==> s == content
    ensures |content| > 100 ==> |s| == 100 && s[..97] == content[..97] && s[97..] == Ellipsis
  {
    if |content| > 100 then content[..97] + Ellipsis else content
  }

  // ---------------------------------------------------------------------------
  // Properties

  /**
   * The title prefers the parser's, everything shown about the post comes from
   * the fetch reply, and each quota figure prefers the scan-specific name.
   */
  lemma FetchedWorkoutFallbacks(fetch: InstagramFetchResponse, ingest: WorkoutIngestResponse)
    ensures var w := FetchedWorkoutFrom(fetch, ingest);
            && (ingest.title.Some? ==> w.title == ingest.title.value)
            && (ingest.title.None? ==> w.title == fetch.title)
            && w.content == fetch.content && w.author == fetch.author
            && w.imageURL == fetch.image && w.sourceURL == fetch.url
            && (fetch.scanQuotaUsed.Some? ==> w.quotaUsed == fetch.scanQuotaUsed)
            && (fetch.scanQuotaUsed.None? ==> w.quotaUsed == fetch.quotaUsed)
            && (fetch.scanQuotaLimit.Some? ==> w.quotaLimit == fetch.scanQuotaLimit)
            && (fetch.scanQuotaLimit.None? ==> w.quotaLimit == fetch.quotaLimit)
            && ExerciseCount(w) == |ingest.exercises|
  {
  }

  /** A built workout has quota information exactly when the reply gives both figures under either name. */
  lemma QuotaInfoFromReply(fetch: InstagramFetchResponse, ingest: WorkoutIngestResponse)
    ensures HasQuotaInfo(FetchedWorkoutFrom(fetch, ingest)) <==>
            (fetch.scanQuotaUsed.Some? || fetch.quotaUsed.Some?) && (fetch.scanQuotaLimit.Some? || fetch.quotaLimit.Some?)
  {
  }

  /** Shortening is idempotent, and the shortened text is a prefix of the original or ends in the ellipsis. */
  lemma ShortContentIdempotent(content: string)
    ensures ShortContent(ShortContent(content)) == ShortContent(content)
    ensures var s := ShortContent(content);
            s == content || (s[..|s| - 3] <= content && s[|s| - 3..] == Ellipsis)
  {
  }
}
