/**
 * The Instagram import service (ios/KinexFit/Services/InstagramFetchService.swift):
 * the URL recogniser, the two error mappers, and the fetch / parse / combine
 * sequence with the backend replies as parameters.
 *
 * The URL pattern is `^https?://(www\.)?(instagram\.com|instagr\.am)/(p|reel)/[\w-]+/?.*$`,
 * matched case-insensitively by ICU. Here letters are ASCII, `\w` is
 * [A-Za-z0-9_], `.` is any character but an ICU line terminator, and `$` holds
 * at the end of the input or before one line terminator (or CR LF) that ends it.
 */
module InstagramService {
  import opened Wrappers
  import opened Text
  import opened ApiModel
  import opened InstagramErrors
  import opened InstagramModels

  // ---------------------------------------------------------------------------
  // The URL pattern, stated as a decomposition

  /** ICU's line terminators: LF, VT, FF, CR, NEL, LS and PS. */
  predicate IsLineTerminator(c: char) {
    c == '\n' || c == '\r' || c as int == 0x0B || c as int == 0x0C || c as int == 0x85 || c as int == 0x2028 || c as int == 0x2029
  }

  /** `[\w-]` over ASCII. */
  predicate IsPathChar(c: char) {
    'a' <= c <= 'z' || 'A' <= c <= 'Z' || '0' <= c <= '9' || c == '_' || c == '-'
  }

  predicate NoLineTerminator(s: string) {
    forall i :: 0 <= i < |s| ==> !IsLineTerminator(s[i])
  }

  /** What `$` accepts after the last character `.` consumed. */
  predicate IsLineEnd(e: string) {
    e == [] || (|e| == 1 && IsLineTerminator(e[0])) || e == "\r\n"
  }

  /** `.*$`: characters other than line terminators, then a line end. */
  predicate TailOk(t: string) {
    exists n | 0 <= n <= |t| :: NoLineTerminator(t[..n]) && IsLineEnd(t[n..])
  }

  predicate AllPathChars(w: string) {
    forall j :: 0 <= j < |w| ==> IsPathChar(w[j])
  }

  /** `/?.*$`. */
  predicate SlashThenTail(t: string) {
    TailOk(t) || (|t| >= 1 && t[0] == '/' && TailOk(t[1..]))
  }

  /** `[\w-]+/?.*$` applied to what follows `/p/` or `/reel/`. */
  predicate PathMatches(path: string) {
    exists k | 1 <= k <= |path| :: AllPathChars(path[..k]) && SlashThenTail(path[k..])
  }

  const Schemes: set<string> := {"http", "https"}
  const WwwPrefixes: set<string> := {"", "www."}
  const Hosts: set<string> := {"instagram.com", "instagr.am"}
  const Kinds: set<string> := {"p", "reel"}

  function Url(scheme: string, www: string, host: string, kind: string, path: string): string {
    scheme + ("://" + (www + (host + ("/" + (kind + ("/" + path))))))
  }

  /** The regular expression, case-insensitively: one choice per group and a matching path. */
  ghost predicate MatchesPattern(url: string) {
    exists scheme, www, host, kind, path ::
      Url(scheme, www, host, kind, path) == ToLower(url)
      && scheme in Schemes && www in WwwPrefixes && host in Hosts && kind in Kinds && PathMatches(path)
  }

  // ---------------------------------------------------------------------------
  // The matcher

  /** What is left of `s` after the literal `p`, when `s` starts with it. */
  function Strip(s: string, p: string): (r: Option<string>)
    ensures r.Some? <==> p <= s
    ensures r.Some? ==> s == p + r.value
  {
    if p <= s then
      assert s == s[..|p|] + s[|p|..];
      Some(s[|p|..])
    else None
  }

  function AfterScheme(l: string): Option<string> {
    if "https://" <= l then Strip(l, "https://") else Strip(l, "http://")
  }

  function AfterWww(s: string): string {
    if "www." <= s then Strip(s, "www.").value else s
  }

  function AfterHost(s: string): Option<string> {
    if "instagram.com/" <= s then Strip(s, "instagram.com/") else Strip(s, "instagr.am/")
  }

  function AfterKind(s: string): Option<string> {
    if "p/" <= s then Strip(s, "p/") else Strip(s, "reel/")
  }

  /** `.*$` scanned left to right: a line terminator must end the input, alone or as CR LF. */
  function MatchTail(t: string): bool {
    if t == [] then true
    else if IsLineTerminator(t[0]) then t == [t[0]] || t == "\r\n"
    else MatchTail(t[1..])
  }

  /** `isValidInstagramURL(_:)`: one pass over the lower-cased URL, group by group. */
  function IsValidInstagramURL(url: string): (valid: bool)
    ensures valid ==> |url| >= |"http://instagr.am/p/x"|
  {
    match AfterScheme(ToLower(url))
    case None => false
    case Some(afterScheme) =>
      match AfterHost(AfterWww(afterScheme))
      case None => false
      case Some(afterHost) =>
        match AfterKind(afterHost)
        case None => false
        case Some(path) => |path| >= 1 && IsPathChar(path[0]) && MatchTail(path[1..])
  }

  // ---------------------------------------------------------------------------
  // The error mappers

  /** `mapAPIError(_:)`. */
  function MapAPIError(e: APIError): (r: InstagramFetchError)
    ensures r == Unauthorized <==> e == HttpStatus(401)
    ensures r == PostNotFound <==> e == HttpStatus(404)
    ensures r == RateLimited <==> e == HttpStatus(429)
    ensures e.HttpStatus? && e.code !in {401, 404, 429} ==> r == ServerError(e.code)
    ensures e.Decoding? <==> r.DecodingError?
    ensures e.Decoding? ==> r.cause == e.cause
    ensures e.InvalidURL? || e.InvalidResponse? ==> r == ServerError(0)
  {
    match e
    case HttpStatus(code) =>
      if code == 401 then Unauthorized
      else if code == 404 then PostNotFound
      else if code == 429 then RateLimited
      else ServerError(code)
    case Decoding(cause) => DecodingError(cause)
    case InvalidURL => ServerError(0)
    case InvalidResponse => ServerError(0)
  }

  /** The backend's structured error body. */
  datatype ErrorResponse = ErrorResponse(message: Option<string>, error: Option<string>, quotaUsed: Option<int>, quotaLimit: Option<int>)

  predicate MessageContains(er: ErrorResponse, word: string) {
    er.message.Some? && Contains(er.message.value, word)
  }

  /** `mapErrorResponse(_:statusCode:)`: quota first, then rate limiting, then not-found, else a server error. */
  function MapErrorResponse(er: ErrorResponse, statusCode: int): (r: InstagramFetchError)
    ensures r.QuotaExceeded? <==> MessageContains(er, "quota") || MessageContains(er, "limit")
    ensures r.QuotaExceeded? ==> r.used == er.quotaUsed.GetOr(0) && r.limit == er.quotaLimit.GetOr(100)
    ensures r == RateLimited <==> !r.QuotaExceeded? && (statusCode == 429 || MessageContains(er, "rate limit"))
    ensures r == PostNotFound <==>
              !r.QuotaExceeded? && r != RateLimited && (statusCode == 404 || MessageContains(er, "not found"))
    ensures !r.QuotaExceeded? && r != RateLimited && r != PostNotFound ==> r == ServerError(statusCode)
  {
    if MessageContains(er, "quota") || MessageContains(er, "limit") then
      QuotaExceeded(er.quotaUsed.GetOr(0), er.quotaLimit.GetOr(100))
    else if statusCode == 429 || MessageContains(er, "rate limit") then RateLimited
    else if statusCode == 404 || MessageContains(er, "not found") then PostNotFound
    else ServerError(statusCode)
  }

  /**
   * The mapper with the rate-limit message test placed before the quota test,
   * so that a message mentioning "rate limit" yields `rateLimited`.
   */
  function MapErrorResponseRateLimitFirst(er: ErrorResponse, statusCode: int): (r: InstagramFetchError)
    ensures MessageContains(er, "rate limit") ==> r == RateLimited
    ensures !MessageContains(er, "rate limit") ==> r == MapErrorResponse(er, statusCode)
  {
    if MessageContains(er, "rate limit") then RateLimited else MapErrorResponse(er, statusCode)
  }

  // ---------------------------------------------------------------------------
  // The service

  /** The requests the service sends: the fetch of a post, and the parse of a caption. */
  datatype InstagramRequest = FetchRequest(postURL: string) | IngestRequest(caption: string, sourceURL: Option<string>)

  /** The two `catch` clauses of the fetch: an `APIError` is mapped, anything else is a network error. */
  function FetchFailure(e: SendError): (r: InstagramFetchError) {
    match e
    case Api(a) => MapAPIError(a)
    case Transport(d) => NetworkError(d)
  }

  /** The two `catch` clauses of the parse: an `APIError` is mapped, anything else is a parsing failure. */
  function ParseFailure(e: SendError): (r: InstagramFetchError) {
    match e
    case Api(a) => MapAPIError(a)
    case Transport(_) => ParsingFailed
  }

  /** The pre-parsed exercises are used when the fetch reply carries a non-empty list of them. */
  predicate HasPreParsedExercises(fetch: InstagramFetchResponse) {
    fetch.parsedWorkout.Some? && fetch.parsedWorkout.value.exercises.Some? && fetch.parsedWorkout.value.exercises.value != []
  }

  /** The ingest response built from the pre-parsed workout. */
  function PreParsedIngest(p: ParsedWorkoutData): (r: WorkoutIngestResponse)
    requires p.exercises.Some?
  {
    WorkoutIngestResponse(p.title, p.workoutType, p.exercises.value, p.summary, p.breakdown, p.usedLLM)
  }

  class InstagramFetchService {
    /** The requests sent to the backend, oldest first. */
    var sent: seq<InstagramRequest>

    constructor ()
      ensures sent == []
    {
      sent := [];
    }

    /** `fetchInstagramPost(url:)`: the URL guard, then one request. */
    method FetchInstagramPost(url: string, reply: Result<InstagramFetchResponse, SendError>)
      returns (r: Result<InstagramFetchResponse, InstagramFetchError>)
      modifies this
      ensures !IsValidInstagramURL(url) ==> r == Failure(InstagramFetchError.InvalidURL) && sent == old(sent)
      ensures IsValidInstagramURL(url) ==>
                && sent == old(sent) + [FetchRequest(url)]
                && (reply.Success? ==> r == Success(reply.value))
                && (reply.Failure? ==> r == Failure(FetchFailure(reply.error)))
    {
      if !IsValidInstagramURL(url) {
        return Failure(InstagramFetchError.InvalidURL);
      }
      sent := sent + [FetchRequest(url)];
      if reply.Failure? {
        return Failure(FetchFailure(reply.error));
      }
      r := Success(reply.value);
    }

    /** `parseCaption(_:url:)`: one request to the caption parser. */
    method ParseCaption(caption: string, url: Option<string>, reply: Result<WorkoutIngestResponse, SendError>)
      returns (r: Result<WorkoutIngestResponse, InstagramFetchError>)
      modifies this
      ensures sent == old(sent) + [IngestRequest(caption, url)]
      ensures reply.Success? ==> r == Success(reply.value)
      ensures reply.Failure? ==> r == Failure(ParseFailure(reply.error))
    {
      sent := sent + [IngestRequest(caption, url)];
      if reply.Failure? {
        return Failure(ParseFailure(reply.error));
      }
      r := Success(reply.value);
    }

    /**
     * `fetchAndParse(url:)`: fetch; reuse the pre-parsed workout when it has
     * exercises, otherwise parse the fetched caption; combine the two replies.
     */
    method FetchAndParse(url: string, fetchReply: Result<InstagramFetchResponse, SendError>,
                         ingestReply: Result<WorkoutIngestResponse, SendError>)
      returns (r: Result<FetchedWorkout, InstagramFetchError>)
      modifies this
      ensures !IsValidInstagramURL(url) ==> r == Failure(InstagramFetchError.InvalidURL) && sent == old(sent)
      ensures IsValidInstagramURL(url) && fetchReply.Failure? ==>
                r == Failure(FetchFailure(fetchReply.error)) && sent == old(sent) + [FetchRequest(url)]
      ensures IsValidInstagramURL(url) && fetchReply.Success? && HasPreParsedExercises(fetchReply.value) ==>
                && sent == old(sent) + [FetchRequest(url)]
                && r == Success(FetchedWorkoutFrom(fetchReply.value, PreParsedIngest(fetchReply.value.parsedWorkout.value)))
      ensures IsValidInstagramURL(url) && fetchReply.Success? && !HasPreParsedExercises(fetchReply.value) ==>
                && sent == old(sent) + [FetchRequest(url), IngestRequest(fetchReply.value.content, Some(url))]
                && (ingestReply.Failure? ==> r == Failure(ParseFailure(ingestReply.error)))
                && (ingestReply.Success? ==> r == Success(FetchedWorkoutFrom(fetchReply.value, ingestReply.value)))
    {
      var fetched := FetchInstagramPost(url, fetchReply);
      if fetched.Failure? {
        return Failure(fetched.error);
      }
      var fetchResponse := fetched.value;
      var ingestResponse: WorkoutIngestResponse;
      if HasPreParsedExercises(fetchResponse) {
        ingestResponse := PreParsedIngest(fetchResponse.parsedWorkout.value);
      } else {
        var parsed := ParseCaption(fetchResponse.content, Some(url), ingestReply);
        if parsed.Failure? {
          return Failure(parsed.error);
        }
        ingestResponse := parsed.value;
      }
      r := Success(FetchedWorkoutFrom(fetchResponse, ingestResponse));
    }
  }

  // ---------------------------------------------------------------------------
  // Properties of the matcher

  lemma StripAppend(p: string, rest: string)
    ensures Strip(p + rest, p) == Some(rest)
  {
    assert (p + rest)[..|p|] == p;
    assert (p + rest)[|p|..] == rest;
  }

  lemma StripMismatch(s: string, p: string, i: int)
    requires 0 <= i < |p| && i < |s| && s[i] != p[i]
    ensures Strip(s, p) == None
  {
  }

  /** `.*$` as scanned equals `.*$` as stated. */
  lemma {:induction false} MatchTailIsTailOk(t: string)
    ensures MatchTail(t) <==> TailOk(t)
  {
    if t == [] {
      assert NoLineTerminator(t[..0]) && IsLineEnd(t[0..]);
    } else if IsLineTerminator(t[0]) {
      if TailOk(t) {
        var n :| 0 <= n <= |t| && NoLineTerminator(t[..n]) && IsLineEnd(t[n..]);
        assert n == 0;
        assert t[n..] == t;
      }
      if MatchTail(t) {
        assert t[..0] == [] && t[0..] == t;
      }
    } else {
      MatchTailIsTailOk(t[1..]);
      if TailOk(t) {
        var n :| 0 <= n <= |t| && NoLineTerminator(t[..n]) && IsLineEnd(t[n..]);
        assert n >= 1;
        assert t[1..][..n - 1] == t[1..n];
        var inner := t[1..n];
        forall i | 0 <= i < |inner| ensures !IsLineTerminator(inner[i]) {
          assert inner[i] == t[..n][i + 1];
        }
        assert t[1..][n - 1..] == t[n..];
      }
      if TailOk(t[1..]) {
        var n :| 0 <= n <= |t[1..]| && NoLineTerminator(t[1..][..n]) && IsLineEnd(t[1..][n..]);
        var head := t[..n + 1];
        forall i | 0 <= i < |head| ensures !IsLineTerminator(head[i]) {
          if i > 0 {
            assert head[i] == t[1..][..n][i - 1];
          }
        }
        assert t[n + 1..] == t[1..][n..];
      }
    }
  }

  /** Prepending characters that are not line terminators keeps `.*$` satisfied. */
  lemma TailOkPrepend(x: string, t: string)
    requires NoLineTerminator(x) && TailOk(t)
    ensures TailOk(x + t)
  {
    var n :| 0 <= n <= |t| && NoLineTerminator(t[..n]) && IsLineEnd(t[n..]);
    var xt := x + t;
    assert xt[..|x| + n] == x + t[..n];
    assert xt[|x| + n..] == t[n..];
  }

  /** The optional slash adds nothing: `.*` already matches it. */
  lemma SlashThenTailIsTailOk(t: string)
    requires SlashThenTail(t)
    ensures TailOk(t)
  {
    if |t| >= 1 && t[0] == '/' && TailOk(t[1..]) {
      TailOkPrepend("/", t[1..]);
      assert "/" + t[1..] == t;
    }
  }

  /** A path the pattern accepts passes the matcher's path test. */
  lemma PathMatchesSound(path: string)
    requires PathMatches(path)
    ensures |path| >= 1 && IsPathChar(path[0]) && TailOk(path[1..])
  {
    var k :| 1 <= k <= |path| && AllPathChars(path[..k]) && SlashThenTail(path[k..]);
    assert path[..k][0] == path[0];
    var word := path[1..k];
    forall i | 0 <= i < |word| ensures !IsLineTerminator(word[i]) {
      assert word[i] == path[..k][i + 1];
    }
    var rest := path[k..];
    SlashThenTailIsTailOk(rest);
    TailOkPrepend(word, rest);
    assert word + rest == path[1..];
  }

  /** The path test of the matcher is the path part of the pattern. */
  lemma PathTestIsPathMatches(path: string)
    ensures PathMatches(path) <==> |path| >= 1 && IsPathChar(path[0]) && MatchTail(path[1..])
  {
    if |path| >= 1 {
      MatchTailIsTailOk(path[1..]);
    }
    if PathMatches(path) {
      PathMatchesSound(path);
    }
    if |path| >= 1 && IsPathChar(path[0]) && MatchTail(path[1..]) {
      assert AllPathChars(path[..1]) && SlashThenTail(path[1..]);
    }
  }

  /** Each group alternative is consumed by its matcher step. */
  lemma SchemeStep(scheme: string, rest: string)
    requires scheme in Schemes
    ensures AfterScheme(scheme + ("://" + rest)) == Some(rest)
  {
    var l := scheme + ("://" + rest);
    if scheme == "https" {
      assert l == "https://" + rest;
      StripAppend("https://", rest);
    } else {
      assert l == "http://" + rest;
      StripMismatch(l, "https://", 4);
      StripAppend("http://", rest);
    }
  }

  lemma WwwHostStep(www: string, host: string, rest: string)
    requires www in WwwPrefixes && host in Hosts
    ensures AfterHost(AfterWww(www + (host + ("/" + rest)))) == Some(rest)
  {
    var s := host + ("/" + rest);
    if www == "www." {
      StripAppend("www.", s);
      assert www + s == "www." + s;
    } else {
      assert www + s == s;
      StripMismatch(s, "www.", 0);
    }
    if host == "instagram.com" {
      assert s == "instagram.com/" + rest;
      StripAppend("instagram.com/", rest);
    } else {
      assert s == "instagr.am/" + rest;
      StripMismatch(s, "instagram.com/", 7);
      StripAppend("instagr.am/", rest);
    }
  }

  lemma KindStep(kind: string, rest: string)
    requires kind in Kinds
    ensures AfterKind(kind + ("/" + rest)) == Some(rest)
  {
    var s := kind + ("/" + rest);
    if kind == "p" {
      assert s == "p/" + rest;
      StripAppend("p/", rest);
    } else {
      assert s == "reel/" + rest;
      StripMismatch(s, "p/", 0);
      StripAppend("reel/", rest);
    }
  }

  /** Each matcher step that succeeds has consumed one alternative of its group. */
  lemma AfterSchemeSound(l: string) returns (scheme: string)
    requires AfterScheme(l).Some?
    ensures scheme in Schemes && l == scheme + ("://" + AfterScheme(l).value)
  {
    var rest := AfterScheme(l).value;
    if "https://" <= l {
      scheme := "https";
      assert l == "https://" + rest;
    } else {
      scheme := "http";
      assert l == "http://" + rest;
    }
  }

  lemma AfterWwwSound(s: string) returns (www: string)
    ensures www in WwwPrefixes && s == www + AfterWww(s)
  {
    if "www." <= s {
      www := "www.";
    } else {
      www := "";
    }
  }

  lemma AfterHostSound(t: string) returns (host: string)
    requires AfterHost(t).Some?
    ensures host in Hosts && t == host + ("/" + AfterHost(t).value)
  {
    var rest := AfterHost(t).value;
    if "instagram.com/" <= t {
      host := "instagram.com";
      assert t == "instagram.com/" + rest;
    } else {
      host := "instagr.am";
      assert t == "instagr.am/" + rest;
    }
  }

  lemma AfterKindSound(s: string) returns (kind: string)
    requires AfterKind(s).Some?
    ensures kind in Kinds && s == kind + ("/" + AfterKind(s).value)
  {
    var rest := AfterKind(s).value;
    if "p/" <= s {
      kind := "p";
      assert s == "p/" + rest;
    } else {
      kind := "reel";
      assert s == "reel/" + rest;
    }
  }

  /** Once one alternative per group has been read off the lower-cased URL, acceptance is the path test. */
  lemma ValidFromParts(url: string, scheme: string, www: string, host: string, kind: string, path: string)
    requires Url(scheme, www, host, kind, path) == ToLower(url)
    requires scheme in Schemes && www in WwwPrefixes && host in Hosts && kind in Kinds
    ensures IsValidInstagramURL(url) <==> |path| >= 1 && IsPathChar(path[0]) && MatchTail(path[1..])
  {
    SchemeStep(scheme, www + (host + ("/" + (kind + ("/" + path)))));
    WwwHostStep(www, host, kind + ("/" + path));
    KindStep(kind, path);
  }

  /** Every URL the regular expression matches is accepted by the matcher. */
  lemma PatternAccepted(url: string)
    requires MatchesPattern(url)
    ensures IsValidInstagramURL(url)
  {
    var scheme, www, host, kind, path :| Url(scheme, www, host, kind, path) == ToLower(url)
      && scheme in Schemes && www in WwwPrefixes && host in Hosts && kind in Kinds && PathMatches(path);
    PathTestIsPathMatches(path);
    ValidFromParts(url, scheme, www, host, kind, path);
  }

  /** Every URL the matcher accepts is matched by the regular expression. */
  lemma AcceptedMatchesPattern(url: string)
    requires IsValidInstagramURL(url)
    ensures MatchesPattern(url)
  {
    var l := ToLower(url);
    var afterScheme := AfterScheme(l).value;
    var scheme := AfterSchemeSound(l);
    var www := AfterWwwSound(afterScheme);
    var afterHost := AfterHost(AfterWww(afterScheme)).value;
    var host := AfterHostSound(AfterWww(afterScheme));
    var path := AfterKind(afterHost).value;
    var kind := AfterKindSound(afterHost);
    PathTestIsPathMatches(path);
    assert Url(scheme, www, host, kind, path) == l;
  }

  /** The hand-written matcher accepts exactly the URLs the regular expression matches. */
  lemma IsValidInstagramURLMatchesPattern(url: string)
    ensures IsValidInstagramURL(url) <==> MatchesPattern(url)
  {
    if MatchesPattern(url) {
      PatternAccepted(url);
    }
    if IsValidInstagramURL(url) {
      AcceptedMatchesPattern(url);
    }
  }

  /** The example reel URL below, lower-cased, in its parts. */
  lemma ReelUrlLowered()
    ensures ToLower("HTTPS://Instagram.com/reel/Ab1/?x=1") == Url("https", "", "instagram.com", "reel", "ab1/?x=1")
  {
  }

  /** Its path passes the path test: the query is matched by `/?.*$`. */
  lemma ReelPathPasses()
    ensures IsPathChar("ab1/?x=1"[0]) && MatchTail("ab1/?x=1"[1..])
  {
    var t := "ab1/?x=1"[1..];
    MatchTailIsTailOk(t);
    assert NoLineTerminator(t) && IsLineEnd(t[|t|..]);
  }

  /** A reel URL written partly in capitals and carrying a query is accepted. */
  lemma ReelUrlExample()
    ensures IsValidInstagramURL("HTTPS://Instagram.com/reel/Ab1/?x=1")
  {
    ReelUrlLowered();
    ReelPathPasses();
    ValidFromParts("HTTPS://Instagram.com/reel/Ab1/?x=1", "https", "", "instagram.com", "reel", "ab1/?x=1");
  }

  lemma OtherHostLowered()
    ensures ToLower("https://instagram.co/p/abc") == "https://" + "instagram.co/p/abc"
  {
  }

  /** Another host is refused. */
  lemma OtherHostExample()
    ensures !IsValidInstagramURL("https://instagram.co/p/abc")
  {
    OtherHostLowered();
    StripAppend("https://", "instagram.co/p/abc");
    StripMismatch("instagram.co/p/abc", "www.", 0);
    StripMismatch("instagram.co/p/abc", "instagram.com/", 12);
    StripMismatch("instagram.co/p/abc", "instagr.am/", 7);
  }

  lemma MissingIdLowered()
    ensures ToLower("https://instagram.com/p/") == Url("https", "", "instagram.com", "p", "")
  {
  }

  /** A missing post id is refused. */
  lemma MissingIdExample()
    ensures !IsValidInstagramURL("https://instagram.com/p/")
  {
    MissingIdLowered();
    ValidFromParts("https://instagram.com/p/", "https", "", "instagram.com", "p", "");
  }

  /** Another scheme is refused. */
  lemma OtherSchemeExample()
    ensures !IsValidInstagramURL("ftp://instagram.com/p/abc")
  {
    var l := ToLower("ftp://instagram.com/p/abc");
    assert l[0] == 'f';
    StripMismatch(l, "https://", 0);
    StripMismatch(l, "http://", 0);
  }

  // ---------------------------------------------------------------------------
  // Properties of the mappers and the service

  /** Only the three statuses 401, 404 and 429 and a decoding failure escape `serverError`; retrying follows. */
  lemma MapAPIErrorRetryable(e: APIError)
    ensures IsRetryable(MapAPIError(e)) <==> (e.HttpStatus? && e.code != 401 && e.code != 404) || e.InvalidURL? || e.InvalidResponse?
    ensures !ShouldShowUpgradePrompt(MapAPIError(e))
  {
  }

  /** A message naming a rate limit also names a limit, so the mapper reports the quota and never reaches its rate-limit message test. */
  lemma RateLimitMessageYieldsQuota(er: ErrorResponse, statusCode: int)
    requires MessageContains(er, "rate limit")
    ensures MapErrorResponse(er, statusCode) == QuotaExceeded(er.quotaUsed.GetOr(0), er.quotaLimit.GetOr(100))
  {
    var m := er.message.value;
    var i :| 0 <= i <= |m| - |"rate limit"| && OccursAt(m, "rate limit", i);
    assert m[i + 5..i + 10] == m[i..i + 10][5..10];
    assert OccursAt(m, "limit", i + 5);
  }

  /** "Rate limit exceeded" with status 429 is reported as a quota of 0 out of 100 as written. */
  lemma RateLimitExample()
    ensures MapErrorResponse(ErrorResponse(Some("rate limit exceeded"), None, None, None), 429) == QuotaExceeded(0, 100)
    ensures MapErrorResponseRateLimitFirst(ErrorResponse(Some("rate limit exceeded"), None, None, None), 429) == RateLimited
  {
    ContainsMiddle("", "rate limit", " exceeded");
    assert "" + "rate limit" + " exceeded" == "rate limit exceeded";
    RateLimitMessageYieldsQuota(ErrorResponse(Some("rate limit exceeded"), None, None, None), 429);
  }

  /** With the rate-limit test first, every message naming a rate limit asks for a retry and never for an upgrade. */
  lemma RateLimitFirstIsRetryable(er: ErrorResponse, statusCode: int)
    ensures MessageContains(er, "rate limit") ==>
              IsRetryable(MapErrorResponseRateLimitFirst(er, statusCode))
              && !ShouldShowUpgradePrompt(MapErrorResponseRateLimitFirst(er, statusCode))
    ensures !MessageContains(er, "quota") && !MessageContains(er, "limit") ==>
              MapErrorResponseRateLimitFirst(er, statusCode) == MapErrorResponse(er, statusCode)
  {
    if !MessageContains(er, "quota") && !MessageContains(er, "limit") && er.message.Some? {
      var m := er.message.value;
      if Contains(m, "rate limit") {
        RateLimitMessageYieldsQuota(er, statusCode);
      }
    }
  }
}
