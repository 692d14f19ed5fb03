/** The request loop of the Jules client: how many fetches one request makes, and what its caller is told. */
module JulesClient {
  import opened Basics

  datatype Verb = GET | POST | OtherVerb

  /** How one fetch ends. */
  datatype Reply =
    | Success
    | HttpError(retryable: bool)
    | TimedOut
    | Broken

  datatype Outcome =
    | Returned
    | ApiError(retryable: bool)
    | NetworkError
    | AbortedByCaller
    | MaxRetriesExceeded

  /** The reply to fetch i (from 1), and whether the caller has aborted by the time it arrives or during the backoff after it. */
  datatype World = World(reply: nat -> Reply, abortedAtReply: nat -> bool, abortedInBackoff: nat -> bool)

  /** Fetch i ends in a way the loop is willing to repeat. */
  predicate Repeatable(w: World, i: nat) {
    w.reply(i) == HttpError(true) || (w.reply(i).TimedOut? && !w.abortedAtReply(i))
  }

  /** Fetch i is followed by another one. */
  predicate Continues(w: World, verb: Verb, maxRetries: int, i: nat) {
    verb.GET? && i <= maxRetries && Repeatable(w, i) && !w.abortedInBackoff(i)
  }

  /** How many fetches a request makes in all, when it is at its i-th. */
  function FetchesFrom(w: World, verb: Verb, maxRetries: int, i: nat): nat
    decreases maxRetries + 1 - i
  {
    if Continues(w, verb, maxRetries, i) then FetchesFrom(w, verb, maxRetries, i + 1) else i
  }

  function Fetches(w: World, verb: Verb, maxRetries: int): nat {
    if maxRetries < 0 then 0 else FetchesFrom(w, verb, maxRetries, 1)
  }

  /** The fetches of several requests that are not reads. */
  function MutationFetches(worlds: seq<World>, verb: Verb, maxRetries: int): nat {
    if worlds == [] then 0
    else MutationFetches(worlds[..|worlds| - 1], verb, maxRetries) + Fetches(worlds[|worlds| - 1], verb, maxRetries)
  }

  /** Requests that are not reads make no more fetches than there are requests. */
  lemma {:induction false} MutationsAreNotRepeated(worlds: seq<World>, verb: Verb, maxRetries: int)
    requires !verb.GET?
    ensures MutationFetches(worlds, verb, maxRetries) <= |worlds|
  {
    if worlds != [] {
      MutationsAreNotRepeated(worlds[..|worlds| - 1], verb, maxRetries);
    }
  }

  /** What the caller gets when fetch i is the last. */
  function Final(w: World, verb: Verb, maxRetries: int, i: nat): Outcome {
    match w.reply(i)
    case Success => Returned
    case HttpError(retryable) =>
      if verb.GET? && retryable && i <= maxRetries then AbortedByCaller
      else if w.abortedAtReply(i) then AbortedByCaller
      else ApiError(retryable)
    case TimedOut => if w.abortedAtReply(i) || (verb.GET? && i <= maxRetries) then AbortedByCaller else NetworkError
    case Broken => if w.abortedAtReply(i) then AbortedByCaller else NetworkError
  }

  /** `fetches` counts the requests that left the process. */
  method Request(w: World, verb: Verb, maxRetries: int) returns (outcome: Outcome, fetches: nat)
    ensures fetches == Fetches(w, verb, maxRetries)
    ensures maxRetries < 0 ==> fetches == 0 && outcome == MaxRetriesExceeded
    ensures maxRetries >= 0 ==> 1 <= fetches <= maxRetries + 1 && outcome == Final(w, verb, maxRetries, fetches)
    ensures maxRetries >= 0 ==> !Continues(w, verb, maxRetries, fetches)
    ensures forall i: nat | 1 <= i < fetches :: Continues(w, verb, maxRetries, i)
    ensures !verb.GET? ==> fetches <= 1
    // which fetches are repeated
    ensures forall i: nat | 1 <= i < fetches ::
      verb.GET? && (w.reply(i) == HttpError(true) || (w.reply(i).TimedOut? && !w.abortedAtReply(i))) && !w.abortedInBackoff(i)
    // and what the last one tells the caller
    ensures maxRetries >= 0 ==>
      var last, spent := w.reply(fetches), !verb.GET? || fetches == maxRetries + 1;
      && (outcome.Returned? <==> last.Success?)
      && (outcome.ApiError? <==> last.HttpError? && !w.abortedAtReply(fetches) && (spent || !last.retryable))
      && (outcome.ApiError? ==> outcome.retryable == last.retryable)
      && (outcome.NetworkError? <==> !w.abortedAtReply(fetches) && (last.Broken? || (last.TimedOut? && spent)))
      && !outcome.MaxRetriesExceeded?
  {
    var canRetry := verb.GET?;
    var attempt: nat := 0;
    fetches := 0;
    while attempt <= maxRetries
      invariant fetches == attempt && attempt <= Max(0, maxRetries) && (attempt > 0 ==> canRetry)
      invariant forall i: nat | 1 <= i <= attempt :: Continues(w, verb, maxRetries, i)
      invariant forall i: nat | 1 <= i <= attempt ::
        verb.GET? && (w.reply(i) == HttpError(true) || (w.reply(i).TimedOut? && !w.abortedAtReply(i))) && !w.abortedInBackoff(i)
      invariant maxRetries >= 0 ==> Fetches(w, verb, maxRetries) == FetchesFrom(w, verb, maxRetries, attempt + 1)
      decreases maxRetries - attempt
    {
      attempt := attempt + 1;
      fetches := fetches + 1;
      match w.reply(attempt) {
        case Success =>
          return Returned, fetches;
        case HttpError(retryable) =>
          if canRetry && retryable && attempt <= maxRetries {
            if w.abortedInBackoff(attempt) {
              return AbortedByCaller, fetches;
            }
            continue;
          }
          return (if w.abortedAtReply(attempt) then AbortedByCaller else ApiError(retryable)), fetches;
        case TimedOut =>
          if w.abortedAtReply(attempt) {
            return AbortedByCaller, fetches;
          }
          if canRetry && attempt <= maxRetries {
            if w.abortedInBackoff(attempt) {
              return AbortedByCaller, fetches;
            }
            continue;
          }
          return NetworkError, fetches;
        case Broken =>
          return (if w.abortedAtReply(attempt) then AbortedByCaller else NetworkError), fetches;
      }
    }
    outcome := MaxRetriesExceeded;
  }
}
