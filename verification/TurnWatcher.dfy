/**
 The turn watcher of internal/appserver/client.go: which notifications of an
 app-server stream make up one turn, when the outcome is frozen, and what of
 the usage reports is counted and kept.
 */
module TurnWatcher {
  import opened Text

  const MAX_COLLECTED_TEXT := 16 * 1024 * 1024
  const MAX_UNATTRIBUTED_SAMPLES := 4

  // ----- notifications -----

  /** One breakdown of a usage report; an absent counter is not a zero. */
  datatype Counters = Counters(
    input: Option<int>, cached: Option<int>, cacheWrite: Option<int>, output: Option<int>, reasoning: Option<int>,
        total: Option<int>)
  {
    predicate Valid() {
      && Present(input) && Present(cached) && Present(output) && Present(reasoning) && Present(total)
      && (cacheWrite.Some? ==> cacheWrite.value >= 0)
    }

    static predicate Present(c: Option<int>) {
      c.Some? && c.value >= 0
    }

    function Resolve(): Breakdown {
      Breakdown(input.GetOr(0), cached.GetOr(0), cacheWrite.GetOr(0), output.GetOr(0), reasoning.GetOr(0),
          total.GetOr(0))
    }
  }

  datatype Breakdown = Breakdown(input: int, cached: int, cacheWrite: int, output: int, reasoning: int, total: int)

  datatype Usage = Usage(last: Breakdown, total: Breakdown)

  datatype Report = Report(threadId: string, turnId: string, last: Option<Counters>, total: Option<Counters>)
  {
    predicate Valid() {
      last.Some? && total.Some? && last.value.Valid() && total.value.Valid()
    }

    function Resolve(): Usage
      requires Valid()
    {
      Usage(last.value.Resolve(), total.value.Resolve())
    }
  }

  datatype TurnError = TurnError(message: string, code: string)

  /**
   What reaches the watcher: the notifications, in the order the reader
   delivers them, and the turn id from the response to review/start, which
   may arrive anywhere among them. Notifications that do not parse and
   methods or items the watcher does not know are Ignored, except usage
   reports, which are counted whether they parse or not. A completion
   carries the review texts of its exited-review-mode items.
   */
  datatype Event =
    | SetTurn(turnId: string)
    | TurnStarted(threadId: string, turnId: string)
    | Delta(threadId: string, turnId: string, text: string)
    | AgentMessage(threadId: string, turnId: string, text: string)
    | ExitedReview(threadId: string, turnId: string, text: string)
    | TokenUsage(report: Option<Report>)
    | Failure(threadId: string, turnId: string, error: TurnError, willRetry: bool)
    | TurnCompleted(threadId: string, turnId: string, status: string, turnError: Option<TurnError>,
        reviews: seq<string>)
    | Ignored

  // ----- the watcher as a value -----

  /** What a finished turn's result is made of, usage apart. */
  datatype Turn = Turn(
    threadId: string, turnId: string, review: string, messages: string, deltas: string, overflow: bool, status: string,
    turnErr: Option<TurnError>, lastErr: Option<TurnError>, finished: bool, closes: nat)
  {
    /** Fail-closed: the turn id must be established and the event must carry it. */
    predicate Matches(thread: string, turn: string) {
      turnId != "" && thread == threadId && turn != "" && turn == turnId
    }
  }

  /** The usage reports: the standing figure, and how every report was judged. */
  datatype Tally = Tally(usage: Option<Usage>, seen: nat, bad: nat, unattributed: nat, samples: seq<string>)

  datatype Watch = Watch(turn: Turn, tally: Tally)

  function NewWatch(threadId: string): Watch {
    Watch(Turn(threadId, "", "", "", "", false, "", None, None, false, 0), Tally(None, 0, 0, 0, []))
  }

  predicate Fits(buffer: string, s: string) {
    ByteLen(buffer) + ByteLen(s) <= MAX_COLLECTED_TEXT
  }

  function AppendDelta(t: Turn, s: string): Turn {
    if t.overflow then t
    else if !Fits(t.deltas, s) then t.(overflow := true)
    else t.(deltas := t.deltas + s)
  }

  function AppendMessage(t: Turn, s: string): Turn {
    if t.overflow then t
    else if !Fits(t.messages, s) then t.(overflow := true)
    else t.(messages := t.messages + s)
  }

  const SEPARATOR := "\n\n"

  /** The last nonempty review among the completed turn's items. */
  function LastReview(reviews: seq<string>): (r: string)
    ensures if r == "" then forall i | 0 <= i < |reviews| :: reviews[i] == ""
            else exists i ::
              0 <= i < |reviews| && reviews[i] == r && forall j | i < j < |reviews| :: reviews[j] == ""
  {
    if reviews == [] then ""
    else if reviews[|reviews| - 1] != "" then reviews[|reviews| - 1]
    else LastReview(reviews[..|reviews| - 1])
  }

  /** A notification other than a usage report, while the turn is open. */
  function StepOpen(t: Turn, e: Event): Turn {
    match e
    case TurnStarted(thread, turn) =>
      if thread == t.threadId && t.turnId == "" && turn != "" then t.(turnId := turn) else t
    case Delta(thread, turn, text) => if t.Matches(thread, turn) then AppendDelta(t, text) else t
    case AgentMessage(thread, turn, text) =>
      if t.Matches(thread, turn) then AppendMessage(if t.messages == "" then t else AppendMessage(t, SEPARATOR), text)
      else t
    case ExitedReview(thread, turn, text) => if t.Matches(thread, turn) then t.(review := text) else t
    case Failure(thread, turn, error, willRetry) =>
      if t.Matches(thread, turn) && !willRetry then t.(lastErr := Some(error)) else t
    case TurnCompleted(thread, turn, status, turnError, reviews) =>
      if t.Matches(thread, turn) then
        t.(status := status, turnErr := turnError, review := if t.review == "" then LastReview(reviews) else t.review,
           finished := true, closes := t.closes + 1)
      else t
    case SetTurn(_) => t
    case TokenUsage(_) => t
    case Ignored => t
  }

  function StepTurn(t: Turn, e: Event): Turn {
    if e.SetTurn? then (if t.turnId == "" then t.(turnId := e.turnId) else t)
    else if t.finished then t
    else StepOpen(t, e)
  }

  /** A usage report, which is counted and judged whether or not the turn has finished. */
  function StepTally(t: Turn, y: Tally, report: Option<Report>): Tally {
    var seen := y.(seen := y.seen + 1);
    match report
    case None => seen.(bad := y.bad + 1)
    case Some(r) =>
      if r.threadId == "" || r.turnId == "" then seen.(bad := y.bad + 1)
      else if !t.Matches(r.threadId, r.turnId) then
        seen.(unattributed := y.unattributed + 1,
              samples := if |y.samples| < MAX_UNATTRIBUTED_SAMPLES then y.samples + [r.threadId + "/" + r.turnId]
                  else y.samples)
      else if !r.Valid() then seen.(bad := y.bad + 1)
      else seen.(usage := Some(r.Resolve()))
  }

  function Step(w: Watch, e: Event): Watch {
    Watch(StepTurn(w.turn, e), if e.TokenUsage? then StepTally(w.turn, w.tally, e.report) else w.tally)
  }

  /** The watcher after a stream of events. */
  function Run(w: Watch, es: seq<Event>): Watch
    decreases |es|
  {
    if es == [] then w else Step(Run(w, es[..|es| - 1]), es[|es| - 1])
  }

  // ----- the watcher as the reader drives it -----

  class Watcher {
    const threadId: string
    var turnId: string
    var review: string
    var messages: string
    var deltas: string
    var overflow: bool
    var status: string
    var turnErr: Option<TurnError>
    var lastErr: Option<TurnError>
    var usage: Option<Usage>
    var usageSeen: nat
    var badUsage: nat
    var unattributed: nat
    var samples: seq<string>
    var finished: bool
    var closes: nat

    function ViewTurn(): Turn
      reads this
    {
      Turn(threadId, turnId, review, messages, deltas, overflow, status, turnErr, lastErr, finished, closes)
    }

    function ViewTally(): Tally
      reads this
    {
      Tally(usage, usageSeen, badUsage, unattributed, samples)
    }

    function View(): Watch
      reads this
    {
      Watch(ViewTurn(), ViewTally())
    }

    constructor (threadId: string)
      ensures View() == NewWatch(threadId)
    {
      this.threadId := threadId;
      turnId, review, messages, deltas, overflow, status := "", "", "", "", false, "";
      turnErr, lastErr, usage := None, None, None;
      usageSeen, badUsage, unattributed, samples := 0, 0, 0, [];
      finished, closes := false, 0;
    }

    predicate Matches(thread: string, turn: string)
      reads this
    {
      turnId != "" && thread == threadId && turn != "" && turn == turnId
    }

    /** setTurn: false when an earlier turn/started established a different id. */
    method SetTurnId(id: string) returns (ok: bool)
      modifies this
      ensures View() == Step(old(View()), SetTurn(id))
      ensures ok <==> turnId == id
    {
      if turnId == "" {
        turnId := id;
        return true;
      }
      return turnId == id;
    }

    method AppendToDeltas(s: string)
      modifies this
      ensures ViewTurn() == AppendDelta(old(ViewTurn()), s) && ViewTally() == old(ViewTally())
    {
      if overflow {
        return;
      }
      if ByteLen(deltas) + ByteLen(s) > MAX_COLLECTED_TEXT {
        overflow := true;
        return;
      }
      deltas := deltas + s;
    }

    method AppendToMessages(s: string)
      modifies this
      ensures ViewTurn() == AppendMessage(old(ViewTurn()), s) && ViewTally() == old(ViewTally())
    {
      if overflow {
        return;
      }
      if ByteLen(messages) + ByteLen(s) > MAX_COLLECTED_TEXT {
        overflow := true;
        return;
      }
      messages := messages + s;
    }

    method HandleUsage(report: Option<Report>)
      modifies this
      ensures ViewTally() == StepTally(old(ViewTurn()), old(ViewTally()), report) && ViewTurn() == old(ViewTurn())
    {
      hide Counters.Valid, Counters.Resolve;
      usageSeen := usageSeen + 1;
      if report.None? {
        badUsage := badUsage + 1;
        return;
      }
      var r := report.value;
      if r.threadId == "" || r.turnId == "" {
        badUsage := badUsage + 1;
        return;
      }
      if !Matches(r.threadId, r.turnId) {
        unattributed := unattributed + 1;
        if |samples| < MAX_UNATTRIBUTED_SAMPLES {
          samples := samples + [r.threadId + "/" + r.turnId];
        }
        return;
      }
      if !r.Valid() {
        badUsage := badUsage + 1;
        return;
      }
      usage := Some(r.Resolve());
    }

    /** handle, on one notification. */
    method Handle(e: Event)
      requires !e.SetTurn?
      modifies this
      ensures View() == Step(old(View()), e)
    {
      if finished && !e.TokenUsage? {
        return;
      }
      match e
      case TurnStarted(thread, turn) =>
        if thread == threadId && turnId == "" && turn != "" {
          turnId := turn;
        }
      case Delta(thread, turn, text) =>
        if Matches(thread, turn) {
          AppendToDeltas(text);
        }
      case AgentMessage(thread, turn, text) =>
        if Matches(thread, turn) {
          if messages != "" {
            AppendToMessages(SEPARATOR);
          }
          AppendToMessages(text);
        }
      case ExitedReview(thread, turn, text) =>
        if Matches(thread, turn) {
          review := text;
        }
      case TokenUsage(report) =>
        HandleUsage(report);
      case Failure(thread, turn, error, willRetry) =>
        if Matches(thread, turn) && !willRetry {
          lastErr := Some(error);
        }
      case TurnCompleted(thread, turn, status, turnError, reviews) =>
        if Matches(thread, turn) {
          Finish(status, turnError, reviews);
        }
      case Ignored =>
    }

    /** The completion of the watched turn freezes the outcome and closes done. */
    method Finish(status: string, turnError: Option<TurnError>, reviews: seq<string>)
      requires !finished && Matches(threadId, turnId)
      modifies this
      ensures ViewTurn() == StepTurn(old(ViewTurn()), TurnCompleted(threadId, turnId, status, turnError, reviews))
      ensures ViewTally() == old(ViewTally())
    {
      hide AppendDelta, AppendMessage;
      this.status := status;
      turnErr := turnError;
      if review == "" {
        SetReviewFrom(reviews);
      }
      finished := true;
      closes := closes + 1;
    }

    /** The loop over a completed turn's items. */
    method SetReviewFrom(reviews: seq<string>)
      requires review == ""
      modifies this
      ensures ViewTurn() == old(ViewTurn()).(review := LastReview(reviews)) && ViewTally() == old(ViewTally())
    {
      for i := 0 to |reviews|
        invariant ViewTurn() == old(ViewTurn()).(review := LastReview(reviews[..i])) && ViewTally() == old(ViewTally())
      {
        assert reviews[..i + 1][..i] == reviews[..i];
        if reviews[i] != "" {
          review := reviews[i];
        }
      }
      assert reviews[..|reviews|] == reviews;
    }
  }

  // ----- the review text -----

  datatype TextResult = ReviewText(text: string) | TooLarge | NoText

  /** turnResult.text. */
  function ResultText(t: Turn): TextResult {
    if t.review != "" then ReviewText(t.review)
    else if t.overflow then TooLarge
    else if t.messages != "" then ReviewText(t.messages)
    else if t.deltas != "" then ReviewText(t.deltas)
    else NoText
  }

  // ----- waiting for the turn -----

  datatype WaitOutcome = TurnFinished | ConnectionClosed | CallerCancelled

  /**
   awaitTurn once some of its channels are ready: select picks any of them,
   and a turn that has finished by the recheck wins, even one that finished
   in between.
   */
  method AwaitTurn(done: bool, closed: bool, cancelled: bool, doneByRecheck: bool) returns (r: WaitOutcome)
    requires done || closed || cancelled
    requires done ==> doneByRecheck
    ensures r == TurnFinished <==> doneByRecheck
    ensures r == ConnectionClosed ==> closed
    ensures r == CallerCancelled ==> cancelled
  {
    if
    case done =>
      return TurnFinished;
    case closed =>
      return if doneByRecheck then TurnFinished else ConnectionClosed;
    case cancelled =>
      return if doneByRecheck then TurnFinished else CallerCancelled;
  }
}
