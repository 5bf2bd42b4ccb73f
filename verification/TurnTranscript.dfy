/**
 What the turn watcher makes of a stream of events, told from the events
 alone: the id of the turn, the events that are the turn's own up to its
 completion, and how every usage report was judged.
 */
module TurnTranscript {
  import opened Text
  import opened TurnWatcher

  // ----- the turn's own events -----

  /** The event gives the turn its id: the response to review/start, or the start of a turn on the thread. */
  predicate Establishes(threadId: string, e: Event) {
    (e.SetTurn? || (e.TurnStarted? && e.threadId == threadId)) && e.turnId != ""
  }

  /** The first turn id the stream establishes. */
  function TurnOf(threadId: string, es: seq<Event>): string
    decreases |es|
  {
    if es == [] then ""
    else
      var e, known := es[|es| - 1], TurnOf(threadId, es[..|es| - 1]);
      if known == "" && Establishes(threadId, e) then e.turnId else known
  }

  /** A part of the turn: text, a review, an error or a completion under its thread and id. */
  predicate PartOf(e: Event, threadId: string, turnId: string) {
    && (e.Delta? || e.AgentMessage? || e.ExitedReview? || e.Failure? || e.TurnCompleted?)
    && e.threadId == threadId && e.turnId == turnId
  }

  /** The turn's own events, from when its id was known. */
  function OwnEvents(threadId: string, es: seq<Event>): seq<Event>
    decreases |es|
  {
    if es == [] then []
    else
      var e, before := es[|es| - 1], es[..|es| - 1];
      var turnId := TurnOf(threadId, before);
      OwnEvents(threadId, before) + if turnId != "" && PartOf(e, threadId, turnId) then [e] else []
  }

  /** The first completion among the turn's own events. */
  function CompletionOf(own: seq<Event>): (c: Option<Event>)
    ensures c.Some? ==> c.value.TurnCompleted?
    decreases |own|
  {
    if own == [] then None
    else if own[0].TurnCompleted? then Some(own[0])
    else CompletionOf(own[1..])
  }

  /** The turn's own events before the first completion. */
  function BodyOf(own: seq<Event>): seq<Event>
    decreases |own|
  {
    if own == [] || own[0].TurnCompleted? then [] else [own[0]] + BodyOf(own[1..])
  }

  // ----- what they say -----

  /** The text of the last review item. */
  function LastExited(body: seq<Event>): string
    decreases |body|
  {
    if body == [] then ""
    else if body[|body| - 1].ExitedReview? then body[|body| - 1].text
    else LastExited(body[..|body| - 1])
  }

  /** The last error that is not to be retried. */
  function LastFailure(body: seq<Event>): Option<TurnError>
    decreases |body|
  {
    if body == [] then None
    else
      var e := body[|body| - 1];
      if e.Failure? && !e.willRetry then Some(e.error) else LastFailure(body[..|body| - 1])
  }

  /** All message text, without any bound: messages after the first text are set off by a blank line. */
  function Messages(body: seq<Event>): string
    decreases |body|
  {
    if body == [] then ""
    else
      var e, before := body[|body| - 1], Messages(body[..|body| - 1]);
      if e.AgentMessage? then JoinMessage(before, e.text) else before
  }

  function JoinMessage(before: string, text: string): string {
    if before == "" then text else before + "\n\n" + text
  }

  /** All delta text, without any bound. */
  function Deltas(body: seq<Event>): string
    decreases |body|
  {
    if body == [] then ""
    else
      var e, before := body[|body| - 1], Deltas(body[..|body| - 1]);
      if e.Delta? then before + e.text else before
  }

  /** The review item: the last one before the completion or, without any text there, the last one in it. */
  function ReviewItem(own: seq<Event>): string {
    var c, r := CompletionOf(own), LastExited(BodyOf(own));
    if r == "" && c.Some? then LastReview(c.value.reviews) else r
  }

  /** More text than is ever collected. */
  predicate Over(full: string) {
    ByteLen(full) > MAX_COLLECTED_TEXT
  }

  /** The buffers hold the full texts, until one of those is over the bound. */
  predicate Collected(t: Turn, messages: string, deltas: string) {
    if t.overflow then Over(messages) || Over(deltas)
    else t.messages == messages && t.deltas == deltas && !Over(messages) && !Over(deltas)
  }

  // ----- the frozen outcome -----

  /** What the turn says besides its collected text. */
  predicate Tells(t: Turn, own: seq<Event>) {
    var c := CompletionOf(own);
    && t.review == ReviewItem(own)
    && t.lastErr == LastFailure(BodyOf(own))
    && t.finished == c.Some?
    && t.closes == (if c.Some? then 1 else 0)
    && t.status == (if c.Some? then c.value.status else "")
    && t.turnErr == (if c.Some? then c.value.turnError else None)
  }

  /** An event that is not the turn's own changes nothing but, once, the turn id. */
  lemma ForeignEvent(t: Turn, e: Event)
    requires !(t.turnId != "" && PartOf(e, t.threadId, t.turnId))
    requires t.finished ==> t.turnId != ""
    ensures StepTurn(t, e) == if t.turnId == "" && Establishes(t.threadId, e) then t.(turnId := e.turnId) else t
  {
    hide AppendDelta, AppendMessage, LastReview;
  }

  /** Nothing of the turn's own counts after its completion. */
  lemma {:induction false} OwnSnoc(own: seq<Event>, e: Event)
    ensures CompletionOf(own).Some? ==> CompletionOf(own + [e]) == CompletionOf(own)
    ensures CompletionOf(own).None? ==> CompletionOf(own + [e]) == if e.TurnCompleted? then Some(e) else None
    ensures BodyOf(own + [e]) ==
              BodyOf(own) + if CompletionOf(own).Some? || e.TurnCompleted? then [] else [e]
  {
    if own == [] {
      assert [e][1..] == [];
      assert [] + [e] == [e];
    } else {
      OwnSnoc(own[1..], e);
      assert (own + [e])[1..] == own[1..] + [e];
    }
  }

  predicate SameTurn(t: Turn, t': Turn) {
    t'.threadId == t.threadId && t'.turnId == t.turnId
  }

  /** A part of the turn after its completion changes nothing. */
  lemma LatePart(t: Turn, own: seq<Event>, e: Event)
    requires CompletionOf(own).Some? && Tells(t, own) && Collected(t, Messages(BodyOf(own)), Deltas(BodyOf(own)))
    requires t.turnId != "" && PartOf(e, t.threadId, t.turnId)
    ensures StepTurn(t, e) == t && Tells(t, own + [e])
    ensures Collected(t, Messages(BodyOf(own + [e])), Deltas(BodyOf(own + [e])))
  {
    hide Collected, LastExited, LastFailure, Messages, Deltas;
    OwnSnoc(own, e);
    assert BodyOf(own + [e]) == BodyOf(own);
  }

  lemma CompletingPart(t: Turn, own: seq<Event>, e: Event)
    requires CompletionOf(own).None? && Tells(t, own) && Collected(t, Messages(BodyOf(own)), Deltas(BodyOf(own)))
    requires t.turnId != "" && PartOf(e, t.threadId, t.turnId) && e.TurnCompleted?
    ensures Tells(StepTurn(t, e), own + [e]) && SameTurn(t, StepTurn(t, e))
    ensures Collected(StepTurn(t, e), Messages(BodyOf(own + [e])), Deltas(BodyOf(own + [e])))
  {
    hide LastExited, LastFailure, Messages, Deltas, Over, LastReview;
    OwnSnoc(own, e);
    assert BodyOf(own + [e]) == BodyOf(own);
  }

  /** Another part of the open turn. */
  lemma OpenPart(t: Turn, own: seq<Event>, e: Event)
    requires CompletionOf(own).None? && Tells(t, own) && Collected(t, Messages(BodyOf(own)), Deltas(BodyOf(own)))
    requires t.turnId != "" && PartOf(e, t.threadId, t.turnId) && !e.TurnCompleted?
    ensures Tells(StepTurn(t, e), own + [e]) && SameTurn(t, StepTurn(t, e))
    ensures Collected(StepTurn(t, e), Messages(BodyOf(own + [e])), Deltas(BodyOf(own + [e])))
  {
    var body := BodyOf(own);
    OwnSnoc(own, e);
    assert BodyOf(own + [e]) == body + [e];
    assert (body + [e])[..|body|] == body;
    OpenTells(t, body, e);
    OpenCollected(t, body, e);
    hide Collected, StepTurn, LastExited, LastFailure;
  }

  lemma OpenTells(t: Turn, body: seq<Event>, e: Event)
    requires !t.finished && t.turnId != "" && PartOf(e, t.threadId, t.turnId) && !e.TurnCompleted?
    requires t.review == LastExited(body) && t.lastErr == LastFailure(body)
    ensures var t' := StepTurn(t, e);
            && t'.review == LastExited(body + [e]) && t'.lastErr == LastFailure(body + [e])
            && SameTurn(t, t') && !t'.finished && t'.closes == t.closes && t'.status == t.status
                && t'.turnErr == t.turnErr
  {
    hide Fits;
    assert (body + [e])[..|body|] == body;
  }

  lemma JoinedMessageBytes(full: string, text: string)
    ensures ByteLen(full + "\n\n" + text) == ByteLen(full) + ByteLen(SEPARATOR) + ByteLen(text)
  {
    ByteLenConcat(full, SEPARATOR);
    ByteLenConcat(full + SEPARATOR, text);
  }

  lemma MessageCollected(t: Turn, messages: string, deltas: string, text: string)
    requires Collected(t, messages, deltas)
    ensures Collected(AppendMessage(if t.messages == "" then t else AppendMessage(t, SEPARATOR), text),
                      JoinMessage(messages, text), deltas)
  {
    JoinedMessageBytes(messages, text);
    ByteLenConcat(messages, SEPARATOR);
    assert ByteLen("") == 0;
    hide ByteLen;
  }

  lemma DeltaCollected(t: Turn, messages: string, deltas: string, text: string)
    requires Collected(t, messages, deltas)
    ensures Collected(AppendDelta(t, text), messages, deltas + text)
  {
    ByteLenConcat(deltas, text);
    hide ByteLen;
  }

  lemma OpenCollected(t: Turn, body: seq<Event>, e: Event)
    requires !t.finished && t.turnId != "" && PartOf(e, t.threadId, t.turnId) && !e.TurnCompleted?
    requires Collected(t, Messages(body), Deltas(body))
    ensures Collected(StepTurn(t, e), Messages(body + [e]), Deltas(body + [e]))
  {
    assert (body + [e])[..|body|] == body;
    if e.AgentMessage? {
      MessageCollected(t, Messages(body), Deltas(body), e.text);
      hide Collected, JoinMessage, AppendMessage;
    } else if e.Delta? {
      DeltaCollected(t, Messages(body), Deltas(body), e.text);
      hide Collected, AppendDelta;
    } else {
      hide Over, LastReview;
    }
  }

  lemma {:induction false} NoOwnWithoutTurn(threadId: string, es: seq<Event>)
    requires TurnOf(threadId, es) == ""
    ensures OwnEvents(threadId, es) == []
    decreases |es|
  {
    if es != [] {
      NoOwnWithoutTurn(threadId, es[..|es| - 1]);
    }
  }

  lemma OpenWithoutParts(t: Turn)
    requires Tells(t, [])
    ensures !t.finished
  {
  }

  /**
   The outcome of any stream is that of the turn's own events: the id is the
   first one established; the review is the last review item before the
   first completion, or the last with any text in it; status and error are
   those of that completion; the last error is the last one before it that is
   not retried; done closes once, with it; and the collected texts are all
   the messages and all the deltas before it, unless either is over the
   bound. Whatever else the stream holds leaves no trace.
   */
  lemma {:induction false} OutcomeIsTheTurnsOwn(threadId: string, es: seq<Event>)
    ensures var t, own := Run(NewWatch(threadId), es).turn, OwnEvents(threadId, es);
            && t.threadId == threadId && t.turnId == TurnOf(threadId, es)
            && Tells(t, own)
            && Collected(t, Messages(BodyOf(own)), Deltas(BodyOf(own)))
    decreases |es|
  {
    if es == [] {
      hide StepTurn;
    } else {
      hide StepTurn, Tells, Collected, StepTally, Messages, Deltas, BodyOf;
      var e, before := es[|es| - 1], es[..|es| - 1];
      OutcomeIsTheTurnsOwn(threadId, before);
      var t, own := Run(NewWatch(threadId), before).turn, OwnEvents(threadId, before);
      if t.turnId == "" {
        NoOwnWithoutTurn(threadId, before);
        OpenWithoutParts(t);
      }
      if t.turnId != "" && PartOf(e, threadId, t.turnId) {
        if CompletionOf(own).Some? {
          LatePart(t, own, e);
        } else if e.TurnCompleted? {
          CompletingPart(t, own, e);
        } else {
          OpenPart(t, own, e);
        }
      } else {
        ForeignEvent(t, e);
        assert OwnEvents(threadId, es) == own;
      }
    }
  }

  lemma {:induction false} TurnOfStays(threadId: string, es: seq<Event>, more: seq<Event>)
    requires TurnOf(threadId, es) != ""
    ensures TurnOf(threadId, es + more) == TurnOf(threadId, es)
    decreases |more|
  {
    if more == [] {
      assert es + more == es;
    } else {
      assert (es + more)[..|es + more| - 1] == es + more[..|more| - 1];
      TurnOfStays(threadId, es, more[..|more| - 1]);
    }
  }

  /** Once established, the turn id never changes. */
  lemma TurnIdNeverChanges(threadId: string, es: seq<Event>, more: seq<Event>)
    requires Run(NewWatch(threadId), es).turn.turnId != ""
    ensures Run(NewWatch(threadId), es + more).turn.turnId == Run(NewWatch(threadId), es).turn.turnId
  {
    hide Tells, Collected, Run, TurnOf;
    OutcomeIsTheTurnsOwn(threadId, es);
    OutcomeIsTheTurnsOwn(threadId, es + more);
    TurnOfStays(threadId, es, more);
  }

  // ----- the review text -----

  /** Collected text overflows exactly when all the messages, or all the deltas, exceed the bound. */
  lemma OverflowsExactlyWhen(threadId: string, es: seq<Event>)
    ensures var body := BodyOf(OwnEvents(threadId, es));
            Run(NewWatch(threadId), es).turn.overflow <==> Over(Messages(body)) || Over(Deltas(body))
  {
    OutcomeIsTheTurnsOwn(threadId, es);
  }

  /**
   The text returned as the review is the review item, or all of the
   messages, or all of the deltas; never a truncated aggregate. Without a
   review item it is refused as too large exactly when one of the two
   aggregates, measured in full, is over the bound.
   */
  lemma TextIsNeverTruncated(threadId: string, es: seq<Event>)
    ensures var own := OwnEvents(threadId, es); var item := ReviewItem(own);
            var messages, deltas := Messages(BodyOf(own)), Deltas(BodyOf(own));
            ResultText(Run(NewWatch(threadId), es).turn) ==
              if item != "" then ReviewText(item)
              else if Over(messages) || Over(deltas) then TooLarge
              else if messages != "" then ReviewText(messages)
              else if deltas != "" then ReviewText(deltas)
              else NoText
  {
    OutcomeIsTheTurnsOwn(threadId, es);
  }

  // ----- the usage reports -----

  /** The i-th event is a report of the turn's usage that is taken. */
  predicate AcceptedAt(threadId: string, es: seq<Event>, i: nat)
    requires i < |es|
  {
    && es[i].TokenUsage? && es[i].report.Some?
    && Named(es[i].report.value) && !Foreign(es[i].report.value, threadId, TurnOf(threadId, es[..i]))
    && es[i].report.value.Valid()
  }

  predicate Named(r: Report) {
    r.threadId != "" && r.turnId != ""
  }

  predicate Foreign(r: Report, threadId: string, turnId: string) {
    r.threadId != threadId || r.turnId != turnId
  }

  /** Every usage report. */
  function Reports(es: seq<Event>): nat
    decreases |es|
  {
    if es == [] then 0 else Reports(es[..|es| - 1]) + if es[|es| - 1].TokenUsage? then 1 else 0
  }

  /** The reports that name some other turn than the one known by then, each as its thread and turn. */
  function ForeignReports(threadId: string, es: seq<Event>): seq<string>
    decreases |es|
  {
    if es == [] then []
    else
      var e, before := es[|es| - 1], es[..|es| - 1];
      ForeignReports(threadId, before) +
      if e.TokenUsage? && e.report.Some? && Named(e.report.value)
         && Foreign(e.report.value, threadId, TurnOf(threadId, before))
      then [e.report.value.threadId + "/" + e.report.value.turnId]
      else []
  }

  /** The reports that do not parse, name no turn, or are the turn's own with a counter missing or negative. */
  function MalformedReports(threadId: string, es: seq<Event>): nat
    decreases |es|
  {
    if es == [] then 0
    else
      var e, before := es[|es| - 1], es[..|es| - 1];
      MalformedReports(threadId, before) +
      if e.TokenUsage? && (
        || e.report.None? || !Named(e.report.value)
        || (!Foreign(e.report.value, threadId, TurnOf(threadId, before)) && !e.report.value.Valid()))
      then 1 else 0
  }

  function AcceptedReports(threadId: string, es: seq<Event>): nat
    decreases |es|
  {
    if es == [] then 0
    else AcceptedReports(threadId, es[..|es| - 1]) + if AcceptedAt(threadId, es, |es| - 1) then 1 else 0
  }

  lemma StepCounts(threadId: string, t: Turn, y: Tally, e: Event, turnId: string)
    requires t.threadId == threadId && t.turnId == turnId && e.TokenUsage?
    ensures var y' := StepTally(t, y, e.report);
            var named := e.report.Some? && Named(e.report.value);
            var foreign := named && Foreign(e.report.value, threadId, turnId);
            var accepted := named && !foreign && e.report.value.Valid();
            && y'.seen == y.seen + 1
            && y'.bad == y.bad + (if !foreign && !accepted then 1 else 0)
            && y'.unattributed == y.unattributed + (if foreign then 1 else 0)
            && y'.samples == (if foreign && |y.samples| < MAX_UNATTRIBUTED_SAMPLES
                              then y.samples + [e.report.value.threadId + "/" + e.report.value.turnId] else y.samples)
            && y'.usage == (if accepted then Some(e.report.value.Resolve()) else y.usage)
  {
    hide Counters.Valid, Counters.Resolve;
  }

  /**
   Over the whole stream every usage report is counted, as foreign, as
   malformed or as accepted and never twice, and the sample is the first four
   foreign ones.
   */
  lemma {:induction false} EveryReportIsCounted(threadId: string, es: seq<Event>)
    ensures var y := Run(NewWatch(threadId), es).tally; var foreign := ForeignReports(threadId, es);
            && y.seen == Reports(es) == |foreign| + MalformedReports(threadId, es) + AcceptedReports(threadId, es)
            && y.unattributed == |foreign| && y.bad == MalformedReports(threadId, es)
            && y.samples == if |foreign| < 4 then foreign else foreign[..4]
    decreases |es|
  {
    if es != [] {
      hide StepTurn, StepTally, Tells, Collected, Foreign, Named, Report.Valid;
      var e, before := es[|es| - 1], es[..|es| - 1];
      EveryReportIsCounted(threadId, before);
      OutcomeIsTheTurnsOwn(threadId, before);
      var w := Run(NewWatch(threadId), before);
      if e.TokenUsage? {
        StepCounts(threadId, w.turn, w.tally, e, TurnOf(threadId, before));
      }
    }
  }

  lemma {:induction false} UsageIsAccepted(threadId: string, es: seq<Event>, i: nat)
    requires i <= |es|
    requires forall j: nat | i <= j < |es| :: !AcceptedAt(threadId, es, j)
    ensures Run(NewWatch(threadId), es).tally.usage == Run(NewWatch(threadId), es[..i]).tally.usage
    decreases |es|
  {
    if i == |es| {
      assert es[..i] == es;
    } else {
      hide StepTurn, StepTally, Tells, Collected;
      var e, before := es[|es| - 1], es[..|es| - 1];
      assert before[..i] == es[..i];
      forall j: nat | i <= j < |before|
        ensures !AcceptedAt(threadId, before, j)
      {
        assert before[..j] == es[..j];
        assert !AcceptedAt(threadId, es, j);
      }
      UsageIsAccepted(threadId, before, i);
      OutcomeIsTheTurnsOwn(threadId, before);
      assert !AcceptedAt(threadId, es, |es| - 1);
      if e.TokenUsage? {
        var w := Run(NewWatch(threadId), before);
        StepCounts(threadId, w.turn, w.tally, e, TurnOf(threadId, before));
      }
    }
  }

  /** The turn's usage is that of the last report accepted, before or after the completion. */
  lemma {:induction false} LastAcceptedReportStands(threadId: string, es: seq<Event>, i: nat)
    requires i < |es| && AcceptedAt(threadId, es, i)
    requires forall j: nat | i < j < |es| :: !AcceptedAt(threadId, es, j)
    ensures Run(NewWatch(threadId), es).tally.usage == Some(es[i].report.value.Resolve())
  {
    hide StepTurn, StepTally, Tells, Collected;
    UsageIsAccepted(threadId, es, i + 1);
    OutcomeIsTheTurnsOwn(threadId, es[..i]);
    assert es[..i + 1][..i] == es[..i];
    var w := Run(NewWatch(threadId), es[..i]);
    StepCounts(threadId, w.turn, w.tally, es[i], TurnOf(threadId, es[..i]));
  }

  /** Without any accepted report there is no usage. */
  lemma NoUsageWithoutReport(threadId: string, es: seq<Event>)
    requires forall j: nat | j < |es| :: !AcceptedAt(threadId, es, j)
    ensures Run(NewWatch(threadId), es).tally.usage == None
  {
    UsageIsAccepted(threadId, es, 0);
  }

  /**
   Counters are taken exactly when they are those of a breakdown without a
   negative figure, of which they may leave out the cache writes if there were
   none; and they are taken as that breakdown.
   */
  lemma CountersAreABreakdown(c: Counters, b: Breakdown)
    ensures c.Valid() && c.Resolve() == b <==>
            && b.input >= 0 && b.cached >= 0 && b.cacheWrite >= 0 && b.output >= 0 && b.reasoning >= 0 && b.total >= 0
            && c.input == Some(b.input) && c.cached == Some(b.cached) && c.output == Some(b.output)
            && c.reasoning == Some(b.reasoning) && c.total == Some(b.total)
            && (c.cacheWrite == Some(b.cacheWrite) || (c.cacheWrite == None && b.cacheWrite == 0))
  {
  }

  /** So a report is accepted as a usage, field by field of both its breakdowns. */
  lemma ReportIsAUsage(r: Report, u: Usage)
    ensures r.Valid() && r.Resolve() == u <==>
            && r.last.Some? && r.last.value.Valid() && r.last.value.Resolve() == u.last
            && r.total.Some? && r.total.value.Valid() && r.total.value.Resolve() == u.total
  {
  }
}
