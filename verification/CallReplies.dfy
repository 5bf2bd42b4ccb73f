/**
 Where the outcomes of calls come from, over the whole history of a
 connection: which message of the reader a reply is, and which error a
 failed call reports.
 */
module CallReplies {
  import opened Text
  import opened CallMultiplexer

  // ----- histories -----

  lemma {:induction false} OneMore(s: Conn, acts: seq<Action>, a: Action)
    ensures Feasible(s, acts + [a]) <==> Feasible(s, acts) && Enabled(Do(s, acts), a)
    ensures Feasible(s, acts + [a]) ==> Do(s, acts + [a]) == Next(Do(s, acts), a)
    decreases |acts|
  {
    if acts == [] {
      assert [] + [a] == [a] && [a][1..] == [];
      if Enabled(s, a) {
        assert Feasible(Next(s, a), []);
      }
    } else {
      assert (acts + [a])[1..] == acts[1..] + [a] && (acts + [a])[0] == acts[0];
      if Enabled(s, acts[0]) {
        hide Enabled, Next;
        OneMore(Next(s, acts[0]), acts[1..], a);
      }
    }
  }

  /** The error the action records, if no one did before. */
  function Reports(a: Action): Option<Reason> {
    match a
    case Shutdown(err) => Some(err)
    case Terminate(err) => Some(err)
    case _ => None
  }

  /** The first error reported in a history. */
  function FirstError(acts: seq<Action>): Option<Reason> {
    if acts == [] then None
    else
      var before := FirstError(acts[..|acts| - 1]);
      if before.Some? then before else Reports(acts[|acts| - 1])
  }

  /** The step was taken. */
  predicate Took(acts: seq<Action>, a: Action) {
    a in acts
  }

  /** The call was registered, and the reader took the reply off the stream after that. */
  predicate Answered(acts: seq<Action>, c: Name, reply: Envelope) {
    exists j, k :: 0 <= j < k < |acts| && acts[j] == Register(c) && acts[k] == Dispatch(reply)
  }

  /** What the call reports is the first error there was when it looked. */
  predicate LookedUp(acts: seq<Action>, a: Action, error: Option<Reason>) {
    exists k :: 0 <= k < |acts| && acts[k] == a && error == FirstError(acts[..k])
  }

  /** Where an outcome comes from. */
  predicate OutcomeFrom(acts: seq<Action>, c: Name, o: Outcome) {
    match o
    case Replied(reply) => Answered(acts, c, reply)
    case GaveUp(why) => Took(acts, RefuseSend(c, why)) || Took(acts, Cancel(c, why))
    case SendBroken(error) => LookedUp(acts, ReadSendError(c), error)
    case Broken(error) => LookedUp(acts, ReadError(c), error)
  }

  /** What the history says of a call. */
  predicate CallFrom(acts: seq<Action>, c: Name, x: Call) {
    && (Started(x.pc) ==> Took(acts, Register(c)))
    && (x.chan.buffer.Some? ==> Answered(acts, c, x.chan.buffer.value))
    && (x.pc.SendFailed? ==> OutcomeFrom(acts, c, x.pc.failure))
    && (x.pc.Cancelled? ==> Took(acts, Cancel(c, x.pc.why)))
    && (x.pc.Returned? ==> OutcomeFrom(acts, c, x.pc.outcome))
  }

  predicate ReaderFrom(acts: seq<Action>, r: Reader) {
    r.Delivering? ==> Answered(acts, r.to, r.env)
  }

  // ----- longer histories say as much -----

  lemma AnsweredLater(acts: seq<Action>, a: Action, c: Name, reply: Envelope)
    requires Answered(acts, c, reply)
    ensures Answered(acts + [a], c, reply)
  {
    var j, k :| 0 <= j < k < |acts| && acts[j] == Register(c) && acts[k] == Dispatch(reply);
    assert (acts + [a])[j] == Register(c) && (acts + [a])[k] == Dispatch(reply);
  }

  lemma LookedUpLater(acts: seq<Action>, a: Action, b: Action, error: Option<Reason>)
    requires LookedUp(acts, b, error)
    ensures LookedUp(acts + [a], b, error)
  {
    var k :| 0 <= k < |acts| && acts[k] == b && error == FirstError(acts[..k]);
    assert (acts + [a])[k] == b && (acts + [a])[..k] == acts[..k];
  }

  lemma OutcomeLater(acts: seq<Action>, a: Action, c: Name, o: Outcome)
    requires OutcomeFrom(acts, c, o)
    ensures OutcomeFrom(acts + [a], c, o)
  {
    match o
    case Replied(reply) => AnsweredLater(acts, a, c, reply);
    case GaveUp(_) =>
    case SendBroken(error) => LookedUpLater(acts, a, ReadSendError(c), error);
    case Broken(error) => LookedUpLater(acts, a, ReadError(c), error);
  }

  lemma CallLater(acts: seq<Action>, a: Action, c: Name, x: Call)
    requires CallFrom(acts, c, x)
    ensures CallFrom(acts + [a], c, x)
  {
    hide OutcomeFrom, Answered;
    if x.chan.buffer.Some? {
      AnsweredLater(acts, a, c, x.chan.buffer.value);
    }
    if x.pc.SendFailed? {
      OutcomeLater(acts, a, c, x.pc.failure);
    }
    if x.pc.Returned? {
      OutcomeLater(acts, a, c, x.pc.outcome);
    }
  }

  lemma LooksUpNow(acts: seq<Action>, a: Action)
    ensures LookedUp(acts + [a], a, FirstError(acts))
  {
    assert (acts + [a])[|acts|] == a && (acts + [a])[..|acts|] == acts;
  }

  lemma AnswersNow(acts: seq<Action>, c: Name, reply: Envelope)
    requires Took(acts, Register(c))
    ensures Answered(acts + [Dispatch(reply)], c, reply)
  {
    var j :| 0 <= j < |acts| && acts[j] == Register(c);
    var longer := acts + [Dispatch(reply)];
    assert longer[j] == Register(c) && longer[|acts|] == Dispatch(reply);
  }

  // ----- what every step keeps -----

  ghost predicate From(acts: seq<Action>, s: Conn) {
    && s.exitErr == FirstError(acts) && ReaderFrom(acts, s.reader)
    && forall c :: CallFrom(acts, c, CallOf(s, c))
  }

  lemma FirstErrorNext(acts: seq<Action>, a: Action)
    ensures FirstError(acts + [a]) == if FirstError(acts).Some? then FirstError(acts) else Reports(a)
  {
    assert (acts + [a])[..|acts|] == acts;
  }

  lemma ErrorFrom(acts: seq<Action>, s: Conn, a: Action)
    requires Enabled(s, a) && s.exitErr == FirstError(acts)
    ensures Next(s, a).exitErr == FirstError(acts + [a])
  {
    FirstErrorNext(acts, a);
    hide FirstError, Enabled;
  }

  /** What a call's own step makes of it. */
  lemma OwnCall(s: Conn, a: Action)
    requires Enabled(s, a) && !ByReader(a)
    ensures var x, x' := CallOf(s, a.c), CallOf(Next(s, a), a.c);
            match a
            case Number(_) => x' == Call(Numbered, s.nextId + 1, EMPTY)
            case Register(_) => x' == x.(pc := Sending)
            case Queue(_) => x' == x.(pc := Waiting)
            case RefuseSend(_, why) => x' == x.(pc := SendFailed(GaveUp(why)))
            case SeeSendClosed(_) => x' == x.(pc := SendClosed)
            case ReadSendError(_) => x' == x.(pc := SendFailed(SendBroken(s.exitErr)))
            case ForgetSend(_) => x' == x.(pc := Returned(x.pc.failure))
            case Receive(_) => x'.pc == Returned(Replied(x.chan.buffer.value)) && x'.chan.buffer == None
            case SeeChannelClosed(_) => x' == x.(pc := Woken)
            case SeeClosed(_) => x' == x.(pc := Woken)
            case ReadError(_) => x' == x.(pc := Returned(Broken(s.exitErr)))
            case Cancel(_, why) => x' == x.(pc := Cancelled(why))
            case ForgetCall(_) => x' == x.(pc := Returned(GaveUp(x.pc.why)))
            case _ => true
    ensures !a.Number? && !a.Register? ==> Started(CallOf(s, a.c).pc)
    ensures a.ForgetSend? ==> CallOf(s, a.c).pc.SendFailed?
    ensures a.ForgetCall? ==> CallOf(s, a.c).pc.Cancelled?
    ensures a.Receive? ==> CallOf(s, a.c).chan.buffer.Some?
  {
    hide Recorded, Ready;
  }

  lemma MovedFrom(acts: seq<Action>, c: Name, x: Call, pc: CallPc)
    requires CallFrom(acts, c, x) && !pc.SendFailed? && !pc.Returned?
    requires Started(pc) ==> Took(acts, Register(c))
    requires pc.Cancelled? ==> Took(acts, Cancel(c, pc.why))
    ensures CallFrom(acts, c, x.(pc := pc))
  {
    hide Answered, Took;
  }

  lemma RegisteredFrom(acts: seq<Action>, c: Name, x: Call)
    requires CallFrom(acts, c, x) && Started(x.pc)
    ensures Took(acts, Register(c))
  {
  }

  lemma NumberedFrom(acts: seq<Action>, c: Name, id: int)
    ensures CallFrom(acts, c, Call(Numbered, id, EMPTY))
  {
  }

  lemma FailedFrom(acts: seq<Action>, c: Name, x: Call, o: Outcome)
    requires CallFrom(acts, c, x) && Started(x.pc) && OutcomeFrom(acts, c, o)
    ensures CallFrom(acts, c, x.(pc := SendFailed(o))) && CallFrom(acts, c, x.(pc := Returned(o)))
  {
    hide Answered, Took, OutcomeFrom;
  }

  lemma OutcomeNow(acts: seq<Action>, a: Action, c: Name)
    ensures a.RefuseSend? && a.c == c ==> OutcomeFrom(acts + [a], c, GaveUp(a.why))
    ensures a == ReadSendError(c) ==> OutcomeFrom(acts + [a], c, SendBroken(FirstError(acts)))
    ensures a == ReadError(c) ==> OutcomeFrom(acts + [a], c, Broken(FirstError(acts)))
    ensures a.Cancel? && a.c == c ==> Took(acts + [a], Cancel(c, a.why))
    ensures a == Register(c) ==> Took(acts + [a], Register(c))
  {
    LooksUpNow(acts, a);
    assert (acts + [a])[|acts|] == a;
    hide FirstError, LookedUp;
  }

  /** A call's own step. */
  lemma OwnFrom(acts: seq<Action>, s: Conn, a: Action)
    requires Enabled(s, a) && !ByReader(a)
    requires s.exitErr == FirstError(acts) && CallFrom(acts, a.c, CallOf(s, a.c))
    ensures CallFrom(acts + [a], a.c, CallOf(Next(s, a), a.c))
  {
    var c, x, longer := a.c, CallOf(s, a.c), acts + [a];
    OwnCall(s, a);
    CallLater(acts, a, c, x);
    OutcomeNow(acts, a, c);
    hide Next, Enabled, FirstError, Answered, Took, OutcomeFrom, CallOf, CallFrom;
    if Started(x.pc) {
      RegisteredFrom(longer, c, x);
    }
    match a
    case Number(_) => NumberedFrom(longer, c, s.nextId + 1);
    case Register(_) => MovedFrom(longer, c, x, Sending);
    case Queue(_) => MovedFrom(longer, c, x, Waiting);
    case RefuseSend(_, why) => FailedFrom(longer, c, x, GaveUp(why));
    case SeeSendClosed(_) => MovedFrom(longer, c, x, SendClosed);
    case ReadSendError(_) => FailedFrom(longer, c, x, SendBroken(s.exitErr));
    case ForgetSend(_) => FailureFrom(longer, c, x);
    case Receive(_) => ReceivedFrom(longer, c, x, CallOf(Next(s, a), c));
    case SeeChannelClosed(_) => MovedFrom(longer, c, x, Woken);
    case SeeClosed(_) => MovedFrom(longer, c, x, Woken);
    case ReadError(_) => FailedFrom(longer, c, x, Broken(s.exitErr));
    case Cancel(_, why) => MovedFrom(longer, c, x, Cancelled(why));
    case ForgetCall(_) => CancelledFrom(longer, c, x);
  }

  lemma FailureFrom(acts: seq<Action>, c: Name, x: Call)
    requires CallFrom(acts, c, x) && x.pc.SendFailed?
    ensures CallFrom(acts, c, x.(pc := Returned(x.pc.failure)))
  {
    hide Answered, Took, OutcomeFrom;
  }

  lemma ReceivedFrom(acts: seq<Action>, c: Name, x: Call, x': Call)
    requires CallFrom(acts, c, x) && Started(x.pc) && x.chan.buffer.Some?
    requires x'.pc == Returned(Replied(x.chan.buffer.value)) && x'.chan.buffer == None
    ensures CallFrom(acts, c, x')
  {
    hide Answered, Took;
  }

  lemma CancelledFrom(acts: seq<Action>, c: Name, x: Call)
    requires CallFrom(acts, c, x) && x.pc.Cancelled?
    ensures CallFrom(acts, c, x.(pc := Returned(GaveUp(x.pc.why))))
  {
    hide Answered, Took;
  }

  /** The reader's step, which at most sends to or closes one channel. */
  lemma ServedFrom(acts: seq<Action>, s: Conn, a: Action, c: Name)
    requires Enabled(s, a) && ByReader(a) && ReaderFrom(acts, s.reader) && CallFrom(acts, c, CallOf(s, c))
    ensures CallFrom(acts + [a], c, CallOf(Next(s, a), c))
  {
    CallLater(acts, a, c, CallOf(s, c));
    if a.Deliver? {
      AnsweredLater(acts, a, s.reader.to, s.reader.env);
    }
    hide FirstError, Answered, LookedUp, OutcomeFrom, Ready, Recorded;
  }

  lemma OthersFrom(acts: seq<Action>, s: Conn, a: Action, c: Name)
    requires Enabled(s, a) && !ByReader(a) && a.c != c && CallFrom(acts, c, CallOf(s, c))
    ensures CallFrom(acts + [a], c, CallOf(Next(s, a), c))
  {
    CallLater(acts, a, c, CallOf(s, c));
    hide CallFrom;
  }

  lemma ReaderStaysFrom(acts: seq<Action>, s: Conn, a: Action)
    requires Inv(s) && Enabled(s, a) && From(acts, s)
    ensures ReaderFrom(acts + [a], Next(s, a).reader)
  {
    if s.reader.Delivering? {
      AnsweredLater(acts, a, s.reader.to, s.reader.env);
    }
    if a.Dispatch? && a.env.id in s.pending {
      var c := s.pending[a.env.id];
      assert CallFrom(acts, c, CallOf(s, c)) && Started(CallOf(s, c).pc);
      AnswersNow(acts, c, a.env);
    }
    hide From, CallFrom, Answered, FirstError, Inv;
  }

  lemma StepKeepsFrom(acts: seq<Action>, s: Conn, a: Action)
    requires Inv(s) && Enabled(s, a) && From(acts, s)
    ensures From(acts + [a], Next(s, a))
  {
    hide Next, Enabled, CallFrom, FirstError, ReaderFrom;
    ErrorFrom(acts, s, a);
    ReaderStaysFrom(acts, s, a);
    forall c
      ensures CallFrom(acts + [a], c, CallOf(Next(s, a), c))
    {
      assert CallFrom(acts, c, CallOf(s, c));
      if ByReader(a) {
        ServedFrom(acts, s, a, c);
      } else if a.c == c {
        OwnFrom(acts, s, a);
      } else {
        OthersFrom(acts, s, a, c);
      }
    }
  }

  lemma {:induction false} RunKeepsFrom(acts: seq<Action>)
    requires Feasible(OPENED, acts)
    ensures From(acts, Do(OPENED, acts))
    decreases |acts|
  {
    if acts == [] {
      assert forall c :: CallOf(OPENED, c) == FRESH;
    } else {
      var front, a := acts[..|acts| - 1], acts[|acts| - 1];
      assert acts == front + [a];
      hide Feasible, Do, From, Next, Enabled;
      OneMore(OPENED, front, a);
      Reached(front);
      RunKeepsFrom(front);
      StepKeepsFrom(front, Do(OPENED, front), a);
    }
  }

  /**
   In every run a reply, waiting in its channel or returned, is a message the
   reader took off the stream, unchanged, after the call had registered; and
   what a failed call returns is the first error recorded before it looked,
   or the reason the call itself gave up for.
   */
  lemma OutcomesComeFromTheRun(acts: seq<Action>, c: Name)
    requires Feasible(OPENED, acts)
    ensures var x := CallOf(Do(OPENED, acts), c);
            && (x.chan.buffer.Some? ==> Answered(acts, c, x.chan.buffer.value))
            && (x.pc.Returned? ==> OutcomeFrom(acts, c, x.pc.outcome))
  {
    hide Feasible, Do, Answered, OutcomeFrom;
    RunKeepsFrom(acts);
    assert CallFrom(acts, c, CallOf(Do(OPENED, acts), c));
  }

  /** The exit error is the first one reported in the run. */
  lemma ExitErrorIsTheFirst(acts: seq<Action>)
    requires Feasible(OPENED, acts)
    ensures Do(OPENED, acts).exitErr == FirstError(acts)
  {
    hide Feasible, Do, FirstError, CallFrom;
    RunKeepsFrom(acts);
  }

  // ----- the table forgets -----

  /**
   A call that returned with a reply, or because it gave up or could not send,
   is out of the table and the reader's hands.
   */
  predicate Forgotten(s: Conn, c: Name) {
    var pc := CallOf(s, c).pc;
    pc.Returned? && !pc.outcome.Broken? ==> !InTable(s, c)
  }

  lemma {:induction false} RunForgets(s: Conn, acts: seq<Action>, c: Name)
    requires Inv(s) && Feasible(s, acts) && Forgotten(s, c)
    ensures Forgotten(Do(s, acts), c)
    decreases |acts|
  {
    if acts != [] {
      hide Next, Inv, Enabled, Forgotten;
      StepKeepsInv(s, acts[0]);
      StepForgets(s, acts[0], c);
      RunForgets(Next(s, acts[0]), acts[1..], c);
    }
  }

  /** In every run such a call leaves nothing behind in the table, so a late reply to it is ignored. */
  lemma NothingLeftBehind(acts: seq<Action>, c: Name)
    requires Feasible(OPENED, acts)
    ensures Forgotten(Do(OPENED, acts), c)
  {
    InitInv();
    RunForgets(OPENED, acts, c);
  }

  lemma ReaderForgets(s: Conn, a: Action, c: Name)
    requires Enabled(s, a) && ByReader(a) && Forgotten(s, c)
    ensures Forgotten(Next(s, a), c)
  {
    hide Ready, Recorded;
  }

  lemma CallerForgets(s: Conn, a: Action)
    requires Enabled(s, a) && !ByReader(a)
    requires CallOk(s, a.c) && TableOk(s, s.pending) && Forgotten(s, a.c)
    ensures Forgotten(Next(s, a), a.c)
  {
    hide Held, Recorded, Ready;
  }

  lemma OthersForgotten(s: Conn, a: Action, c: Name)
    requires Inv(s) && Enabled(s, a) && !ByReader(a) && a.c != c && Forgotten(s, c)
    ensures Forgotten(Next(s, a), c)
  {
    hide OutcomeOk, ReaderOk, Claims, Recorded;
    assert CallOk(s, c) && CallOk(s, a.c);
    hide CallOk;
  }

  lemma StepForgets(s: Conn, a: Action, c: Name)
    requires Inv(s) && Enabled(s, a) && Forgotten(s, c)
    ensures Forgotten(Next(s, a), c)
  {
    hide Enabled, Next, Forgotten;
    if ByReader(a) {
      ReaderForgets(s, a, c);
    } else if a.c == c {
      assert CallOk(s, c);
      CallerForgets(s, a);
    } else {
      OthersForgotten(s, a, c);
    }
  }
}
