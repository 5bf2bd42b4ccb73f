/**
 The app-server connection of internal/appserver/conn.go: any number of
 concurrent calls share one table of pending replies with the single reader
 goroutine. Each critical section, channel operation and channel close is
 one step; the transport between the queue and the child process is left to
 chance.
 */
module CallMultiplexer {
  import opened Text

  type Name = nat

  datatype Reason = Reason(text: string)

  datatype Envelope = Envelope(id: int, body: string)

  /** A reply channel of capacity one. sends and closes observe every operation of the reader. */
  datatype Channel = Channel(buffer: Option<Envelope>, closed: bool, sends: nat, closes: nat)

  const EMPTY := Channel(None, false, 0, 0)

  /** Broken holds what closedErr found; None stands for the generic closed error. */
  datatype Outcome =
    | Replied(reply: Envelope)
    | GaveUp(why: Reason)
    | SendBroken(error: Option<Reason>)
    | Broken(error: Option<Reason>)

  datatype CallPc =
    | Fresh
    | Numbered
    | Sending
    | SendClosed
    | SendFailed(failure: Outcome)
    | Waiting
    | Cancelled(why: Reason)
    | Woken
    | Returned(outcome: Outcome)

  datatype Call = Call(pc: CallPc, id: int, chan: Channel)

  const FRESH := Call(Fresh, 0, EMPTY)

  /** Between taking a call from the table and sending or closing, the reader holds its channel outside the mutex. */
  datatype Reader = Reading | Delivering(to: Name, env: Envelope) | Closing(rest: map<int, Name>) | Finished

  datatype Conn = Conn(
    calls: map<Name, Call>, nextId: nat, pending: map<int, Name>, reader: Reader, exitErr: Option<Reason>, closed: bool,
    writerDone: bool)

  const OPENED := Conn(map[], 0, map[], Reading, None, false, false)

  function CallOf(s: Conn, c: Name): Call {
    if c in s.calls then s.calls[c] else FRESH
  }

  datatype Action =
    | Number(c: Name)
    | Register(c: Name)
    | Queue(c: Name)
    | RefuseSend(c: Name, why: Reason)
    | SeeSendClosed(c: Name)
    | ReadSendError(c: Name)
    | ForgetSend(c: Name)
    | Receive(c: Name)
    | SeeChannelClosed(c: Name)
    | SeeClosed(c: Name)
    | ReadError(c: Name)
    | Cancel(c: Name, why: Reason)
    | ForgetCall(c: Name)
    | Dispatch(env: Envelope)
    | Deliver
    | Shutdown(err: Reason)
    | CloseNext(id: int)
    | CloseDone
    | Terminate(err: Reason)
    | WriterExits

  /** The reader's send on a full channel would block and on a closed one panic, as would a second close. */
  predicate Ready(chan: Channel) {
    chan.buffer.None? && !chan.closed
  }

  predicate Enabled(s: Conn, a: Action) {
    match a
    case Number(c) => CallOf(s, c).pc == Fresh
    case Register(c) => CallOf(s, c).pc == Numbered
    case Queue(c) => CallOf(s, c).pc == Sending
    case RefuseSend(c, _) => CallOf(s, c).pc == Sending
    case SeeSendClosed(c) => CallOf(s, c).pc == Sending && (s.closed || s.writerDone)
    case ReadSendError(c) => CallOf(s, c).pc == SendClosed
    case ForgetSend(c) => CallOf(s, c).pc.SendFailed?
    case Receive(c) => CallOf(s, c).pc == Waiting && CallOf(s, c).chan.buffer.Some?
    case SeeChannelClosed(c) => CallOf(s, c).pc == Waiting && CallOf(s, c).chan.buffer.None? && CallOf(s, c).chan.closed
    case SeeClosed(c) => CallOf(s, c).pc == Waiting && s.closed
    case ReadError(c) => CallOf(s, c).pc == Woken
    case Cancel(c, _) => CallOf(s, c).pc == Waiting
    case ForgetCall(c) => CallOf(s, c).pc.Cancelled?
    case Dispatch(_) => s.reader == Reading
    case Deliver => s.reader.Delivering? && Ready(CallOf(s, s.reader.to).chan)
    case Shutdown(_) => s.reader == Reading
    case CloseNext(id) => s.reader.Closing? && id in s.reader.rest && !CallOf(s, s.reader.rest[id]).chan.closed
    case CloseDone => s.reader == Closing(map[])
    case Terminate(_) => true
    case WriterExits => true
  }

  function SetPc(s: Conn, c: Name, pc: CallPc): Conn {
    s.(calls := s.calls[c := CallOf(s, c).(pc := pc)])
  }

  function SetChan(s: Conn, c: Name, chan: Channel): Conn {
    s.(calls := s.calls[c := CallOf(s, c).(chan := chan)])
  }

  /** delete(c.pending, id), then return. */
  function Forget(s: Conn, c: Name, outcome: Outcome): Conn {
    SetPc(s, c, Returned(outcome)).(pending := s.pending - {CallOf(s, c).id})
  }

  /** Whoever records first wins. */
  function Recorded(current: Option<Reason>, err: Reason): Option<Reason> {
    if current.None? then Some(err) else current
  }

  function Next(s: Conn, a: Action): Conn
    requires Enabled(s, a)
  {
    match a
    case Number(c) => s.(calls := s.calls[c := Call(Numbered, s.nextId + 1, EMPTY)], nextId := s.nextId + 1)
    case Register(c) => SetPc(s, c, Sending).(pending := s.pending[CallOf(s, c).id := c])
    case Queue(c) => SetPc(s, c, Waiting)
    case RefuseSend(c, why) => SetPc(s, c, SendFailed(GaveUp(why)))
    case SeeSendClosed(c) => SetPc(s, c, SendClosed)
    case ReadSendError(c) => SetPc(s, c, SendFailed(SendBroken(s.exitErr)))
    case ForgetSend(c) => Forget(s, c, CallOf(s, c).pc.failure)
    case Receive(c) =>
      var x := CallOf(s, c);
      s.(calls := s.calls[c := x.(pc := Returned(Replied(x.chan.buffer.value)), chan := x.chan.(buffer := None))])
    case SeeChannelClosed(c) => SetPc(s, c, Woken)
    case SeeClosed(c) => SetPc(s, c, Woken)
    case ReadError(c) => SetPc(s, c, Returned(Broken(s.exitErr)))
    case Cancel(c, why) => SetPc(s, c, Cancelled(why))
    case ForgetCall(c) => Forget(s, c, GaveUp(CallOf(s, c).pc.why))
    case Dispatch(env) =>
      if env.id in s.pending then s.(pending := s.pending - {env.id}, reader := Delivering(s.pending[env.id], env))
      else s
    case Deliver =>
      var chan := CallOf(s, s.reader.to).chan;
      SetChan(s, s.reader.to, chan.(buffer := Some(s.reader.env), sends := chan.sends + 1)).(reader := Reading)
    case Shutdown(err) => s.(exitErr := Recorded(s.exitErr, err), pending := map[], reader := Closing(s.pending))
    case CloseNext(id) =>
      var c := s.reader.rest[id];
      var chan := CallOf(s, c).chan;
      SetChan(s, c, chan.(closed := true, closes := chan.closes + 1)).(reader := Closing(s.reader.rest - {id}))
    case CloseDone => s.(reader := Finished, closed := true)
    case Terminate(err) => s.(exitErr := Recorded(s.exitErr, err))
    case WriterExits => s.(writerDone := true)
  }

  // ----- the invariant -----

  predicate InTable(s: Conn, c: Name) {
    CallOf(s, c).id in s.pending && s.pending[CallOf(s, c).id] == c
  }

  predicate Held(s: Conn, c: Name) {
    match s.reader
    case Delivering(to, _) => to == c
    case Closing(rest) => CallOf(s, c).id in rest && rest[CallOf(s, c).id] == c
    case _ => false
  }

  /** A call's claim to be answered: in the table, in the reader's hands, sent or closed. */
  function Claims(s: Conn, c: Name): nat {
    (if InTable(s, c) then 1 else 0) + (if Held(s, c) then 1 else 0) + CallOf(s, c).chan.sends
        + CallOf(s, c).chan.closes
  }

  predicate Started(pc: CallPc) {
    pc != Fresh && pc != Numbered
  }

  /** The call has registered and not given up. */
  predicate Live(pc: CallPc) {
    pc == Sending || pc == SendClosed || pc == Waiting
  }

  predicate CallOk(s: Conn, c: Name) {
    var x := CallOf(s, c);
    && (x.pc != Fresh ==> 1 <= x.id <= s.nextId)
    && (!Started(x.pc) ==> Claims(s, c) == 0 && x.chan == EMPTY)
    && Claims(s, c) <= 1
    && (Live(x.pc) ==> Claims(s, c) == 1)
    && (Live(x.pc) ==> (x.chan.sends == 1 <==> x.chan.buffer.Some?))
    && (x.chan.buffer.Some? ==> x.chan.sends == 1 && x.chan.buffer.value.id == x.id)
    && (x.chan.closed <==> x.chan.closes == 1)
  }

  predicate OutcomeOk(s: Conn, c: Name) {
    var x := CallOf(s, c);
    && (x.chan.closed || x.pc == Woken ==> s.exitErr.Some?)
    && (x.pc.SendFailed? ==> x.pc.failure.GaveUp? || x.pc.failure.SendBroken?)
    && (x.pc.Returned? && x.pc.outcome.Replied? ==> x.pc.outcome.reply.id == x.id)
    && (x.pc.Returned? && x.pc.outcome.Broken? ==> x.pc.outcome.error == s.exitErr && s.exitErr.Some?)
  }

  /** Every table entry is under the id of its own call. */
  predicate TableOk(s: Conn, table: map<int, Name>) {
    forall id | id in table :: CallOf(s, table[id]).id == id && Started(CallOf(s, table[id]).pc)
  }

  predicate ReaderOk(s: Conn) {
    && (s.reader.Delivering? ==> CallOf(s, s.reader.to).id == s.reader.env.id && Started(CallOf(s, s.reader.to).pc))
    && (s.reader.Closing? ==> TableOk(s, s.reader.rest))
    && (s.reader.Closing? || s.reader == Finished ==> s.exitErr.Some?)
    && (s.closed ==> s.reader == Finished)
  }

  ghost predicate IdsDistinct(s: Conn) {
    forall c, d :: c != d && CallOf(s, c).pc != Fresh && CallOf(s, d).pc != Fresh ==> CallOf(s, c).id != CallOf(s, d).id
  }

  ghost predicate Inv(s: Conn) {
    && (forall c :: CallOk(s, c) && OutcomeOk(s, c))
    && TableOk(s, s.pending)
    && ReaderOk(s)
    && IdsDistinct(s)
  }

  lemma InitInv()
    ensures Inv(OPENED)
  {
  }

  /** A call's id is settled by its first step, from the next number. */
  lemma IdsStay(s: Conn, a: Action, c: Name)
    requires Enabled(s, a)
    ensures var x, x' := CallOf(s, c), CallOf(Next(s, a), c);
            && (x.pc != Fresh ==> x'.pc != Fresh && x'.id == x.id)
            && (x.pc == Fresh && x'.pc != Fresh ==> a == Number(c) && x'.id == s.nextId + 1)
            && (Started(x.pc) ==> Started(x'.pc))
  {
    hide Recorded;
  }

  lemma StepKeepsIds(s: Conn, a: Action)
    requires Inv(s) && Enabled(s, a)
    ensures IdsDistinct(Next(s, a))
  {
    var s' := Next(s, a);
    hide TableOk, ReaderOk, OutcomeOk, Claims, Enabled, Next;
    forall c, d | c != d && CallOf(s', c).pc != Fresh && CallOf(s', d).pc != Fresh
      ensures CallOf(s', c).id != CallOf(s', d).id
    {
      IdsStay(s, a, c);
      IdsStay(s, a, d);
      assert CallOk(s, c) && CallOk(s, d);
    }
  }

  predicate ByReader(a: Action) {
    a.Dispatch? || a.Deliver? || a.Shutdown? || a.CloseNext? || a.CloseDone? || a.Terminate? || a.WriterExits?
  }

  /** Taking from the table moves a claim into the reader's hands. */
  lemma TakingKeepsCall(s: Conn, a: Action, c: Name)
    requires Inv(s) && Enabled(s, a) && (a.Dispatch? || a.Shutdown?)
    ensures CallOk(Next(s, a), c)
  {
    hide OutcomeOk, IdsDistinct, Ready, Recorded;
    assert CallOk(s, c);
    if a.Dispatch? && a.env.id in s.pending {
      assert CallOf(s, s.pending[a.env.id]).id == a.env.id;
    }
  }

  /** A send or a close uses up the claim in the reader's hands. */
  lemma AnsweringKeepsCall(s: Conn, a: Action, c: Name)
    requires Inv(s) && Enabled(s, a) && (a.Deliver? || a.CloseNext?)
    ensures CallOk(Next(s, a), c)
  {
    hide OutcomeOk, IdsDistinct, Recorded;
    assert CallOk(s, c);
    hide Inv;
  }

  lemma ReaderKeepsCall(s: Conn, a: Action, c: Name)
    requires Inv(s) && Enabled(s, a) && ByReader(a)
    ensures CallOk(Next(s, a), c)
  {
    if a.Dispatch? || a.Shutdown? {
      TakingKeepsCall(s, a, c);
    } else if a.Deliver? || a.CloseNext? {
      AnsweringKeepsCall(s, a, c);
    } else {
      assert CallOk(s, c);
      hide Inv, Ready, Recorded;
    }
  }

  lemma CallerKeepsOwn(s: Conn, a: Action)
    requires Inv(s) && Enabled(s, a) && !ByReader(a)
    ensures CallOk(Next(s, a), a.c)
  {
    hide OutcomeOk, IdsDistinct;
    assert CallOk(s, a.c);
    hide Inv;
  }

  /** A call's own steps leave every other call and its claim alone, since ids are never shared. */
  lemma OtherCallsAlone(s: Conn, a: Action, c: Name)
    requires Inv(s) && Enabled(s, a) && !ByReader(a) && a.c != c
    ensures var s' := Next(s, a);
            CallOf(s', c) == CallOf(s, c) && Claims(s', c) == Claims(s, c) && s'.nextId >= s.nextId
  {
    hide OutcomeOk, ReaderOk;
    assert CallOk(s, c) && CallOk(s, a.c);
    hide CallOk;
  }

  lemma CallerKeepsOutcome(s: Conn, a: Action, c: Name)
    requires CallOk(s, c) && OutcomeOk(s, c) && ReaderOk(s) && Enabled(s, a) && !ByReader(a)
    ensures OutcomeOk(Next(s, a), c)
  {
    hide TableOk, Claims, Recorded, Ready, InTable, Held;
    if a.c != c {
      assert CallOf(Next(s, a), c) == CallOf(s, c) && Next(s, a).exitErr == s.exitErr;
      hide CallOk, Next;
    }
  }

  lemma ReaderKeepsOutcome(s: Conn, a: Action, c: Name)
    requires OutcomeOk(s, c) && ReaderOk(s) && Enabled(s, a) && ByReader(a)
    ensures OutcomeOk(Next(s, a), c)
  {
    hide TableOk, Claims, Ready;
  }

  lemma StepKeepsOutcome(s: Conn, a: Action, c: Name)
    requires Inv(s) && Enabled(s, a)
    ensures OutcomeOk(Next(s, a), c)
  {
    assert CallOk(s, c) && OutcomeOk(s, c);
    hide Inv, Next, Enabled, CallOk, OutcomeOk, ReaderOk;
    if ByReader(a) {
      ReaderKeepsOutcome(s, a, c);
    } else {
      CallerKeepsOutcome(s, a, c);
    }
  }

  lemma StepKeepsTable(s: Conn, a: Action)
    requires Inv(s) && Enabled(s, a)
    ensures TableOk(Next(s, a), Next(s, a).pending)
  {
    hide OutcomeOk, IdsDistinct, CallOk;
    var s' := Next(s, a);
    forall c
      ensures Started(CallOf(s, c).pc) ==> Started(CallOf(s', c).pc) && CallOf(s', c).id == CallOf(s, c).id
    {
      IdsStay(s, a, c);
    }
    forall id | id in s'.pending
      ensures (id in s.pending && s'.pending[id] == s.pending[id])
              || (a == Register(s'.pending[id]) && id == CallOf(s, a.c).id)
    {
    }
  }

  lemma StepKeepsReader(s: Conn, a: Action)
    requires Inv(s) && Enabled(s, a)
    ensures ReaderOk(Next(s, a))
  {
    hide OutcomeOk, IdsDistinct, CallOk, Ready;
    var s' := Next(s, a);
    forall c
      ensures Started(CallOf(s, c).pc) ==> Started(CallOf(s', c).pc) && CallOf(s', c).id == CallOf(s, c).id
    {
      IdsStay(s, a, c);
    }
  }

  lemma StepKeepsCall(s: Conn, a: Action, c: Name)
    requires Inv(s) && Enabled(s, a)
    ensures CallOk(Next(s, a), c)
  {
    hide Next, Claims;
    if ByReader(a) {
      ReaderKeepsCall(s, a, c);
    } else if a.c == c {
      CallerKeepsOwn(s, a);
    } else {
      assert CallOk(s, c);
      OtherCallsAlone(s, a, c);
    }
  }

  lemma StepKeepsInv(s: Conn, a: Action)
    requires Inv(s) && Enabled(s, a)
    ensures Inv(Next(s, a))
  {
    hide Next;
    StepKeepsIds(s, a);
    StepKeepsTable(s, a);
    StepKeepsReader(s, a);
    forall c
      ensures CallOk(Next(s, a), c) && OutcomeOk(Next(s, a), c)
    {
      StepKeepsCall(s, a, c);
      StepKeepsOutcome(s, a, c);
    }
  }

  // ----- runs -----

  /** The actions can be taken one after another from s. */
  predicate Feasible(s: Conn, acts: seq<Action>)
    decreases |acts|
  {
    acts == [] || (Enabled(s, acts[0]) && Feasible(Next(s, acts[0]), acts[1..]))
  }

  function Do(s: Conn, acts: seq<Action>): Conn
    requires Feasible(s, acts)
    decreases |acts|
  {
    if acts == [] then s else Do(Next(s, acts[0]), acts[1..])
  }

  lemma {:induction false} RunKeepsInv(s: Conn, acts: seq<Action>)
    requires Inv(s) && Feasible(s, acts)
    ensures Inv(Do(s, acts))
    decreases |acts|
  {
    if acts != [] {
      hide Next, Inv, Enabled;
      StepKeepsInv(s, acts[0]);
      RunKeepsInv(Next(s, acts[0]), acts[1..]);
    }
  }

  lemma Reached(acts: seq<Action>)
    requires Feasible(OPENED, acts)
    ensures Inv(Do(OPENED, acts))
  {
    InitInv();
    RunKeepsInv(OPENED, acts);
  }

  /**
   One answer a call: each channel gets at most one envelope or one close,
   never both, and an envelope only of its own call's id.
   */
  lemma OneAnswerEach(acts: seq<Action>, c: Name)
    requires Feasible(OPENED, acts)
    ensures var x := CallOf(Do(OPENED, acts), c);
            && x.chan.sends + x.chan.closes <= 1
            && (x.chan.buffer.Some? ==> x.chan.buffer.value.id == x.id)
            && (x.pc.Returned? && x.pc.outcome.Replied? ==> x.pc.outcome.reply.id == x.id)
  {
    Reached(acts);
    assert CallOk(Do(OPENED, acts), c) && OutcomeOk(Do(OPENED, acts), c);
  }

  /** A registered call that has not given up is never lost track of: exactly one thing stands for its answer. */
  lemma NoCallIsLost(acts: seq<Action>, c: Name)
    requires Feasible(OPENED, acts)
    ensures var s := Do(OPENED, acts); var x := CallOf(s, c);
            Live(x.pc) ==>
              && (InTable(s, c) || Held(s, c) || x.chan.buffer.Some? || x.chan.closed)
              && (InTable(s, c) ==> !Held(s, c) && Ready(x.chan))
              && (Held(s, c) ==> Ready(x.chan))
              && (x.chan.buffer.Some? ==> !x.chan.closed)
  {
    Reached(acts);
    assert CallOk(Do(OPENED, acts), c);
  }

  /** The reader neither blocks on a reply nor panics on a closed channel: whatever it holds it can deliver or close. */
  lemma ReaderNeverBlocks(acts: seq<Action>)
    requires Feasible(OPENED, acts)
    ensures var s := Do(OPENED, acts);
            && (s.reader.Delivering? ==> Enabled(s, Deliver))
            && (s.reader.Closing? ==>
                  && (forall id | id in s.reader.rest ::
                        Enabled(s, CloseNext(id)) && Ready(CallOf(s, s.reader.rest[id]).chan))
                  && (s.reader.rest == map[] ==> Enabled(s, CloseDone)))
  {
    Reached(acts);
    var s := Do(OPENED, acts);
    hide Do, Feasible, OutcomeOk, TableOk, IdsDistinct;
    if s.reader.Delivering? {
      assert CallOk(s, s.reader.to);
    }
    if s.reader.Closing? {
      forall id | id in s.reader.rest
        ensures Ready(CallOf(s, s.reader.rest[id]).chan)
      {
        var c := s.reader.rest[id];
        assert CallOk(s, c) && Held(s, c);
      }
    }
  }

  /** The first exit error recorded stands for the rest of the run. */
  lemma {:induction false} FirstErrorStands(s: Conn, acts: seq<Action>)
    requires Feasible(s, acts) && s.exitErr.Some?
    ensures Do(s, acts).exitErr == s.exitErr
    decreases |acts|
  {
    if acts != [] {
      FirstErrorStands(Next(s, acts[0]), acts[1..]);
    }
  }

  /** A call woken by the connection's end returns the reason recorded first, never the generic error. */
  lemma BrokenCallsReportTheFirstError(acts: seq<Action>, more: seq<Action>, c: Name)
    requires Feasible(OPENED, acts) && Feasible(Do(OPENED, acts), more)
    ensures var s := Do(OPENED, acts); var later := Do(s, more);
            CallOf(later, c).pc.Returned? && CallOf(later, c).pc.outcome.Broken? ==>
              && CallOf(later, c).pc.outcome.error.Some?
              && (s.exitErr.Some? ==> CallOf(later, c).pc.outcome.error == s.exitErr)
  {
    var s := Do(OPENED, acts);
    Reached(acts);
    RunKeepsInv(s, more);
    if s.exitErr.Some? {
      FirstErrorStands(s, more);
    }
    assert OutcomeOk(Do(s, more), c);
  }

  // ----- every call returns -----

  /** Steps a call can still take. */
  function Left(pc: CallPc): nat {
    match pc
    case Fresh => 5
    case Numbered => 4
    case Sending => 3
    case SendClosed => 2
    case SendFailed(_) => 1
    case Waiting => 2
    case Cancelled(_) => 1
    case Woken => 1
    case Returned(_) => 0
  }

  predicate Own(a: Action, c: Name) {
    !ByReader(a) && a.c == c
  }

  function OwnSteps(acts: seq<Action>, c: Name): nat {
    if acts == [] then 0 else (if Own(acts[0], c) then 1 else 0) + OwnSteps(acts[1..], c)
  }

  lemma StepUsesOne(s: Conn, a: Action, c: Name)
    requires Enabled(s, a)
    ensures Left(CallOf(Next(s, a), c).pc) + (if Own(a, c) then 1 else 0) <= Left(CallOf(s, c).pc)
    ensures s.closed ==> Next(s, a).closed
  {
  }

  /** No call takes more than five steps, whatever the others and the reader do. */
  lemma {:induction false} CallsAreShort(s: Conn, acts: seq<Action>, c: Name)
    requires Feasible(s, acts)
    ensures Left(CallOf(Do(s, acts), c).pc) + OwnSteps(acts, c) <= Left(CallOf(s, c).pc)
    ensures s.closed ==> Do(s, acts).closed
    decreases |acts|
  {
    if acts != [] {
      hide Next, Enabled, Left;
      StepUsesOne(s, acts[0], c);
      CallsAreShort(Next(s, acts[0]), acts[1..], c);
    }
  }

  /** Once the connection is closed a call that has not returned can always take its next step by itself. */
  lemma NeverStuckWhenClosed(s: Conn, c: Name) returns (a: Action)
    requires s.closed && !CallOf(s, c).pc.Returned?
    ensures Enabled(s, a) && Own(a, c)
  {
    match CallOf(s, c).pc
    case Fresh => a := Number(c);
    case Numbered => a := Register(c);
    case Sending => a := SeeSendClosed(c);
    case SendClosed => a := ReadSendError(c);
    case SendFailed(_) => a := ForgetSend(c);
    case Waiting => a := SeeClosed(c);
    case Cancelled(_) => a := ForgetCall(c);
    case Woken => a := ReadError(c);
  }

  /** After shutdown every call, even one that registers later, returns within five steps of its own. */
  lemma {:induction false} EveryCallReturns(s: Conn, c: Name) returns (acts: seq<Action>)
    requires s.closed
    ensures |acts| <= Left(CallOf(s, c).pc) <= 5 && (forall a | a in acts :: Own(a, c))
    ensures Feasible(s, acts) && CallOf(Do(s, acts), c).pc.Returned?
    decreases Left(CallOf(s, c).pc)
  {
    if CallOf(s, c).pc.Returned? {
      acts := [];
    } else {
      hide Enabled, Next;
      var a := NeverStuckWhenClosed(s, c);
      StepUsesOne(s, a, c);
      var rest := EveryCallReturns(Next(s, a), c);
      acts := [a] + rest;
      assert acts[1..] == rest;
    }
  }

  /** Once the reader has taken the table at shutdown, it needs only its own steps to reach closed. */
  lemma {:induction false} ShutdownReachesClosed(s: Conn) returns (acts: seq<Action>)
    requires Inv(s) && s.reader.Closing?
    ensures |acts| == |s.reader.rest| + 1 && (forall a | a in acts :: ByReader(a))
    ensures Feasible(s, acts) && Do(s, acts).closed
    decreases |s.reader.rest|
  {
    if !exists id :: id in s.reader.rest {
      assert s.reader.rest == map[];
      acts := [CloseDone];
    } else {
      var id :| id in s.reader.rest;
      assert CallOk(s, s.reader.rest[id]) && Held(s, s.reader.rest[id]);
      var a := CloseNext(id);
      var s' := Next(s, a);
      StepKeepsInv(s, a);
      assert s.reader.rest == s'.reader.rest[id := s.reader.rest[id]];
      var rest := ShutdownReachesClosed(s');
      acts := [a] + rest;
      assert acts[1..] == rest;
    }
  }
}
