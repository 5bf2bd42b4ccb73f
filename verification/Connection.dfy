/**
 The mutable connection of internal/appserver/conn.go: the critical sections
 and channel operations whose interleavings CallMultiplexer studies, and the
 bounded list of warnings.
 */
module Connection {
  import opened Text
  import opened CallMultiplexer

  const MAX_WARNINGS := 32
  const MAX_WARNING_BYTES := 8 * 1024

  // ----- warnings as values -----

  /** The warnings kept since the last take, their bytes, and how many were left out. */
  datatype Warnings = Warnings(kept: seq<string>, bytes: nat, omitted: nat)

  const NO_WARNINGS := Warnings([], 0, 0)

  function TotalBytes(ws: seq<string>): nat {
    if ws == [] then 0 else TotalBytes(ws[..|ws| - 1]) + ByteLen(ws[|ws| - 1])
  }

  function Add(w: Warnings, warning: string): Warnings {
    if |w.kept| >= MAX_WARNINGS || w.bytes + ByteLen(warning) > MAX_WARNING_BYTES then w.(omitted := w.omitted + 1)
    else Warnings(w.kept + [warning], w.bytes + ByteLen(warning), w.omitted)
  }

  /** The warnings after ws were recorded in turn. */
  function Recording(ws: seq<string>): Warnings {
    if ws == [] then NO_WARNINGS else Add(Recording(ws[..|ws| - 1]), ws[|ws| - 1])
  }

  /** a keeps some of b's elements, in order. */
  predicate SubsequenceOf(a: seq<string>, b: seq<string>) {
    if a == [] then true
    else if b == [] then false
    else if a[|a| - 1] == b[|b| - 1] && SubsequenceOf(a[..|a| - 1], b[..|b| - 1]) then true
    else SubsequenceOf(a, b[..|b| - 1])
  }

  /** However many arrive, at most 32 are kept, of at most 8 KiB, in order; the rest are all counted. */
  lemma {:induction false} WarningsStayBounded(ws: seq<string>)
    ensures var w := Recording(ws);
            && |w.kept| <= MAX_WARNINGS && TotalBytes(w.kept) == w.bytes <= MAX_WARNING_BYTES
            && |w.kept| + w.omitted == |ws|
            && SubsequenceOf(w.kept, ws)
  {
    if ws != [] {
      var rest, last := ws[..|ws| - 1], ws[|ws| - 1];
      WarningsStayBounded(rest);
      var before := Recording(rest);
      assert (before.kept + [last])[..|before.kept|] == before.kept;
    }
  }

  lemma {:induction false} WithinBoundsKeepsAll(ws: seq<string>)
    requires |ws| <= MAX_WARNINGS && TotalBytes(ws) <= MAX_WARNING_BYTES
    ensures Recording(ws) == Warnings(ws, TotalBytes(ws), 0)
  {
    if ws != [] {
      var front, last := ws[..|ws| - 1], ws[|ws| - 1];
      assert ws == front + [last] && TotalBytes(ws) == TotalBytes(front) + ByteLen(last);
      assert Recording(ws) == Add(Recording(front), last);
      hide Recording, TotalBytes, Add;
      WithinBoundsKeepsAll(front);
      AddsWhatFits(front, TotalBytes(front), last);
      hide ByteLen;
    }
  }

  lemma AddsWhatFits(kept: seq<string>, bytes: nat, w: string)
    requires |kept| < MAX_WARNINGS && bytes + ByteLen(w) <= MAX_WARNING_BYTES
    ensures Add(Warnings(kept, bytes, 0), w) == Warnings(kept + [w], bytes + ByteLen(w), 0)
  {
  }

  lemma {:induction false} NothingOmittedKeepsAll(ws: seq<string>)
    requires Recording(ws).omitted == 0
    ensures Recording(ws).kept == ws
  {
    if ws != [] {
      hide ByteLen;
      NothingOmittedKeepsAll(ws[..|ws| - 1]);
      assert ws == ws[..|ws| - 1] + [ws[|ws| - 1]];
    }
  }

  /** Nothing is left out exactly when everything is within both bounds, and then everything is kept. */
  lemma OmitsOnlyBeyondBounds(ws: seq<string>)
    ensures Recording(ws).omitted == 0 <==> |ws| <= MAX_WARNINGS && TotalBytes(ws) <= MAX_WARNING_BYTES
    ensures Recording(ws).omitted == 0 ==> Recording(ws).kept == ws
  {
    hide Recording, TotalBytes;
    WarningsStayBounded(ws);
    if Recording(ws).omitted == 0 {
      NothingOmittedKeepsAll(ws);
    }
    if |ws| <= MAX_WARNINGS && TotalBytes(ws) <= MAX_WARNING_BYTES {
      WithinBoundsKeepsAll(ws);
    }
  }

  /** A warning is kept exactly when it fits beside those kept before it, also after one that did not fit. */
  lemma {:induction false} KeptExactlyWhenItFits(ws: seq<string>, w: string)
    ensures var before, after := Recording(ws).kept, Recording(ws + [w]).kept;
            if |before| < 32 && TotalBytes(before) + ByteLen(w) <= 8192 then after == before + [w]
            else after == before
  {
    assert (ws + [w])[..|ws|] == ws;
    WarningsStayBounded(ws);
  }

  /** What a take returns: one marker stands for everything left out. */
  function Taken(w: Warnings, marker: string): seq<string> {
    if w.omitted > 0 then w.kept + [marker] else w.kept
  }

  // ----- the connection -----

  class ReplyChannel {
    var buffer: Option<Envelope>
    var closed: bool

    constructor ()
      ensures buffer == None && !closed
    {
      buffer, closed := None, false;
    }

    /** ch <- env, where it neither blocks nor panics. */
    method Send(env: Envelope)
      requires buffer == None && !closed
      modifies this
      ensures buffer == Some(env) && !closed
    {
      buffer := Some(env);
    }

    /** close(ch), where it does not panic. */
    method Close()
      requires !closed
      modifies this
      ensures closed && buffer == old(buffer)
    {
      closed := true;
    }
  }

  class Connection {
    var nextId: nat
    var pending: map<int, ReplyChannel>
    var exitErr: Option<Reason>
    var closed: bool
    var warnings: seq<string>
    var warningBytes: nat
    var warningsOmitted: nat

    ghost function Channels(): set<ReplyChannel>
      reads this
    {
      pending.Values
    }

    /** The table is injective, its ids have been given out, and its channels are empty and open. */
    ghost predicate Valid()
      reads this, Channels()
    {
      && (forall id | id in pending :: 1 <= id <= nextId && pending[id].buffer == None && !pending[id].closed)
      && (forall i, j | i in pending && j in pending && i != j :: pending[i] != pending[j])
    }

    ghost function WarningsView(): Warnings
      reads this
    {
      Warnings(warnings, warningBytes, warningsOmitted)
    }

    constructor ()
      ensures Valid() && pending == map[] && nextId == 0 && exitErr == None && !closed && WarningsView() == NO_WARNINGS
    {
      nextId, pending, exitErr, closed := 0, map[], None, false;
      warnings, warningBytes, warningsOmitted := [], 0, 0;
    }

    /** The start of call: a new id, and a new channel under it. */
    method Register() returns (id: nat, ch: ReplyChannel)
      requires Valid()
      modifies this
      ensures Valid() && fresh(ch) && id !in old(pending)
      ensures pending == old(pending)[id := ch] && nextId == id == old(nextId) + 1
      ensures exitErr == old(exitErr) && closed == old(closed) && WarningsView() == old(WarningsView())
    {
      nextId := nextId + 1;
      id := nextId;
      ch := new ReplyChannel();
      pending := pending[id := ch];
    }

    /** delete(c.pending, id), for a call that gives up. */
    method Forget(id: int)
      requires Valid()
      modifies this
      ensures Valid() && pending == old(pending) - {id} && nextId == old(nextId)
      ensures exitErr == old(exitErr) && closed == old(closed) && WarningsView() == old(WarningsView())
    {
      pending := pending - {id};
    }

    /** The critical section of dispatch: whoever the reply is for leaves the table, and no later reply can reach it. */
    method Take(id: int) returns (ch: ReplyChannel?)
      requires Valid()
      modifies this
      ensures Valid() && pending == old(pending) - {id} && nextId == old(nextId)
      ensures ch == if id in old(pending) then old(pending)[id] else null
      ensures ch != null ==> ch.buffer == None && !ch.closed && ch !in Channels()
      ensures exitErr == old(exitErr) && closed == old(closed) && WarningsView() == old(WarningsView())
    {
      ch := if id in pending then pending[id] else null;
      pending := pending - {id};
      assert forall i | i in pending :: pending[i] != ch;
    }

    /** dispatch of a response, when nothing else happens between taking the call and sending to it. */
    method Dispatch(env: Envelope)
      requires Valid()
      modifies this, Channels()
      ensures Valid() && pending == old(pending) - {env.id} && nextId == old(nextId)
      ensures env.id in old(pending) ==> old(pending[env.id]).buffer == Some(env) && !old(pending[env.id]).closed
      ensures forall id | id in old(pending) && id != env.id :: unchanged(old(pending)[id])
      ensures exitErr == old(exitErr) && closed == old(closed) && WarningsView() == old(WarningsView())
    {
      var ch := Take(env.id);
      if ch != null {
        ch.Send(env);
      }
    }

    /** shutdown: every pending call is woken by a close, never by an envelope. */
    method Shutdown(err: Reason)
      requires Valid() && !closed
      modifies this, Channels()
      ensures Valid() && pending == map[] && closed && exitErr == Recorded(old(exitErr), err)
      ensures forall id | id in old(pending) :: old(pending)[id].closed && old(pending)[id].buffer == None
      ensures nextId == old(nextId) && WarningsView() == old(WarningsView())
    {
      if exitErr == None {
        exitErr := Some(err);
      }
      var taken, rest := pending, pending;
      pending := map[];
      while exists id :: id in rest
        invariant rest.Keys <= taken.Keys && forall id | id in rest :: rest[id] == taken[id]
        invariant forall id | id in taken :: taken[id].buffer == None && (taken[id].closed <==> id !in rest)
        invariant pending == map[] && !closed && exitErr == Recorded(old(exitErr), err)
        invariant nextId == old(nextId) && WarningsView() == old(WarningsView())
        decreases rest.Keys
      {
        var id :| id in rest;
        rest[id].Close();
        rest := rest - {id};
      }
      closed := true;
    }

    /** The record made by terminate: the first reason stands. */
    method Terminate(err: Reason)
      modifies this
      ensures exitErr == Recorded(old(exitErr), err)
      ensures pending == old(pending) && nextId == old(nextId) && closed == old(closed)
              && WarningsView() == old(WarningsView())
    {
      if exitErr == None {
        exitErr := Some(err);
      }
    }

    method RecordWarning(w: string)
      modifies this
      ensures WarningsView() == Add(old(WarningsView()), w)
      ensures pending == old(pending) && nextId == old(nextId) && exitErr == old(exitErr) && closed == old(closed)
    {
      if |warnings| >= MAX_WARNINGS || warningBytes + ByteLen(w) > MAX_WARNING_BYTES {
        warningsOmitted := warningsOmitted + 1;
        return;
      }
      warnings := warnings + [w];
      warningBytes := warningBytes + ByteLen(w);
    }

    method TakeWarnings(marker: string) returns (ws: seq<string>)
      modifies this
      ensures ws == Taken(old(WarningsView()), marker) && WarningsView() == NO_WARNINGS
      ensures pending == old(pending) && nextId == old(nextId) && exitErr == old(exitErr) && closed == old(closed)
    {
      ws := warnings;
      if warningsOmitted > 0 {
        ws := ws + [marker];
      }
      warnings, warningBytes, warningsOmitted := [], 0, 0;
    }
  }
}
