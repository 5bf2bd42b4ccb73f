/**
 The bounded line reader and the silence guard of internal/mcpserver/server.go.
 Whether a line is blank and whether it is a complete JSON value are left as
 arbitrary predicates.
 */
module McpServer {
  import opened Text

  type Bytes = seq<bv8>

  const NEWLINE: bv8 := 10

  datatype ReadError = EndOfInput | TooLarge | Framing | ReadFailed

  /** What the reader demands of its input, and how the input ends: properly, or in a read error. */
  datatype Rules = Rules(limit: nat, blank: Bytes -> bool, valid: Bytes -> bool, endsInError: bool)

  datatype Answer = Answer(data: Bytes, error: ReadError)

  // ----- lines of a stream -----

  /** The length of the first line, with its newline if it has one. */
  function LineEnd(s: Bytes): (n: nat)
    ensures n <= |s| && (s != [] ==> n > 0)
    ensures NEWLINE !in s ==> n == |s|
    ensures NEWLINE in s ==> n > 0 && s[n - 1] == NEWLINE && NEWLINE !in s[..n - 1]
  {
    if s == [] then 0
    else if s[0] == NEWLINE then 1
    else
      var n := 1 + LineEnd(s[1..]);
      assert NEWLINE in s ==> s[..n - 1] == [s[0]] + s[1..][..n - 2];
      n
  }

  function Line(s: Bytes): Bytes {
    s[..LineEnd(s)]
  }

  function After(s: Bytes): Bytes {
    s[LineEnd(s)..]
  }

  /** The complete lines of a stream, each with its newline. */
  function Lines(s: Bytes): seq<Bytes>
    decreases |s|
  {
    if NEWLINE in s then [Line(s)] + Lines(After(s)) else []
  }

  /** What follows the last newline. */
  function Tail(s: Bytes): Bytes
    decreases |s|
  {
    if NEWLINE in s then Tail(After(s)) else s
  }

  function Concat(ls: seq<Bytes>): Bytes {
    if ls == [] then [] else ls[0] + Concat(ls[1..])
  }

  /** Nothing is lost by splitting a stream into lines. */
  lemma {:induction false} LinesRejoin(s: Bytes)
    ensures Concat(Lines(s)) + Tail(s) == s
    decreases |s|
  {
    if NEWLINE in s {
      LinesRejoin(After(s));
      ConcatCons(Line(s), Lines(After(s)));
      assert Lines(s) == [Line(s)] + Lines(After(s)) && Tail(s) == Tail(After(s));
      LineThenRest(s);
      hide LineEnd, Line, After, Lines, Tail, Concat;
    }
  }

  lemma LineThenRest(s: Bytes)
    ensures Line(s) + After(s) == s
  {
    hide LineEnd;
  }

  lemma ConcatCons(l: Bytes, ls: seq<Bytes>)
    ensures Concat([l] + ls) == l + Concat(ls)
  {
    assert ([l] + ls)[1..] == ls;
  }

  /** A line ends at its only newline. */
  predicate IsLine(l: Bytes) {
    l != [] && l[|l| - 1] == NEWLINE && NEWLINE !in l[..|l| - 1]
  }

  lemma {:induction false} LinesAreWhole(s: Bytes)
    ensures (forall i | 0 <= i < |Lines(s)| :: IsLine(Lines(s)[i])) && NEWLINE !in Tail(s)
    decreases |s|
  {
    hide LineEnd;
    if NEWLINE in s {
      LinesAreWhole(After(s));
      assert IsLine(Line(s)) by { assert Line(s)[..|Line(s)| - 1] == s[..LineEnd(s) - 1]; }
      hide IsLine, Line, After;
    }
  }

  // ----- the one-pass specification -----

  /** All that reading a stream delivers, and the error that follows. */
  function Delivered(r: Rules, s: Bytes): Answer
    decreases |s|
  {
    var line := Line(s);
    if |line| > r.limit + 1 then Answer([], TooLarge)
    else if NEWLINE !in s then Answer([], LastError(r, line))
    else if r.blank(line) then Delivered(r, After(s))
    else if !r.valid(line) then Answer([], Framing)
    else var later := Delivered(r, After(s)); later.(data := line + later.data)
  }

  /** What an unterminated line within the limit ends in. */
  function LastError(r: Rules, line: Bytes): ReadError {
    if r.endsInError then ReadFailed else if r.blank(line) then EndOfInput else Framing
  }

  predicate Acceptable(r: Rules, line: Bytes) {
    |line| <= r.limit + 1 && (r.blank(line) || r.valid(line))
  }

  /** How many lines go by before the first that is not acceptable. */
  function AcceptableCount(r: Rules, ls: seq<Bytes>): (n: nat)
    ensures n <= |ls|
    ensures forall i | 0 <= i < n :: Acceptable(r, ls[i])
    ensures n < |ls| ==> !Acceptable(r, ls[n])
  {
    if ls == [] || !Acceptable(r, ls[0]) then 0 else 1 + AcceptableCount(r, ls[1..])
  }

  function NonBlank(r: Rules, ls: seq<Bytes>): seq<Bytes> {
    if ls == [] then [] else (if r.blank(ls[0]) then [] else [ls[0]]) + NonBlank(r, ls[1..])
  }

  /**
   What is delivered is the non-blank lines of the longest prefix of lines
   that are each within the limit and either blank or valid; the line after
   that prefix, or the unterminated rest, decides the error: a rest within
   the limit is a framing error unless the stream failed or it is blank.
   */
  lemma {:induction false} DeliversTheLongestAcceptablePrefix(r: Rules, s: Bytes)
    ensures var ls := Lines(s); var n := AcceptableCount(r, ls);
            && Delivered(r, s).data == Concat(NonBlank(r, ls[..n]))
            && Delivered(r, s).error ==
                 if n < |ls| then (if |ls[n]| > r.limit + 1 then TooLarge else Framing)
                 else if |Tail(s)| > r.limit + 1 then TooLarge
                 else if r.endsInError then ReadFailed
                 else if r.blank(Tail(s)) then EndOfInput
                 else Framing
    decreases |s|
  {
    hide LineEnd;
    var ls := Lines(s);
    var n := AcceptableCount(r, ls);
    if NEWLINE !in s {
      assert Line(s) == s;
    } else if n == 0 {
      assert ls[0] == Line(s) && !Acceptable(r, Line(s));
    } else {
      var rest := Lines(After(s));
      DeliversTheLongestAcceptablePrefix(r, After(s));
      assert ls == [Line(s)] + rest && ls[1..] == rest;
      var good, later := ls[..n], rest[..n - 1];
      assert n == 1 + AcceptableCount(r, rest) && good[0] == Line(s) && good[1..] == later;
      assert |rest| == |ls| - 1 && (n < |ls| ==> rest[n - 1] == ls[n]);
      hide AcceptableCount, Lines, Tail;
      if r.blank(Line(s)) {
        assert NonBlank(r, good) == NonBlank(r, later);
      } else {
        assert NonBlank(r, good) == [Line(s)] + NonBlank(r, later);
        assert NonBlank(r, good)[1..] == NonBlank(r, later);
      }
    }
  }

  // ----- the buffered source -----

  datatype SliceEnd = AtNewline | BufferFull | AtEnd

  /** bufio.Reader: a stream seen through a buffer of fixed size. */
  class Source {
    const size: nat
    var rest: Bytes

    constructor (size: nat, input: Bytes)
      requires size > 0
      ensures this.size == size && rest == input
    {
      this.size := size;
      rest := input;
    }

    /**
     ReadSlice('\n'): up to the newline, or a full buffer without one, or
     all there is. Whether a stream that ends with a full buffer is noticed
     to have ended depends on how its last bytes arrived.
     */
    method ReadSlice() returns (chunk: Bytes, end: SliceEnd)
      requires size > 0
      modifies this
      ensures old(rest) == chunk + rest
      ensures end == AtNewline ==> chunk == Line(old(rest)) && NEWLINE in chunk
      ensures end == BufferFull ==> chunk != [] && NEWLINE !in chunk
      ensures end == AtEnd ==> rest == [] && NEWLINE !in chunk
    {
      var n := LineEnd(rest);
      if NEWLINE in rest && n <= size {
        chunk, end := rest[..n], AtNewline;
      } else {
        var endSeen: bool := *;
        if |rest| > size || (|rest| == size && !endSeen) {
          chunk, end := rest[..size], BufferFull;
        } else {
          chunk, end := rest, AtEnd;
        }
      }
      rest := rest[|chunk|..];
    }
  }

  lemma {:induction false} FirstNewline(s: Bytes, n: nat)
    requires 0 < n <= |s| && s[n - 1] == NEWLINE && NEWLINE !in s[..n - 1]
    ensures LineEnd(s) == n
  {
    if n > 1 {
      assert s[..n - 1][0] == s[0];
      assert s[..n - 1][1..] == s[1..][..n - 2];
      FirstNewline(s[1..], n - 1);
    }
  }

  /** Whatever the first line is, it alone decides what happens up to its end. */
  lemma DeliveredByLine(r: Rules, s: Bytes, line: Bytes)
    requires line == Line(s)
    ensures |line| > r.limit + 1 ==> Delivered(r, s) == Answer([], TooLarge)
    ensures |line| <= r.limit + 1 && NEWLINE !in s ==> Delivered(r, s) == Answer([], LastError(r, line))
    ensures |line| <= r.limit + 1 && NEWLINE in s && r.blank(line) ==> Delivered(r, s) == Delivered(r, After(s))
    ensures |line| <= r.limit + 1 && NEWLINE in s && !r.blank(line) && !r.valid(line) ==>
              Delivered(r, s) == Answer([], Framing)
    ensures |line| <= r.limit + 1 && NEWLINE in s && !r.blank(line) && r.valid(line) ==>
              Delivered(r, s) == Answer(line + Delivered(r, After(s)).data, Delivered(r, After(s)).error)
  {
    hide LineEnd;
  }

  lemma LineAfterChunk(chunk: Bytes, rest: Bytes)
    requires NEWLINE !in chunk
    ensures Line(chunk + rest) == chunk + Line(rest) && After(chunk + rest) == After(rest)
  {
    hide LineEnd;
    var n := LineEnd(rest);
    if NEWLINE in rest {
      assert (chunk + rest)[..|chunk| + n - 1] == chunk + rest[..n - 1];
      FirstNewline(chunk + rest, |chunk| + n);
    }
  }

  /** What one slice says of the first line. */
  lemma ReadOn(before: Bytes, chunk: Bytes, rest: Bytes, end: SliceEnd)
    requires before == chunk + rest
    requires end == AtNewline ==> chunk == Line(before) && NEWLINE in chunk
    requires end != AtNewline ==> NEWLINE !in chunk
    requires end == AtEnd ==> rest == []
    ensures end == AtNewline ==> After(before) == rest && chunk != []
    ensures end != AtNewline ==> Line(before) == chunk + Line(rest) && After(before) == After(rest)
    ensures end == AtEnd ==> Line(before) == chunk
  {
    if end == AtNewline {
      assert |chunk| == LineEnd(before);
    } else {
      LineAfterChunk(chunk, rest);
    }
  }

  // ----- the reader -----

  datatype LineResult = GotLine(line: Bytes) | NoLine(error: ReadError)

  class BoundedLineReader {
    const rules: Rules
    const source: Source
    var buf: Bytes
    var failed: Option<ReadError>

    constructor (rules: Rules, size: nat, input: Bytes)
      requires size > 0
      ensures Valid() && fresh(source) && Pending() == Delivered(rules, input) && this.rules == rules
    {
      this.rules := rules;
      source := new Source(size, input);
      buf, failed := [], None;
    }

    ghost predicate Valid()
      reads this, source
    {
      source.size > 0
    }

    /** All that further reads deliver, and the error after it. */
    ghost function Pending(): Answer
      reads this, source
    {
      if failed.Some? then Answer([], failed.value)
      else Answer(buf + Delivered(rules, source.rest).data, Delivered(rules, source.rest).error)
    }

    /** The inner loop of nextLine: one line within the limit, put together from slices. */
    method PhysicalLine() returns (r: LineResult)
      requires Valid()
      modifies source
      ensures r.GotLine? ==>
                && r.line == Line(old(source.rest)) && source.rest == After(old(source.rest))
                && NEWLINE in r.line && |r.line| <= rules.limit + 1
      ensures r.NoLine? ==> Delivered(rules, old(source.rest)) == Answer([], r.error)
    {
      hide LineEnd, Delivered, Line, After;
      ghost var start := source.rest;
      var line: Bytes := [];
      while true
        invariant start == line + source.rest && NEWLINE !in line
        invariant Line(start) == line + Line(source.rest) && After(start) == After(source.rest)
        decreases |source.rest|
      {
        ghost var before := source.rest;
        var chunk, end := source.ReadSlice();
        line := line + chunk;
        ReadOn(before, chunk, source.rest, end);
        DeliveredByLine(rules, start, Line(start));
        if |line| > rules.limit + 1 {
          return NoLine(TooLarge);
        }
        if end == AtNewline {
          return GotLine(line);
        }
        if end == AtEnd {
          return NoLine(if rules.endsInError then ReadFailed else if rules.blank(line) then EndOfInput else Framing);
        }
      }
    }

    /** nextLine: the first non-blank line, or the error that stands in its place. */
    method NextLine() returns (r: LineResult)
      requires Valid()
      modifies source
      ensures r.GotLine? ==>
                r.line != [] &&
                Delivered(rules, old(source.rest))
                == Answer(r.line + Delivered(rules, source.rest).data, Delivered(rules, source.rest).error)
      ensures r.NoLine? ==> Delivered(rules, old(source.rest)) == Answer([], r.error)
    {
      hide LineEnd, Delivered;
      while true
        invariant Delivered(rules, source.rest) == Delivered(rules, old(source.rest))
        decreases |source.rest|
      {
        ghost var start := source.rest;
        r := PhysicalLine();
        if r.NoLine? {
          return;
        }
        DeliveredByLine(rules, start, r.line);
        if rules.blank(r.line) {
          continue;
        }
        return if rules.valid(r.line) then r else NoLine(Framing);
      }
    }

    /** Read into a buffer of the given length. */
    method Read(length: nat) returns (data: Bytes, error: Option<ReadError>)
      requires Valid()
      modifies this, source
      ensures Valid()
      ensures old(Pending()) == Answer(data + Pending().data, Pending().error)
      ensures error == failed && (old(failed).Some? ==> failed == old(failed))
      ensures error.Some? ==> data == [] && old(Pending()) == Answer([], error.value)
      ensures error.None? ==> |data| <= length && (length > 0 ==> data != [])
    {
      hide Delivered;
      if failed.Some? {
        return [], failed;
      }
      if buf == [] {
        var r := NextLine();
        if r.NoLine? {
          failed := Some(r.error);
          return [], failed;
        }
        buf := r.line;
      }
      var n := if length < |buf| then length else |buf|;
      assert buf[..n] + buf[n..] == buf;
      data, error := buf[..n], None;
      buf := buf[n..];
    }

    /**
     Reads of any lengths until an error: together they deliver a prefix of
     the one-pass answer, all of it by the time of the error, and that comes
     as soon as everything has been read.
     */
    method ReadAll(lengths: seq<nat>) returns (data: Bytes, error: Option<ReadError>)
      requires Valid()
      modifies this, source
      ensures Valid()
      ensures data <= old(Pending()).data
      ensures error.Some? ==> old(Pending()) == Answer(data, error.value)
      ensures (forall k | 0 <= k < |lengths| :: lengths[k] > 0) && |lengths| > |old(Pending()).data| ==> error.Some?
    {
      hide Delivered;
      data, error := [], None;
      for i := 0 to |lengths|
        invariant Valid() && error == None
        invariant old(Pending()) == Answer(data + Pending().data, Pending().error)
        invariant (forall k | 0 <= k < i :: lengths[k] > 0) ==> |data| >= i
      {
        var more;
        more, error := Read(lengths[i]);
        if error.Some? {
          return;
        }
        data := data + more;
      }
    }
  }

  // ----- the silence guard -----

  /** Milliseconds: the client's default idle timeout less one heartbeat interval. */
  const MAX_SILENCE := 30 * 60 * 1000 - 30 * 1000

  /** One tick: the clock before the heartbeat, whether the heartbeat failed, and the clock after it. */
  datatype Tick = Tick(now: int, failed: bool, sent: int)

  datatype WatchedCall = WatchedCall(start: int, token: bool, ticks: seq<Tick>)
  {
    /** The last heartbeat before tick i, which is the start of the call when none was sent. */
    function Baseline(i: nat): int
      requires i <= |ticks|
    {
      if i == 0 || !token then start else ticks[i - 1].sent
    }

    /** One of the two readings of tick i finds the silence at the ceiling. */
    predicate SilentAt(i: nat)
      requires i < |ticks|
    {
      || ticks[i].now - Baseline(i) >= MAX_SILENCE
      || (token && !ticks[i].failed && ticks[i].sent - Baseline(i) >= MAX_SILENCE)
    }

    /** The ticks watched: a failed heartbeat is the last of them. */
    predicate WatchedFor(n: nat) {
      && n <= |ticks|
      && (forall i | 0 <= i < n - 1 :: !(token && ticks[i].failed))
      && (n < |ticks| ==> n > 0 && token && ticks[n - 1].failed)
    }
  }

  /**
   The loop of watchCall. The call is ended at the first silent tick, once,
   and not at all when there is none; heartbeats count up from one.
   */
  method WatchCall(c: WatchedCall) returns (ends: seq<nat>, progress: seq<nat>, watched: nat)
    ensures c.WatchedFor(watched)
    ensures ends == [] ==> forall i: nat | i < watched :: !c.SilentAt(i)
    ensures ends != [] ==>
              |ends| == 1 && ends[0] < watched && c.SilentAt(ends[0]) && forall i: nat | i < ends[0] :: !c.SilentAt(i)
    ensures progress == if c.token then seq(watched, i => i + 1) else []
  {
    var lastSent, ended := c.start, false;
    ends, progress, watched := [], [], 0;
    while watched < |c.ticks|
      invariant watched <= |c.ticks| && lastSent == c.Baseline(watched)
      invariant forall i | 0 <= i < watched :: !(c.token && c.ticks[i].failed)
      invariant ended <==> ends != []
      invariant !ended ==> forall i: nat | i < watched :: !c.SilentAt(i)
      invariant ended ==>
                  |ends| == 1 && ends[0] < watched && c.SilentAt(ends[0])
                  && forall i: nat | i < ends[0] :: !c.SilentAt(i)
      invariant progress == if c.token then seq(watched, i => i + 1) else []
    {
      var n, tick := watched, c.ticks[watched];
      watched := watched + 1;
      if !ended && tick.now - lastSent >= MAX_SILENCE {
        ended, ends := true, ends + [n];
      }
      if c.token {
        progress := progress + [watched];
        if tick.failed {
          return;
        }
        if !ended && tick.sent - lastSent >= MAX_SILENCE {
          ended, ends := true, ends + [n];
        }
        lastSent := tick.sent;
      }
    }
  }
}
