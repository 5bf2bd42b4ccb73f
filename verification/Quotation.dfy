/**
 How internal/review/prompt.go quotes untrusted text: the choice of markers
 that do not occur in it, and the quoting of earlier rounds, together with
 the reader that finds every verdict again. The digest a tag is taken from
 is an arbitrary function of the text.
 */
module Quotation {
  import opened Text
  import opened Ledger

  // ----- searching -----

  predicate At(s: string, i: nat, m: string) {
    i + |m| <= |s| && s[i..i + |m|] == m
  }

  /** strings.Contains. */
  predicate Contains(s: string, m: string) {
    exists i | 0 <= i <= |s| :: At(s, i, m)
  }

  /** strings.Index from position i on; |s| + 1 when there is no occurrence. */
  function Find(s: string, m: string, i: nat): (k: nat)
    requires i <= |s| + 1
    ensures i <= k <= |s| + 1
    ensures k <= |s| ==> At(s, k, m)
    ensures forall j: nat | i <= j < k :: !At(s, j, m)
    decreases |s| + 1 - i
  {
    if i > |s| || At(s, i, m) then i else Find(s, m, i + 1)
  }

  predicate OneLine(s: string) {
    '\n' !in s
  }

  // ----- markers -----

  function OpenMarker(name: string): string {
    "<<<" + name + ">>>"
  }

  function CloseMarker(name: string): string {
    "<<<END " + name + ">>>"
  }

  predicate Free(name: string, text: string) {
    !Contains(text, OpenMarker(name)) && !Contains(text, CloseMarker(name))
  }

  /** n characters: of the digest while it lasts, then zeros. */
  function Tag(digest: string, n: nat): (t: string)
    ensures |t| == n
  {
    if n <= |digest| then digest[..n] else digest + seq(n - |digest|, _ => '0')
  }

  function Tagged(title: string, digest: string, n: nat): string {
    title + " " + Tag(digest, n)
  }

  const FIRST_TAG := 16

  /** A marker longer than the text cannot occur in it. */
  lemma LongTagIsFree(title: string, digest: string, n: nat, text: string)
    requires n >= |text|
    ensures Free(Tagged(title, digest, n), text)
  {
  }

  /** The length of the shortest tag from n on that frees the markers. */
  function TagLength(title: string, text: string, digest: string, n: nat): (k: nat)
    ensures n <= k && (k <= n || k <= |text|)
    ensures Free(Tagged(title, digest, k), text)
    ensures forall j | n <= j < k :: !Free(Tagged(title, digest, j), text)
    decreases if n < |text| then |text| - n else 0
  {
    if Free(Tagged(title, digest, n), text) then n
    else
      assert n < |text| by { if n >= |text| { LongTagIsFree(title, digest, n, text); } }
      TagLength(title, text, digest, n + 1)
  }

  /** What the chosen markers are built from. */
  function MarkerName(title: string, text: string, digest: string): string {
    if Free(title, text) then title else Tagged(title, digest, TagLength(title, text, digest, FIRST_TAG))
  }

  /** delimiters: it terminates, its markers do not occur in the text, and a tag is never longer than the text or 16. */
  method Delimiters(title: string, text: string, digest: string) returns (open: string, end: string)
    ensures open == OpenMarker(MarkerName(title, text, digest)) && end == CloseMarker(MarkerName(title, text, digest))
    ensures !Contains(text, open) && !Contains(text, end)
    ensures |open| <= |title| + 7 + (if |text| > FIRST_TAG then |text| else FIRST_TAG)
  {
    hide Contains, Tag;
    open, end := OpenMarker(title), CloseMarker(title);
    if !Contains(text, open) && !Contains(text, end) {
      return;
    }
    var n := FIRST_TAG;
    while true
      invariant FIRST_TAG <= n <= TagLength(title, text, digest, FIRST_TAG)
      decreases TagLength(title, text, digest, FIRST_TAG) - n
    {
      var tag := Tag(digest, n);
      open, end := "<<<" + title + " " + tag + ">>>", "<<<END " + title + " " + tag + ">>>";
      assert open == OpenMarker(Tagged(title, digest, n)) && end == CloseMarker(Tagged(title, digest, n));
      if !Contains(text, open) && !Contains(text, end) {
        return;
      }
      n := n + 1;
    }
  }

  // ----- one quotation -----

  function TrimNewlines(s: string): string {
    if s != "" && s[|s| - 1] == '\n' then TrimNewlines(s[..|s| - 1]) else s
  }

  /** t is s less its trailing newlines: nothing else is cut, and none is left. */
  predicate LessNewlines(s: string, t: string) {
    && |t| <= |s| && s[..|t|] == t && (forall i | |t| <= i < |s| :: s[i] == '\n')
    && (t != "" ==> t[|t| - 1] != '\n')
  }

  lemma {:induction false} TrimIsLessNewlines(s: string)
    ensures LessNewlines(s, TrimNewlines(s))
  {
    if s != "" && s[|s| - 1] == '\n' {
      TrimIsLessNewlines(s[..|s| - 1]);
    }
  }

  /** The opening marker on a line, the text, and the closing marker on a line. */
  function Quoted(name: string, text: string): string {
    OpenMarker(name) + "\n" + text + "\n" + CloseMarker(name)
  }

  /** The closing marker that an opening line calls for. */
  function ClosingFor(line: string): string {
    if |line| >= 6 then CloseMarker(line[3..|line| - 3]) else line
  }

  datatype Found = Found(text: string, rest: string)

  /** Reads a quotation: the opening line, then everything up to the first closing marker. */
  function ReadQuoted(s: string): (f: Option<Found>)
    ensures f.Some? ==> |f.value.rest| <= |s|
  {
    var eol := Find(s, "\n", 0);
    if eol >= |s| then None
    else
      var body, close := s[eol + 1..], ClosingFor(s[..eol]);
      var k := Find(body, close, 0);
      if k == 0 || k > |body| then None else Some(Found(body[..k - 1], body[k + |close|..]))
  }

  lemma FindIs(s: string, m: string, k: nat)
    requires k <= |s| && At(s, k, m) && forall j: nat | j < k :: !At(s, j, m)
    ensures Find(s, m, 0) == k
  {
    hide At;
  }

  lemma Mismatch(s: string, j: nat, m: string, i: nat)
    requires i < |m| && j + |m| <= |s| && s[j + i] != m[i]
    ensures !At(s, j, m)
  {
    assert s[j..j + |m|][i] == s[j + i];
  }

  lemma FindNewline(line: string, rest: string)
    requires OneLine(line)
    ensures Find(line + "\n" + rest, "\n", 0) == |line|
  {
    var s := line + "\n" + rest;
    forall j: nat | j < |line|
      ensures !At(s, j, "\n")
    {
      Mismatch(s, j, "\n", 0);
    }
    FindIs(s, "\n", |line|);
  }

  /**
   A one-line marker that does not occur in the text is found first right
   after it, neither earlier nor astride the boundary.
   */
  lemma FindMarker(text: string, close: string, rest: string)
    requires OneLine(close) && close != "" && !Contains(text, close)
    ensures Find(text + "\n" + close + rest, close, 0) == |text| + 1
  {
    var s := text + "\n" + close + rest;
    forall j: nat | j < |text| + 1
      ensures !At(s, j, close)
    {
      if j + |close| <= |text| {
        assert s[j..j + |close|] == text[j..j + |close|];
        assert !At(text, j, close);
      } else if j + |close| <= |s| {
        assert s[|text|] == '\n';
        Mismatch(s, j, close, |text| - j);
      }
    }
    assert s[|text| + 1..|text| + 1 + |close|] == close;
    FindIs(s, close, |text| + 1);
  }

  lemma MarkersAreLines(name: string)
    requires OneLine(name)
    ensures OneLine(OpenMarker(name)) && OneLine(CloseMarker(name)) && CloseMarker(name) != ""
    ensures ClosingFor(OpenMarker(name)) == CloseMarker(name)
  {
    var open := OpenMarker(name);
    assert open[3..|open| - 3] == name;
  }

  /** The quoted text, exactly, is what lies between the opening line and the first closing marker. */
  lemma QuotingRoundTrips(name: string, text: string, rest: string)
    requires OneLine(name) && !Contains(text, CloseMarker(name))
    ensures ReadQuoted(Quoted(name, text) + rest) == Some(Found(text, rest))
  {
    hide Contains;
    MarkersAreLines(name);
    var open, close := OpenMarker(name), CloseMarker(name);
    var body := text + "\n" + close + rest;
    var s := Quoted(name, text) + rest;
    assert s == open + "\n" + body;
    hide OpenMarker, CloseMarker, ClosingFor, Quoted;
    FindNewline(open, body);
    FindMarker(text, close, rest);
    hide Find;
    assert s[..|open|] == open && s[|open| + 1..] == body;
    assert body[..|text|] == text && body[|text| + 1 + |close|..] == rest;
  }

  lemma MarkerNameIsLine(title: string, text: string, digest: string)
    requires OneLine(title) && OneLine(digest)
    ensures OneLine(MarkerName(title, text, digest)) && !Contains(text, CloseMarker(MarkerName(title, text, digest)))
  {
    hide OpenMarker, CloseMarker, Contains;
  }

  // ----- the earlier rounds of a prompt -----

  type Digests = string -> string

  /** A digest is written on one line, as hexadecimal digits are. */
  ghost predicate DigestsOk(digests: Digests) {
    forall t :: OneLine(digests(t))
  }

  const ROUND := "\nRound "
  const COMMIT := ", commit "
  const BASE := ", base "

  /** The fixed words after a round's objects: around the two markers of a quotation, or that none was retained. */
  datatype Wording = Wording(quoted: string, and: string, stop: string, omitted: string)
  {
    predicate Valid() {
      && OneLine(quoted) && OneLine(and) && OneLine(stop) && OneLine(omitted)
      && quoted != "" && !IsHexDigit(quoted[0]) && omitted != "" && !IsHexDigit(omitted[0])
    }
  }

  function Decimal(n: nat): (s: string)
    ensures s != "" && AllHex(s)
  {
    (if n < 10 then "" else Decimal(n / 10)) + [Digit(n % 10)]
  }

  function Digit(d: nat): (c: char)
    requires d < 10
    ensures IsHexDigit(c) && c as int - '0' as int == d
  {
    '0' + d as char
  }

  function DecimalValue(s: string): int {
    if s == "" then 0 else 10 * DecimalValue(s[..|s| - 1]) + (s[|s| - 1] as int - '0' as int)
  }

  lemma {:induction false} DecimalRoundTrips(n: nat)
    ensures DecimalValue(Decimal(n)) == n
  {
    hide Digit;
    var front := if n < 10 then "" else Decimal(n / 10);
    assert Decimal(n) == front + [Digit(n % 10)] && Decimal(n)[..|front|] == front;
    if n >= 10 {
      DecimalRoundTrips(n / 10);
    }
  }

  predicate AllHex(s: string) {
    forall i | 0 <= i < |s| :: IsHexDigit(s[i])
  }

  function RoundTitle(round: nat): string {
    "ROUND " + Decimal(round) + " REVIEW"
  }

  /** What a round's line says before its fixed words. */
  function Heading(r: HistoryRecord, tail: string): string
    requires r.round >= 0
  {
    ROUND + (Decimal(r.round) + (COMMIT + (r.commit + (BASE + (r.base + tail)))))
  }

  /** The verdict between markers, announced on the line before, or that none was retained. */
  function Verdict(w: Wording, digests: Digests, r: HistoryRecord): string
    requires r.round >= 0
  {
    if r.review == "" then w.omitted + "\n"
    else
      var text := TrimNewlines(r.review);
      var name := MarkerName(RoundTitle(r.round), text, digests(text));
      (w.quoted + OpenMarker(name) + w.and + CloseMarker(name) + w.stop) + "\n" + Quoted(name, text) + "\n"
  }

  function RoundText(w: Wording, digests: Digests, r: HistoryRecord): string
    requires r.round >= 0
  {
    Heading(r, Verdict(w, digests, r))
  }

  function HistoryText(w: Wording, digests: Digests, rs: seq<HistoryRecord>): string
    requires forall i | 0 <= i < |rs| :: rs[i].round >= 0
  {
    if rs == [] then "" else HistoryText(w, digests, rs[..|rs| - 1]) + RoundText(w, digests, rs[|rs| - 1])
  }

  /** One turn of the loop of writeHistory. */
  method WriteRound(w: Wording, digests: Digests, r: HistoryRecord) returns (b: string)
    requires r.round >= 0
    ensures b == RoundText(w, digests, r)
  {
    hide Decimal, OpenMarker, CloseMarker, MarkerName, Contains;
    if r.review == "" {
      b := w.omitted + "\n";
    } else {
      var text := TrimNewlines(r.review);
      var open, end := Delimiters(RoundTitle(r.round), text, digests(text));
      b := (w.quoted + open + w.and + end + w.stop) + "\n" + (open + "\n" + text + "\n" + end) + "\n";
    }
    b := ROUND + (Decimal(r.round) + (COMMIT + (r.commit + (BASE + (r.base + b)))));
  }

  /** The rounds that writeHistory adds to the prompt, oldest first. */
  method WriteHistory(w: Wording, digests: Digests, rs: seq<HistoryRecord>) returns (b: string)
    requires forall i | 0 <= i < |rs| :: rs[i].round >= 0
    ensures b == HistoryText(w, digests, rs)
  {
    hide RoundText;
    b := "";
    for i := 0 to |rs|
      invariant b == HistoryText(w, digests, rs[..i])
    {
      var t := WriteRound(w, digests, rs[i]);
      assert rs[..i + 1][..i] == rs[..i];
      b := b + t;
    }
    assert rs[..|rs|] == rs;
  }

  /** The line before a quotation announces the very markers it stands between. */
  lemma AnnouncesItsMarkers(w: Wording, digests: Digests, r: HistoryRecord)
    requires r.round >= 0 && r.review != "" && DigestsOk(digests)
    ensures exists open: string ::
              OneLine(open)
              && Starts(Verdict(w, digests, r), w.quoted + open + w.and + ClosingFor(open) + w.stop + "\n" + open
                  + "\n")
  {
    hide Contains, TrimNewlines, Decimal;
    var text := TrimNewlines(r.review);
    var name := MarkerName(RoundTitle(r.round), text, digests(text));
    TitleIsLine(r.round);
    MarkerNameIsLine(RoundTitle(r.round), text, digests(text));
    MarkersAreLines(name);
    var open := OpenMarker(name);
    hide MarkerName, OpenMarker, CloseMarker, ClosingFor;
    var head := w.quoted + open + w.and + ClosingFor(open) + w.stop + "\n" + open + "\n";
    assert Verdict(w, digests, r) == head + (text + "\n" + ClosingFor(open) + "\n");
    assert Starts(Verdict(w, digests, r), head);
  }

  // ----- reading the rounds back -----

  datatype Recovered = Recovered(round: int, commit: string, base: string, verdict: Option<string>)

  function Recover(r: HistoryRecord): Recovered {
    Recovered(r.round, r.commit, r.base, if r.review == "" then None else Some(TrimNewlines(r.review)))
  }

  /** What was found is the record's round, objects and verdict, the verdict less its trailing newlines. */
  predicate Tells(found: Recovered, r: HistoryRecord) {
    && found.round == r.round && found.commit == r.commit && found.base == r.base
    && (found.verdict.Some? <==> r.review != "")
    && (found.verdict.Some? ==> LessNewlines(r.review, found.verdict.value))
  }

  lemma RecoverTells(r: HistoryRecord)
    ensures Tells(Recover(r), r)
  {
    TrimIsLessNewlines(r.review);
  }

  predicate Starts(s: string, p: string) {
    |p| <= |s| && s[..|p|] == p
  }

  /** The leading hexadecimal digits. */
  function HexSpan(s: string): (n: nat)
    ensures n <= |s|
  {
    if s == "" || !IsHexDigit(s[0]) then 0 else 1 + HexSpan(s[1..])
  }

  lemma {:induction false} HexSpanIs(a: string, b: string)
    requires AllHex(a) && b != "" && !IsHexDigit(b[0])
    ensures HexSpan(a + b) == |a| && (a + b)[..|a|] == a && (a + b)[|a|..] == b
  {
    if a == "" {
      assert a + b == b;
    } else {
      assert (a + b)[1..] == a[1..] + b;
      HexSpanIs(a[1..], b);
    }
  }

  /** Drops a piece of fixed wording, if it is there. */
  function Skip(s: string, word: string): (t: string)
    ensures |t| <= |s| && (word != "" && Starts(s, word) ==> |t| < |s|)
  {
    if Starts(s, word) then s[|word|..] else s
  }

  lemma SkipWord(word: string, s: string)
    ensures Skip(word + s, word) == s
  {
  }

  /** The rest of the line, the newline included, is dropped. */
  function NextLine(s: string): (t: string)
    ensures |t| <= |s|
  {
    var eol := Find(s, "\n", 0);
    if eol < |s| then s[eol + 1..] else ""
  }

  datatype Read = Read(verdict: Option<string>, rest: string)

  /** The line after a round's heading opens a quotation when there is one. */
  function ReadVerdict(s: string): (r: Read)
    ensures |r.rest| <= |s|
  {
    var quote := if Starts(s, "<") then ReadQuoted(s) else None;
    if quote.Some? then Read(Some(quote.value.text), Skip(quote.value.rest, "\n")) else Read(None, s)
  }

  datatype ReadRound = ReadRound(round: Recovered, rest: string)

  function ReadRoundText(s: string): (r: ReadRound)
    ensures Starts(s, ROUND) ==> |r.rest| < |s|
  {
    var s1 := Skip(s, ROUND);
    var round := HexSpan(s1);
    var s2 := Skip(s1[round..], COMMIT);
    var commit := HexSpan(s2);
    var s3 := Skip(s2[commit..], BASE);
    var base := HexSpan(s3);
    var read := ReadVerdict(NextLine(s3[base..]));
    ReadRound(Recovered(DecimalValue(s1[..round]), s2[..commit], s3[..base], read.verdict), read.rest)
  }

  datatype ReadRounds = ReadRounds(rounds: seq<Recovered>, rest: string)

  /** Reads rounds for as long as one follows. */
  function ReadHistory(s: string): ReadRounds
    decreases |s|
  {
    if !Starts(s, ROUND) then ReadRounds([], s)
    else
      var first := ReadRoundText(s);
      var later := ReadHistory(first.rest);
      ReadRounds([first.round] + later.rounds, later.rest)
  }

  lemma ReadsHeading(r: HistoryRecord, tail: string)
    requires r.round >= 0 && AllHex(r.commit) && AllHex(r.base) && tail != "" && !IsHexDigit(tail[0])
    ensures var read := ReadVerdict(NextLine(tail));
            ReadRoundText(Heading(r, tail)) == ReadRound(Recovered(r.round, r.commit, r.base, read.verdict), read.rest)
  {
    var s3 := r.base + tail;
    var s2 := r.commit + (BASE + s3);
    var s1 := Decimal(r.round) + (COMMIT + s2);
    hide Decimal, DecimalValue, ReadVerdict, NextLine, HexSpan, Skip, Starts;
    SkipWord(ROUND, s1);
    HexSpanIs(Decimal(r.round), COMMIT + s2);
    SkipWord(COMMIT, s2);
    HexSpanIs(r.commit, BASE + s3);
    SkipWord(BASE, s3);
    HexSpanIs(r.base, tail);
    DecimalRoundTrips(r.round);
  }

  lemma NextLineIs(line: string, rest: string)
    requires OneLine(line)
    ensures NextLine(line + "\n" + rest) == rest
  {
    hide Find;
    FindNewline(line, rest);
  }

  lemma ReadsVerdict(w: Wording, digests: Digests, r: HistoryRecord, rest: string)
    requires w.Valid() && DigestsOk(digests) && r.round >= 0 && Starts(rest, "\n")
    ensures var read := ReadVerdict(NextLine(Verdict(w, digests, r) + rest));
            read == Read(Recover(r).verdict, rest)
  {
    hide Decimal, ReadQuoted, MarkerName, Contains, NextLine, TrimNewlines;
    if r.review == "" {
      assert Verdict(w, digests, r) + rest == w.omitted + "\n" + rest;
      NextLineIs(w.omitted, rest);
    } else {
      var text := TrimNewlines(r.review);
      var name := MarkerName(RoundTitle(r.round), text, digests(text));
      TitleIsLine(r.round);
      MarkerNameIsLine(RoundTitle(r.round), text, digests(text));
      MarkersAreLines(name);
      QuotingRoundTrips(name, text, "\n" + rest);
      var line := w.quoted + OpenMarker(name) + w.and + CloseMarker(name) + w.stop;
      var body := Quoted(name, text) + ("\n" + rest);
      assert body[0] == '<';
      assert Verdict(w, digests, r) + rest == line + "\n" + body;
      hide OpenMarker, CloseMarker, Quoted, Verdict;
      NextLineIs(line, body);
      SkipWord("\n", rest);
    }
  }

  lemma TitleIsLine(round: nat)
    ensures OneLine(RoundTitle(round))
  {
    var d := Decimal(round);
    assert forall i | 0 <= i < |d| :: IsHexDigit(d[i]);
    hide Decimal;
  }

  lemma HeadingAppends(r: HistoryRecord, tail: string, rest: string)
    requires r.round >= 0
    ensures Heading(r, tail) + rest == Heading(r, tail + rest)
  {
    hide Decimal;
  }

  lemma ReadsRound(w: Wording, digests: Digests, r: HistoryRecord, rest: string)
    requires w.Valid() && DigestsOk(digests) && r.round >= 0 && AllHex(r.commit) && AllHex(r.base) && Starts(rest, "\n")
    ensures ReadRoundText(RoundText(w, digests, r) + rest) == ReadRound(Recover(r), rest)
    ensures Starts(RoundText(w, digests, r) + rest, ROUND)
  {
    var v := Verdict(w, digests, r);
    assert v != "" && !IsHexDigit(v[0]);
    ReadsVerdict(w, digests, r, rest);
    HeadingAppends(r, v, rest);
    hide Verdict, ReadVerdict, NextLine, ReadRoundText, Decimal;
    ReadsHeading(r, v + rest);
  }

  predicate Readable(r: HistoryRecord) {
    r.round >= 0 && AllHex(r.commit) && AllHex(r.base)
  }

  function RecoverAll(rs: seq<HistoryRecord>): seq<Recovered> {
    seq(|rs|, i requires 0 <= i < |rs| => Recover(rs[i]))
  }

  lemma {:induction false} HistoryRecovers(w: Wording, digests: Digests, rs: seq<HistoryRecord>, rest: string)
    requires w.Valid() && DigestsOk(digests) && Starts(rest, "\n")
    requires forall i | 0 <= i < |rs| :: rs[i].round >= 0 && Readable(rs[i])
    ensures var later := ReadHistory(rest);
            ReadHistory(HistoryText(w, digests, rs) + rest) == ReadRounds(RecoverAll(rs) + later.rounds, later.rest)
  {
    hide RoundText, ReadRoundText, Recover;
    if rs == [] {
      assert HistoryText(w, digests, rs) + rest == rest;
    } else {
      var front, last := rs[..|rs| - 1], rs[|rs| - 1];
      var t := RoundText(w, digests, last);
      ReadsRound(w, digests, last, rest);
      assert Starts(t + rest, "\n") by { assert ROUND[..1] == "\n"; assert (t + rest)[..|ROUND|][..1] == "\n"; }
      HistoryRecovers(w, digests, front, t + rest);
      assert HistoryText(w, digests, rs) + rest == HistoryText(w, digests, front) + (t + rest);
      assert RecoverAll(rs) == RecoverAll(front) + [Recover(last)];
    }
  }

  /** Any rounds are read back from the text written for them, whatever their verdicts contain and whatever follows. */
  lemma HistoryReadsBack(w: Wording, digests: Digests, rs: seq<HistoryRecord>, rest: string)
    requires w.Valid() && DigestsOk(digests) && Starts(rest, "\n")
    requires forall i | 0 <= i < |rs| :: rs[i].round >= 0 && Readable(rs[i])
    ensures var read, later := ReadHistory(HistoryText(w, digests, rs) + rest), ReadHistory(rest);
            && |read.rounds| == |rs| + |later.rounds| && read.rounds[|rs|..] == later.rounds && read.rest == later.rest
            && forall i | 0 <= i < |rs| :: Tells(read.rounds[i], rs[i])
  {
    hide HistoryText, ReadHistory, Recover, Tells;
    HistoryRecovers(w, digests, rs, rest);
    forall i | 0 <= i < |rs|
      ensures Tells(RecoverAll(rs)[i], rs[i])
    {
      RecoverTells(rs[i]);
    }
  }

  /**
   What the next prompt quotes of a clean workflow reads back exactly,
   whatever the verdicts contain: each round not disclosed by count, once and
   in order, with its objects and its verdict less trailing newlines.
   */
  lemma PromptReadsBack(w: Wording, digests: Digests, wf: Workflow, rest: string)
    requires w.Valid() && DigestsOk(digests) && Complete(wf) && CleanHistory(wf)
    requires Starts(rest, "\n") && !Starts(rest, ROUND)
    ensures forall i | 0 <= i < |PromptHistory(wf)| :: PromptHistory(wf)[i].round >= 0
    ensures var read := ReadHistory(HistoryText(w, digests, PromptHistory(wf)) + rest);
            && read.rest == rest && |read.rounds| == |PromptHistory(wf)|
            && OmittedRounds(wf) + |read.rounds| == wf.round
            && forall i | 0 <= i < |read.rounds| ::
                 read.rounds[i].round == OmittedRounds(wf) + 1 + i && Tells(read.rounds[i], PromptHistory(wf)[i])
  {
    PromptHistoryReadable(wf);
    hide HistoryText, ReadHistory, Complete, CleanHistory, PromptHistory, OmittedRounds, Readable, Tells, Starts;
    hide Wording.Valid, DigestsOk;
    HistoryReadsToTheEnd(w, digests, PromptHistory(wf), rest);
    forall i | 0 <= i < |PromptHistory(wf)|
      ensures ReadHistory(HistoryText(w, digests, PromptHistory(wf)) + rest).rounds[i].round
              == OmittedRounds(wf) + 1 + i
    {
      TellsRound(ReadHistory(HistoryText(w, digests, PromptHistory(wf)) + rest).rounds[i], PromptHistory(wf)[i]);
    }
  }

  lemma TellsRound(found: Recovered, r: HistoryRecord)
    requires Tells(found, r)
    ensures found.round == r.round
  {
  }

  lemma HistoryReadsToTheEnd(w: Wording, digests: Digests, rs: seq<HistoryRecord>, rest: string)
    requires w.Valid() && DigestsOk(digests) && Starts(rest, "\n") && !Starts(rest, ROUND)
    requires forall i | 0 <= i < |rs| :: rs[i].round >= 0 && Readable(rs[i])
    ensures var read := ReadHistory(HistoryText(w, digests, rs) + rest);
            && read.rest == rest && |read.rounds| == |rs| && forall i | 0 <= i < |rs| :: Tells(read.rounds[i], rs[i])
  {
    NothingMore(rest);
    hide HistoryText, ReadHistory, Readable, Tells, Wording.Valid, DigestsOk, Starts;
    HistoryReadsBack(w, digests, rs, rest);
  }

  lemma NothingMore(rest: string)
    requires !Starts(rest, ROUND)
    ensures ReadHistory(rest) == ReadRounds([], rest)
  {
  }

  lemma PromptHistoryReadable(wf: Workflow)
    requires Complete(wf) && CleanHistory(wf)
    ensures OmittedRounds(wf) >= 0 && OmittedRounds(wf) + |PromptHistory(wf)| == wf.round
    ensures forall i | 0 <= i < |PromptHistory(wf)| ::
              PromptHistory(wf)[i].round == OmittedRounds(wf) + 1 + i >= 0 && Readable(PromptHistory(wf)[i])
  {
    hide IncompleteWorkflowField, WithinBounds;
    CompleteRecordReadable(wf);
    CleanPromptAccounts(wf);
    forall i | 0 <= i < |PromptHistory(wf)|
      ensures Readable(PromptHistory(wf)[i])
    {
      if i < |wf.history| {
        assert PromptHistory(wf)[i] == wf.history[i] && CleanRecord(wf.history[i]);
      }
    }
  }

  lemma CompleteRecordReadable(wf: Workflow)
    requires Complete(wf)
    ensures Readable(RecordOf(wf)) && wf.round >= 1
  {
  }
}
