/**
 The state file's encoding: the JSON shape of internal/state/state.go and
 internal/state/history.go, its size, and the bound historyRecordBytes of
 internal/review/review.go puts on what dropping a record frees.
 */
module LedgerEncoding {
  import opened Text
  import opened Json
  import opened Ledger

  const VERSION := 2
  const MAX_STATE_FILE_SIZE := 16 * 1024 * 1024
  const RECORD_FRAMING_BYTES := 1024

  type Workflows = map<string, Workflow>

  // Field names as the struct tags spell them.
  const VERSION_NAME := "version"
  const WORKFLOWS := "workflows"
  const THREAD_ID := "thread_id"
  const LAST_COMMIT := "last_commit"
  const LAST_BASE := "last_base"
  const LAST_REQUEST_HASH := "last_request_hash"
  const ROUND := "round"
  const LAST_REVIEW := "last_review"
  const LAST_WARNINGS := "last_warnings"
  const LAST_USAGE := "last_usage"
  const HISTORY := "history"
  const COMMIT := "commit"
  const BASE := "base"
  const REVIEW := "review"
  const OMITTED := "omitted"
  const USAGE := "usage"
  const LAST := "last"
  const TOTAL := "total"
  const INPUT := "input"
  const CACHED := "cached"
  const CACHE_WRITE := "cache_write"
  const OUTPUT := "output"
  const REASONING := "reasoning"

  // ----- shapes -----

  function BreakdownJson(b: UsageBreakdown): Value {
    Obj([Field(INPUT, Number(b.input)), Field(CACHED, Number(b.cached)), Field(CACHE_WRITE, Number(b.cacheWrite)),
         Field(OUTPUT, Number(b.output)), Field(REASONING, Number(b.reasoning)), Field(TOTAL, Number(b.total))])
  }

  function UsageJson(u: Usage): Value {
    Obj([Field(LAST, BreakdownJson(u.last)), Field(TOTAL, BreakdownJson(u.total))])
  }

  /** A string field dropped when empty. */
  function TextField(name: string, s: string): seq<Field> {
    if s == "" then [] else [Field(name, Str(s))]
  }

  function UsageField(name: string, u: Option<Usage>): seq<Field> {
    if u.None? then [] else [Field(name, UsageJson(u.value))]
  }

  function RecordFields(r: HistoryRecord): seq<Field> {
    [Field(ROUND, Number(r.round)), Field(COMMIT, Str(r.commit)), Field(BASE, Str(r.base))]
    + TextField(REVIEW, r.review) + TextField(OMITTED, r.omitted) + UsageField(USAGE, r.usage)
  }

  function RecordJson(r: HistoryRecord): Value {
    Obj(RecordFields(r))
  }

  function RecordsJson(h: seq<HistoryRecord>): (items: seq<Value>)
    ensures |items| == |h|
  {
    if h == [] then [] else [RecordJson(h[0])] + RecordsJson(h[1..])
  }

  function StringsJson(ss: seq<string>): (items: seq<Value>)
    ensures |items| == |ss|
  {
    if ss == [] then [] else [Str(ss[0])] + StringsJson(ss[1..])
  }

  function WarningsField(ss: seq<string>): seq<Field> {
    if ss == [] then [] else [Field(LAST_WARNINGS, Arr(StringsJson(ss)))]
  }

  /** Everything but the history, which comes last and is dropped when empty. */
  function CompletedFields(w: Workflow): (fs: seq<Field>)
    ensures fs != []
  {
    [Field(THREAD_ID, Str(w.threadId)), Field(LAST_COMMIT, Str(w.lastCommit)), Field(LAST_BASE, Str(w.lastBase)),
     Field(LAST_REQUEST_HASH, Str(w.lastRequestHash)), Field(ROUND, Number(w.round)),
     Field(LAST_REVIEW, Str(w.lastReview))]
    + WarningsField(w.lastWarnings) + UsageField(LAST_USAGE, w.lastUsage)
  }

  function HistoryField(h: seq<HistoryRecord>): seq<Field> {
    if h == [] then [] else [Field(HISTORY, Arr(RecordsJson(h)))]
  }

  function WorkflowJson(w: Workflow): Value {
    Obj(CompletedFields(w) + HistoryField(w.history))
  }

  function EntryFields(keys: seq<string>, m: Workflows): seq<Field>
    requires forall k | k in keys :: k in m
  {
    if keys == [] then [] else [Field(keys[0], WorkflowJson(m[keys[0]]))] + EntryFields(keys[1..], m)
  }

  /** The envelope, with the workflows written in the given order. */
  function EnvelopeJson(keys: seq<string>, m: Workflows): Value
    requires forall k | k in keys :: k in m
  {
    Obj([Field(VERSION_NAME, Number(VERSION)), Field(WORKFLOWS, Obj(EntryFields(keys, m)))])
  }

  /** The file: the indented envelope and a final newline. */
  function EncodeFile(keys: seq<string>, m: Workflows): seq<Byte>
    requires forall k | k in keys :: k in m
  {
    Render(EnvelopeJson(keys, m), 0) + [0x0A]
  }

  // ----- sizes -----

  function EntrySize(key: string, w: Workflow): nat {
    FieldSize(Field(key, WorkflowJson(w)), 1)
  }

  ghost function EntriesSize(m: Workflows): nat
    decreases |m|
  {
    if m == map[] then 0
    else
      var k :| k in m;
      EntrySize(k, m[k]) + EntriesSize(m - {k})
  }

  /** Bytes around the workflow entries: braces, the version line, the workflows field and the final newline. */
  function EnvelopeBytes(empty: bool): nat {
    if empty then 38 else 40
  }

  /** Size of the encoded state; by EncodedSizeCounts it does not depend on the order keys are written in. */
  ghost function EncodedSize(m: Workflows): nat {
    EnvelopeBytes(m == map[]) + EntriesSize(m)
  }

  lemma {:induction false} EntriesSizeRemove(m: Workflows, k: string)
    requires k in m
    ensures EntriesSize(m) == EntrySize(k, m[k]) + EntriesSize(m - {k})
    decreases |m|
  {
    var j :| j in m && EntriesSize(m) == EntrySize(j, m[j]) + EntriesSize(m - {j});
    hide EntriesSize, EntrySize;
    if j != k {
      EntriesSizeRemove(m - {j}, k);
      EntriesSizeRemove(m - {k}, j);
      assert m - {j} - {k} == m - {k} - {j};
    }
  }

  lemma EntriesSizeUpdate(m: Workflows, k: string, w: Workflow)
    requires k in m
    ensures EntriesSize(m[k := w]) + EntrySize(k, m[k]) == EntriesSize(m) + EntrySize(k, w)
  {
    EntriesSizeRemove(m, k);
    EntriesSizeRemove(m[k := w], k);
    assert m[k := w] - {k} == m - {k};
  }

  predicate Distinct(keys: seq<string>) {
    forall i, j | 0 <= i < j < |keys| :: keys[i] != keys[j]
  }

  lemma {:induction false} EntryFieldsSize(keys: seq<string>, m: Workflows)
    requires Distinct(keys) && forall k :: k in keys <==> k in m
    ensures FieldsSize(EntryFields(keys, m), 1) == EntriesSize(m)
  {
    if keys == [] {
      assert m == map[];
    } else {
      var k := keys[0];
      var rest := m - {k};
      assert k in keys;
      forall x
        ensures x in keys[1..] <==> x in rest
      {
        if x in keys[1..] {
          var i :| 0 <= i < |keys| - 1 && keys[1..][i] == x;
          assert keys[i + 1] == x && x in keys;
        }
        if x in rest {
          var i :| 0 <= i < |keys| && keys[i] == x;
          assert keys[1..][i - 1] == x;
        }
      }
      EntryFieldsSize(keys[1..], rest);
      EntryFieldsAgree(keys[1..], m, rest);
      EntriesSizeRemove(m, k);
    }
  }

  lemma {:induction false} EntryFieldsAgree(keys: seq<string>, a: Workflows, b: Workflows)
    requires forall k | k in keys :: k in a && k in b && a[k] == b[k]
    ensures EntryFields(keys, a) == EntryFields(keys, b)
  {
    if keys != [] {
      assert keys[0] in keys && forall k | k in keys[1..] :: k in keys;
      EntryFieldsAgree(keys[1..], a, b);
    }
  }

  lemma EnvelopeFieldNames()
    ensures QuotedSize(VERSION_NAME) == 9 && QuotedSize(WORKFLOWS) == 11
  {
    PlainSize(VERSION_NAME);
    PlainSize(WORKFLOWS);
  }

  lemma EnvelopeSize(entries: seq<Field>)
    ensures Size(Obj([Field(VERSION_NAME, Number(VERSION)), Field(WORKFLOWS, Obj(entries))]), 0) + 1
            == EnvelopeBytes(entries == []) + FieldsSize(entries, 1)
  {
    EnvelopeFieldNames();
    hide QuotedSize;
    var version := Field(VERSION_NAME, Number(VERSION));
    var workflows := Field(WORKFLOWS, Obj(entries));
    FieldsSizeConcat([version], [workflows], 0);
    SingleFieldSize(version, 0);
    SingleFieldSize(workflows, 0);
    assert [version] + [workflows] == [version, workflows];
  }

  /** EncodedSize is the length of the file, whatever order the workflows are written in. */
  lemma EncodedSizeCounts(keys: seq<string>, m: Workflows)
    requires Distinct(keys) && forall k :: k in keys <==> k in m
    ensures |EncodeFile(keys, m)| == EncodedSize(m)
  {
    hide Render, Size, FieldsSize, EntriesSize, Distinct, EnvelopeBytes;
    RenderSize(EnvelopeJson(keys, m), 0);
    EntryFieldsSize(keys, m);
    EnvelopeSize(EntryFields(keys, m));
    assert keys == [] <==> m == map[] by {
      if keys != [] {
        assert keys[0] in m;
      }
    }
  }

  /** Measures the state as Save does, one entry at a time. */
  method MeasureState(m: Workflows) returns (n: nat)
    ensures n == EncodedSize(m)
  {
    n := EnvelopeBytes(m == map[]);
    var rest := m;
    while rest != map[]
      invariant n + EntriesSize(rest) == EncodedSize(m)
      decreases |rest|
    {
      var k :| k in rest;
      EntriesSizeRemove(rest, k);
      n := n + EntrySize(k, rest[k]);
      rest := rest - {k};
    }
  }

  // ----- what dropping a record frees -----

  /** historyRecordBytes: the review as JSON plus an allowance for everything else a record occupies. */
  function HistoryRecordBytes(r: HistoryRecord): (n: nat)
    ensures n > 0
  {
    QuotedSize(r.review) + RECORD_FRAMING_BYTES
  }

  predicate PlainChar(c: char) {
    'a' <= c <= 'z' || '0' <= c <= '9' || c == '_' || c == '-'
  }

  lemma {:induction false} PlainSize(s: string)
    requires forall i | 0 <= i < |s| :: PlainChar(s[i])
    ensures QuotedSize(s) == |s| + 2
  {
    EscapedSizeStep(s);
    if s != "" {
      PlainSize(s[1..]);
    }
  }

  lemma RecordFieldNames()
    ensures QuotedSize(ROUND) == 7 && QuotedSize(COMMIT) == 8 && QuotedSize(BASE) == 6
    ensures QuotedSize(REVIEW) == 8 && QuotedSize(OMITTED) == 9 && QuotedSize(OMITTED_TOO_LARGE) == 11
  {
    PlainSize(ROUND);
    PlainSize(COMMIT);
    PlainSize(BASE);
    PlainSize(REVIEW);
    PlainSize(OMITTED);
    PlainSize(OMITTED_TOO_LARGE);
  }

  lemma UsageFieldNames()
    ensures QuotedSize(USAGE) == 7 && QuotedSize(LAST) == 6 && QuotedSize(TOTAL) == 7
  {
    PlainSize(USAGE);
    PlainSize(LAST);
    PlainSize(TOTAL);
  }

  lemma CounterFieldNames()
    ensures QuotedSize(INPUT) == 7 && QuotedSize(CACHED) == 8 && QuotedSize(CACHE_WRITE) == 13
    ensures QuotedSize(OUTPUT) == 8 && QuotedSize(REASONING) == 11 && QuotedSize(TOTAL) == 7
  {
    PlainSize(INPUT);
    PlainSize(CACHED);
    PlainSize(CACHE_WRITE);
    PlainSize(OUTPUT);
    PlainSize(REASONING);
    PlainSize(TOTAL);
  }

  /** A counter or round never takes more than nineteen digits. */
  lemma CounterSize(n: Int64)
    requires n >= 0
    ensures NumberSize(n) <= 19
  {
    assert Pow10(5) == 100_000;
    assert Pow10(10) == 100_000 * Pow10(5);
    assert Pow10(15) == 100_000 * Pow10(10);
    assert Pow10(19) == 10_000 * Pow10(15);
    DigitCountBound(n, 19);
  }

  lemma CounterFieldSize(name: string, n: Int64)
    requires n >= 0
    ensures FieldSize(Field(name, Number(n)), 6) <= 37 + QuotedSize(name)
  {
    CounterSize(n);
  }

  lemma BreakdownSize(b: UsageBreakdown)
    requires b.NonNegative()
    ensures Size(BreakdownJson(b), 6) <= 290
  {
    CounterFieldNames();
    CounterFieldSize(INPUT, b.input);
    CounterFieldSize(CACHED, b.cached);
    CounterFieldSize(CACHE_WRITE, b.cacheWrite);
    CounterFieldSize(OUTPUT, b.output);
    CounterFieldSize(REASONING, b.reasoning);
    CounterFieldSize(TOTAL, b.total);
    var f := BreakdownJson(b).fields;
    FieldsSizePeel(f, 6);
    FieldsSizePeel(f[1..], 6);
    FieldsSizePeel(f[2..], 6);
    FieldsSizePeel(f[3..], 6);
    FieldsSizePeel(f[4..], 6);
    FieldsSizePeel(f[5..], 6);
    assert f[6..] == [];
  }

  lemma FieldsSizePeel(fields: seq<Field>, depth: nat)
    requires fields != []
    ensures FieldsSize(fields, depth) == FieldSize(fields[0], depth) + FieldsSize(fields[1..], depth)
    ensures forall k | 0 <= k < |fields| :: fields[1..][k..] == fields[k + 1..]
  {
  }

  lemma UsageFieldSize(u: Option<Usage>)
    requires UsageValid(u)
    ensures FieldsSize(UsageField(USAGE, u), 4) <= 658
  {
    if u.Some? {
      UsageFieldNames();
      BreakdownSize(u.value.last);
      BreakdownSize(u.value.total);
      var f := UsageJson(u.value).fields;
      FieldsSizePeel(f, 5);
      FieldsSizePeel(f[1..], 5);
      assert f[2..] == [];
      FieldsSizePeel(UsageField(USAGE, u), 4);
    }
  }

  lemma ObjectIdSize(s: string)
    requires IsObjectId(s)
    ensures QuotedSize(s) <= 66
  {
    PlainSize(s);
  }

  lemma SingleFieldSize(f: Field, depth: nat)
    ensures FieldsSize([f], depth) == FieldSize(f, depth)
  {
    FieldsSizePeel([f], depth);
  }

  lemma IdFieldsSize(r: HistoryRecord)
    requires r.round >= 0 && IsObjectId(r.commit) && IsObjectId(r.base)
    ensures var ids := [Field(ROUND, Number(r.round)), Field(COMMIT, Str(r.commit)), Field(BASE, Str(r.base))];
            FieldsSize(ids, 4) <= 214
  {
    RecordFieldNames();
    CounterSize(r.round);
    ObjectIdSize(r.commit);
    ObjectIdSize(r.base);
    var ids := [Field(ROUND, Number(r.round)), Field(COMMIT, Str(r.commit)), Field(BASE, Str(r.base))];
    FieldsSizePeel(ids, 4);
    FieldsSizePeel(ids[1..], 4);
    FieldsSizePeel(ids[2..], 4);
    assert ids[3..] == [];
  }

  lemma TextFieldsSize(r: HistoryRecord)
    requires CleanRecord(r)
    ensures FieldsSize(TextField(REVIEW, r.review), 4) + FieldsSize(TextField(OMITTED, r.omitted), 4)
            <= 32 + QuotedSize(r.review)
  {
    RecordFieldNames();
    SingleFieldSize(Field(REVIEW, Str(r.review)), 4);
    SingleFieldSize(Field(OMITTED, Str(r.omitted)), 4);
  }

  /** The most a clean record occupies at its depth in the file, whether its review or its omission is set. */
  lemma CleanRecordSize(r: HistoryRecord)
    requires CleanRecord(r)
    ensures Size(RecordJson(r), 4) <= 914 + QuotedSize(r.review)
  {
    UsageFieldSize(r.usage);
    IdFieldsSize(r);
    TextFieldsSize(r);
    var ids := [Field(ROUND, Number(r.round)), Field(COMMIT, Str(r.commit)), Field(BASE, Str(r.base))];
    var review, omitted := TextField(REVIEW, r.review), TextField(OMITTED, r.omitted);
    var usage := UsageField(USAGE, r.usage);
    FieldsSizeConcat(ids + review + omitted, usage, 4);
    FieldsSizeConcat(ids + review, omitted, 4);
    FieldsSizeConcat(ids, review, 4);
  }

  /** Size of the history field at a workflow's depth. */
  function HistoryFieldSize(h: seq<HistoryRecord>): nat {
    FieldsSize(HistoryField(h), 2)
  }

  lemma HistoryFieldFront(h: seq<HistoryRecord>)
    requires h != []
    ensures HistoryFieldSize(h) ==
            HistoryFieldSize(h[1..]) + 10 + Size(RecordJson(h[0]), 4) + (if |h| == 1 then 27 else 0)
  {
    PlainSize(HISTORY);
    var items := RecordsJson(h);
    assert items[1..] == RecordsJson(h[1..]);
    SingleFieldSize(Field(HISTORY, Arr(items)), 2);
    SingleFieldSize(Field(HISTORY, Arr(items[1..])), 2);
    assert ItemsSize(items, 3) == ItemSize(items[0], 3) + ItemsSize(items[1..], 3);
    if |h| == 1 {
      assert h[1..] == [] && items[1..] == [];
    }
  }

  lemma EntrySizeSplit(key: string, w: Workflow)
    ensures EntrySize(key, w) ==
            2 + 4 + QuotedSize(key) + 2 + FieldsSize(CompletedFields(w), 2) + HistoryFieldSize(w.history) + 4 + 2
  {
    var completed, history := CompletedFields(w), HistoryField(w.history);
    FieldsSizeConcat(completed, history, 2);
    assert completed + history != [];
    assert Size(WorkflowJson(w), 2) == FieldsSize(completed + history, 2) + 2 * 2 + 2;
  }

  /** The workflow after its oldest retained record is evicted. */
  function DropOldest(w: Workflow): Workflow
    requires w.history != []
  {
    w.(history := w.history[1..])
  }

  /** What dropping the oldest record frees: its place in the file, and the history field with the last one. */
  lemma EvictionFrees(m: Workflows, k: string)
    requires k in m && m[k].history != []
    ensures EncodedSize(m) ==
            EncodedSize(m[k := DropOldest(m[k])]) + 10 + Size(RecordJson(m[k].history[0]), 4)
            + (if |m[k].history| == 1 then 27 else 0)
  {
    var w := m[k];
    EntriesSizeUpdate(m, k, DropOldest(w));
    EntrySizeSplit(k, w);
    EntrySizeSplit(k, DropOldest(w));
    HistoryFieldFront(w.history);
  }

  /** Besides its quoted review, the record takes no more than the allowance, the history field included. */
  predicate EstimateBounds(r: HistoryRecord) {
    37 + Size(RecordJson(r), 4) <= HistoryRecordBytes(r)
  }

  lemma CleanEstimateBounds(r: HistoryRecord)
    requires CleanRecord(r)
    ensures EstimateBounds(r)
  {
    CleanRecordSize(r);
  }

  /**
   historyRecordBytes never understates what evicting a clean record frees
   from the encoded file, the last record of a history included; and every
   eviction does free something.
   */
  lemma EvictionFreesAtMostEstimate(m: Workflows, k: string)
    requires k in m && m[k].history != [] && CleanRecord(m[k].history[0])
    ensures var after := m[k := DropOldest(m[k])];
            EncodedSize(after) < EncodedSize(m) <= EncodedSize(after) + HistoryRecordBytes(m[k].history[0])
  {
    EvictionFrees(m, k);
    CleanEstimateBounds(m[k].history[0]);
  }
}
