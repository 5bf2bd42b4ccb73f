/**
 A reader of the state file: from its bytes through JSON to the workflows,
 field by field under the names of the struct tags, and the proof that it
 recovers the ledger from the encoded file.
 */
module LedgerReader {
  import opened Text
  import opened Json
  import opened JsonReader
  import opened Ledger
  import opened LedgerEncoding
  import opened StateFile

  // ----- fields -----

  /** The value of the first field of that name. */
  function Lookup(fields: seq<Field>, name: string): Option<Value> {
    if fields == [] then None
    else if fields[0].name == name then Some(fields[0].value)
    else Lookup(fields[1..], name)
  }

  function FieldsOf(v: Option<Value>): seq<Field> {
    match v
    case Some(Obj(fields)) => fields
    case _ => []
  }

  function ItemsOf(v: Option<Value>): seq<Value> {
    match v
    case Some(Arr(items)) => items
    case _ => []
  }

  /** A missing text is empty. */
  function TextOf(v: Option<Value>): string {
    match v
    case Some(Str(s)) => s
    case _ => ""
  }

  /** A missing number is zero. */
  function NumberOf(v: Option<Value>): Int64 {
    match v
    case Some(Number(n)) => if -MAX_INT - 1 <= n <= MAX_INT then n else 0
    case _ => 0
  }

  // ----- the ledger's types -----

  function ReadBreakdown(v: Option<Value>): UsageBreakdown {
    var f := FieldsOf(v);
    UsageBreakdown(
      NumberOf(Lookup(f, INPUT)), NumberOf(Lookup(f, CACHED)), NumberOf(Lookup(f, CACHE_WRITE)),
      NumberOf(Lookup(f, OUTPUT)), NumberOf(Lookup(f, REASONING)), NumberOf(Lookup(f, TOTAL)))
  }

  function ReadUsage(v: Option<Value>): Option<Usage> {
    if v.None? then None
    else Some(Usage(ReadBreakdown(Lookup(FieldsOf(v), LAST)), ReadBreakdown(Lookup(FieldsOf(v), TOTAL))))
  }

  function ReadRecord(v: Value): HistoryRecord {
    var f := FieldsOf(Some(v));
    HistoryRecord(
      NumberOf(Lookup(f, ROUND)), TextOf(Lookup(f, COMMIT)), TextOf(Lookup(f, BASE)), TextOf(Lookup(f, REVIEW)),
      TextOf(Lookup(f, OMITTED)), ReadUsage(Lookup(f, USAGE)))
  }

  function ReadRecords(items: seq<Value>): seq<HistoryRecord> {
    if items == [] then [] else [ReadRecord(items[0])] + ReadRecords(items[1..])
  }

  function ReadStrings(items: seq<Value>): seq<string> {
    if items == [] then [] else [TextOf(Some(items[0]))] + ReadStrings(items[1..])
  }

  function ReadWorkflow(v: Value): Workflow {
    var f := FieldsOf(Some(v));
    Workflow(
      TextOf(Lookup(f, THREAD_ID)), TextOf(Lookup(f, LAST_COMMIT)), TextOf(Lookup(f, LAST_BASE)),
      TextOf(Lookup(f, LAST_REQUEST_HASH)), NumberOf(Lookup(f, ROUND)), TextOf(Lookup(f, LAST_REVIEW)),
      ReadStrings(ItemsOf(Lookup(f, LAST_WARNINGS))), ReadUsage(Lookup(f, LAST_USAGE)),
      ReadRecords(ItemsOf(Lookup(f, HISTORY))))
  }

  function ReadEntries(fields: seq<Field>): Workflows {
    if fields == [] then map[] else ReadEntries(fields[1..])[fields[0].name := ReadWorkflow(fields[0].value)]
  }

  /** The whole file: one value, and nothing after it but space. */
  function ReadFile(bytes: seq<Byte>): Option<Envelope> {
    match ReadValue(bytes)
    case None => None
    case Some(r) =>
      if SkipSpace(r.rest) != [] || !r.value.Obj? then None
      else
        Some(Envelope(NumberOf(Lookup(r.value.fields, VERSION_NAME)),
            ReadEntries(FieldsOf(Lookup(r.value.fields, WORKFLOWS)))))
  }

  // ----- fields in their places -----

  lemma {:induction false} LookupConcat(a: seq<Field>, b: seq<Field>, name: string)
    ensures Lookup(a + b, name) == if Lookup(a, name).Some? then Lookup(a, name) else Lookup(b, name)
  {
    if a == [] {
      assert a + b == b;
    } else {
      assert (a + b)[1..] == a[1..] + b;
      LookupConcat(a[1..], b, name);
    }
  }

  /** A field is found by its name where no earlier one has it. */
  lemma {:induction false} LookupAt(fs: seq<Field>, i: nat)
    requires i < |fs| && forall j | 0 <= j < i :: fs[j].name != fs[i].name
    ensures Lookup(fs, fs[i].name) == Some(fs[i].value)
  {
    if i > 0 {
      assert fs[0].name != fs[i].name;
      forall j | 0 <= j < i - 1
        ensures fs[1..][j].name != fs[1..][i - 1].name
      {
        assert fs[j + 1].name != fs[i].name;
      }
      LookupAt(fs[1..], i - 1);
    }
  }

  lemma {:induction false} LookupAbsent(fs: seq<Field>, name: string)
    requires forall j | 0 <= j < |fs| :: fs[j].name != name
    ensures Lookup(fs, name) == None
  {
    if fs != [] {
      assert fs[0].name != name;
      LookupAbsent(fs[1..], name);
    }
  }

  lemma BreakdownNamesApart()
    ensures INPUT != CACHED && INPUT != CACHE_WRITE && INPUT != OUTPUT && INPUT != REASONING && INPUT != TOTAL
    ensures CACHED != CACHE_WRITE && CACHED != OUTPUT && CACHED != REASONING && CACHED != TOTAL
    ensures CACHE_WRITE != OUTPUT && CACHE_WRITE != REASONING && CACHE_WRITE != TOTAL
    ensures OUTPUT != REASONING && OUTPUT != TOTAL && REASONING != TOTAL && LAST != TOTAL
  {
    assert INPUT[0] == 'i' && CACHED[0] == 'c' && OUTPUT[0] == 'o' && REASONING[0] == 'r' && TOTAL[0] == 't';
    assert |CACHED| == 6 && |CACHE_WRITE| == 11 && LAST[0] == 'l';
  }

  lemma RecordNamesApart()
    ensures ROUND != COMMIT && ROUND != BASE && ROUND != REVIEW && ROUND != OMITTED && ROUND != USAGE
    ensures COMMIT != BASE && COMMIT != REVIEW && COMMIT != OMITTED && COMMIT != USAGE
    ensures BASE != REVIEW && BASE != OMITTED && BASE != USAGE
    ensures REVIEW != OMITTED && REVIEW != USAGE && OMITTED != USAGE
  {
    assert ROUND[1] == 'o' && REVIEW[1] == 'e' && COMMIT[0] == 'c' && BASE[0] == 'b' && OMITTED[0] == 'o'
        && USAGE[0] == 'u';
  }

  lemma WorkflowNamesApart()
    ensures THREAD_ID != LAST_COMMIT && THREAD_ID != LAST_BASE && THREAD_ID != LAST_REQUEST_HASH && THREAD_ID != ROUND
    ensures THREAD_ID != LAST_REVIEW && THREAD_ID != LAST_WARNINGS && THREAD_ID != LAST_USAGE && THREAD_ID != HISTORY
    ensures LAST_COMMIT != LAST_BASE && LAST_COMMIT != LAST_REQUEST_HASH && LAST_COMMIT != ROUND
    ensures LAST_COMMIT != LAST_REVIEW && LAST_COMMIT != LAST_WARNINGS && LAST_COMMIT != LAST_USAGE
            && LAST_COMMIT != HISTORY
    ensures LAST_BASE != LAST_REQUEST_HASH && LAST_BASE != ROUND && LAST_BASE != LAST_REVIEW
    ensures LAST_BASE != LAST_WARNINGS && LAST_BASE != LAST_USAGE && LAST_BASE != HISTORY
    ensures LAST_REQUEST_HASH != ROUND && LAST_REQUEST_HASH != LAST_REVIEW && LAST_REQUEST_HASH != LAST_WARNINGS
    ensures LAST_REQUEST_HASH != LAST_USAGE && LAST_REQUEST_HASH != HISTORY
    ensures ROUND != LAST_REVIEW && ROUND != LAST_WARNINGS && ROUND != LAST_USAGE && ROUND != HISTORY
    ensures LAST_REVIEW != LAST_WARNINGS && LAST_REVIEW != LAST_USAGE && LAST_REVIEW != HISTORY
    ensures LAST_WARNINGS != LAST_USAGE && LAST_WARNINGS != HISTORY && LAST_USAGE != HISTORY
  {
    assert |THREAD_ID| == 9 && |LAST_COMMIT| == 11 && |LAST_BASE| == 9 && |LAST_REQUEST_HASH| == 17 && |ROUND| == 5;
    assert |LAST_REVIEW| == 11 && |LAST_WARNINGS| == 13 && |LAST_USAGE| == 10 && |HISTORY| == 7;
    assert THREAD_ID[0] == 't' && LAST_BASE[0] == 'l' && LAST_COMMIT[5] == 'c' && LAST_REVIEW[5] == 'r';
  }

  // ----- reading back -----

  lemma BreakdownReadsBack(b: UsageBreakdown)
    ensures ReadBreakdown(Some(BreakdownJson(b))) == b
  {
    BreakdownNamesApart();
    var f := BreakdownJson(b).fields;
    LookupAt(f, 0);
    LookupAt(f, 1);
    LookupAt(f, 2);
    LookupAt(f, 3);
    LookupAt(f, 4);
    LookupAt(f, 5);
    hide Lookup;
  }

  lemma UsageReadsBack(u: Usage)
    ensures ReadUsage(Some(UsageJson(u))) == Some(u)
  {
    BreakdownNamesApart();
    var f := UsageJson(u).fields;
    LookupAt(f, 0);
    LookupAt(f, 1);
    hide Lookup, BreakdownJson, ReadBreakdown;
    BreakdownReadsBack(u.last);
    BreakdownReadsBack(u.total);
  }

  /** An optional text is found under its name, and nothing else is. */
  lemma TextFieldLookup(name: string, s: string, other: string)
    ensures TextOf(Lookup(TextField(name, s), name)) == s
    ensures other != name ==> Lookup(TextField(name, s), other) == None
  {
  }

  lemma UsageFieldLookup(name: string, u: Option<Usage>, other: string)
    ensures ReadUsage(Lookup(UsageField(name, u), name)) == u
    ensures other != name ==> Lookup(UsageField(name, u), other) == None
  {
    if u.Some? {
      UsageReadsBack(u.value);
      hide UsageJson, ReadUsage;
      assert Lookup(UsageField(name, u), name) == Some(UsageJson(u.value));
    }
  }

  /** The first of the two that is there. */
  function OrElse(a: Option<Value>, b: Option<Value>): Option<Value> {
    if a.Some? then a else b
  }

  lemma LookupInFour(a: seq<Field>, b: seq<Field>, c: seq<Field>, d: seq<Field>, name: string)
    ensures Lookup(a + b + c + d, name)
            == OrElse(OrElse(OrElse(Lookup(a, name), Lookup(b, name)), Lookup(c, name)), Lookup(d, name))
  {
    LookupConcat(a + b + c, d, name);
    LookupConcat(a + b, c, name);
    LookupConcat(a, b, name);
  }

  function RecordIds(r: HistoryRecord): seq<Field> {
    [Field(ROUND, Number(r.round)), Field(COMMIT, Str(r.commit)), Field(BASE, Str(r.base))]
  }

  lemma RecordIdsLookup(r: HistoryRecord)
    ensures var f := RecordIds(r);
            && Lookup(f, ROUND) == Some(Number(r.round)) && Lookup(f, COMMIT) == Some(Str(r.commit))
            && Lookup(f, BASE) == Some(Str(r.base))
            && Lookup(f, REVIEW) == None && Lookup(f, OMITTED) == None && Lookup(f, USAGE) == None
  {
    RecordNamesApart();
    var f := RecordIds(r);
    LookupAt(f, 0);
    LookupAt(f, 1);
    LookupAt(f, 2);
    LookupAbsent(f, REVIEW);
    LookupAbsent(f, OMITTED);
    LookupAbsent(f, USAGE);
    hide Lookup;
  }

  lemma RecordLookup(r: HistoryRecord, name: string)
    ensures Lookup(RecordFields(r), name) ==
            OrElse(OrElse(OrElse(Lookup(RecordIds(r), name), Lookup(TextField(REVIEW, r.review), name)),
                          Lookup(TextField(OMITTED, r.omitted), name)),
                   Lookup(UsageField(USAGE, r.usage), name))
  {
    hide TextField, UsageField, Lookup, OrElse;
    LookupInFour(RecordIds(r), TextField(REVIEW, r.review), TextField(OMITTED, r.omitted), UsageField(USAGE, r.usage),
        name);
  }

  /** Every field of a history record is under its own name, the empty ones left out. */
  lemma RecordReadsBack(r: HistoryRecord)
    ensures ReadRecord(RecordJson(r)) == r
  {
    RecordNamesApart();
    RecordIdsLookup(r);
    RecordLookup(r, ROUND);
    RecordLookup(r, COMMIT);
    RecordLookup(r, BASE);
    RecordLookup(r, REVIEW);
    RecordLookup(r, OMITTED);
    RecordLookup(r, USAGE);
    TextFieldLookup(REVIEW, r.review, OMITTED);
    TextFieldLookup(REVIEW, r.review, USAGE);
    TextFieldLookup(OMITTED, r.omitted, USAGE);
    TextFieldLookup(OMITTED, r.omitted, REVIEW);
    UsageFieldLookup(USAGE, r.usage, REVIEW);
    UsageFieldLookup(USAGE, r.usage, OMITTED);
    hide Lookup, TextField, UsageField, ReadUsage, RecordFields, RecordIds;
  }

  lemma {:induction false} RecordsReadBack(h: seq<HistoryRecord>)
    ensures ReadRecords(RecordsJson(h)) == h
  {
    if h != [] {
      RecordReadsBack(h[0]);
      RecordsReadBack(h[1..]);
      ReadsFirstRecord(RecordJson(h[0]), RecordsJson(h[1..]));
      hide ReadRecord, RecordJson, ReadRecords;
      assert RecordsJson(h) == [RecordJson(h[0])] + RecordsJson(h[1..]) && h == [h[0]] + h[1..];
    }
  }

  lemma ReadsFirstRecord(item: Value, items: seq<Value>)
    ensures ReadRecords([item] + items) == [ReadRecord(item)] + ReadRecords(items)
  {
    hide ReadRecord;
    assert ([item] + items)[1..] == items;
  }

  lemma {:induction false} StringsReadBack(ss: seq<string>)
    ensures ReadStrings(StringsJson(ss)) == ss
  {
    if ss != [] {
      StringsReadBack(ss[1..]);
      assert StringsJson(ss)[1..] == StringsJson(ss[1..]) && ss == [ss[0]] + ss[1..];
    }
  }

  function WorkflowTexts(w: Workflow): seq<Field> {
    [Field(THREAD_ID, Str(w.threadId)), Field(LAST_COMMIT, Str(w.lastCommit)), Field(LAST_BASE, Str(w.lastBase)),
     Field(LAST_REQUEST_HASH, Str(w.lastRequestHash)), Field(ROUND, Number(w.round)),
     Field(LAST_REVIEW, Str(w.lastReview))]
  }

  lemma WorkflowTextsLookup(w: Workflow)
    ensures var f := WorkflowTexts(w);
            && Lookup(f, THREAD_ID) == Some(Str(w.threadId)) && Lookup(f, LAST_COMMIT) == Some(Str(w.lastCommit))
            && Lookup(f, LAST_BASE) == Some(Str(w.lastBase))
                && Lookup(f, LAST_REQUEST_HASH) == Some(Str(w.lastRequestHash))
            && Lookup(f, ROUND) == Some(Number(w.round)) && Lookup(f, LAST_REVIEW) == Some(Str(w.lastReview))
            && Lookup(f, LAST_WARNINGS) == None && Lookup(f, LAST_USAGE) == None && Lookup(f, HISTORY) == None
  {
    WorkflowNamesApart();
    var f := WorkflowTexts(w);
    LookupAt(f, 0);
    LookupAt(f, 1);
    LookupAt(f, 2);
    LookupAt(f, 3);
    LookupAt(f, 4);
    LookupAt(f, 5);
    LookupAbsent(f, LAST_WARNINGS);
    LookupAbsent(f, LAST_USAGE);
    LookupAbsent(f, HISTORY);
    hide Lookup;
  }

  lemma WorkflowLookup(w: Workflow, name: string)
    ensures Lookup(CompletedFields(w) + HistoryField(w.history), name) ==
            OrElse(OrElse(OrElse(Lookup(WorkflowTexts(w), name), Lookup(WarningsField(w.lastWarnings), name)),
                          Lookup(UsageField(LAST_USAGE, w.lastUsage), name)),
                   Lookup(HistoryField(w.history), name))
  {
    hide WarningsField, UsageField, HistoryField, Lookup, OrElse;
    LookupInFour(
      WorkflowTexts(w), WarningsField(w.lastWarnings), UsageField(LAST_USAGE, w.lastUsage), HistoryField(w.history),
          name);
  }

  lemma WarningsLookup(ss: seq<string>, other: string)
    ensures ReadStrings(ItemsOf(Lookup(WarningsField(ss), LAST_WARNINGS))) == ss
    ensures other != LAST_WARNINGS ==> Lookup(WarningsField(ss), other) == None
  {
    StringsReadBack(ss);
  }

  lemma HistoryLookup(h: seq<HistoryRecord>, other: string)
    ensures ReadRecords(ItemsOf(Lookup(HistoryField(h), HISTORY))) == h
    ensures other != HISTORY ==> Lookup(HistoryField(h), other) == None
  {
    RecordsReadBack(h);
  }

  /** Every field of a workflow is under its own name, the empty ones left out. */
  lemma WorkflowReadsBack(w: Workflow)
    ensures ReadWorkflow(WorkflowJson(w)) == w
  {
    WorkflowNamesApart();
    WorkflowTextsLookup(w);
    WorkflowLookup(w, THREAD_ID);
    WorkflowLookup(w, LAST_COMMIT);
    WorkflowLookup(w, LAST_BASE);
    WorkflowLookup(w, LAST_REQUEST_HASH);
    WorkflowLookup(w, ROUND);
    WorkflowLookup(w, LAST_REVIEW);
    WorkflowLookup(w, LAST_WARNINGS);
    WorkflowLookup(w, LAST_USAGE);
    WorkflowLookup(w, HISTORY);
    WarningsLookup(w.lastWarnings, LAST_USAGE);
    WarningsLookup(w.lastWarnings, HISTORY);
    UsageFieldLookup(LAST_USAGE, w.lastUsage, LAST_WARNINGS);
    UsageFieldLookup(LAST_USAGE, w.lastUsage, HISTORY);
    HistoryLookup(w.history, LAST_WARNINGS);
    HistoryLookup(w.history, LAST_USAGE);
    hide Lookup, WarningsField, UsageField, HistoryField, CompletedFields, WorkflowTexts, ReadUsage, ReadRecords,
         ReadStrings;
  }

  predicate KeysOf(keys: seq<string>, m: Workflows) {
    Distinct(keys) && (forall k | k in keys :: k in m) && (forall k | k in m :: k in keys)
  }

  function Entries(keys: seq<string>, m: Workflows): seq<Field>
    requires KeysOf(keys, m)
  {
    EntryFields(keys, m)
  }

  lemma EntriesSplit(keys: seq<string>, m: Workflows, rest: Workflows)
    requires keys != [] && KeysOf(keys, m) && rest == m - {keys[0]} && KeysOf(keys[1..], rest)
    ensures keys[0] in m && Entries(keys, m) == [Field(keys[0], WorkflowJson(m[keys[0]]))] + Entries(keys[1..], rest)
    ensures rest[keys[0] := m[keys[0]]] == m
  {
    assert keys[0] in keys;
    EntryFieldsAgree(keys[1..], m, rest);
    hide Distinct, WorkflowJson;
  }

  lemma NoEntries(m: Workflows)
    requires KeysOf([], m)
    ensures m == map[] && ReadEntries(Entries([], m)) == m
  {
  }

  lemma {:induction false} EntriesReadBack(keys: seq<string>, m: Workflows)
    requires KeysOf(keys, m)
    ensures ReadEntries(Entries(keys, m)) == m
  {
    hide Entries, ReadEntries, WorkflowJson, KeysOf;
    if keys == [] {
      NoEntries(m);
    } else {
      var rest := m - {keys[0]};
      LaterKeys(keys, m);
      EntriesReadBack(keys[1..], rest);
      EntriesSplit(keys, m, rest);
      EntryReadsBack(keys[0], m[keys[0]], Entries(keys[1..], rest));
    }
  }

  lemma EntryReadsBack(key: string, w: Workflow, later: seq<Field>)
    ensures ReadEntries([Field(key, WorkflowJson(w))] + later) == ReadEntries(later)[key := w]
  {
    WorkflowReadsBack(w);
    hide WorkflowJson, ReadWorkflow;
    assert ([Field(key, WorkflowJson(w))] + later)[1..] == later;
  }

  lemma LaterKeys(keys: seq<string>, m: Workflows)
    requires keys != [] && KeysOf(keys, m)
    ensures KeysOf(keys[1..], m - {keys[0]})
  {
    forall k | k in keys[1..]
      ensures k in m - {keys[0]}
    {
      var i :| 0 <= i < |keys| - 1 && keys[1..][i] == k;
      assert keys[i + 1] == k && k in keys;
    }
    forall k | k in m - {keys[0]}
      ensures k in keys[1..]
    {
      var i :| 0 <= i < |keys| && keys[i] == k;
      assert keys[1..][i - 1] == k;
    }
  }

  /**
   The encoded file reads back as the ledger it was written from, under the
   version written, whatever order its keys are in.
   */
  lemma FileReadsBack(keys: seq<string>, m: Workflows)
    requires KeysOf(keys, m)
    ensures ReadFile(EncodeFile(keys, m)) == Some(Envelope(VERSION, m))
  {
    EntriesReadBack(keys, m);
    EnvelopeReadsBack(EntryFields(keys, m));
    hide ReadFile, Render, ReadEntries, EntryFields, KeysOf;
  }

  lemma EnvelopeReadsBack(entries: seq<Field>)
    ensures var v := Obj([Field(VERSION_NAME, Number(VERSION)), Field(WORKFLOWS, Obj(entries))]);
            ReadFile(Render(v, 0) + [0x0A]) == Some(Envelope(VERSION, ReadEntries(entries)))
  {
    var v := Obj([Field(VERSION_NAME, Number(VERSION)), Field(WORKFLOWS, Obj(entries))]);
    EnvelopeLookup(entries);
    hide ReadValue, Render, Lookup, ReadEntries;
    ValueReadsBack(v, 0, [], [0x0A]);
    assert [] + Render(v, 0) + [0x0A] == Render(v, 0) + [0x0A];
    assert SkipSpace([0x0A]) == [];
  }

  lemma EnvelopeLookup(entries: seq<Field>)
    ensures var f := [Field(VERSION_NAME, Number(VERSION)), Field(WORKFLOWS, Obj(entries))];
            Lookup(f, VERSION_NAME) == Some(Number(VERSION)) && Lookup(f, WORKFLOWS) == Some(Obj(entries))
  {
    var f := [Field(VERSION_NAME, Number(VERSION)), Field(WORKFLOWS, Obj(entries))];
    assert |VERSION_NAME| == 7 && |WORKFLOWS| == 9;
    LookupAt(f, 0);
    LookupAt(f, 1);
  }

  /** What the store takes a saved file for is what its bytes hold: their number, and what they read back as. */
  lemma EncodedIsTheFile(keys: seq<string>, m: Workflows)
    requires KeysOf(keys, m)
    ensures Encoded(m) == File(|EncodeFile(keys, m)|, ReadFile(EncodeFile(keys, m)))
  {
    FileReadsBack(keys, m);
    EncodedSizeCounts(keys, m);
    hide EncodedSize, EncodeFile, ReadFile, KeysOf;
  }

  // ----- which fields are written -----

  function Names(fields: seq<Field>): seq<string> {
    seq(|fields|, i requires 0 <= i < |fields| => fields[i].name)
  }

  lemma NamesConcat(a: seq<Field>, b: seq<Field>)
    ensures Names(a + b) == Names(a) + Names(b)
  {
  }

  function Unless(absent: bool, name: string): seq<string> {
    if absent then [] else [name]
  }

  /** A history record is written under the names of the struct tags, less those of what it lacks. */
  lemma RecordNames(r: HistoryRecord)
    ensures Names(RecordFields(r)) ==
            ["round", "commit", "base"] + Unless(r.review == "", "review") + Unless(r.omitted == "", "omitted")
            + Unless(r.usage == None, "usage")
  {
    var head := [Field(ROUND, Number(r.round)), Field(COMMIT, Str(r.commit)), Field(BASE, Str(r.base))];
    var review, omitted, usage := TextField(REVIEW, r.review), TextField(OMITTED, r.omitted),
        UsageField(USAGE, r.usage);
    NamesConcat(head + review + omitted, usage);
    NamesConcat(head + review, omitted);
    NamesConcat(head, review);
    assert Names(head) == ["round", "commit", "base"];
  }

  lemma CompletedNames(w: Workflow)
    ensures Names(CompletedFields(w)) ==
            ["thread_id", "last_commit", "last_base", "last_request_hash", "round", "last_review"]
            + Unless(w.lastWarnings == [], "last_warnings") + Unless(w.lastUsage == None, "last_usage")
  {
    var head := [Field(THREAD_ID, Str(w.threadId)), Field(LAST_COMMIT, Str(w.lastCommit)),
                 Field(LAST_BASE, Str(w.lastBase)), Field(LAST_REQUEST_HASH, Str(w.lastRequestHash)),
                 Field(ROUND, Number(w.round)), Field(LAST_REVIEW, Str(w.lastReview))];
    var warnings, usage := WarningsField(w.lastWarnings), UsageField(LAST_USAGE, w.lastUsage);
    NamesConcat(head + warnings, usage);
    NamesConcat(head, warnings);
    assert Names(head) == ["thread_id", "last_commit", "last_base", "last_request_hash", "round", "last_review"];
  }

  /** And so is a workflow. */
  lemma WorkflowNames(w: Workflow)
    ensures WorkflowJson(w).Obj?
    ensures Names(WorkflowJson(w).fields) ==
            ["thread_id", "last_commit", "last_base", "last_request_hash", "round", "last_review"]
            + Unless(w.lastWarnings == [], "last_warnings") + Unless(w.lastUsage == None, "last_usage")
            + Unless(w.history == [], "history")
  {
    CompletedNames(w);
    NamesConcat(CompletedFields(w), HistoryField(w.history));
    hide CompletedFields;
  }

  /** The figures of a usage are all written, zeros included. */
  lemma UsageNames(u: Usage, b: UsageBreakdown)
    ensures UsageJson(u).Obj? && Names(UsageJson(u).fields) == ["last", "total"]
    ensures BreakdownJson(b).Obj?
    ensures Names(BreakdownJson(b).fields) == ["input", "cached", "cache_write", "output", "reasoning", "total"]
  {
  }
}
