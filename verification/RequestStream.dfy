/**
 The byte stream internal/state/request.go feeds to its hash, and what a
 match of hashes therefore tells. The hash itself is a parameter.
 */
module RequestStream {
  import opened Text
  import opened Json
  import opened Completion

  type Bytes = seq<Byte>

  datatype Request = Request(identity: Bytes, branchRef: Bytes, commit: Bytes, base: Bytes, notes: Bytes, build: bool)
  {
    /** The workflow the request belongs to: the identity, two colons, the branch. */
    function Key(): Bytes {
      identity + [0x3A, 0x3A] + branchRef
    }
  }

  const COLON := 0x3A

  /**
   Two requests whose branches have no colon in their refs, as git's have
   none, belong to one workflow exactly when both repository and branch are
   the same.
   */
  lemma KeyTellsTheBranch(a: Request, b: Request)
    requires COLON !in a.branchRef && COLON !in b.branchRef
    ensures a.Key() == b.Key() <==> a.identity == b.identity && a.branchRef == b.branchRef
  {
    if a.Key() == b.Key() {
      KeyEndsInBranch(a);
      KeyEndsInBranch(b);
      var i, j := |a.Key()| - |a.branchRef|, |b.Key()| - |b.branchRef|;
      assert a.Key()[i - 1] == b.Key()[j - 1] == COLON;
      assert i == j;
      assert a.Key()[..i - 2] == a.identity && b.Key()[..j - 2] == b.identity;
    }
  }

  /** The branch is what follows the last colon of the key. */
  lemma KeyEndsInBranch(r: Request)
    requires COLON !in r.branchRef
    ensures var k := |r.Key()| - |r.branchRef|;
            && k > 0 && r.Key()[k - 1] == COLON && r.Key()[k..] == r.branchRef
            && forall i | k <= i < |r.Key()| :: r.Key()[i] != COLON
  {
    var k := |r.Key()| - |r.branchRef|;
    assert forall i | k <= i < |r.Key()| :: r.Key()[i] == r.branchRef[i - k];
  }

  /** "build" in ASCII. */
  const BUILD_MARKER: Bytes := [0x62, 0x75, 0x69, 0x6C, 0x64]

  // ----- length prefixes -----

  function Pow256(k: nat): (p: nat)
    ensures p >= 1
  {
    if k == 0 then 1 else 256 * Pow256(k - 1)
  }

  /** The low k bytes of n, the most significant first; for k = 8 this is PutUint64 of the conversion to uint64. */
  function BigEndian(n: nat, k: nat): (bs: Bytes)
    ensures |bs| == k
  {
    if k == 0 then [] else BigEndian(n / 256, k - 1) + [n % 256]
  }

  function ValueOf(bs: Bytes): (n: nat)
    ensures n < Pow256(|bs|)
  {
    if bs == [] then 0 else 256 * ValueOf(bs[..|bs| - 1]) + bs[|bs| - 1]
  }

  lemma {:induction false} BigEndianReads(n: nat, k: nat)
    requires n < Pow256(k)
    ensures ValueOf(BigEndian(n, k)) == n
  {
    if k > 0 {
      BigEndianReads(n / 256, k - 1);
      assert BigEndian(n, k)[..k - 1] == BigEndian(n / 256, k - 1);
    }
  }

  lemma {:induction false} BigEndianWrites(bs: Bytes)
    ensures BigEndian(ValueOf(bs), |bs|) == bs
  {
    if bs != [] {
      BigEndianWrites(bs[..|bs| - 1]);
    }
  }

  // ----- the stream -----

  const PREFIX := 8

  /** A slice a Go program can hold has a length below 2^63. */
  predicate Holdable(field: Bytes) {
    |field| < Pow256(PREFIX) / 2
  }

  function Prefixed(field: Bytes): Bytes {
    BigEndian(|field|, PREFIX) + field
  }

  function Fields(r: Request): seq<Bytes> {
    [r.identity, r.branchRef, r.commit, r.base, r.notes] + (if r.build then [BUILD_MARKER] else [])
  }

  function StreamOf(fields: seq<Bytes>): Bytes {
    if fields == [] then [] else StreamOf(fields[..|fields| - 1]) + Prefixed(fields[|fields| - 1])
  }

  /** What Hash feeds to the hasher. */
  function Stream(r: Request): Bytes {
    StreamOf(Fields(r))
  }

  predicate HoldableRequest(r: Request) {
    Holdable(r.identity) && Holdable(r.branchRef) && Holdable(r.commit) && Holdable(r.base) && Holdable(r.notes)
  }

  /** The loop of Hash. */
  method FeedHash(r: Request) returns (fed: Bytes)
    ensures fed == Stream(r)
  {
    var fields := [r.identity, r.branchRef, r.commit, r.base, r.notes];
    if r.build {
      fields := fields + [BUILD_MARKER];
    }
    fed := [];
    for i := 0 to |fields|
      invariant fed == StreamOf(fields[..i])
    {
      assert fields[..i + 1][..i] == fields[..i];
      fed := fed + BigEndian(|fields[i]|, PREFIX);
      fed := fed + fields[i];
    }
    assert fields[..|fields|] == fields == Fields(r);
  }

  // ----- reading a stream -----

  /** The fields of a stream, or None when it does not split into whole fields. */
  function ReadFields(s: Bytes): Option<seq<Bytes>>
    decreases |s|
  {
    if s == [] then Some([])
    else if |s| < PREFIX then None
    else
      var n := ValueOf(s[..PREFIX]);
      if PREFIX + n > |s| then None
      else
        match ReadFields(s[PREFIX + n..])
        case None => None
        case Some(later) => Some([s[PREFIX..PREFIX + n]] + later)
  }

  function RequestOf(fields: seq<Bytes>): Option<Request> {
    if |fields| == 5 then Some(Request(fields[0], fields[1], fields[2], fields[3], fields[4], false))
    else if |fields| == 6 && fields[5] == BUILD_MARKER then
      Some(Request(fields[0], fields[1], fields[2], fields[3], fields[4], true))
    else None
  }

  function Decode(s: Bytes): Option<Request> {
    match ReadFields(s)
    case None => None
    case Some(fields) => RequestOf(fields)
  }

  lemma {:induction false} StreamFirst(fields: seq<Bytes>)
    requires fields != []
    ensures StreamOf(fields) == Prefixed(fields[0]) + StreamOf(fields[1..])
  {
    if |fields| > 1 {
      var front := fields[..|fields| - 1];
      StreamFirst(front);
      assert front[1..] == fields[1..][..|fields| - 2];
    }
  }

  lemma ReadsPrefixed(f: Bytes, rest: Bytes)
    requires Holdable(f)
    ensures var later := ReadFields(rest);
            ReadFields(Prefixed(f) + rest) == if later.None? then None else Some([f] + later.value)
  {
    BigEndianReads(|f|, PREFIX);
    hide Holdable, BigEndian, ValueOf, Pow256;
    var s := Prefixed(f) + rest;
    assert s[..PREFIX] == BigEndian(|f|, PREFIX);
    assert s[PREFIX..PREFIX + |f|] == f && s[PREFIX + |f|..] == rest;
  }

  lemma {:induction false} FieldsReadBack(fields: seq<Bytes>)
    requires forall i | 0 <= i < |fields| :: Holdable(fields[i])
    ensures ReadFields(StreamOf(fields)) == Some(fields)
  {
    if fields != [] {
      var f, rest := fields[0], fields[1..];
      StreamFirst(fields);
      FieldsReadBack(rest);
      hide StreamOf, Holdable;
      ReadsPrefixed(f, StreamOf(rest));
      assert fields == [f] + rest;
    }
  }

  lemma WholeField(s: Bytes)
    requires s != [] && ReadFields(s).Some?
    ensures PREFIX <= |s| && PREFIX + ValueOf(s[..PREFIX]) <= |s|
    ensures var n := ValueOf(s[..PREFIX]); var f, rest := s[PREFIX..PREFIX + n], s[PREFIX + n..];
            && ReadFields(rest).Some? && ReadFields(s).value == [f] + ReadFields(rest).value
            && s == Prefixed(f) + rest
  {
    BigEndianWrites(s[..PREFIX]);
  }

  lemma {:induction false} FieldsWriteBack(s: Bytes)
    requires ReadFields(s).Some?
    ensures StreamOf(ReadFields(s).value) == s
    decreases |s|
  {
    if s != [] {
      WholeField(s);
      hide ReadFields, ValueOf;
      var rest := s[PREFIX + ValueOf(s[..PREFIX])..];
      FieldsWriteBack(rest);
      StreamFirst(ReadFields(s).value);
      assert ReadFields(s).value[1..] == ReadFields(rest).value;
    }
  }

  /** A request can be read back from its stream. */
  lemma StreamReadsBack(r: Request)
    requires HoldableRequest(r)
    ensures Decode(Stream(r)) == Some(r)
  {
    FieldsReadBack(Fields(r));
  }

  /** A stream that reads as a request is that request's own, so the encoding has no second form. */
  lemma StreamIsCanonical(s: Bytes)
    requires Decode(s).Some?
    ensures Stream(Decode(s).value) == s
  {
    FieldsWriteBack(s);
    FieldsOfRequest(ReadFields(s).value);
    hide ReadFields, StreamOf, RequestOf, Fields;
  }

  lemma FieldsOfRequest(fields: seq<Bytes>)
    requires RequestOf(fields).Some?
    ensures Fields(RequestOf(fields).value) == fields
  {
  }

  /** Distinct requests never share a stream, whichever of them builds. */
  lemma StreamIsInjective(a: Request, b: Request)
    requires HoldableRequest(a) && HoldableRequest(b)
    ensures Stream(a) == Stream(b) <==> a == b
  {
    StreamReadsBack(a);
    StreamReadsBack(b);
  }

  // ----- replay -----

  /** A hash in text, which is never empty. */
  type Hash = h: Bytes -> string | forall s :: h(s) != "" ghost witness _ => "0"

  ghost predicate CollisionFree(hash: Hash) {
    forall s, t :: hash(s) == hash(t) ==> s == t
  }

  /**
   Under a hash without collisions, a stored review made for one request
   answers exactly that request, and any other gets a turn of its own.
   */
  lemma ReplayAnswersOnlyTheSameRequest(hash: Hash, c: Copy, made: Request, asked: Request)
    requires CollisionFree(hash)
    requires HoldableRequest(made) && HoldableRequest(asked)
    requires c.known && c.before.lastRequestHash == hash(Stream(made))
    ensures Replay(c, hash(Stream(asked))) == if asked == made then Some(c.before) else None
  {
    StreamIsInjective(made, asked);
  }
}
