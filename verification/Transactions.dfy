/** Operations, transactions and the identities minted over them (include/qiven/context/persistence.hpp and
    digest_operations, request_digest_of in src/persistence.cpp). */
module Transactions {
  import opened Prelude
  import opened Wire
  import opened Cognition
  import opened SnapshotLayout

  datatype OperationKind = AppendDecision | SupersedeDecision | AddMemory | UpsertObligation | CloseObligation
    | TransitionObligation | UpdateState | AddEvidence | UpsertProfile | OpenConflict | ResolveConflict
    | AmendViewSpec | SetNextBoundary {
    function Code(): byte {
      match this
      case AppendDecision => 0 case SupersedeDecision => 1 case AddMemory => 2 case UpsertObligation => 3
      case CloseObligation => 4 case TransitionObligation => 5 case UpdateState => 6 case AddEvidence => 7
      case UpsertProfile => 8 case OpenConflict => 9 case ResolveConflict => 10 case AmendViewSpec => 11
      case SetNextBoundary => 12
    }
  }
  const OPERATION_KINDS: seq<OperationKind> := [AppendDecision, SupersedeDecision, AddMemory, UpsertObligation,
    CloseObligation, TransitionObligation, UpdateState, AddEvidence, UpsertProfile, OpenConflict, ResolveConflict,
    AmendViewSpec, SetNextBoundary]

  datatype Operation = Operation(kind: OperationKind, recordId: i64, successorRecordId: i64, aux: byte,
    scope: Str, title: Str, payload: Str, provenanceRef: Str)

  /** Review evidence, bound to the exact operations reviewed. */
  datatype H2Evidence = H2Evidence(reviewedDeltaDigest: Str, reviewer: Str, reviewerBinding: Str, reviewRef: Str)

  datatype RevisionId = RevisionId(value: Str) {
    predicate IsEmpty() { value == [] }
  }
  const NO_REVISION := RevisionId([])

  datatype ContextTransaction = ContextTransaction(base: RevisionId, operations: seq<Operation>,
    handoffEvidenceRef: Str, h2: Option<H2Evidence>, idempotencyKey: Str)

  // ---- the images that are hashed ----

  lemma OperationKindTable()
    ensures forall x: OperationKind :: x.Code() < |OPERATION_KINDS| && OPERATION_KINDS[x.Code()] == x
    ensures forall i: byte :: i < |OPERATION_KINDS| ==> OPERATION_KINDS[i].Code() == i
  {
  }

  function OperationKindFormat(): LawfulFormat<OperationKind> {
    OperationKindTable();
    EnumFormat(OPERATION_KINDS, (e: OperationKind) => e.Code())
  }

  function OperationFormat(): LawfulFormat<Operation> {
    Record(Pair(OperationKindFormat(), Pair(I64Format(), Pair(I64Format(), Pair(U8Format(),
        Pair(StrFormat(), Pair(StrFormat(), Pair(StrFormat(), StrFormat()))))))),
      (x: Operation) => (x.kind, (x.recordId, (x.successorRecordId, (x.aux, (x.scope, (x.title, (x.payload,
          x.provenanceRef))))))),
      (t: (OperationKind, (i64, (i64, (byte, (Str, (Str, (Str, Str)))))))) =>
        Operation(t.0, t.1.0, t.1.1.0, t.1.1.1.0, t.1.1.1.1.0, t.1.1.1.1.1.0, t.1.1.1.1.1.1.0, t.1.1.1.1.1.1.1))
  }

  /** The ordered operations, one after the other without count or framing. */
  function OperationsImage(ops: seq<Operation>): Bytes { PutAll(OperationFormat().put, ops, []) }

  predicate OperationsSized(ops: seq<Operation>) { AllWithin(OperationFormat().within, MAX_U32, ops) }

  function EvidenceBindingFormat(): LawfulFormat<H2Evidence> {
    Record(Pair(StrFormat(), Pair(StrFormat(), Pair(StrFormat(), StrFormat()))),
      (x: H2Evidence) => (x.reviewedDeltaDigest, (x.reviewer, (x.reviewerBinding, x.reviewRef))),
      (t: (Str, (Str, (Str, Str)))) => H2Evidence(t.0, t.1.0, t.1.1.0, t.1.1.1))
  }

  type RequestFields = (Str, (Str, (Str, Option<H2Evidence>)))

  /** Base, digest of the operations, evidence pointer and review evidence. */
  function RequestFormat(): LawfulFormat<RequestFields> {
    Pair(StrFormat(), Pair(StrFormat(), Pair(StrFormat(), OptionFormat(EvidenceBindingFormat()))))
  }

  /** Two lists of records with one image are the same list, although nothing frames or counts the records. */
  lemma {:induction false} UnframedInjective<T(!new)>(f: LawfulFormat<T>, xs: seq<T>, ys: seq<T>)
    requires forall m: Mode :: f.get(m, []).Err?
    requires AllWithin(f.within, MAX_U32, xs) && AllWithin(f.within, MAX_U32, ys)
    requires PutAll(f.put, xs, []) == PutAll(f.put, ys, [])
    ensures xs == ys
  {
    var m := Mode(8, MAX_U32, false);
    if xs != [] {
      assert f.get(m, f.put(xs[0], PutAll(f.put, xs[1..], []))) == Ok(xs[0], PutAll(f.put, xs[1..], []));
    }
    if ys != [] {
      assert f.get(m, f.put(ys[0], PutAll(f.put, ys[1..], []))) == Ok(ys[0], PutAll(f.put, ys[1..], []));
    }
    if xs != [] && ys != [] {
      UnframedInjective(f, xs[1..], ys[1..]);
      assert xs == [xs[0]] + xs[1..] && ys == [ys[0]] + ys[1..];
    }
  }

  lemma OperationNeedsInput()
    ensures forall m: Mode :: OperationFormat().get(m, []).Err?
  {
  }

  /** The exact delta a review binds to is recoverable from its image. */
  lemma OperationsImageInjective(ops: seq<Operation>, other: seq<Operation>)
    requires OperationsSized(ops) && OperationsSized(other) && OperationsImage(ops) == OperationsImage(other)
    ensures ops == other
  {
    OperationNeedsInput();
    hide OperationFormat;
    UnframedInjective(OperationFormat(), ops, other);
  }

  lemma FormatInjective<T(!new)>(f: LawfulFormat<T>, x: T, y: T)
    requires f.within(MAX_U32, x) && f.within(MAX_U32, y) && f.put(x, []) == f.put(y, [])
    ensures x == y
  {
    var m := Mode(8, MAX_U32, false);
    assert f.get(m, f.put(x, [])) == Ok(x, []) && f.get(m, f.put(y, [])) == Ok(y, []);
  }

  // ---- identities ----

  /** What the model takes from outside: the content hash, the chained revision hash, the snapshot layout and the
      founding snapshot. */
  datatype World = World(content: Bytes -> Str, chain: (Str, Bytes) -> Str, layout: Layout, genesis: Snapshot)

  const HASHABLE: nat := 0x8000_0000

  predicate ContentSeparates(w: World, x: Bytes, y: Bytes) {
    |x| <= HASHABLE && |y| <= HASHABLE && w.content(x) == w.content(y) ==> x == y
  }
  predicate ContentIsShort(w: World, x: Bytes) { |x| <= HASHABLE ==> |w.content(x)| + 6 <= MAX_U32 }
  predicate ChainSeparates(w: World, a: Str, x: Bytes, b: Str, y: Bytes) { w.chain(a, x) == w.chain(b, y) ==> a == b && x == y }

  /** The hashes do not collide: revisions never, content ids on inputs of up to 2 GiB, whose ids stay short. */
  ghost predicate CollisionFree(w: World) {
    && (forall a: Str, x: Bytes, b: Str, y: Bytes :: ChainSeparates(w, a, x, b, y))
    && (forall x: Bytes, y: Bytes :: ContentSeparates(w, x, y))
    && (forall x: Bytes :: ContentIsShort(w, x))
  }

  function ContentId(w: World, b: Bytes): Str { Ascii("draft-") + w.content(b) }
  function SnapshotDigest(w: World, b: Bytes): Str { Ascii("snap-") + w.content(b) }
  function Mint(w: World, base: RevisionId, b: Bytes): RevisionId { RevisionId(Ascii("rev-") + w.chain(base.value, b)) }

  function DigestOperations(w: World, ops: seq<Operation>): Str { ContentId(w, OperationsImage(ops)) }

  function RequestOf(w: World, t: ContextTransaction): RequestFields {
    (t.base.value, (DigestOperations(w, t.operations), (t.handoffEvidenceRef, t.h2)))
  }

  function RequestImage(w: World, t: ContextTransaction): Bytes { RequestFormat().put(RequestOf(w, t), []) }

  function RequestDigest(w: World, t: ContextTransaction): Str { ContentId(w, RequestImage(w, t)) }

  /** Every length fits its 32-bit prefix and the image stays within the reach of the hash. */
  predicate Hashable(ops: seq<Operation>) { OperationsSized(ops) && |OperationsImage(ops)| <= HASHABLE }

  /** ... for the whole request. */
  predicate Encodable(w: World, t: ContextTransaction) {
    && Hashable(t.operations)
    && RequestFormat().within(MAX_U32, RequestOf(w, t)) && |RequestImage(w, t)| <= HASHABLE
  }

  lemma ContentIdInjective(w: World, x: Bytes, y: Bytes)
    requires CollisionFree(w) && |x| <= HASHABLE && |y| <= HASHABLE && ContentId(w, x) == ContentId(w, y)
    ensures x == y
  {
    assert ContentId(w, x)[6..] == w.content(x) && ContentId(w, y)[6..] == w.content(y);
    assert ContentSeparates(w, x, y);
  }

  lemma MintInjective(w: World, a: RevisionId, x: Bytes, b: RevisionId, y: Bytes)
    requires CollisionFree(w)
    ensures !Mint(w, a, x).IsEmpty()
    ensures Mint(w, a, x) == Mint(w, b, y) ==> a == b && x == y
  {
    var i, j := Mint(w, a, x).value, Mint(w, b, y).value;
    assert i[4..] == w.chain(a.value, x) && j[4..] == w.chain(b.value, y);
    assert ChainSeparates(w, a.value, x, b.value, y);
  }

  /** A review digest identifies one operation list. */
  lemma DigestBindsOperations(w: World, ops: seq<Operation>, other: seq<Operation>)
    requires CollisionFree(w) && Hashable(ops) && Hashable(other)
    ensures DigestOperations(w, ops) == DigestOperations(w, other) <==> ops == other
  {
    hide OperationFormat;
    if DigestOperations(w, ops) == DigestOperations(w, other) {
      ContentIdInjective(w, OperationsImage(ops), OperationsImage(other));
      OperationsImageInjective(ops, other);
    }
  }

  /** The same request, whatever its key. */
  predicate SameRequest(t: ContextTransaction, u: ContextTransaction) {
    t.base == u.base && t.operations == u.operations && t.handoffEvidenceRef == u.handoffEvidenceRef && t.h2 == u.h2
  }

  /** The request digest tells any two different requests apart. */
  lemma DigestBindsRequest(w: World, t: ContextTransaction, u: ContextTransaction)
    requires CollisionFree(w) && Encodable(w, t) && Encodable(w, u)
    ensures RequestDigest(w, t) == RequestDigest(w, u) <==> SameRequest(t, u)
  {
    hide OperationFormat, RequestFormat;
    if RequestDigest(w, t) == RequestDigest(w, u) {
      ContentIdInjective(w, RequestImage(w, t), RequestImage(w, u));
      FormatInjective(RequestFormat(), RequestOf(w, t), RequestOf(w, u));
      DigestBindsOperations(w, t.operations, u.operations);
    }
  }

  // ---- the assumption about the hashes can be met ----

  function Unary(n: nat): Bytes { if n == 0 then [0] else [1] + Unary(n - 1) }

  lemma {:induction false} UnaryInjective(m: nat, n: nat, x: Bytes, y: Bytes)
    requires Unary(m) + x == Unary(n) + y
    ensures m == n && x == y
  {
    assert (Unary(m) + x)[0] == Unary(m)[0] && (Unary(n) + y)[0] == Unary(n)[0];
    if m == 0 {
      assert (Unary(m) + x)[1..] == x && (Unary(n) + y)[1..] == y;
    } else {
      assert (Unary(m) + x)[1..] == Unary(m - 1) + x && (Unary(n) + y)[1..] == Unary(n - 1) + y;
      UnaryInjective(m - 1, n - 1, x, y);
    }
  }

  lemma CollisionFreeWorldExists(f: Layout, genesis: Snapshot)
    ensures exists w: World :: w.layout == f && w.genesis == genesis && CollisionFree(w)
  {
    var w := World((b: Bytes) => b, (base: Str, b: Bytes) => Unary(|base|) + (base + b), f, genesis);
    forall a: Str, x: Bytes, b: Str, y: Bytes ensures ChainSeparates(w, a, x, b, y) {
      if w.chain(a, x) == w.chain(b, y) {
        UnaryInjective(|a|, |b|, a + x, b + y);
        assert a == (a + x)[..|a|] && x == (a + x)[|a|..] && b == (b + y)[..|b|] && y == (b + y)[|b|..];
      }
    }
    assert CollisionFree(w);
  }
}
