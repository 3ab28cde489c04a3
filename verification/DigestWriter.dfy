/** The images behind the digests, written field by field into a byte buffer (digest_operations and
    request_digest_of in src/persistence.cpp). */
module DigestWriter {
  import opened Prelude
  import opened Wire
  import opened Cognition
  import opened SnapshotLayout
  import opened SnapshotWriter
  import opened Transactions

  method PutOperation(buffer: ByteBuffer, x: Operation)
    modifies buffer
    ensures Appended(old(buffer.bytes), buffer.bytes, OperationFormat(), x)
  {
    ghost var v0 := buffer.bytes;
    buffer.PutCode(x.kind.Code(), OperationKindFormat(), x.kind); ghost var v1 := buffer.bytes;
    buffer.PutI64(x.recordId); ghost var v2 := buffer.bytes;
    buffer.PutI64(x.successorRecordId); ghost var v3 := buffer.bytes;
    buffer.PutCode(x.aux, U8Format(), x.aux); ghost var v4 := buffer.bytes;
    buffer.PutStr(x.scope); ghost var v5 := buffer.bytes;
    buffer.PutStr(x.title); ghost var v6 := buffer.bytes;
    buffer.PutStr(x.payload); ghost var v7 := buffer.bytes;
    buffer.PutStr(x.provenanceRef);
    var s := StrFormat();
    AppendedPair(s, s, v6, v7, buffer.bytes, x.payload, x.provenanceRef);
    AppendedPair(s, Pair(s, s), v5, v6, buffer.bytes, x.title, (x.payload, x.provenanceRef));
    AppendedPair(s, Pair(s, Pair(s, s)), v4, v5, buffer.bytes, x.scope, (x.title, (x.payload, x.provenanceRef)));
    OperationAssembled(v0, v1, v2, v3, v4, buffer.bytes, x);
  }

  lemma OperationAssembled(v0: Bytes, v1: Bytes, v2: Bytes, v3: Bytes, v4: Bytes, v5: Bytes, x: Operation)
    requires Appended(v0, v1, OperationKindFormat(), x.kind) && Appended(v1, v2, I64Format(), x.recordId)
    requires Appended(v2, v3, I64Format(), x.successorRecordId) && Appended(v3, v4, U8Format(), x.aux)
    requires Appended(v4, v5, Pair(StrFormat(), Pair(StrFormat(), Pair(StrFormat(), StrFormat()))), (x.scope, (x.title,
      (x.payload, x.provenanceRef))))
    ensures Appended(v0, v5, OperationFormat(), x)
  {
    hide Appended;
    var texts := Pair(StrFormat(), Pair(StrFormat(), Pair(StrFormat(), StrFormat())));
    var t := (x.scope, (x.title, (x.payload, x.provenanceRef)));
    AppendedPair(U8Format(), texts, v3, v4, v5, x.aux, t);
    AppendedPair(I64Format(), Pair(U8Format(), texts), v2, v3, v5, x.successorRecordId, (x.aux, t));
    AppendedPair(I64Format(), Pair(I64Format(), Pair(U8Format(), texts)), v1, v2, v5, x.recordId, (x.successorRecordId,
        (x.aux, t)));
    AppendedPair(OperationKindFormat(), Pair(I64Format(), Pair(I64Format(), Pair(U8Format(), texts))), v0, v1, v5,
        x.kind,
      (x.recordId, (x.successorRecordId, (x.aux, t))));
    OperationFields(v0, v5, x);
  }

  lemma OperationFields(before: Bytes, after: Bytes, x: Operation)
    requires Appended(before, after, Pair(OperationKindFormat(), Pair(I64Format(), Pair(I64Format(), Pair(U8Format(),
      Pair(StrFormat(), Pair(StrFormat(), Pair(StrFormat(), StrFormat()))))))),
      (x.kind, (x.recordId, (x.successorRecordId, (x.aux, (x.scope, (x.title, (x.payload, x.provenanceRef))))))))
    ensures Appended(before, after, OperationFormat(), x)
  {
    hide OperationKindFormat, StrFormat, I64Format, U8Format;
  }

  /** The ordered operations, without framing. */
  method ImageOfOperations(ops: seq<Operation>) returns (bytes: Bytes)
    ensures bytes == OperationsImage(ops)
  {
    hide OperationFormat;
    var buffer := new ByteBuffer();
    assert ops[0..] == ops;
    var i := 0;
    while i < |ops|
      invariant i <= |ops|
      invariant OperationsImage(ops) == buffer.bytes + PutAll(OperationFormat().put, ops[i..], [])
    {
      ghost var before := buffer.bytes;
      assert ops[i..][0] == ops[i] && ops[i..][1..] == ops[i + 1..];
      PutOperation(buffer, ops[i]);
      assert buffer.bytes + PutAll(OperationFormat().put, ops[i + 1..], [])
        == before + OperationFormat().put(ops[i], PutAll(OperationFormat().put, ops[i + 1..], []));
      i := i + 1;
    }
    bytes := buffer.bytes;
    assert ops[i..] == [] && bytes + [] == bytes;
  }

  method PutEvidenceBinding(buffer: ByteBuffer, x: H2Evidence)
    modifies buffer
    ensures Appended(old(buffer.bytes), buffer.bytes, EvidenceBindingFormat(), x)
  {
    ghost var v0 := buffer.bytes;
    buffer.PutStr(x.reviewedDeltaDigest); ghost var v1 := buffer.bytes;
    buffer.PutStr(x.reviewer); ghost var v2 := buffer.bytes;
    buffer.PutStr(x.reviewerBinding); ghost var v3 := buffer.bytes;
    buffer.PutStr(x.reviewRef);
    var s := StrFormat();
    AppendedPair(s, s, v2, v3, buffer.bytes, x.reviewerBinding, x.reviewRef);
    AppendedPair(s, Pair(s, s), v1, v2, buffer.bytes, x.reviewer, (x.reviewerBinding, x.reviewRef));
    AppendedPair(s, Pair(s, Pair(s, s)), v0, v1, buffer.bytes, x.reviewedDeltaDigest, (x.reviewer, (x.reviewerBinding,
        x.reviewRef)));
  }

  method PutEvidence(buffer: ByteBuffer, x: Option<H2Evidence>)
    modifies buffer
    ensures Appended(old(buffer.bytes), buffer.bytes, OptionFormat(EvidenceBindingFormat()), x)
  {
    hide EvidenceBindingFormat;
    buffer.PutFlag(x.Some?);
    if x.Some? {
      PutEvidenceBinding(buffer, x.value);
    }
  }

  /** The complete request. */
  method ImageOfRequest(w: World, t: ContextTransaction) returns (bytes: Bytes)
    ensures bytes == RequestImage(w, t)
  {
    hide EvidenceBindingFormat, OperationFormat, StrFormat, OptionFormat, Appended, RequestFormat;
    var operations := ImageOfOperations(t.operations);
    var digest := ContentId(w, operations);
    var buffer := new ByteBuffer();
    ghost var v0 := buffer.bytes;
    buffer.PutStr(t.base.value); ghost var v1 := buffer.bytes;
    buffer.PutStr(digest); ghost var v2 := buffer.bytes;
    buffer.PutStr(t.handoffEvidenceRef); ghost var v3 := buffer.bytes;
    PutEvidence(buffer, t.h2);
    bytes := buffer.bytes;
    RequestAssembled(v0, v1, v2, v3, bytes, t.base.value, digest, t.handoffEvidenceRef, t.h2);
    AppendedToNothing(bytes, RequestFormat(), (t.base.value, (digest, (t.handoffEvidenceRef, t.h2))));
  }

  lemma AppendedToNothing<T(!new)>(bytes: Bytes, f: LawfulFormat<T>, x: T)
    requires Appended([], bytes, f, x)
    ensures bytes == f.put(x, [])
  {
    var none: Bytes := [];
    var image := f.put(x, none);
    assert bytes + none == none + image;
    assert bytes + none == bytes && none + image == image;
  }

  lemma RequestAssembled(v0: Bytes, v1: Bytes, v2: Bytes, v3: Bytes, v4: Bytes, base: Str, digest: Str, ref: Str,
      h2: Option<H2Evidence>)
    requires Appended(v0, v1, StrFormat(), base) && Appended(v1, v2, StrFormat(), digest) && Appended(v2, v3,
      StrFormat(), ref)
    requires Appended(v3, v4, OptionFormat(EvidenceBindingFormat()), h2)
    ensures Appended(v0, v4, RequestFormat(), (base, (digest, (ref, h2))))
  {
    hide Appended, EvidenceBindingFormat, OptionFormat;
    var s, o := StrFormat(), OptionFormat(EvidenceBindingFormat());
    AppendedPair(s, o, v2, v3, v4, ref, h2);
    AppendedPair(s, Pair(s, o), v1, v2, v4, digest, (ref, h2));
    AppendedPair(s, Pair(s, Pair(s, o)), v0, v1, v4, base, (digest, (ref, h2)));
  }
}
