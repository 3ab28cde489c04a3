/** What the snapshot codec guarantees over whole inputs. */
module SnapshotCodecLaws {
  import opened Prelude
  import opened Wire
  import opened Cognition
  import opened SnapshotLayout

  function Serialize(f: Layout, s: Snapshot): Bytes { Encode(f, s) }

  function Deserialize(f: Layout, b: Bytes): Result<Snapshot, ErrorKind> { Decode(f, MAX_RECORDS, false, b) }

  /** Every string and every list is addressable by the 32-bit lengths of the format. */
  predicate Sized(f: Layout, s: Snapshot) { f.within(MAX_U32, Canon(s)) }

  /** ... and no list is longer than the reader accepts. */
  predicate WithinLimits(f: Layout, s: Snapshot) { f.within(MAX_RECORDS, Canon(s)) }

  /** A snapshot and its canonical form have the same image: the format cannot tell them apart. */
  lemma SerializeCanon(f: Layout, s: Snapshot)
    ensures Serialize(f, Canon(s)) == Serialize(f, s)
  {
  }

  /** Restoring an image gives back the canonical snapshot; a snapshot over the record cap is refused as such. */
  lemma RestoreOutcome(f: Layout, s: Snapshot)
    requires Sized(f, s)
    ensures Deserialize(f, Serialize(f, s)) == if WithinLimits(f, s) then Success(Canon(s)) else Failure(ResourceAbuse)
  {
    SerializeCanon(f, s);
    DecodeEncode(f, MAX_RECORDS, false, Canon(s));
  }

  /** Two snapshots with one image are the same up to the fields the format drops. */
  lemma SerializeInjective(f: Layout, s: Snapshot, t: Snapshot)
    requires Sized(f, s) && Sized(f, t) && Serialize(f, s) == Serialize(f, t)
    ensures Canon(s) == Canon(t)
  {
    SerializeCanon(f, s);
    SerializeCanon(f, t);
    DecodeEncode(f, MAX_U32, false, Canon(s));
    DecodeEncode(f, MAX_U32, false, Canon(t));
  }

  /** The promise "restore gives the snapshot back" holds for exactly the snapshots within the limits of the reader. */
  lemma RoundTripExactlyWithinLimits(f: Layout, s: Snapshot)
    ensures Deserialize(f, Serialize(f, s)) == Success(Canon(s)) <==> WithinLimits(f, s)
  {
    SerializeCanon(f, s);
    if WithinLimits(f, s) {
      assert Sized(f, s);
      DecodeEncode(f, MAX_RECORDS, false, Canon(s));
    } else if Deserialize(f, Serialize(f, s)) == Success(Canon(s)) {
      DecodedWithin(f, MAX_RECORDS, false, Serialize(f, s));
    }
  }

  /** No accepted input, of any supported version, is a proper prefix of another: cutting it anywhere and
      appending anything are both refused as truncation. */
  lemma AcceptedInputsArePrefixFree(f: Layout, b: Bytes, k: nat, e: Bytes)
    requires Deserialize(f, b).Success?
    ensures k < |b| ==> Deserialize(f, b[..k]) == Failure(Truncated)
    ensures e != [] ==> Deserialize(f, b + e) == Failure(Truncated)
  {
    if k < |b| {
      DecodeCut(f, MAX_RECORDS, false, b, k);
    }
    if e != [] {
      DecodeExtended(f, MAX_RECORDS, false, b, e);
    }
  }

  /** A definite refusal (version, enumeration or resource) stands whatever follows the input. */
  lemma DefiniteRefusalsStand(f: Layout, b: Bytes, e: Bytes)
    requires Deserialize(f, b).Failure? && Deserialize(f, b).error != Truncated
    ensures Deserialize(f, b + e) == Deserialize(f, b)
  {
    if e == [] {
      assert b + e == b;
    } else {
      DecodeExtended(f, MAX_RECORDS, false, b, e);
    }
  }

  /** Whatever is restored, from any supported version, is canonical and within limits, and re-encoding it
      restores to the same snapshot. */
  lemma ReencodingIsStable(f: Layout, b: Bytes)
    requires Deserialize(f, b).Success?
    ensures Canon(Deserialize(f, b).value) == Deserialize(f, b).value && WithinLimits(f, Deserialize(f, b).value)
    ensures Deserialize(f, Serialize(f, Deserialize(f, b).value)) == Deserialize(f, b)
  {
    DecodedWithin(f, MAX_RECORDS, false, b);
    RoundTripExactlyWithinLimits(f, Deserialize(f, b).value);
  }

  /** Re-encoding reproduces an accepted input byte for byte exactly when it is of the current version and
      every flag byte in it is 0 or 1, that is, when a reader strict about flags accepts it too. */
  lemma ReencodingIsExact(f: Layout, b: Bytes)
    requires Deserialize(f, b).Success?
    ensures Serialize(f, Deserialize(f, b).value) == b <==>
      b[0] == CURRENT_VERSION && Decode(f, MAX_RECORDS, true, b).Success?
  {
    var s := Deserialize(f, b).value;
    ReencodingIsStable(f, b);
    if Serialize(f, s) == b {
      DecodeEncode(f, MAX_RECORDS, true, s);
    }
    if b[0] == CURRENT_VERSION && Decode(f, MAX_RECORDS, true, b).Success? {
      DecodedWithin(f, MAX_RECORDS, true, b);
      DecodeEncode(f, MAX_RECORDS, false, Decode(f, MAX_RECORDS, true, b).value);
    }
  }
}
