/** The bytes of a snapshot in each supported version, written out field by field, and what the reader makes of them
    (serializeImpl and deserializeImpl in src/persistence.cpp; versions 6 and 7 as the reader describes them). */
module WireImages {
  import opened Prelude
  import opened Wire
  import opened Cognition
  import opened SnapshotLayout
  import opened SnapshotCodecLaws
  import opened Limits

  // ---- primitive images ----

  /** Four bytes, least significant first. */
  function U32Image(n: nat): Bytes { [n % 256, n / 256 % 256, n / 65536 % 256, n / 16777216 % 256] }

  /** Eight bytes, least significant first, negative numbers counted down from 2^64. */
  function I64Image(n: i64): Bytes {
    var bits: nat := if n < 0 then n + 0x1_0000_0000_0000_0000 else n;
    U32Image(bits) + U32Image(bits / 0x1_0000_0000)
  }

  function StrImage(s: Str): Bytes { U32Image(|s|) + s }
  function FlagImage(v: bool): Bytes { if v then [1] else [0] }

  function EachImage<T>(image: T -> Bytes, xs: seq<T>): Bytes {
    if xs == [] then [] else image(xs[0]) + EachImage(image, xs[1..])
  }

  /** The number of records, then one after the other. */
  function ListImage<T>(image: T -> Bytes, xs: seq<T>): Bytes { U32Image(|xs|) + EachImage(image, xs) }

  // ---- what a reader makes of an image ----

  /** In mode `m`, the bytes `i` are read as `x`, or refused when `x` is over the cap. */
  ghost predicate Reads<T(!new)>(f: Format<T>, m: Mode, i: Bytes, x: T) {
    forall r: Bytes :: f.get(m, i + r) == if f.within(m.cap, x) then Ok(x, r) else Err(ResourceAbuse)
  }

  lemma PairReads<A(!new), B(!new)>(f: LawfulFormat<A>, g: LawfulFormat<B>, m: Mode, i: Bytes, j: Bytes, x: A, y: B)
    requires Reads(f, m, i, x) && Reads(g, m, j, y)
    ensures Reads(Pair(f, g), m, i + j, (x, y))
  {
    forall r: Bytes
      ensures Pair(f, g).get(m, i + j + r) ==
        if f.within(m.cap, x) && g.within(m.cap, y) then Ok((x, y), r) else Err(ResourceAbuse)
    {
      assert i + j + r == i + (j + r);
      assert f.get(m, i + (j + r)) == if f.within(m.cap, x) then Ok(x, j + r) else Err(ResourceAbuse);
    }
  }

  lemma LEBytes(n: nat, rest: Bytes)
    ensures PutU32(n, rest) == U32Image(n) + rest
  {
    assert n / 256 / 256 == n / 65536 && n / 256 / 256 / 256 == n / 16777216;
    assert PutLE(4, n, rest) == [n % 256] + ([n / 256 % 256] + ([n / 65536 % 256] + ([n / 16777216 % 256] + rest))) by {
      assert PutLE(1, n / 16777216, rest) == [n / 16777216 % 256] + PutLE(0, n / 16777216 / 256, rest);
      assert PutLE(2, n / 65536, rest) == [n / 65536 % 256] + PutLE(1, n / 16777216, rest);
      assert PutLE(3, n / 256, rest) == [n / 256 % 256] + PutLE(2, n / 65536, rest);
    }
  }

  lemma I64Bytes(n: i64, rest: Bytes)
    ensures PutI64(n, rest) == I64Image(n) + rest
  {
    var bits := Bits(n);
    LEBytes(bits, PutLE(4, bits / 0x1_0000_0000, rest));
    LEBytes(bits / 0x1_0000_0000, rest);
    LESplit(bits, rest);
  }

  lemma LESplit(n: nat, rest: Bytes)
    ensures PutLE(8, n, rest) == PutLE(4, n, PutLE(4, n / 0x1_0000_0000, rest))
  {
    var a, b, c, d := n / 256, n / 65536, n / 16777216, n / 0x1_0000_0000;
    assert a / 256 == b && b / 256 == c && c / 256 == d;
    assert PutLE(8, n, rest) == [n % 256] + PutLE(7, a, rest);
    assert PutLE(7, a, rest) == [a % 256] + PutLE(6, b, rest);
    assert PutLE(6, b, rest) == [b % 256] + PutLE(5, c, rest);
    assert PutLE(5, c, rest) == [c % 256] + PutLE(4, d, rest);
    var tail := PutLE(4, d, rest);
    assert PutLE(1, c, tail) == [c % 256] + PutLE(0, d, tail);
    assert PutLE(2, b, tail) == [b % 256] + PutLE(1, c, tail);
    assert PutLE(3, a, tail) == [a % 256] + PutLE(2, b, tail);
    assert PutLE(4, n, tail) == [n % 256] + PutLE(3, a, tail);
  }

  lemma U32Reads(m: Mode, n: nat, r: Bytes)
    requires n <= MAX_U32
    ensures GetU32(m, U32Image(n) + r) == Ok(n, r)
  {
    LEBytes(n, r);
    U32RoundTrip(m, n, r);
  }

  lemma I64Reads(m: Mode, n: i64)
    ensures Reads(I64Format(), m, I64Image(n), n)
  {
    forall r: Bytes ensures I64Format().get(m, I64Image(n) + r) == Ok(n, r) {
      I64Bytes(n, r);
      Pow256Values();
      LERoundTrip(8, Bits(n), r);
    }
  }

  lemma StrReads(m: Mode, s: Str)
    requires Short(s)
    ensures Reads(StrFormat(), m, StrImage(s), s)
  {
    forall r: Bytes ensures StrFormat().get(m, StrImage(s) + r) == Ok(s, r) {
      LEBytes(|s|, s + r);
      StrRoundTrip(m, s, r);
      assert StrImage(s) + r == U32Image(|s|) + (s + r);
    }
  }

  lemma FlagReads(m: Mode, v: bool)
    ensures Reads(FlagFormat(), m, FlagImage(v), v)
  {
  }

  lemma EnumReads<T(!new)>(table: seq<T>, code: T -> byte, m: Mode, x: T)
    requires Coded(table, code)
    ensures Reads(EnumFormat(table, code), m, [code(x)], x)
  {
  }

  /** A field that the version at hand does not carry takes no bytes and reads as its default. */
  lemma SinceReads<A(!new)>(since: nat, f: LawfulFormat<A>, default: A, m: Mode, i: Bytes, x: A)
    requires since <= 8 && forall cap: nat :: f.within(cap, default)
    requires if m.version >= since then Reads(f, m, i, x) else i == [] && x == default
    ensures Reads(Since(since, f, default), m, i, x)
  {
    var g := Since(since, f, default);
    forall r: Bytes ensures g.get(m, i + r) == if g.within(m.cap, x) then Ok(x, r) else Err(ResourceAbuse) {
      if m.version < since {
        assert i + r == r;
      }
    }
  }

  /** The records written are `xs`, the records read `ys`. */
  ghost predicate EachReads<T(!new)>(f: Format<T>, m: Mode, image: T -> Bytes, xs: seq<T>, ys: seq<T>) {
    |xs| == |ys| && forall i :: 0 <= i < |xs| ==> Reads(f, m, image(xs[i]), ys[i])
  }

  lemma FirstWithin<T>(within: (nat, T) -> bool, cap: nat, ys: seq<T>)
    requires ys != []
    ensures AllWithin(within, cap, ys) <==> within(cap, ys[0]) && AllWithin(within, cap, ys[1..])
  {
    assert forall i :: 1 <= i < |ys| ==> ys[i] == ys[1..][i - 1];
  }

  lemma AllReadStep<T(!new)>(f: LawfulFormat<T>, m: Mode, first: Bytes, rest: Bytes, n: nat, ys: seq<T>, r: Bytes)
    requires ys != [] && Reads(f, m, first, ys[0])
    requires GetAll(m, f.get, n, rest) ==
      if AllWithin(f.within, m.cap, ys[1..]) then Ok(ys[1..], r) else Err(ResourceAbuse)
    ensures GetAll(m, f.get, n + 1, first + rest) ==
      if AllWithin(f.within, m.cap, ys) then Ok(ys, r) else Err(ResourceAbuse)
  {
    hide RoundTrips, Decodes, Streams, Monotone, AllWithin;
    FirstWithin(f.within, m.cap, ys);
    assert f.get(m, first + rest) == if f.within(m.cap, ys[0]) then Ok(ys[0], rest) else Err(ResourceAbuse);
    assert ys == [ys[0]] + ys[1..];
  }

  lemma RestRead<T(!new)>(f: LawfulFormat<T>, m: Mode, image: T -> Bytes, xs: seq<T>, ys: seq<T>)
    requires EachReads(f, m, image, xs, ys) && xs != []
    ensures ys != [] && Reads(f, m, image(xs[0]), ys[0]) && EachReads(f, m, image, xs[1..], ys[1..])
  {
    hide Reads, RoundTrips, Decodes, Streams, Monotone;
    forall i | 0 <= i < |xs| - 1 ensures Reads(f, m, image(xs[1..][i]), ys[1..][i]) {
      assert Reads(f, m, image(xs[i + 1]), ys[i + 1]);
    }
  }

  lemma NoneRead<T(!new)>(f: LawfulFormat<T>, m: Mode, image: T -> Bytes, r: Bytes)
    ensures GetAll(m, f.get, 0, EachImage(image, []) + r) == Ok([], r) && AllWithin(f.within, m.cap, [])
  {
    hide RoundTrips, Decodes, Streams, Monotone;
    assert EachImage(image, []) + r == r;
  }

  lemma EachImageFirst<T>(image: T -> Bytes, xs: seq<T>, r: Bytes)
    requires xs != []
    ensures EachImage(image, xs) + r == image(xs[0]) + (EachImage(image, xs[1..]) + r)
  {
  }

  lemma {:induction false} AllRead<T(!new)>(f: LawfulFormat<T>, m: Mode, image: T -> Bytes, xs: seq<T>, ys: seq<T>,
      r: Bytes)
    requires EachReads(f, m, image, xs, ys)
    ensures GetAll(m, f.get, |xs|, EachImage(image, xs) + r) ==
      if AllWithin(f.within, m.cap, ys) then Ok(ys, r) else Err(ResourceAbuse)
  {
    hide Reads, RoundTrips, Decodes, Streams, Monotone, AllWithin, GetAll, EachImage;
    if xs == [] {
      NoneRead(f, m, image, r);
    } else {
      RestRead(f, m, image, xs, ys);
      AllRead(f, m, image, xs[1..], ys[1..], r);
      AllReadStep(f, m, image(xs[0]), EachImage(image, xs[1..]) + r, |xs| - 1, ys, r);
      EachImageFirst(image, xs, r);
    }
  }

  lemma ListReads<T(!new)>(f: LawfulFormat<T>, m: Mode, image: T -> Bytes, xs: seq<T>, ys: seq<T>)
    requires |xs| <= MAX_U32 && EachReads(f, m, image, xs, ys)
    ensures Reads(ListFormat(f), m, ListImage(image, xs), ys)
  {
    forall r: Bytes
      ensures ListFormat(f).get(m, ListImage(image, xs) + r) ==
        if ListFormat(f).within(m.cap, ys) then Ok(ys, r) else Err(ResourceAbuse)
    {
      var rest := EachImage(image, xs) + r;
      assert ListImage(image, xs) + r == U32Image(|xs|) + rest;
      U32Reads(m, |xs|, rest);
      AllRead(f, m, image, xs, ys, r);
    }
  }

  // ---- several fields in a row ----

  lemma Reads3<A(!new), B(!new), C(!new)>(f0: LawfulFormat<A>, f1: LawfulFormat<B>, f2: LawfulFormat<C>, m: Mode,
      i0: Bytes, i1: Bytes, i2: Bytes, x0: A, x1: B, x2: C)
    requires Reads(f0, m, i0, x0) && Reads(f1, m, i1, x1) && Reads(f2, m, i2, x2)
    ensures Reads(Pair(f0, Pair(f1, f2)), m, i0 + (i1 + i2), (x0, (x1, x2)))
  {
    hide Reads, RoundTrips, Decodes, Streams, Monotone;
    PairReads(f1, f2, m, i1, i2, x1, x2);
    PairReads(f0, Pair(f1, f2), m, i0, i1 + i2, x0, (x1, x2));
  }

  lemma Reads4<A(!new), B(!new), C(!new), D(!new)>(f0: LawfulFormat<A>, f1: LawfulFormat<B>, f2: LawfulFormat<C>,
      f3: LawfulFormat<D>, m: Mode, i0: Bytes, i1: Bytes, i2: Bytes, i3: Bytes, x0: A, x1: B, x2: C, x3: D)
    requires Reads(f0, m, i0, x0) && Reads(f1, m, i1, x1) && Reads(f2, m, i2, x2) && Reads(f3, m, i3, x3)
    ensures Reads(Pair(f0, Pair(f1, Pair(f2, f3))), m, i0 + (i1 + (i2 + i3)), (x0, (x1, (x2, x3))))
  {
    hide Reads, RoundTrips, Decodes, Streams, Monotone;
    Reads3(f1, f2, f3, m, i1, i2, i3, x1, x2, x3);
    PairReads(f0, Pair(f1, Pair(f2, f3)), m, i0, i1 + (i2 + i3), x0, (x1, (x2, x3)));
  }

  lemma Reads5<A(!new), B(!new), C(!new), D(!new), E(!new)>(f0: LawfulFormat<A>, f1: LawfulFormat<B>,
      f2: LawfulFormat<C>, f3: LawfulFormat<D>, f4: LawfulFormat<E>, m: Mode, i0: Bytes, i1: Bytes, i2: Bytes,
      i3: Bytes, i4: Bytes, x0: A, x1: B, x2: C, x3: D, x4: E)
    requires Reads(f0, m, i0, x0) && Reads(f1, m, i1, x1) && Reads(f2, m, i2, x2) && Reads(f3, m, i3, x3) && Reads(f4,
      m, i4, x4)
    ensures Reads(Pair(f0, Pair(f1, Pair(f2, Pair(f3, f4)))), m, i0 + (i1 + (i2 + (i3 + i4))), (x0, (x1, (x2, (x3,
      x4)))))
  {
    hide Reads, RoundTrips, Decodes, Streams, Monotone;
    Reads4(f1, f2, f3, f4, m, i1, i2, i3, i4, x1, x2, x3, x4);
    PairReads(f0, Pair(f1, Pair(f2, Pair(f3, f4))), m, i0, i1 + (i2 + (i3 + i4)), x0, (x1, (x2, (x3, x4))));
  }

  lemma Reads6<A(!new), B(!new), C(!new), D(!new), E(!new), F(!new)>(f0: LawfulFormat<A>, f1: LawfulFormat<B>,
      f2: LawfulFormat<C>, f3: LawfulFormat<D>, f4: LawfulFormat<E>, f5: LawfulFormat<F>, m: Mode, i0: Bytes,
      i1: Bytes, i2: Bytes, i3: Bytes, i4: Bytes, i5: Bytes, x0: A, x1: B, x2: C, x3: D, x4: E, x5: F)
    requires Reads(f0, m, i0, x0) && Reads(f1, m, i1, x1) && Reads(f2, m, i2, x2) && Reads(f3, m, i3, x3) && Reads(f4,
      m, i4, x4) && Reads(f5, m, i5, x5)
    ensures Reads(Pair(f0, Pair(f1, Pair(f2, Pair(f3, Pair(f4, f5))))), m, i0 + (i1 + (i2 + (i3 + (i4 + i5)))), (x0,
      (x1, (x2, (x3, (x4, x5))))))
  {
    hide Reads, RoundTrips, Decodes, Streams, Monotone;
    Reads5(f1, f2, f3, f4, f5, m, i1, i2, i3, i4, i5, x1, x2, x3, x4, x5);
    PairReads(f0, Pair(f1, Pair(f2, Pair(f3, Pair(f4, f5)))), m, i0, i1 + (i2 + (i3 + (i4 + i5))), x0, (x1, (x2, (x3,
        (x4, x5)))));
  }

  lemma Reads7<A(!new), B(!new), C(!new), D(!new), E(!new), F(!new), G(!new)>(f0: LawfulFormat<A>, f1: LawfulFormat<B>,
      f2: LawfulFormat<C>, f3: LawfulFormat<D>, f4: LawfulFormat<E>, f5: LawfulFormat<F>, f6: LawfulFormat<G>, m: Mode,
      i0: Bytes, i1: Bytes, i2: Bytes, i3: Bytes, i4: Bytes, i5: Bytes, i6: Bytes, x0: A, x1: B, x2: C, x3: D, x4: E,
      x5: F, x6: G)
    requires Reads(f0, m, i0, x0) && Reads(f1, m, i1, x1) && Reads(f2, m, i2, x2) && Reads(f3, m, i3, x3) && Reads(f4,
      m, i4, x4) && Reads(f5, m, i5, x5) && Reads(f6, m, i6, x6)
    ensures Reads(Pair(f0, Pair(f1, Pair(f2, Pair(f3, Pair(f4, Pair(f5, f6)))))), m,
      i0 + (i1 + (i2 + (i3 + (i4 + (i5 + i6))))), (x0, (x1, (x2, (x3, (x4, (x5, x6)))))))
  {
    hide Reads, RoundTrips, Decodes, Streams, Monotone;
    Reads6(f1, f2, f3, f4, f5, f6, m, i1, i2, i3, i4, i5, i6, x1, x2, x3, x4, x5, x6);
    PairReads(f0, Pair(f1, Pair(f2, Pair(f3, Pair(f4, Pair(f5, f6))))), m, i0, i1 + (i2 + (i3 + (i4 + (i5 + i6)))), x0,
        (x1, (x2, (x3, (x4, (x5, x6))))));
  }

  // ---- enumerations ----

  lemma SourceKindReads(m: Mode, x: SourceKind)
    ensures Reads(SourceKindFormat(), m, [x.Code()], x)
  {
    EnumReads(SOURCE_KINDS, (e: SourceKind) => e.Code(), m, x);
  }

  lemma OperationClassReads(m: Mode, x: OperationClass)
    ensures Reads(OperationClassFormat(), m, [x.Code()], x)
  {
    EnumReads(OPERATION_CLASSES, (e: OperationClass) => e.Code(), m, x);
  }

  lemma HandoffReads(m: Mode, x: Handoff)
    ensures Reads(HandoffFormat(), m, [x.Code()], x)
  {
    EnumReads(HANDOFFS, (e: Handoff) => e.Code(), m, x);
  }

  lemma RefusalReasonReads(m: Mode, x: RefusalReason)
    ensures Reads(RefusalReasonFormat(), m, [x.Code()], x)
  {
    RefusalReasonTable();
    EnumReads(REFUSAL_REASONS, (e: RefusalReason) => e.Code(), m, x);
  }

  lemma RecoveryActionReads(m: Mode, x: RecoveryAction)
    ensures Reads(RecoveryActionFormat(), m, [x.Code()], x)
  {
    EnumReads(RECOVERY_ACTIONS, (e: RecoveryAction) => e.Code(), m, x);
  }

  lemma LifecycleReads(m: Mode, x: Lifecycle)
    ensures Reads(LifecycleFormat(), m, [x.Code()], x)
  {
    EnumReads(LIFECYCLES, (e: Lifecycle) => e.Code(), m, x);
  }

  lemma MemoryKindReads(m: Mode, x: MemoryKind)
    ensures Reads(MemoryKindFormat(), m, [x.Code()], x)
  {
    EnumReads(MEMORY_KINDS, (e: MemoryKind) => e.Code(), m, x);
  }

  lemma MemoryStatusReads(m: Mode, x: MemoryStatus)
    ensures Reads(MemoryStatusFormat(), m, [x.Code()], x)
  {
    EnumReads(MEMORY_STATUSES, (e: MemoryStatus) => e.Code(), m, x);
  }

  lemma ObligationStatusReads(m: Mode, x: ObligationStatus)
    ensures Reads(ObligationStatusFormat(), m, [x.Code()], x)
  {
    EnumReads(OBLIGATION_STATUSES, (e: ObligationStatus) => e.Code(), m, x);
  }

  lemma TriggerKindReads(m: Mode, x: TriggerKind)
    ensures Reads(TriggerKindFormat(), m, [x.Code()], x)
  {
    EnumReads(TRIGGER_KINDS, (e: TriggerKind) => e.Code(), m, x);
  }

  lemma ConflictStatusReads(m: Mode, x: ConflictStatus)
    ensures Reads(ConflictStatusFormat(), m, [x.Code()], x)
  {
    EnumReads(CONFLICT_STATUSES, (e: ConflictStatus) => e.Code(), m, x);
  }

  lemma WorkflowLayerReads(m: Mode, x: WorkflowLayer)
    ensures Reads(WorkflowLayerFormat(), m, [x.Code()], x)
  {
    EnumReads(WORKFLOW_LAYERS, (e: WorkflowLayer) => e.Code(), m, x);
  }

  lemma CapabilityClassReads(m: Mode, x: CapabilityClass)
    ensures Reads(CapabilityClassFormat(), m, [x.Code()], x)
  {
    EnumReads(CAPABILITY_CLASSES, (e: CapabilityClass) => e.Code(), m, x);
  }

  lemma RoleReads(m: Mode, x: Role)
    ensures Reads(RoleFormat(), m, [x.Code()], x)
  {
    EnumReads(ROLES, (e: Role) => e.Code(), m, x);
  }

  lemma ActionKindReads(m: Mode, x: ActionKind)
    ensures Reads(ActionKindFormat(), m, [x.Code()], x)
  {
    ActionKindTable();
    EnumReads(ACTION_KINDS, (e: ActionKind) => e.Code(), m, x);
  }

  lemma RequirementKindReads(m: Mode, x: RequirementKind)
    ensures Reads(RequirementKindFormat(), m, [x.Code()], x)
  {
    RequirementKindTable();
    EnumReads(REQUIREMENT_KINDS, (e: RequirementKind) => e.Code(), m, x);
  }

  lemma RequirementBoundaryReads(m: Mode, x: RequirementBoundary)
    ensures Reads(RequirementBoundaryFormat(), m, [x.Code()], x)
  {
    EnumReads(REQUIREMENT_BOUNDARIES, (e: RequirementBoundary) => e.Code(), m, x);
  }

  lemma ClaimClassReads(m: Mode, x: ClaimClass)
    ensures Reads(ClaimClassFormat(), m, [x.Code()], x)
  {
    EnumReads(CLAIM_CLASSES, (e: ClaimClass) => e.Code(), m, x);
  }

  // ---- records ----

  function SourceImage(x: Source): Bytes { [x.kind.Code()] + (StrImage(x.reference) + StrImage(x.note)) }

  lemma SourceReads(m: Mode, x: Source)
    requires SourceBounded(x)
    ensures Reads(SourceFormat(), m, SourceImage(x), x)
  {
    hide RoundTrips, Decodes, Streams, Monotone, StrImage, I64Image, ListImage, EnumFormat;
    SourceKindReads(m, x.kind);
    StrReads(m, x.reference);
    StrReads(m, x.note);
    Reads3(SourceKindFormat(), StrFormat(), StrFormat(), m, [x.kind.Code()], StrImage(x.reference), StrImage(x.note),
        x.kind, x.reference, x.note);
  }

  lemma StringsRead(m: Mode, xs: seq<Str>)
    requires Strings(MAX_U32, xs)
    ensures Reads(ListFormat(StrFormat()), m, ListImage((s: Str) => StrImage(s), xs), xs)
  {
    hide RoundTrips, Decodes, Streams, Monotone, Reads, ListFormat;
    forall i | 0 <= i < |xs| ensures Reads(StrFormat(), m, ((s: Str) => StrImage(s))(xs[i]), xs[i]) {
      StrReads(m, xs[i]);
    }
    ListReads(StrFormat(), m, (s: Str) => StrImage(s), xs, xs);
  }

  lemma IdsRead(m: Mode, xs: seq<i64>)
    requires |xs| <= MAX_U32
    ensures Reads(ListFormat(I64Format()), m, ListImage((n: i64) => I64Image(n), xs), xs)
  {
    hide RoundTrips, Decodes, Streams, Monotone, Reads, ListFormat;
    forall i | 0 <= i < |xs| ensures Reads(I64Format(), m, ((n: i64) => I64Image(n))(xs[i]), xs[i]) {
      I64Reads(m, xs[i]);
    }
    ListReads(I64Format(), m, (n: i64) => I64Image(n), xs, xs);
  }

  lemma SourcesRead(m: Mode, xs: seq<Source>)
    requires Sources(MAX_U32, xs)
    ensures Reads(ListFormat(SourceFormat()), m, ListImage((x: Source) => SourceImage(x), xs), xs)
  {
    hide RoundTrips, Decodes, Streams, Monotone, Reads, ListFormat;
    forall i | 0 <= i < |xs| ensures Reads(SourceFormat(), m, ((x: Source) => SourceImage(x))(xs[i]), xs[i]) {
      SourceReads(m, xs[i]);
    }
    ListReads(SourceFormat(), m, (x: Source) => SourceImage(x), xs, xs);
  }

  function HandoffRowImage(x: HandoffPolicy): Bytes {
    [x.opClass.Code()] + ([x.required.Code()] + FlagImage(x.rootPrincipalOnly))
  }

  lemma HandoffRowReads(m: Mode, x: HandoffPolicy)
    ensures Reads(HandoffRowFormat(), m, HandoffRowImage(x), x)
  {
    hide RoundTrips, Decodes, Streams, Monotone, StrImage, I64Image, ListImage, EnumFormat;
    OperationClassReads(m, x.opClass);
    HandoffReads(m, x.required);
    FlagReads(m, x.rootPrincipalOnly);
    Reads3(OperationClassFormat(), HandoffFormat(), FlagFormat(), m, [x.opClass.Code()], [x.required.Code()],
        FlagImage(x.rootPrincipalOnly), x.opClass, x.required, x.rootPrincipalOnly);
  }

  function RecoveryRowImage(x: RecoveryRule): Bytes { [x.reason.Code()] + [x.action.Code()] }

  lemma RecoveryRowReads(m: Mode, x: RecoveryRule)
    ensures Reads(RecoveryRowFormat(), m, RecoveryRowImage(x), x)
  {
    hide RoundTrips, Decodes, Streams, Monotone, StrImage, I64Image, ListImage, EnumFormat;
    RefusalReasonReads(m, x.reason);
    RecoveryActionReads(m, x.action);
    PairReads(RefusalReasonFormat(), RecoveryActionFormat(), m, [x.reason.Code()], [x.action.Code()], x.reason,
        x.action);
  }

  function StateImage(x: StateView): Bytes {
    StrImage(x.objective) + (StrImage(x.current) + (StrImage(x.checkpointRef) + (StrImage(x.candidateRef)
      + (StrImage(x.nextBoundaryRef) + (StrImage(x.repositories) + StrImage(x.roadmap))))))
  }

  lemma StateReads(m: Mode, x: StateView)
    requires StateBounded(x)
    ensures Reads(StateFormat(), m, StateImage(x), x)
  {
    hide RoundTrips, Decodes, Streams, Monotone, StrImage, I64Image, ListImage, EnumFormat;
    StrReads(m, x.objective);
    StrReads(m, x.current);
    StrReads(m, x.checkpointRef);
    StrReads(m, x.candidateRef);
    StrReads(m, x.nextBoundaryRef);
    StrReads(m, x.repositories);
    StrReads(m, x.roadmap);
    Reads7(StrFormat(), StrFormat(), StrFormat(), StrFormat(), StrFormat(), StrFormat(), StrFormat(), m,
        StrImage(x.objective), StrImage(x.current), StrImage(x.checkpointRef), StrImage(x.candidateRef),
        StrImage(x.nextBoundaryRef), StrImage(x.repositories), StrImage(x.roadmap), x.objective, x.current,
        x.checkpointRef, x.candidateRef, x.nextBoundaryRef, x.repositories, x.roadmap);
  }

  function DecisionImage(x: Decision): Bytes {
    I64Image(x.id) + ([x.status.Code()] + (StrImage(x.title) + (StrImage(x.content)
      + (ListImage((n: i64) => I64Image(n), x.supersedes)
      + (ListImage((n: i64) => I64Image(n), x.supersededBy) + ListImage((x: Source) => SourceImage(x), x.provenance))))))
  }

  lemma DecisionReads(m: Mode, x: Decision)
    requires DecisionBounded(MAX_U32, x)
    ensures Reads(DecisionFormat(), m, DecisionImage(x), x)
  {
    hide RoundTrips, Decodes, Streams, Monotone, StrImage, I64Image, ListImage, EnumFormat;
    I64Reads(m, x.id);
    LifecycleReads(m, x.status);
    StrReads(m, x.title);
    StrReads(m, x.content);
    IdsRead(m, x.supersedes);
    IdsRead(m, x.supersededBy);
    SourcesRead(m, x.provenance);
    Reads7(I64Format(), LifecycleFormat(), StrFormat(), StrFormat(), ListFormat(I64Format()), ListFormat(I64Format()),
        ListFormat(SourceFormat()), m, I64Image(x.id), [x.status.Code()], StrImage(x.title), StrImage(x.content),
        ListImage((n: i64) => I64Image(n), x.supersedes), ListImage((n: i64) => I64Image(n), x.supersededBy),
        ListImage((x: Source) => SourceImage(x), x.provenance), x.id, x.status, x.title, x.content, x.supersedes,
        x.supersededBy, x.provenance);
  }

  /** The epistemic type is not written and reads as an observation. */
  function MemoryImage(x: MemoryRecord): Bytes {
    [x.kind.Code()] + ([x.status.Code()] + (StrImage(x.title)
      + (StrImage(x.statement) + ListImage((x: Source) => SourceImage(x), x.provenance))))
  }

  lemma MemoryReads(m: Mode, x: MemoryRecord)
    requires MemoryBounded(MAX_U32, x)
    ensures Reads(MemoryFormat(), m, MemoryImage(x), CanonMemory(x))
  {
    hide RoundTrips, Decodes, Streams, Monotone, StrImage, I64Image, ListImage, EnumFormat;
    MemoryKindReads(m, x.kind);
    MemoryStatusReads(m, x.status);
    StrReads(m, x.title);
    StrReads(m, x.statement);
    SourcesRead(m, x.provenance);
    Reads5(MemoryKindFormat(), MemoryStatusFormat(), StrFormat(), StrFormat(), ListFormat(SourceFormat()), m,
        [x.kind.Code()], [x.status.Code()], StrImage(x.title), StrImage(x.statement),
        ListImage((x: Source) => SourceImage(x), x.provenance), x.kind, x.status, x.title, x.statement, x.provenance);
  }

  /** The trigger value is not written and reads as empty. */
  function ObligationImage(x: Obligation): Bytes {
    [x.status.Code()] + ([x.trigger.Code()] + (I64Image(x.id)
      + (StrImage(x.statement) + StrImage(x.completionCriteria))))
  }

  lemma ObligationReads(m: Mode, x: Obligation)
    requires ObligationBounded(x)
    ensures Reads(ObligationFormat(), m, ObligationImage(x), CanonObligation(x))
  {
    hide RoundTrips, Decodes, Streams, Monotone, StrImage, I64Image, ListImage, EnumFormat;
    ObligationStatusReads(m, x.status);
    TriggerKindReads(m, x.trigger);
    I64Reads(m, x.id);
    StrReads(m, x.statement);
    StrReads(m, x.completionCriteria);
    Reads5(ObligationStatusFormat(), TriggerKindFormat(), I64Format(), StrFormat(), StrFormat(), m, [x.status.Code()],
        [x.trigger.Code()], I64Image(x.id), StrImage(x.statement), StrImage(x.completionCriteria), x.status, x.trigger,
        x.id, x.statement, x.completionCriteria);
  }

  function EvidenceImage(x: EvidenceRecord): Bytes { StrImage(x.boundTo) + StrImage(x.content) }

  lemma EvidenceReads(m: Mode, x: EvidenceRecord)
    requires EvidenceBounded(x)
    ensures Reads(EvidenceFormat(), m, EvidenceImage(x), x)
  {
    hide RoundTrips, Decodes, Streams, Monotone, StrImage, I64Image, ListImage, EnumFormat;
    StrReads(m, x.boundTo);
    StrReads(m, x.content);
    PairReads(StrFormat(), StrFormat(), m, StrImage(x.boundTo), StrImage(x.content), x.boundTo, x.content);
  }

  function ConflictImage(x: Conflict): Bytes {
    StrImage(x.id) + ([x.status.Code()] + (StrImage(x.scope)
      + (StrImage(x.description) + StrImage(x.resolution))))
  }

  lemma ConflictReads(m: Mode, x: Conflict)
    requires ConflictBounded(x)
    ensures Reads(ConflictFormat(), m, ConflictImage(x), x)
  {
    hide RoundTrips, Decodes, Streams, Monotone, StrImage, I64Image, ListImage, EnumFormat;
    StrReads(m, x.id);
    ConflictStatusReads(m, x.status);
    StrReads(m, x.scope);
    StrReads(m, x.description);
    StrReads(m, x.resolution);
    Reads5(StrFormat(), ConflictStatusFormat(), StrFormat(), StrFormat(), StrFormat(), m, StrImage(x.id),
        [x.status.Code()], StrImage(x.scope), StrImage(x.description), StrImage(x.resolution), x.id, x.status, x.scope,
        x.description, x.resolution);
  }

  function ProfileImage(x: ProfileRecord): Bytes {
    StrImage(x.id) + (StrImage(x.kind) + (StrImage(x.summary) + [x.layer.Code()]))
  }

  lemma ProfileReads(m: Mode, x: ProfileRecord)
    requires ProfileBounded(x)
    ensures Reads(ProfileFormat(), m, ProfileImage(x), x)
  {
    hide RoundTrips, Decodes, Streams, Monotone, StrImage, I64Image, ListImage, EnumFormat;
    StrReads(m, x.id);
    StrReads(m, x.kind);
    StrReads(m, x.summary);
    WorkflowLayerReads(m, x.layer);
    Reads4(StrFormat(), StrFormat(), StrFormat(), WorkflowLayerFormat(), m, StrImage(x.id), StrImage(x.kind),
        StrImage(x.summary), [x.layer.Code()], x.id, x.kind, x.summary, x.layer);
  }

  function ViewImage(x: ViewSpec): Bytes {
    StrImage(x.id) + (StrImage(x.agent) + (StrImage(x.human)
      + (StrImage(x.summary) + ListImage((s: Str) => StrImage(s), x.profileRefs))))
  }

  lemma ViewReads(m: Mode, x: ViewSpec)
    requires ViewBounded(MAX_U32, x)
    ensures Reads(ViewFormat(), m, ViewImage(x), x)
  {
    hide RoundTrips, Decodes, Streams, Monotone, StrImage, I64Image, ListImage, EnumFormat;
    StrReads(m, x.id);
    StrReads(m, x.agent);
    StrReads(m, x.human);
    StrReads(m, x.summary);
    StringsRead(m, x.profileRefs);
    Reads5(StrFormat(), StrFormat(), StrFormat(), StrFormat(), ListFormat(StrFormat()), m, StrImage(x.id),
        StrImage(x.agent), StrImage(x.human), StrImage(x.summary), ListImage((s: Str) => StrImage(s), x.profileRefs),
        x.id, x.agent, x.human, x.summary, x.profileRefs);
  }

  function FloorImage(x: Floor): Bytes {
    FlagImage(x.reviewGradeReasoning) + ([x.execution.Code()] + FlagImage(x.identityPortVerified))
  }

  lemma FloorReads(m: Mode, x: Floor)
    ensures Reads(FloorFormat(), m, FloorImage(x), x)
  {
    hide RoundTrips, Decodes, Streams, Monotone, StrImage, I64Image, ListImage, EnumFormat;
    FlagReads(m, x.reviewGradeReasoning);
    CapabilityClassReads(m, x.execution);
    FlagReads(m, x.identityPortVerified);
    Reads3(FlagFormat(), CapabilityClassFormat(), FlagFormat(), m, FlagImage(x.reviewGradeReasoning),
        [x.execution.Code()], FlagImage(x.identityPortVerified), x.reviewGradeReasoning, x.execution,
        x.identityPortVerified);
  }

  lemma ClassesRead(m: Mode, xs: seq<OperationClass>)
    requires |xs| <= MAX_U32
    ensures Reads(ListFormat(OperationClassFormat()), m, ListImage((e: OperationClass) => [e.Code()], xs), xs)
  {
    hide RoundTrips, Decodes, Streams, Monotone, Reads, ListFormat;
    forall i | 0 <= i < |xs| ensures Reads(OperationClassFormat(), m, ((e: OperationClass) => [e.Code()])(xs[i]), xs[i]) {
      OperationClassReads(m, xs[i]);
    }
    ListReads(OperationClassFormat(), m, (e: OperationClass) => [e.Code()], xs, xs);
  }

  function RoleSpecImage(x: RoleSpec): Bytes { [x.id.Code()] + (ListImage((e: OperationClass) => [e.Code()],
      x.authorities) + (ListImage((s: Str) => StrImage(s),
      x.duties) + (FloorImage(x.floor) + ListImage((x: Source) => SourceImage(x), x.provenance)))) }

  lemma RoleSpecReads(m: Mode, x: RoleSpec)
    requires RoleBounded(MAX_U32, x)
    ensures Reads(RoleSpecFormat(), m, RoleSpecImage(x), x)
  {
    hide RoundTrips, Decodes, Streams, Monotone, StrImage, I64Image, ListImage, EnumFormat;
    RoleReads(m, x.id);
    ClassesRead(m, x.authorities);
    StringsRead(m, x.duties);
    FloorReads(m, x.floor);
    SourcesRead(m, x.provenance);
    Reads5(RoleFormat(), ListFormat(OperationClassFormat()), ListFormat(StrFormat()), FloorFormat(),
        ListFormat(SourceFormat()), m, [x.id.Code()], ListImage((e: OperationClass) => [e.Code()], x.authorities),
        ListImage((s: Str) => StrImage(s), x.duties), FloorImage(x.floor), ListImage((x: Source) => SourceImage(x),
        x.provenance), x.id, x.authorities, x.duties, x.floor, x.provenance);
  }

  // ---- what depends on the version ----

  /** Since version 8 a rule carries a claim class, present or not, and a boundary. */
  function ClaimImage(v: nat, c: Option<ClaimClass>): Bytes {
    if v < 8 then [] else match c case None => [0] case Some(e) => [1, e.Code()]
  }

  function BoundaryImage(v: nat, b: RequirementBoundary): Bytes { if v < 8 then [] else [b.Code()] }

  function RuleImage(v: nat, x: InvocationRule): Bytes {
    [x.action.Code()] + (ClaimImage(v, x.claimClass) + ([x.requirement.Code()] + (BoundaryImage(v, x.boundary)
      + (StrImage(x.subject) + FlagImage(x.blocking)))))
  }

  /** ... before, it reads as having no claim class and binding before judgment. */
  function RuleIn(v: nat, x: InvocationRule): InvocationRule {
    if v < 8 then x.(claimClass := None, boundary := BeforeJudgment) else x
  }

  lemma ClaimReads(m: Mode, c: Option<ClaimClass>)
    ensures Reads(ClaimFormat(), m, ClaimImage(8, c), c)
  {
    hide RoundTrips, Decodes, Streams, Monotone;
    var f := ClaimFormat();
    forall r: Bytes ensures f.get(m, ClaimImage(8, c) + r) == Ok(c, r) {
      if c.Some? {
        assert [1, c.value.Code()] + r == [1] + ([c.value.Code()] + r);
        ClaimClassReads(m, c.value);
        assert ClaimClassFormat().get(m, [c.value.Code()] + r) == Ok(c.value, r);
        FlagReads(m, true);
        assert FlagFormat().get(m, [1] + ([c.value.Code()] + r)) == Ok(true, [c.value.Code()] + r);
      }
    }
  }

  lemma RuleReads(m: Mode, x: InvocationRule)
    requires Short(x.subject)
    ensures Reads(RuleFormat(), m, RuleImage(m.version, x), RuleIn(m.version, x))
  {
    hide RoundTrips, Decodes, Streams, Monotone, StrImage, EnumFormat, ClaimFormat, Since;
    var y := RuleIn(m.version, x);
    DefaultsWithin();
    var claim, boundary := Since(8, ClaimFormat(), None), Since(8, RequirementBoundaryFormat(), BeforeJudgment);
    ActionKindReads(m, x.action);
    RequirementKindReads(m, x.requirement);
    SinceFields(m, x);
    StrReads(m, x.subject);
    FlagReads(m, x.blocking);
    Reads6(ActionKindFormat(), claim, RequirementKindFormat(), boundary, StrFormat(), FlagFormat(), m,
        [x.action.Code()],
      ClaimImage(m.version, x.claimClass), [x.requirement.Code()], BoundaryImage(m.version, x.boundary),
          StrImage(x.subject),
      FlagImage(x.blocking), x.action, y.claimClass, x.requirement, y.boundary, x.subject, x.blocking);
  }

  lemma DefaultsWithin()
    ensures forall cap: nat :: ClaimFormat().within(cap, None) && RequirementBoundaryFormat().within(cap, BeforeJudgment)
  {
  }

  lemma SinceFields(m: Mode, x: InvocationRule)
    ensures Reads(Since(8, ClaimFormat(), None), m, ClaimImage(m.version, x.claimClass), RuleIn(m.version,
      x).claimClass)
    ensures Reads(Since(8, RequirementBoundaryFormat(), BeforeJudgment), m, BoundaryImage(m.version, x.boundary),
      RuleIn(m.version, x).boundary)
  {
    hide RoundTrips, Decodes, Streams, Monotone, Reads, Since, EnumFormat;
    DefaultsWithin();
    ClaimReads(m, x.claimClass);
    RequirementBoundaryReads(m, x.boundary);
    SinceReads(8, ClaimFormat(), None, m, ClaimImage(m.version, x.claimClass), RuleIn(m.version, x).claimClass);
    SinceReads(8, RequirementBoundaryFormat(), BeforeJudgment, m, BoundaryImage(m.version, x.boundary),
        RuleIn(m.version, x).boundary);
  }

  function RulesIn(v: nat, xs: seq<InvocationRule>): (ys: seq<InvocationRule>)
    ensures |ys| == |xs|
  {
    seq(|xs|, i requires 0 <= i < |xs| => RuleIn(v, xs[i]))
  }

  /** The invocation policy: not there in version 6, only the rules in version 7. */
  function InvocationImage(v: nat, x: InvocationPolicy): Bytes {
    if v < 7 then []
    else (if v < 8 then [] else FlagImage(x.present)) + ListImage((r: InvocationRule) => RuleImage(v, r), x.rules)
  }

  /** Version 6 reads as an absent policy without rules, version 7 as one that is present when it has rules. */
  function InvocationIn(v: nat, x: InvocationPolicy): InvocationPolicy {
    if v < 7 then InvocationPolicy(false, [])
    else InvocationPolicy(if v < 8 then x.rules != [] else x.present, RulesIn(v, x.rules))
  }

  lemma RulesRead(m: Mode, xs: seq<InvocationRule>)
    requires ListOf(MAX_U32, xs, (r: InvocationRule) => Short(r.subject))
    ensures Reads(ListFormat(RuleFormat()), m, ListImage((r: InvocationRule) => RuleImage(m.version, r), xs),
      RulesIn(m.version, xs))
  {
    hide RoundTrips, Decodes, Streams, Monotone, Reads, ListFormat, RuleFormat, RuleImage;
    forall i | 0 <= i < |xs| ensures Reads(RuleFormat(), m, RuleImage(m.version, xs[i]), RulesIn(m.version, xs)[i]) {
      assert Short(xs[i].subject);
      RuleReads(m, xs[i]);
    }
    ListReads(RuleFormat(), m, (r: InvocationRule) => RuleImage(m.version, r), xs, RulesIn(m.version, xs));
  }

  /** The fields of the policy as the version at hand carries them. */
  lemma InvocationFields(m: Mode, x: InvocationPolicy, present: Bytes, rules: Bytes)
    requires InvocationBounded(MAX_U32, x)
    requires present == if m.version < 8 then [] else FlagImage(x.present)
    requires rules == if m.version < 7 then [] else ListImage((r: InvocationRule) => RuleImage(m.version, r), x.rules)
    ensures Reads(Pair(Since(8, FlagFormat(), false), Since(7, ListFormat(RuleFormat()), [])), m, present + rules,
      (m.version >= 8 && x.present, if m.version < 7 then [] else RulesIn(m.version, x.rules)))
  {
    hide RoundTrips, Decodes, Streams, Monotone, Reads, ListFormat, Since, RuleFormat, ListImage, RuleImage;
    FlagReads(m, x.present);
    RulesRead(m, x.rules);
    var t := (m.version >= 8 && x.present, if m.version < 7 then [] else RulesIn(m.version, x.rules));
    SinceReads(8, FlagFormat(), false, m, present, t.0);
    NoRulesWithin();
    SinceReads(7, ListFormat(RuleFormat()), [], m, rules, t.1);
    PairReads(Since(8, FlagFormat(), false), Since(7, ListFormat(RuleFormat()), []), m, present, rules, t.0, t.1);
  }

  lemma NoRulesWithin()
    ensures forall cap: nat :: ListFormat(RuleFormat()).within(cap, [])
  {
    hide RoundTrips, Decodes, Streams, Monotone, RuleFormat;
  }

  lemma InvocationReads(m: Mode, x: InvocationPolicy)
    requires 6 <= m.version <= 8 && InvocationBounded(MAX_U32, x)
    ensures Reads(InvocationFormat(), m, InvocationImage(m.version, x), InvocationIn(m.version, x))
  {
    hide RoundTrips, Decodes, Streams, Monotone, ListFormat, RuleFormat, ListImage, RuleImage, Pair;
    var present := if m.version < 8 then [] else FlagImage(x.present);
    var rules := if m.version < 7 then [] else ListImage((r: InvocationRule) => RuleImage(m.version, r), x.rules);
    InvocationFields(m, x, present, rules);
    assert InvocationImage(m.version, x) == present + rules;
    WithinEither(m, x);
  }

  lemma WithinEither(m: Mode, x: InvocationPolicy)
    requires 6 <= m.version <= 8
    ensures var y := InvocationIn(m.version, x);
      InvocationFormat().within(m.cap, y) <==> Pair(Since(8, FlagFormat(), false), Since(7, ListFormat(RuleFormat()), [])).within(m.cap,
        (m.version >= 8 && x.present, if m.version < 7 then [] else RulesIn(m.version, x.rules)))
  {
    hide RoundTrips, Decodes, Streams, Monotone, RuleFormat;
  }
  // ---- the whole snapshot ----

  function FrontImage(s: Snapshot): Bytes {
    StrImage(s.rootPrincipal) + (ListImage((a: Str) => StrImage(a), s.articles)
      + (ListImage((x: HandoffPolicy) => HandoffRowImage(x), s.policy.handoff)
      + (ListImage((x: RecoveryRule) => RecoveryRowImage(x), s.policy.recovery)
      + (StateImage(s.state) + ListImage((x: Decision) => DecisionImage(x), s.decisions)))))
  }

  function MiddleImage(s: Snapshot): Bytes {
    ListImage((x: MemoryRecord) => MemoryImage(x), s.memory) + ListImage((x: Obligation) => ObligationImage(x),
        s.obligations)
  }

  function BackImage(v: nat, s: Snapshot): Bytes {
    ListImage((x: EvidenceRecord) => EvidenceImage(x), s.evidence)
      + (ListImage((x: Conflict) => ConflictImage(x), s.conflicts)
      + (ListImage((x: ProfileRecord) => ProfileImage(x), s.profiles)
      + (ListImage((x: ViewSpec) => ViewImage(x), s.views)
      + (InvocationImage(v, s.invocation) + ListImage((x: RoleSpec) => RoleSpecImage(x), s.roles)))))
  }

  /** The image of a snapshot in version `v`: the version byte and the fields. */
  function SnapshotImage(v: byte, s: Snapshot): Bytes { [v] + (FrontImage(s) + (MiddleImage(s) + BackImage(v, s))) }

  /** What a reader gets out of it. */
  function SnapshotIn(v: nat, s: Snapshot): Snapshot { Canon(s).(invocation := InvocationIn(v, s.invocation)) }

  lemma HandoffRowsRead(m: Mode, xs: seq<HandoffPolicy>)
    requires |xs| <= MAX_U32
    ensures Reads(ListFormat(HandoffRowFormat()), m, ListImage((x: HandoffPolicy) => HandoffRowImage(x), xs), xs)
  {
    hide RoundTrips, Decodes, Streams, Monotone, Reads, ListFormat, HandoffRowFormat, HandoffRowImage;
    forall i | 0 <= i < |xs| ensures Reads(HandoffRowFormat(), m, HandoffRowImage(xs[i]), xs[i]) {
      HandoffRowReads(m, xs[i]);
    }
    ListReads(HandoffRowFormat(), m, (x: HandoffPolicy) => HandoffRowImage(x), xs, xs);
  }

  lemma RecoveryRowsRead(m: Mode, xs: seq<RecoveryRule>)
    requires |xs| <= MAX_U32
    ensures Reads(ListFormat(RecoveryRowFormat()), m, ListImage((x: RecoveryRule) => RecoveryRowImage(x), xs), xs)
  {
    hide RoundTrips, Decodes, Streams, Monotone, Reads, ListFormat, RecoveryRowFormat, RecoveryRowImage;
    forall i | 0 <= i < |xs| ensures Reads(RecoveryRowFormat(), m, RecoveryRowImage(xs[i]), xs[i]) {
      RecoveryRowReads(m, xs[i]);
    }
    ListReads(RecoveryRowFormat(), m, (x: RecoveryRule) => RecoveryRowImage(x), xs, xs);
  }

  lemma DecisionsRead(m: Mode, xs: seq<Decision>)
    requires ListOf(MAX_U32, xs, (x: Decision) => DecisionBounded(MAX_U32, x))
    ensures Reads(ListFormat(DecisionFormat()), m, ListImage((x: Decision) => DecisionImage(x), xs), xs)
  {
    hide RoundTrips, Decodes, Streams, Monotone, Reads, ListFormat, DecisionFormat, DecisionImage;
    forall i | 0 <= i < |xs| ensures Reads(DecisionFormat(), m, DecisionImage(xs[i]), xs[i]) {
      DecisionReads(m, xs[i]);
    }
    ListReads(DecisionFormat(), m, (x: Decision) => DecisionImage(x), xs, xs);
  }

  lemma MemoryRecordsRead(m: Mode, xs: seq<MemoryRecord>)
    requires ListOf(MAX_U32, xs, (x: MemoryRecord) => MemoryBounded(MAX_U32, x))
    ensures Reads(ListFormat(MemoryFormat()), m, ListImage((x: MemoryRecord) => MemoryImage(x), xs), Mapped(xs,
      CanonMemory))
  {
    hide RoundTrips, Decodes, Streams, Monotone, Reads, ListFormat, MemoryFormat, MemoryImage;
    forall i | 0 <= i < |xs| ensures Reads(MemoryFormat(), m, MemoryImage(xs[i]), CanonMemory(xs[i])) {
      MemoryReads(m, xs[i]);
    }
    ListReads(MemoryFormat(), m, (x: MemoryRecord) => MemoryImage(x), xs, Mapped(xs, CanonMemory));
  }

  lemma ObligationsRead(m: Mode, xs: seq<Obligation>)
    requires ListOf(MAX_U32, xs, (x: Obligation) => ObligationBounded(x))
    ensures Reads(ListFormat(ObligationFormat()), m, ListImage((x: Obligation) => ObligationImage(x), xs), Mapped(xs,
      CanonObligation))
  {
    hide RoundTrips, Decodes, Streams, Monotone, Reads, ListFormat, ObligationFormat, ObligationImage;
    forall i | 0 <= i < |xs| ensures Reads(ObligationFormat(), m, ObligationImage(xs[i]), CanonObligation(xs[i])) {
      ObligationReads(m, xs[i]);
    }
    ListReads(ObligationFormat(), m, (x: Obligation) => ObligationImage(x), xs, Mapped(xs, CanonObligation));
  }

  lemma EvidenceRecordsRead(m: Mode, xs: seq<EvidenceRecord>)
    requires ListOf(MAX_U32, xs, (x: EvidenceRecord) => EvidenceBounded(x))
    ensures Reads(ListFormat(EvidenceFormat()), m, ListImage((x: EvidenceRecord) => EvidenceImage(x), xs), xs)
  {
    hide RoundTrips, Decodes, Streams, Monotone, Reads, ListFormat, EvidenceFormat, EvidenceImage;
    forall i | 0 <= i < |xs| ensures Reads(EvidenceFormat(), m, EvidenceImage(xs[i]), xs[i]) {
      EvidenceReads(m, xs[i]);
    }
    ListReads(EvidenceFormat(), m, (x: EvidenceRecord) => EvidenceImage(x), xs, xs);
  }

  lemma ConflictsRead(m: Mode, xs: seq<Conflict>)
    requires ListOf(MAX_U32, xs, (x: Conflict) => ConflictBounded(x))
    ensures Reads(ListFormat(ConflictFormat()), m, ListImage((x: Conflict) => ConflictImage(x), xs), xs)
  {
    hide RoundTrips, Decodes, Streams, Monotone, Reads, ListFormat, ConflictFormat, ConflictImage;
    forall i | 0 <= i < |xs| ensures Reads(ConflictFormat(), m, ConflictImage(xs[i]), xs[i]) {
      ConflictReads(m, xs[i]);
    }
    ListReads(ConflictFormat(), m, (x: Conflict) => ConflictImage(x), xs, xs);
  }

  lemma ProfilesRead(m: Mode, xs: seq<ProfileRecord>)
    requires ListOf(MAX_U32, xs, (x: ProfileRecord) => ProfileBounded(x))
    ensures Reads(ListFormat(ProfileFormat()), m, ListImage((x: ProfileRecord) => ProfileImage(x), xs), xs)
  {
    hide RoundTrips, Decodes, Streams, Monotone, Reads, ListFormat, ProfileFormat, ProfileImage;
    forall i | 0 <= i < |xs| ensures Reads(ProfileFormat(), m, ProfileImage(xs[i]), xs[i]) {
      ProfileReads(m, xs[i]);
    }
    ListReads(ProfileFormat(), m, (x: ProfileRecord) => ProfileImage(x), xs, xs);
  }

  lemma ViewsRead(m: Mode, xs: seq<ViewSpec>)
    requires ListOf(MAX_U32, xs, (x: ViewSpec) => ViewBounded(MAX_U32, x))
    ensures Reads(ListFormat(ViewFormat()), m, ListImage((x: ViewSpec) => ViewImage(x), xs), xs)
  {
    hide RoundTrips, Decodes, Streams, Monotone, Reads, ListFormat, ViewFormat, ViewImage;
    forall i | 0 <= i < |xs| ensures Reads(ViewFormat(), m, ViewImage(xs[i]), xs[i]) {
      ViewReads(m, xs[i]);
    }
    ListReads(ViewFormat(), m, (x: ViewSpec) => ViewImage(x), xs, xs);
  }

  lemma RolesRead(m: Mode, xs: seq<RoleSpec>)
    requires ListOf(MAX_U32, xs, (x: RoleSpec) => RoleBounded(MAX_U32, x))
    ensures Reads(ListFormat(RoleSpecFormat()), m, ListImage((x: RoleSpec) => RoleSpecImage(x), xs), xs)
  {
    hide RoundTrips, Decodes, Streams, Monotone, Reads, ListFormat, RoleSpecFormat, RoleSpecImage;
    forall i | 0 <= i < |xs| ensures Reads(RoleSpecFormat(), m, RoleSpecImage(xs[i]), xs[i]) {
      RoleSpecReads(m, xs[i]);
    }
    ListReads(RoleSpecFormat(), m, (x: RoleSpec) => RoleSpecImage(x), xs, xs);
  }

  lemma FrontReads(m: Mode, s: Snapshot)
    requires FrontBounded(MAX_U32, s)
    ensures Reads(FrontFormat(), m, FrontImage(s), Fields(s).0)
  {
    hide RoundTrips, Decodes, Streams, Monotone, Reads, Pair, ListFormat, ListImage, StrImage, StateImage, StateFormat,
      DecisionFormat, HandoffRowFormat, RecoveryRowFormat, ListOf, Strings;
    StrReads(m, s.rootPrincipal);
    StringsRead(m, s.articles);
    HandoffRowsRead(m, s.policy.handoff);
    RecoveryRowsRead(m, s.policy.recovery);
    StateReads(m, s.state);
    DecisionsRead(m, s.decisions);
    Reads6(StrFormat(), ListFormat(StrFormat()), ListFormat(HandoffRowFormat()), ListFormat(RecoveryRowFormat()),
        StateFormat(),
      ListFormat(DecisionFormat()), m, StrImage(s.rootPrincipal), ListImage((a: Str) => StrImage(a), s.articles),
      ListImage((x: HandoffPolicy) => HandoffRowImage(x), s.policy.handoff),
      ListImage((x: RecoveryRule) => RecoveryRowImage(x), s.policy.recovery), StateImage(s.state),
      ListImage((x: Decision) => DecisionImage(x), s.decisions),
      s.rootPrincipal, s.articles, s.policy.handoff, s.policy.recovery, s.state, s.decisions);
  }

  lemma MiddleReads(m: Mode, s: Snapshot)
    requires MiddleBounded(MAX_U32, s)
    ensures Reads(MiddleFormat(), m, MiddleImage(s), Fields(Canon(s)).1.0)
  {
    hide RoundTrips, Decodes, Streams, Monotone, Reads, Pair, ListFormat, ListImage, MemoryFormat, ObligationFormat,
        ListOf;
    MemoryRecordsRead(m, s.memory);
    ObligationsRead(m, s.obligations);
    PairReads(ListFormat(MemoryFormat()), ListFormat(ObligationFormat()), m,
      ListImage((x: MemoryRecord) => MemoryImage(x), s.memory), ListImage((x: Obligation) => ObligationImage(x),
          s.obligations),
      Mapped(s.memory, CanonMemory), Mapped(s.obligations, CanonObligation));
  }

  lemma BackReads(m: Mode, s: Snapshot)
    requires 6 <= m.version <= 8 && BackBounded(MAX_U32, s)
    ensures Reads(BackFormat(), m, BackImage(m.version, s), Fields(SnapshotIn(m.version, s)).1.1)
  {
    hide RoundTrips, Decodes, Streams, Monotone, Reads, Pair, ListFormat, ListImage, EvidenceFormat, ConflictFormat,
      ProfileFormat, ViewFormat, InvocationFormat, RoleSpecFormat, ListOf, InvocationImage, InvocationIn,
          InvocationBounded;
    EvidenceRecordsRead(m, s.evidence);
    ConflictsRead(m, s.conflicts);
    ProfilesRead(m, s.profiles);
    ViewsRead(m, s.views);
    InvocationReads(m, s.invocation);
    RolesRead(m, s.roles);
    Reads6(ListFormat(EvidenceFormat()), ListFormat(ConflictFormat()), ListFormat(ProfileFormat()),
        ListFormat(ViewFormat()),
      InvocationFormat(), ListFormat(RoleSpecFormat()), m, ListImage((x: EvidenceRecord) => EvidenceImage(x),
          s.evidence),
      ListImage((x: Conflict) => ConflictImage(x), s.conflicts), ListImage((x: ProfileRecord) => ProfileImage(x),
          s.profiles),
      ListImage((x: ViewSpec) => ViewImage(x), s.views), InvocationImage(m.version, s.invocation),
      ListImage((x: RoleSpec) => RoleSpecImage(x), s.roles),
      s.evidence, s.conflicts, s.profiles, s.views, InvocationIn(m.version, s.invocation), s.roles);
  }

  lemma AssembledReads(front: LawfulFormat<Front>, middle: LawfulFormat<Middle>, back: LawfulFormat<Back>, m: Mode,
      i: Bytes,
      j: Bytes, k: Bytes, s: Snapshot)
    requires Reads(front, m, i, Fields(s).0) && Reads(middle, m, j, Fields(s).1.0) && Reads(back, m, k, Fields(s).1.1)
    ensures Reads(Assemble(front, middle, back), m, i + (j + k), s)
  {
    hide RoundTrips, Decodes, Streams, Monotone;
    Reads3(front, middle, back, m, i, j, k, Fields(s).0, Fields(s).1.0, Fields(s).1.1);
    FieldsInverse();
    var g, f := Assemble(front, middle, back), Pair(front, Pair(middle, back));
    var t := (Fields(s).0, (Fields(s).1.0, Fields(s).1.1));
    assert t == Fields(s) && MakeSnapshot(t) == s;
    forall r: Bytes ensures g.get(m, i + (j + k) + r) == if g.within(m.cap, s) then Ok(s, r) else Err(ResourceAbuse) {
      assert f.get(m, i + (j + k) + r) == if f.within(m.cap, t) then Ok(t, r) else Err(ResourceAbuse);
    }
  }

  lemma WholeReads(m: Mode, s: Snapshot)
    requires 6 <= m.version <= 8 && Bounded(MAX_U32, s)
    ensures Reads(WholeFormat(), m, FrontImage(s) + (MiddleImage(s) + BackImage(m.version, s)), SnapshotIn(m.version,
      s))
  {
    hide RoundTrips, Decodes, Streams, Monotone, Reads, Assemble, FrontFormat, MiddleFormat, BackFormat, FrontBounded,
      MiddleBounded, BackBounded, FrontImage, MiddleImage, BackImage, InvocationIn;
    FrontReads(m, s);
    MiddleReads(m, s);
    BackReads(m, s);
    AssembledReads(FrontFormat(), MiddleFormat(), BackFormat(), m, FrontImage(s), MiddleImage(s), BackImage(m.version,
        s),
      SnapshotIn(m.version, s));
  }

  lemma RestoredAt(f: Layout, v: byte, s: Snapshot, body: Bytes, t: Snapshot)
    requires 6 <= v <= 8 && Reads(f, Mode(v, MAX_RECORDS, false), body, t)
    ensures Deserialize(f, [v] + body) == if f.within(MAX_RECORDS, t) then Success(t) else Failure(ResourceAbuse)
  {
    assert ([v] + body)[1..] == body && body + [] == body;
  }

  lemma OldIsBounded(cap: nat, v: nat, s: Snapshot)
    requires Bounded(cap, s)
    ensures Bounded(cap, SnapshotIn(v, s)) && Canon(SnapshotIn(v, s)) == SnapshotIn(v, s)
  {
    hide DecisionBounded, MemoryBounded, ObligationBounded, EvidenceBounded, ConflictBounded, ProfileBounded,
        ViewBounded,
      RoleBounded, StateBounded, Strings;
    CanonLists(cap, s);
    CanonIdempotent(s);
    OldRulesAreBounded(cap, v, s.invocation);
  }

  lemma OldRulesAreBounded(cap: nat, v: nat, x: InvocationPolicy)
    requires InvocationBounded(cap, x)
    ensures InvocationBounded(cap, InvocationIn(v, x))
  {
    assert forall i :: 0 <= i < |x.rules| ==> Short(x.rules[i].subject) && RulesIn(v, x.rules)[i].subject == x.rules[i].subject;
  }

  lemma CurrentIsWhole(s: Snapshot)
    ensures SnapshotIn(8, s) == Canon(s)
  {
    assert RulesIn(8, s.invocation.rules) == s.invocation.rules;
  }

  /** The outcome of reading the version `v` image. */
  predicate RestoresAs(f: Layout, v: byte, s: Snapshot) {
    Deserialize(f, SnapshotImage(v, s)) ==
      if Bounded(MAX_RECORDS, SnapshotIn(v, s)) then Success(SnapshotIn(v, s)) else Failure(ResourceAbuse)
  }

  predicate PrintsTheImage(f: Layout, s: Snapshot) { Serialize(f, s) == SnapshotImage(8, s) }

  /** Every supported version is restored to what its image holds: version 8 to the snapshot as the format keeps it;
      version 7 to the same with rules that have no claim class and bind before judgment,
          present when there are any; and
      version 6 to the same without an invocation policy. What is over the cap of the reader is refused as such. */
  lemma VersionsRestore(v: byte, s: Snapshot)
    requires 6 <= v <= 8 && Bounded(MAX_U32, s)
    ensures RestoresAs(SnapshotFormat(), v, s)
  {
    hide RoundTrips, Decodes, Streams, Monotone, WholeFormat, Reads, Bounded, Canon, FrontImage, MiddleImage, BackImage,
      InvocationIn, Drops, DropsTwoFields;
    WholeReads(Mode(v, MAX_RECORDS, false), s);
    OldIsBounded(MAX_U32, v, s);
    LimitsOfTheFormat();
    assert LimitsAt(SnapshotFormat(), SnapshotIn(v, s));
    RestoredAt(SnapshotFormat(), v, s, FrontImage(s) + (MiddleImage(s) + BackImage(v, s)), SnapshotIn(v, s));
  }

  /** The writer prints exactly the version 8 image. */
  lemma WriterPrintsTheImage(s: Snapshot)
    requires Bounded(MAX_U32, s)
    ensures PrintsTheImage(SnapshotFormat(), s)
  {
    hide RoundTrips, Streams, Monotone, WholeFormat, Bounded, Canon, FrontImage, MiddleImage, BackImage, Drops;
    var m := Mode(8, MAX_U32, true);
    var f := SnapshotFormat();
    var body := FrontImage(s) + (MiddleImage(s) + BackImage(8, s));
    WholeReads(m, s);
    CurrentIsWhole(s);
    LimitsOfTheFormat();
    assert LimitsAt(f, s);
    assert f.get(m, body + []) == Ok(Canon(s), []);
    assert body + [] == f.put(Canon(s), []);
    SerializeCanon(f, s);
  }
}
