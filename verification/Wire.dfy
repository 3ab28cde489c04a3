/** The primitive encodings of the snapshot format, as printers in prepend style and checked parsers.

    A printer `put(x, rest)` yields the image of `x` followed by `rest`; a parser `get(m, b)` yields a value
    and the unread input, or the first error. A few laws tie the two together, and every record of the
    format obeys them. */
module Wire {
  import opened Prelude

  datatype ErrorKind = Truncated | BadVersion | BadEnum | ResourceAbuse | DigestMismatch

  datatype Parsed<+T> = Ok(value: T, rest: Bytes) | Err(kind: ErrorKind) {
    predicate IsFailure() { Err? }
    function PropagateFailure<U>(): Parsed<U>
      requires Err?
    {
      Err(kind)
    }
    function Extract(): (T, Bytes)
      requires Ok?
    {
      (value, rest)
    }
  }

  /** How to read: the format version announced by the input, the largest record count the reader accepts,
      and whether a flag byte other than 0 and 1 is an error. The program reads with `Standard`. */
  datatype Mode = Mode(version: nat, cap: nat, strict: bool) {
    predicate Current() { version == 8 && cap <= MAX_U32 }
    predicate Exact() { version == 8 && strict }
  }

  const MAX_U32: nat := 0xFFFF_FFFF
  const MAX_RECORDS: nat := 100000

  function Standard(version: nat): Mode { Mode(version, MAX_RECORDS, false) }

  /** A record's encoding: printer, parser, and the size bound (strings of 32-bit length, at most `cap` items a list). */
  datatype Format<!T> = Format(put: (T, Bytes) -> Bytes, get: (Mode, Bytes) -> Parsed<T>, within: (nat, T) -> bool)

  // ---- the laws of a format ----

  /** What was printed is read back exactly, and what the reader is capped against is refused as such. */
  ghost predicate RoundTrips<T(!new)>(f: Format<T>) {
    forall m: Mode, x: T, r: Bytes :: m.Current() && f.within(MAX_U32, x) ==>
      f.get(m, f.put(x, r)) == if f.within(m.cap, x) then Ok(x, r) else Err(ResourceAbuse)
  }

  /** Whatever is accepted respects the cap, and under a strict reader is the image of what was read. */
  ghost predicate Decodes<T(!new)>(f: Format<T>) {
    forall m: Mode, b: Bytes :: f.get(m, b).Ok? ==>
      && f.within(m.cap, f.get(m, b).value)
      && (m.Exact() ==> b == f.put(f.get(m, b).value, f.get(m, b).rest))
  }

  /** A parser's outcome when the bytes `e` follow its input. */
  function Then<T>(p: Parsed<T>, e: Bytes): Parsed<T> {
    match p case Ok(x, r) => Ok(x, r + e) case Err(kind) => Err(kind)
  }

  /** Only running out of input can be cured by more of it: every other outcome stays when bytes follow. */
  ghost predicate Streams<T(!new)>(f: Format<T>) {
    forall m: Mode, b: Bytes, e: Bytes :: f.get(m, b) != Err(Truncated) ==> f.get(m, b + e) == Then(f.get(m, b), e)
  }

  /** A looser cap admits at least as much. */
  ghost predicate Monotone<T(!new)>(f: Format<T>) {
    forall c: nat, d: nat, x: T :: c <= d && f.within(c, x) ==> f.within(d, x)
  }

  ghost predicate Lawful<T(!new)>(f: Format<T>) {
    RoundTrips(f) && Decodes(f) && Streams(f) && Monotone(f)
  }

  /** A format that obeys the laws. Formats are built from lawful parts by combinators whose result type
      obliges each combinator to preserve the laws. */
  type LawfulFormat<!T(!new)> = f: Format<T> | Lawful(f)
    witness Format((x: T, r: Bytes) => r, (m: Mode, b: Bytes) => Err(Truncated), (cap: nat, x: T) => false)

  // ---- fixed-width little-endian numbers ----

  function Pow256(width: nat): (p: nat)
    ensures p >= 1
  {
    if width == 0 then 1 else 256 * Pow256(width - 1)
  }

  /** The low `width` bytes of `n`, least significant first; higher bits are dropped as the casts do. */
  function PutLE(width: nat, n: nat, rest: Bytes): Bytes {
    if width == 0 then rest else [n % 256] + PutLE(width - 1, n / 256, rest)
  }

  function GetLE(width: nat, b: Bytes): Parsed<nat> {
    if |b| < width then Err(Truncated)
    else if width == 0 then Ok(0, b)
    else
      var tail := GetLE(width - 1, b[1..]);
      if tail.Err? then tail else Ok(b[0] + 256 * tail.value, tail.rest)
  }

  lemma {:induction false} LERoundTrip(width: nat, n: nat, rest: Bytes)
    ensures |PutLE(width, n, rest)| == width + |rest|
    ensures n < Pow256(width) ==> GetLE(width, PutLE(width, n, rest)) == Ok(n, rest)
  {
    if width > 0 {
      LERoundTrip(width - 1, n / 256, rest);
      assert PutLE(width, n, rest)[1..] == PutLE(width - 1, n / 256, rest);
    }
  }

  lemma {:induction false} LEDecodes(width: nat, b: Bytes)
    requires |b| >= width
    ensures GetLE(width, b).Ok? && GetLE(width, b).value < Pow256(width) && GetLE(width, b).rest == b[width..]
    ensures b == PutLE(width, GetLE(width, b).value, b[width..])
  {
    if width > 0 {
      LEDecodes(width - 1, b[1..]);
      assert b == [b[0]] + b[1..];
    }
  }

  lemma {:induction false} LEReadsPrefix(width: nat, b: Bytes, c: Bytes)
    requires width <= |b| && width <= |c| && b[..width] == c[..width]
    ensures GetLE(width, b).Ok? && GetLE(width, c).Ok? && GetLE(width, b).value == GetLE(width, c).value
  {
    if width > 0 {
      assert b[0] == b[..width][0] == c[0];
      assert b[1..][..width - 1] == b[..width][1..] == c[1..][..width - 1];
      LEReadsPrefix(width - 1, b[1..], c[1..]);
    }
  }

  /** Two's complement, as the memcpy between int64_t and uint64_t gives. */
  function Bits(n: i64): nat { if n < 0 then n + 0x1_0000_0000_0000_0000 else n }
  function Signed(bits: nat): i64
    requires bits < 0x1_0000_0000_0000_0000
  {
    if bits < 0x8000_0000_0000_0000 then bits else bits - 0x1_0000_0000_0000_0000
  }

  lemma Pow256Values()
    ensures Pow256(4) == MAX_U32 + 1 && Pow256(8) == 0x1_0000_0000_0000_0000
  {
    assert Pow256(2) == 0x1_0000;
    assert Pow256(4) == 256 * (256 * Pow256(2));
    assert Pow256(6) == 256 * (256 * Pow256(4));
    assert Pow256(8) == 256 * (256 * Pow256(6));
  }

  lemma LEExtends(width: nat, b: Bytes, e: Bytes)
    requires |b| >= width
    ensures GetLE(width, b).Ok? && GetLE(width, b + e) == Ok(GetLE(width, b).value, b[width..] + e)
  {
    LEDecodes(width, b);
    LEDecodes(width, b + e);
    assert (b + e)[..width] == b[..width];
    LEReadsPrefix(width, b, b + e);
    assert (b + e)[width..] == b[width..] + e;
  }

  // ---- primitive encodings ----

  function PutU8(n: byte, rest: Bytes): Bytes { [n] + rest }
  function GetU8(m: Mode, b: Bytes): Parsed<byte> { if |b| < 1 then Err(Truncated) else Ok(b[0], b[1..]) }

  function PutU32(n: nat, rest: Bytes): Bytes { PutLE(4, n, rest) }
  function GetU32(m: Mode, b: Bytes): Parsed<nat> { GetLE(4, b) }

  function PutI64(n: i64, rest: Bytes): Bytes { PutLE(8, Bits(n), rest) }
  function GetI64(m: Mode, b: Bytes): Parsed<i64> {
    if |b| < 8 then Err(Truncated)
    else
      LEDecodes(8, b); Pow256Values();
      var bits := GetLE(8, b);
      Ok(Signed(bits.value), bits.rest)
  }

  function PutStr(s: Str, rest: Bytes): Bytes { PutU32(|s|, s + rest) }
  function GetStr(m: Mode, b: Bytes): Parsed<Str> {
    var (n, b) :- GetU32(m, b);
    if |b| < n then Err(Truncated) else Ok(b[..n], b[n..])
  }

  function PutFlag(v: bool, rest: Bytes): Bytes { PutU8(if v then 1 else 0, rest) }
  function GetFlag(m: Mode, b: Bytes): Parsed<bool> {
    var (raw, b) :- GetU8(m, b);
    if m.strict && raw > 1 then Err(BadEnum) else Ok(raw != 0, b)
  }

  /** An enumeration is its one-byte code; a code outside the table is `BadEnum`. */
  function GetEnum<T>(table: seq<T>, m: Mode, b: Bytes): Parsed<T> {
    var (raw, b) :- GetU8(m, b);
    if raw < |table| then Ok(table[raw], b) else Err(BadEnum)
  }

  lemma U8Streams(m: Mode, b: Bytes, e: Bytes)
    ensures GetU8(m, b) != Err(Truncated) ==> GetU8(m, b + e) == Then(GetU8(m, b), e)
  {
    if b != [] {
      assert (b + e)[1..] == b[1..] + e;
    }
  }

  lemma U32RoundTrip(m: Mode, n: nat, r: Bytes)
    ensures n <= MAX_U32 ==> GetU32(m, PutU32(n, r)) == Ok(n, r)
  {
    Pow256Values();
    LERoundTrip(4, n, r);
  }

  lemma U32Decodes(m: Mode, b: Bytes)
    requires GetU32(m, b).Ok?
    ensures GetU32(m, b).value <= MAX_U32 && GetU32(m, b).rest == b[4..] && b == PutU32(GetU32(m, b).value, b[4..])
  {
    Pow256Values();
    LEDecodes(4, b);
  }

  lemma U32Streams(m: Mode, b: Bytes, e: Bytes)
    ensures GetU32(m, b) != Err(Truncated) ==> GetU32(m, b + e) == Then(GetU32(m, b), e)
  {
    if |b| >= 4 {
      LEDecodes(4, b);
      LEExtends(4, b, e);
    }
  }

  lemma StrRoundTrip(m: Mode, s: Str, r: Bytes)
    requires |s| <= MAX_U32
    ensures GetStr(m, PutStr(s, r)) == Ok(s, r)
  {
    U32RoundTrip(m, |s|, s + r);
    assert (s + r)[..|s|] == s && (s + r)[|s|..] == r;
  }

  lemma StrDecodes(m: Mode, b: Bytes)
    requires GetStr(m, b).Ok?
    ensures |GetStr(m, b).value| <= MAX_U32 && b == PutStr(GetStr(m, b).value, GetStr(m, b).rest)
  {
    U32Decodes(m, b);
    var n, c := GetU32(m, b).value, GetU32(m, b).rest;
    assert c == c[..n] + c[n..];
  }

  lemma StrStreams(m: Mode, b: Bytes, e: Bytes)
    ensures GetStr(m, b) != Err(Truncated) ==> GetStr(m, b + e) == Then(GetStr(m, b), e)
  {
    U32Streams(m, b, e);
    if GetStr(m, b).Ok? {
      var n, c := GetU32(m, b).value, GetU32(m, b).rest;
      assert (c + e)[..n] == c[..n] && (c + e)[n..] == c[n..] + e;
    }
  }

  function U8Format(): LawfulFormat<byte> {
    var f := Format(PutU8, GetU8, (cap: nat, n: byte) => true);
    assert Lawful(f) by {
      forall m: Mode, b: Bytes, e: Bytes ensures f.get(m, b) != Err(Truncated) ==> f.get(m, b + e) == Then(f.get(m, b), e) {
        U8Streams(m, b, e);
      }
    }
    f
  }

  function I64Format(): LawfulFormat<i64> {
    var f := Format(PutI64, GetI64, (cap: nat, n: i64) => true);
    assert Lawful(f) by {
      forall m: Mode, n: i64, r: Bytes ensures f.get(m, f.put(n, r)) == Ok(n, r) {
        Pow256Values();
        LERoundTrip(8, Bits(n), r);
      }
      forall m: Mode, b: Bytes | f.get(m, b).Ok? ensures b == f.put(f.get(m, b).value, f.get(m, b).rest) {
        Pow256Values();
        LEDecodes(8, b);
      }
      forall m: Mode, b: Bytes, e: Bytes | f.get(m, b) != Err(Truncated)
        ensures f.get(m, b + e) == Then(f.get(m, b), e)
      {
        LEDecodes(8, b);
        LEExtends(8, b, e);
      }
    }
    f
  }

  function StrFormat(): LawfulFormat<Str> {
    var f := Format(PutStr, GetStr, (cap: nat, s: Str) => |s| <= MAX_U32);
    assert Lawful(f) by {
      forall m: Mode, s: Str, r: Bytes | |s| <= MAX_U32 ensures f.get(m, f.put(s, r)) == Ok(s, r) {
        StrRoundTrip(m, s, r);
      }
      forall m: Mode, b: Bytes | f.get(m, b).Ok?
        ensures |f.get(m, b).value| <= MAX_U32 && b == f.put(f.get(m, b).value, f.get(m, b).rest)
      {
        StrDecodes(m, b);
      }
      forall m: Mode, b: Bytes, e: Bytes ensures f.get(m, b) != Err(Truncated) ==> f.get(m, b + e) == Then(f.get(m, b), e) {
        StrStreams(m, b, e);
      }
    }
    f
  }

  function FlagFormat(): LawfulFormat<bool> {
    var f := Format(PutFlag, GetFlag, (cap: nat, v: bool) => true);
    assert Lawful(f) by {
      forall m: Mode, b: Bytes, e: Bytes ensures f.get(m, b) != Err(Truncated) ==> f.get(m, b + e) == Then(f.get(m, b), e) {
        U8Streams(m, b, e);
      }
    }
    f
  }

  ghost predicate Coded<T(!new)>(table: seq<T>, code: T -> byte) {
    && (forall x: T :: code(x) < |table| && table[code(x)] == x)
    && (forall i: byte :: i < |table| ==> code(table[i]) == i)
  }

  function EnumFormat<T(!new)>(table: seq<T>, code: T -> byte): LawfulFormat<T>
    requires Coded(table, code)
  {
    var f := Format((x: T, r: Bytes) => PutU8(code(x), r), (m: Mode, b: Bytes) => GetEnum(table, m, b), (cap: nat,
        x: T) => true);
    assert Lawful(f) by {
      forall m: Mode, b: Bytes, e: Bytes ensures f.get(m, b) != Err(Truncated) ==> f.get(m, b + e) == Then(f.get(m, b), e) {
        U8Streams(m, b, e);
      }
    }
    f
  }

  // ---- combinators ----

  function GetBoth<A(!new), B(!new)>(f: Format<A>, g: Format<B>, m: Mode, b: Bytes): Parsed<(A, B)> {
    var (x, b) :- f.get(m, b);
    var (y, b) :- g.get(m, b);
    Ok((x, y), b)
  }

  /** One encoding after the other. */
  function Pair<A(!new), B(!new)>(f: LawfulFormat<A>, g: LawfulFormat<B>): LawfulFormat<(A, B)> {
    var h := Format((x: (A, B), r: Bytes) => f.put(x.0, g.put(x.1, r)),
                    (m: Mode, b: Bytes) => GetBoth(f, g, m, b),
                    (cap: nat, x: (A, B)) => f.within(cap, x.0) && g.within(cap, x.1));
    assert Lawful(h) by {
      forall m: Mode, x: (A, B), r: Bytes | m.Current() && h.within(MAX_U32, x)
        ensures h.get(m, h.put(x, r)) == if h.within(m.cap, x) then Ok(x, r) else Err(ResourceAbuse)
      {
        assert f.get(m, f.put(x.0, g.put(x.1, r))) ==
          if f.within(m.cap, x.0) then Ok(x.0, g.put(x.1, r)) else Err(ResourceAbuse);
        assert g.get(m, g.put(x.1, r)) == if g.within(m.cap, x.1) then Ok(x.1, r) else Err(ResourceAbuse);
      }
      forall m: Mode, b: Bytes | h.get(m, b).Ok?
        ensures h.within(m.cap, h.get(m, b).value)
        ensures m.Exact() ==> b == h.put(h.get(m, b).value, h.get(m, b).rest)
      {
        assert g.get(m, f.get(m, b).rest).Ok?;
      }
      forall m: Mode, b: Bytes, e: Bytes | h.get(m, b) != Err(Truncated)
        ensures h.get(m, b + e) == Then(h.get(m, b), e)
      {
        assert f.get(m, b + e) == Then(f.get(m, b), e);
        if f.get(m, b).Ok? {
          assert g.get(m, f.get(m, b).rest + e) == Then(g.get(m, f.get(m, b).rest), e);
        }
      }
      forall c: nat, d: nat, x: (A, B) | c <= d && h.within(c, x) ensures h.within(d, x) {
        assert f.within(c, x.0) && g.within(c, x.1);
      }
    }
    h
  }

  /** The record `B` laid out as the fields `A`; `domain` are the records all of whose content is laid out. */
  function RecordOn<A(!new), B(!new)>(f: LawfulFormat<A>, fields: B -> A, make: (Mode, A) -> B,
      domain: B -> bool): LawfulFormat<B>
    requires forall m: Mode, x: B :: m.version == 8 && domain(x) ==> make(m, fields(x)) == x
    requires forall m: Mode, t: A :: m.version == 8 ==> fields(make(m, t)) == t
    requires forall m: Mode, t: A :: domain(make(m, t))
    requires forall m: Mode, t: A, cap: nat :: f.within(cap, t) ==> f.within(cap, fields(make(m, t)))
  {
    Format((x: B, r: Bytes) => f.put(fields(x), r),
           (m: Mode, b: Bytes) => var (t, b) :- f.get(m, b); Ok(make(m, t), b),
           (cap: nat, x: B) => domain(x) && f.within(cap, fields(x)))
  }

  function Record<A(!new), B(!new)>(f: LawfulFormat<A>, fields: B -> A, make: A -> B): LawfulFormat<B>
    requires forall x: B :: make(fields(x)) == x
    requires forall t: A :: fields(make(t)) == t
  {
    RecordOn(f, fields, (m: Mode, t: A) => make(t), (x: B) => true)
  }

  /** A field the format carries only since version `since`; older inputs yield `default`. */
  function Since<A(!new)>(since: nat, f: LawfulFormat<A>, default: A): LawfulFormat<A>
    requires since <= 8 && forall cap: nat :: f.within(cap, default)
  {
    Format(f.put, (m: Mode, b: Bytes) => if m.version >= since then f.get(m, b) else Ok(default, b), f.within)
  }

  function PutOption<A>(put: (A, Bytes) -> Bytes, x: Option<A>, r: Bytes): Bytes {
    match x case None => PutFlag(false, r) case Some(v) => PutFlag(true, put(v, r))
  }

  function GetOption<A>(get: (Mode, Bytes) -> Parsed<A>, m: Mode, b: Bytes): Parsed<Option<A>> {
    var (present, b) :- GetFlag(m, b);
    if present then var (v, b) :- get(m, b); Ok(Some(v), b) else Ok(None, b)
  }

  lemma OptionRoundTrip<A(!new)>(f: LawfulFormat<A>, m: Mode, x: Option<A>, r: Bytes)
    requires m.Current() && (x.Some? ==> f.within(MAX_U32, x.value))
    ensures GetOption(f.get, m, PutOption(f.put, x, r)) ==
      if x.Some? && !f.within(m.cap, x.value) then Err(ResourceAbuse) else Ok(x, r)
  {
    if x.Some? {
      assert f.get(m, f.put(x.value, r)) == if f.within(m.cap, x.value) then Ok(x.value, r) else Err(ResourceAbuse);
    }
  }

  lemma OptionDecodes<A(!new)>(f: LawfulFormat<A>, m: Mode, b: Bytes)
    requires GetOption(f.get, m, b).Ok?
    ensures GetOption(f.get, m, b).value.Some? ==> f.within(m.cap, GetOption(f.get, m, b).value.value)
    ensures m.Exact() ==> b == PutOption(f.put, GetOption(f.get, m, b).value, GetOption(f.get, m, b).rest)
  {
    var c := GetFlag(m, b).rest;
    assert b == [b[0]] + c;
    if GetFlag(m, b).value {
      assert f.get(m, c).Ok?;
    }
  }

  lemma OptionStreams<A(!new)>(f: LawfulFormat<A>, m: Mode, b: Bytes, e: Bytes)
    requires GetOption(f.get, m, b) != Err(Truncated)
    ensures GetOption(f.get, m, b + e) == Then(GetOption(f.get, m, b), e)
  {
    U8Streams(m, b, e);
    if GetFlag(m, b).Ok? && GetFlag(m, b).value {
      assert f.get(m, GetFlag(m, b).rest + e) == Then(f.get(m, GetFlag(m, b).rest), e);
    }
  }

  /** A presence flag, then the value when present. */
  function OptionFormat<A(!new)>(f: LawfulFormat<A>): LawfulFormat<Option<A>> {
    var g := Format((x: Option<A>, r: Bytes) => PutOption(f.put, x, r),
                    (m: Mode, b: Bytes) => GetOption(f.get, m, b),
                    (cap: nat, x: Option<A>) => x.Some? ==> f.within(cap, x.value));
    assert Lawful(g) by {
      forall m: Mode, x: Option<A>, r: Bytes | m.Current() && g.within(MAX_U32, x)
        ensures g.get(m, g.put(x, r)) == if g.within(m.cap, x) then Ok(x, r) else Err(ResourceAbuse)
      {
        OptionRoundTrip(f, m, x, r);
      }
      forall m: Mode, b: Bytes | g.get(m, b).Ok?
        ensures g.within(m.cap, g.get(m, b).value)
        ensures m.Exact() ==> b == g.put(g.get(m, b).value, g.get(m, b).rest)
      {
        OptionDecodes(f, m, b);
      }
      forall m: Mode, b: Bytes, e: Bytes | g.get(m, b) != Err(Truncated)
        ensures g.get(m, b + e) == Then(g.get(m, b), e)
      {
        OptionStreams(f, m, b, e);
      }
    }
    g
  }

  // ---- length-prefixed lists ----

  function PutAll<T>(put: (T, Bytes) -> Bytes, xs: seq<T>, rest: Bytes): Bytes {
    if xs == [] then rest else put(xs[0], PutAll(put, xs[1..], rest))
  }

  function GetAll<T>(m: Mode, get: (Mode, Bytes) -> Parsed<T>, n: nat, b: Bytes): Parsed<seq<T>> {
    if n == 0 then Ok([], b)
    else
      var (x, b) :- get(m, b);
      var (xs, b) :- GetAll(m, get, n - 1, b);
      Ok([x] + xs, b)
  }

  function PutList<T>(put: (T, Bytes) -> Bytes, xs: seq<T>, rest: Bytes): Bytes {
    PutU32(|xs|, PutAll(put, xs, rest))
  }

  /** A record count, refused above the reader's cap before anything is read against it. */
  function GetCount(m: Mode, b: Bytes): Parsed<nat> {
    var (n, b) :- GetU32(m, b);
    if n > m.cap then Err(ResourceAbuse) else Ok(n, b)
  }

  function GetList<T>(m: Mode, get: (Mode, Bytes) -> Parsed<T>, b: Bytes): Parsed<seq<T>> {
    var (n, b) :- GetCount(m, b);
    GetAll(m, get, n, b)
  }

  predicate AllWithin<T>(within: (nat, T) -> bool, cap: nat, xs: seq<T>) {
    forall i :: 0 <= i < |xs| ==> within(cap, xs[i])
  }

  lemma {:induction false} AllRoundTrip<T(!new)>(m: Mode, f: LawfulFormat<T>, xs: seq<T>, r: Bytes)
    requires m.Current() && AllWithin(f.within, MAX_U32, xs)
    ensures GetAll(m, f.get, |xs|, PutAll(f.put, xs, r)) ==
      if AllWithin(f.within, m.cap, xs) then Ok(xs, r) else Err(ResourceAbuse)
  {
    if xs != [] {
      AllRoundTrip(m, f, xs[1..], r);
      assert xs == [xs[0]] + xs[1..];
      assert f.get(m, f.put(xs[0], PutAll(f.put, xs[1..], r))) ==
        if f.within(m.cap, xs[0]) then Ok(xs[0], PutAll(f.put, xs[1..], r)) else Err(ResourceAbuse);
      assert AllWithin(f.within, m.cap, xs) <==> f.within(m.cap, xs[0]) && AllWithin(f.within, m.cap, xs[1..]) by {
        assert forall i :: 1 <= i < |xs| ==> xs[i] == xs[1..][i - 1];
      }
    }
  }

  lemma {:induction false} AllDecodes<T(!new)>(m: Mode, f: LawfulFormat<T>, n: nat, b: Bytes)
    requires GetAll(m, f.get, n, b).Ok?
    ensures |GetAll(m, f.get, n, b).value| == n
    ensures AllWithin(f.within, m.cap, GetAll(m, f.get, n, b).value)
    ensures m.Exact() ==> b == PutAll(f.put, GetAll(m, f.get, n, b).value, GetAll(m, f.get, n, b).rest)
  {
    if n > 0 {
      AllDecodes(m, f, n - 1, f.get(m, b).rest);
      assert GetAll(m, f.get, n, b).value[1..] == GetAll(m, f.get, n - 1, f.get(m, b).rest).value;
    }
  }

  lemma {:induction false} AllStreams<T(!new)>(m: Mode, f: LawfulFormat<T>, n: nat, b: Bytes, e: Bytes)
    ensures GetAll(m, f.get, n, b) != Err(Truncated) ==> GetAll(m, f.get, n, b + e) == Then(GetAll(m, f.get, n, b), e)
  {
    if n > 0 && f.get(m, b).Ok? {
      AllStreams(m, f, n - 1, f.get(m, b).rest, e);
    }
  }

  function ListFormat<T(!new)>(f: LawfulFormat<T>): LawfulFormat<seq<T>> {
    var g := Format((xs: seq<T>, r: Bytes) => PutList(f.put, xs, r),
                    (m: Mode, b: Bytes) => GetList(m, f.get, b),
                    (cap: nat, xs: seq<T>) => |xs| <= cap && AllWithin(f.within, cap, xs));
    assert Lawful(g) by {
      forall m: Mode, xs: seq<T>, r: Bytes | m.Current() && g.within(MAX_U32, xs)
        ensures g.get(m, g.put(xs, r)) == if g.within(m.cap, xs) then Ok(xs, r) else Err(ResourceAbuse)
      {
        U32RoundTrip(m, |xs|, PutAll(f.put, xs, r));
        AllRoundTrip(m, f, xs, r);
      }
      forall m: Mode, b: Bytes | g.get(m, b).Ok?
        ensures g.within(m.cap, g.get(m, b).value)
        ensures m.Exact() ==> b == g.put(g.get(m, b).value, g.get(m, b).rest)
      {
        U32Decodes(m, b);
        AllDecodes(m, f, GetU32(m, b).value, b[4..]);
      }
      forall m: Mode, b: Bytes, e: Bytes ensures g.get(m, b) != Err(Truncated) ==> g.get(m, b + e) == Then(g.get(m, b), e) {
        U32Streams(m, b, e);
        if GetU32(m, b).Ok? {
          AllStreams(m, f, GetU32(m, b).value, GetU32(m, b).rest, e);
        }
      }
    }
    g
  }

  // ---- whole inputs: a version byte, one record, nothing after it ----

  const CURRENT_VERSION: byte := 8
  const OLDEST_VERSION: byte := 6

  function Encode<T>(f: Format<T>, x: T): Bytes { PutU8(CURRENT_VERSION, f.put(x, [])) }

  function Decode<T>(f: Format<T>, cap: nat, strict: bool, b: Bytes): Result<T, ErrorKind> {
    if b == [] then Failure(Truncated)
    else if b[0] > CURRENT_VERSION || b[0] < OLDEST_VERSION then Failure(BadVersion)
    else
      match f.get(Mode(b[0], cap, strict), b[1..])
      case Err(kind) => Failure(kind)
      case Ok(x, rest) => if rest == [] then Success(x) else Failure(Truncated)
  }

  /** Decoding an image yields the record, or `ResourceAbuse` exactly when it is over the cap. */
  lemma DecodeEncode<T(!new)>(f: LawfulFormat<T>, cap: nat, strict: bool, x: T)
    requires f.within(MAX_U32, x) && cap <= MAX_U32
    ensures Decode(f, cap, strict, Encode(f, x)) == if f.within(cap, x) then Success(x) else Failure(ResourceAbuse)
  {
    var m := Mode(8, cap, strict);
    assert Encode(f, x)[1..] == f.put(x, []);
    assert f.get(m, f.put(x, [])) == if f.within(m.cap, x) then Ok(x, []) else Err(ResourceAbuse);
  }

  lemma DecodedWithin<T(!new)>(f: LawfulFormat<T>, cap: nat, strict: bool, b: Bytes)
    requires Decode(f, cap, strict, b).Success?
    ensures f.within(cap, Decode(f, cap, strict, b).value)
    ensures strict && b[0] == 8 ==> b == Encode(f, Decode(f, cap, strict, b).value)
  {
    var m := Mode(b[0], cap, strict);
    assert f.get(m, b[1..]).Ok?;
    assert b == [b[0]] + b[1..];
  }

  /** More input never turns acceptance or a definite error into anything but a truncation or the same error. */
  lemma DecodeExtended<T(!new)>(f: LawfulFormat<T>, cap: nat, strict: bool, b: Bytes, e: Bytes)
    requires e != []
    ensures Decode(f, cap, strict, b).Success? ==> Decode(f, cap, strict, b + e) == Failure(Truncated)
    ensures Decode(f, cap, strict, b).Failure? && Decode(f, cap, strict, b) != Failure(Truncated) ==>
      Decode(f, cap, strict, b + e) == Decode(f, cap, strict, b)
  {
    if b != [] {
      var m := Mode(b[0], cap, strict);
      assert (b + e)[1..] == b[1..] + e;
      assert f.get(m, b[1..]) != Err(Truncated) ==> f.get(m, b[1..] + e) == Then(f.get(m, b[1..]), e);
    }
  }

  /** Every proper prefix of an accepted input is refused as truncated. */
  lemma DecodeCut<T(!new)>(f: LawfulFormat<T>, cap: nat, strict: bool, b: Bytes, k: nat)
    requires Decode(f, cap, strict, b).Success? && k < |b|
    ensures Decode(f, cap, strict, b[..k]) == Failure(Truncated)
  {
    if k > 0 {
      DecodeExtended(f, cap, strict, b[..k], b[k..]);
      assert b[..k] + b[k..] == b;
    }
  }
}
