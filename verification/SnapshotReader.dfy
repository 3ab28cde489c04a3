/** Deserialization in the form the program has it: a reader with a moving cursor and a sticky error, proved to
    parse exactly what the layout prescribes (Reader and deserializeImpl in src/persistence.cpp). */
module SnapshotReader {
  import opened Prelude
  import opened Wire
  import opened Cognition
  import opened SnapshotLayout
  import opened SnapshotCodecLaws

  /** Where a reader stands: what it has left to read, or the first error it met. */
  datatype ReaderView = Reading(rest: Bytes) | Failed(kind: ErrorKind)

  /** What the parser `get` gives from there: an error sticks. */
  function Continue<T>(get: (Mode, Bytes) -> Parsed<T>, m: Mode, was: ReaderView): Parsed<T> {
    match was case Reading(rest) => get(m, rest) case Failed(kind) => Err(kind)
  }

  /** The reader went from `was` to `now` and returned `x` as the format prescribes. */
  ghost predicate Reads<T(!new)>(f: Format<T>, m: Mode, was: ReaderView, now: ReaderView, x: T) {
    match Continue(f.get, m, was)
    case Ok(value, rest) => now == Reading(rest) && x == value
    case Err(kind) => now == Failed(kind)
  }

  lemma ReadsPair<A(!new), B(!new)>(f: LawfulFormat<A>, g: LawfulFormat<B>, m: Mode,
      v: ReaderView, w: ReaderView, now: ReaderView, x: A, y: B)
    requires Reads(f, m, v, w, x) && Reads(g, m, w, now, y)
    ensures Reads(Pair(f, g), m, v, now, (x, y))
  {
  }

  // ---- lists ----

  function Prefixed<T>(xs: seq<T>, tail: Parsed<seq<T>>): Parsed<seq<T>> {
    match tail case Ok(ys, rest) => Ok(xs + ys, rest) case Err(kind) => Err(kind)
  }

  /** In a loop that reads `count` elements from `start`, `out` has been read and the rest is still to come. */
  ghost predicate Midway<T(!new)>(f: LawfulFormat<T>, m: Mode, count: nat, start: ReaderView, out: seq<T>,
      now: ReaderView) {
    match now
    case Failed(kind) => start == now || (start.Reading? && GetAll(m, f.get, count, start.rest) == Err(kind))
    case Reading(rest) =>
      && start.Reading? && |out| <= count
      && GetAll(m, f.get, count, start.rest) == Prefixed(out, GetAll(m, f.get, count - |out|, rest))
  }

  lemma MidwayStart<T(!new)>(f: LawfulFormat<T>, m: Mode, count: nat, start: ReaderView)
    ensures Midway(f, m, count, start, [], start)
  {
    if start.Reading? {
      var all := GetAll(m, f.get, count, start.rest);
      assert all.Ok? ==> [] + all.value == all.value;
    }
  }

  lemma MidwayStep<T(!new)>(f: LawfulFormat<T>, m: Mode, count: nat, start: ReaderView, out: seq<T>, before: ReaderView,
      now: ReaderView, x: T)
    requires Midway(f, m, count, start, out, before) && before.Reading? && |out| < count
    requires Reads(f, m, before, now, x)
    ensures Midway(f, m, count, start, if now.Reading? then out + [x] else out, now)
  {
    if now.Reading? {
      var tail := GetAll(m, f.get, count - |out| - 1, now.rest);
      assert tail.Ok? ==> out + ([x] + tail.value) == (out + [x]) + tail.value;
    }
  }

  lemma MidwayEnd<T(!new)>(f: LawfulFormat<T>, m: Mode, count: nat, was: ReaderView, start: ReaderView, out: seq<T>,
      now: ReaderView)
    requires match Continue(GetCount, m, was) case Ok(n, rest) => start == Reading(rest) && count == n
      case Err(kind) => start == Failed(kind)
    requires Midway(f, m, count, start, out, now) && (now.Reading? ==> |out| == count)
    ensures Reads(ListFormat(f), m, was, now, out)
  {
    assert out + [] == out;
  }

  /** Reading the three parts one after the other is reading the snapshot. */
  lemma AssembledRead(f: LawfulFormat<Front>, g: LawfulFormat<Middle>, h: LawfulFormat<Back>, m: Mode,
      v0: ReaderView, v1: ReaderView, v2: ReaderView, v3: ReaderView, front: Front, middle: Middle, back: Back)
    requires Reads(f, m, v0, v1, front) && Reads(g, m, v1, v2, middle) && Reads(h, m, v2, v3, back)
    ensures Reads(Assemble(f, g, h), m, v0, v3, MakeSnapshot((front, (middle, back))))
  {
    FieldsInverse();
    ReadsPair(g, h, m, v1, v2, v3, middle, back);
    ReadsPair(f, Pair(g, h), m, v0, v1, v3, front, (middle, back));
  }

  class Reader {
    const input: Bytes
    var pos: nat
    var error: Option<ErrorKind>
    var version: nat

    ghost predicate Valid()
      reads this
    {
      pos <= |input|
    }

    ghost function View(): ReaderView
      reads this
      requires Valid()
    {
      if error.Some? then Failed(error.value) else Reading(input[pos..])
    }

    constructor (input: Bytes)
      ensures Valid() && this.input == input && View() == Reading(input) && error.None?
    {
      this.input := input;
      pos := 0;
      error := None;
      version := 0;
    }

    predicate Ok()
      reads this
    {
      error.None?
    }

    /** The bounds check every read goes through. */
    method Need(count: nat) returns (ok: bool)
      requires Valid()
      modifies `error
      ensures Valid() && ok == Ok() == (old(Ok()) && count <= |input| - pos)
      ensures View() == if old(Ok()) && !ok then Failed(Truncated) else old(View())
    {
      if error.None? && |input| - pos < count {
        error := Some(Truncated);
        return false;
      }
      ok := error.None?;
    }

    method ReadU8() returns (n: byte)
      requires Valid()
      modifies `pos, `error
      ensures Valid()
      ensures match Continue(GetU8, Standard(version), old(View()))
        case Ok(v, rest) => View() == Reading(rest) && n == v
        case Err(kind) => View() == Failed(kind) && n == 0
    {
      var ok := Need(1);
      if !ok {
        return 0;
      }
      n := input[pos];
      pos := pos + 1;
    }

    /** `width` bytes at the cursor, least significant first; the caller has checked that they are there. */
    method TakeLittleEndian(width: nat) returns (n: nat)
      requires Valid() && width <= |input| - pos
      modifies `pos
      ensures Valid() && GetLE(width, input[old(pos)..]) == Parsed.Ok(n, input[pos..])
    {
      n := 0;
      var i := width;
      while i > 0
        invariant 0 <= i <= width
        invariant GetLE(width - i, input[pos + i..]) == Parsed.Ok(n, input[pos + width..])
      {
        i := i - 1;
        assert input[pos + i..][1..] == input[pos + i + 1..];
        n := input[pos + i] + 256 * n;
      }
      pos := pos + width;
    }

    method ReadU32() returns (n: nat)
      requires Valid()
      modifies `pos, `error
      ensures Valid()
      ensures match Continue(GetU32, Standard(version), old(View()))
        case Ok(v, rest) => View() == Reading(rest) && n == v
        case Err(kind) => View() == Failed(kind) && n == 0
    {
      var ok := Need(4);
      if !ok {
        return 0;
      }
      n := TakeLittleEndian(4);
    }

    method ReadI64() returns (n: i64)
      requires Valid()
      modifies `pos, `error
      ensures Valid() && Reads(I64Format(), Standard(version), old(View()), View(), n)
    {
      var ok := Need(8);
      if !ok {
        return 0;
      }
      LEDecodes(8, View().rest);
      Pow256Values();
      var bits := TakeLittleEndian(8);
      n := Signed(bits);
    }

    method ReadStr() returns (s: Str)
      requires Valid()
      modifies `pos, `error
      ensures Valid() && Reads(StrFormat(), Standard(version), old(View()), View(), s)
    {
      var length := ReadU32();
      if error.Some? {
        return [];
      }
      var ok := Need(length);
      if !ok {
        return [];
      }
      s := input[pos..pos + length];
      assert s == input[pos..][..length] && input[pos + length..] == input[pos..][length..];
      pos := pos + length;
    }

    method ReadFlag() returns (v: bool)
      requires Valid()
      modifies `pos, `error
      ensures Valid() && Reads(FlagFormat(), Standard(version), old(View()), View(), v) && (error.Some? ==> !v)
    {
      var raw := ReadU8();
      v := raw != 0;
    }

    method ReadEnum<T(!new)>(table: seq<T>, ghost f: LawfulFormat<T>) returns (x: T)
      requires Valid() && table != [] && forall m: Mode, b: Bytes :: f.get(m, b) == GetEnum(table, m, b)
      modifies `pos, `error
      ensures Valid() && Reads(f, Standard(version), old(View()), View(), x)
    {
      var raw := ReadU8();
      if error.Some? {
        return table[0];
      }
      if raw >= |table| {
        error := Some(BadEnum);
        return table[0];
      }
      x := table[raw];
    }

    method ReadCount() returns (n: nat)
      requires Valid()
      modifies `pos, `error
      ensures Valid()
      ensures match Continue(GetCount, Standard(version), old(View()))
        case Ok(v, rest) => View() == Reading(rest) && n == v
        case Err(kind) => View() == Failed(kind) && n == 0
    {
      n := ReadU32();
      if error.None? && n > MAX_RECORDS {
        error := Some(ResourceAbuse);
        n := 0;
      }
    }

    method ReadStrings() returns (out: seq<Str>)
      requires Valid()
      modifies `pos, `error
      ensures Valid() && Reads(ListFormat(StrFormat()), Standard(version), old(View()), View(), out)
    {
      hide ListFormat, StrFormat, Midway, Reads;
      var count := ReadCount();
      ghost var start, m := View(), Standard(version);
      out := [];
      var i := 0;
      MidwayStart(StrFormat(), m, count, start);
      while error.None? && i < count
        invariant Valid() && i <= count && (error.None? ==> |out| == i)
        invariant Midway(StrFormat(), m, count, start, out, View())
      {
        ghost var before := View();
        var x := ReadStr();
        MidwayStep(StrFormat(), m, count, start, out, before, View(), x);
        if error.None? {
          out := out + [x];
        }
        i := i + 1;
      }
      MidwayEnd(StrFormat(), m, count, old(View()), start, out, View());
    }

    method ReadIds() returns (out: seq<i64>)
      requires Valid()
      modifies `pos, `error
      ensures Valid() && Reads(ListFormat(I64Format()), Standard(version), old(View()), View(), out)
    {
      hide ListFormat, I64Format, Midway, Reads;
      var count := ReadCount();
      ghost var start, m := View(), Standard(version);
      out := [];
      var i := 0;
      MidwayStart(I64Format(), m, count, start);
      while error.None? && i < count
        invariant Valid() && i <= count && (error.None? ==> |out| == i)
        invariant Midway(I64Format(), m, count, start, out, View())
      {
        ghost var before := View();
        var x := ReadI64();
        MidwayStep(I64Format(), m, count, start, out, before, View(), x);
        if error.None? {
          out := out + [x];
        }
        i := i + 1;
      }
      MidwayEnd(I64Format(), m, count, old(View()), start, out, View());
    }

    method ReadAuthorities() returns (out: seq<OperationClass>)
      requires Valid()
      modifies `pos, `error
      ensures Valid() && Reads(ListFormat(OperationClassFormat()), Standard(version), old(View()), View(), out)
    {
      var count := ReadCount();
      ghost var start, m := View(), Standard(version);
      out := [];
      var i := 0;
      MidwayStart(OperationClassFormat(), m, count, start);
      while error.None? && i < count
        invariant Valid() && i <= count && (error.None? ==> |out| == i)
        invariant Midway(OperationClassFormat(), m, count, start, out, View())
      {
        ghost var before := View();
        var x := ReadEnum(OPERATION_CLASSES, OperationClassFormat());
        MidwayStep(OperationClassFormat(), m, count, start, out, before, View(), x);
        if error.None? {
          out := out + [x];
        }
        i := i + 1;
      }
      MidwayEnd(OperationClassFormat(), m, count, old(View()), start, out, View());
    }

    method ReadSource() returns (x: Source)
      requires Valid()
      modifies `pos, `error
      ensures Valid() && Reads(SourceFormat(), Standard(version), old(View()), View(), x)
    {
      hide StrFormat;
      ghost var v0, m := View(), Standard(version);
      var kind := ReadEnum(SOURCE_KINDS, SourceKindFormat()); ghost var v1 := View();
      var reference := ReadStr(); ghost var v2 := View();
      var note := ReadStr();
      x := Source(kind, reference, note);
      ReadsPair(StrFormat(), StrFormat(), m, v1, v2, View(), reference, note);
      ReadsPair(SourceKindFormat(), Pair(StrFormat(), StrFormat()), m, v0, v1, View(), kind, (reference, note));
    }

    method ReadSources() returns (out: seq<Source>)
      requires Valid()
      modifies `pos, `error
      ensures Valid() && Reads(ListFormat(SourceFormat()), Standard(version), old(View()), View(), out)
    {
      hide ListFormat, SourceFormat, Midway, Reads;
      var count := ReadCount();
      ghost var start, m := View(), Standard(version);
      out := [];
      var i := 0;
      MidwayStart(SourceFormat(), m, count, start);
      while error.None? && i < count
        invariant Valid() && i <= count && (error.None? ==> |out| == i)
        invariant Midway(SourceFormat(), m, count, start, out, View())
      {
        ghost var before := View();
        var x := ReadSource();
        MidwayStep(SourceFormat(), m, count, start, out, before, View(), x);
        if error.None? {
          out := out + [x];
        }
        i := i + 1;
      }
      MidwayEnd(SourceFormat(), m, count, old(View()), start, out, View());
    }

    method ReadHandoffRow() returns (x: HandoffPolicy)
      requires Valid()
      modifies `pos, `error
      ensures Valid() && Reads(HandoffRowFormat(), Standard(version), old(View()), View(), x)
    {
      hide FlagFormat;
      ghost var v0, m := View(), Standard(version);
      var opClass := ReadEnum(OPERATION_CLASSES, OperationClassFormat()); ghost var v1 := View();
      var required := ReadEnum(HANDOFFS, HandoffFormat()); ghost var v2 := View();
      var rootOnly := ReadFlag();
      x := HandoffPolicy(opClass, required, rootOnly);
      ReadsPair(HandoffFormat(), FlagFormat(), m, v1, v2, View(), required, rootOnly);
      ReadsPair(OperationClassFormat(), Pair(HandoffFormat(), FlagFormat()), m, v0, v1, View(), opClass, (required,
          rootOnly));
    }

    method ReadHandoffRows() returns (out: seq<HandoffPolicy>)
      requires Valid()
      modifies `pos, `error
      ensures Valid() && Reads(ListFormat(HandoffRowFormat()), Standard(version), old(View()), View(), out)
    {
      hide ListFormat, HandoffRowFormat, Midway, Reads;
      var count := ReadCount();
      ghost var start, m := View(), Standard(version);
      out := [];
      var i := 0;
      MidwayStart(HandoffRowFormat(), m, count, start);
      while error.None? && i < count
        invariant Valid() && i <= count && (error.None? ==> |out| == i)
        invariant Midway(HandoffRowFormat(), m, count, start, out, View())
      {
        ghost var before := View();
        var x := ReadHandoffRow();
        MidwayStep(HandoffRowFormat(), m, count, start, out, before, View(), x);
        if error.None? {
          out := out + [x];
        }
        i := i + 1;
      }
      MidwayEnd(HandoffRowFormat(), m, count, old(View()), start, out, View());
    }

    method ReadRecoveryRow() returns (x: RecoveryRule)
      requires Valid()
      modifies `pos, `error
      ensures Valid() && Reads(RecoveryRowFormat(), Standard(version), old(View()), View(), x)
    {
      ghost var v0, m := View(), Standard(version);
      var reason := ReadEnum(REFUSAL_REASONS, RefusalReasonFormat()); ghost var v1 := View();
      var action := ReadEnum(RECOVERY_ACTIONS, RecoveryActionFormat());
      x := RecoveryRule(reason, action);
      ReadsPair(RefusalReasonFormat(), RecoveryActionFormat(), m, v0, v1, View(), reason, action);
    }

    method ReadRecoveryRows() returns (out: seq<RecoveryRule>)
      requires Valid()
      modifies `pos, `error
      ensures Valid() && Reads(ListFormat(RecoveryRowFormat()), Standard(version), old(View()), View(), out)
    {
      hide ListFormat, RecoveryRowFormat, Midway, Reads;
      var count := ReadCount();
      ghost var start, m := View(), Standard(version);
      out := [];
      var i := 0;
      MidwayStart(RecoveryRowFormat(), m, count, start);
      while error.None? && i < count
        invariant Valid() && i <= count && (error.None? ==> |out| == i)
        invariant Midway(RecoveryRowFormat(), m, count, start, out, View())
      {
        ghost var before := View();
        var x := ReadRecoveryRow();
        MidwayStep(RecoveryRowFormat(), m, count, start, out, before, View(), x);
        if error.None? {
          out := out + [x];
        }
        i := i + 1;
      }
      MidwayEnd(RecoveryRowFormat(), m, count, old(View()), start, out, View());
    }

    method ReadDecision() returns (x: Decision)
      requires Valid()
      modifies `pos, `error
      ensures Valid() && Reads(DecisionFormat(), Standard(version), old(View()), View(), x)
    {
      hide StrFormat, ListFormat, I64Format, SourceFormat;
      ghost var v0, m := View(), Standard(version);
      var id := ReadI64(); ghost var v1 := View();
      var status := ReadEnum(LIFECYCLES, LifecycleFormat()); ghost var v2 := View();
      var title := ReadStr(); ghost var v3 := View();
      var content := ReadStr(); ghost var v4 := View();
      var supersedes := ReadIds(); ghost var v5 := View();
      var supersededBy := ReadIds(); ghost var v6 := View();
      var provenance := ReadSources();
      x := Decision(id, status, title, content, supersedes, supersededBy, provenance);
      ReadsPair(ListFormat(I64Format()), ListFormat(SourceFormat()), m, v5, v6, View(), supersededBy, provenance);
      ReadsPair(ListFormat(I64Format()), Pair(ListFormat(I64Format()), ListFormat(SourceFormat())), m, v4, v5, View(),
          supersedes, (supersededBy, provenance));
      ReadsPair(StrFormat(), Pair(ListFormat(I64Format()), Pair(ListFormat(I64Format()), ListFormat(SourceFormat()))),
          m, v3, v4, View(), content, (supersedes, (supersededBy, provenance)));
      ReadsPair(StrFormat(), Pair(StrFormat(), Pair(ListFormat(I64Format()), Pair(ListFormat(I64Format()),
          ListFormat(SourceFormat())))), m, v2, v3, View(), title, (content, (supersedes, (supersededBy, provenance))));
      ReadsPair(LifecycleFormat(), Pair(StrFormat(), Pair(StrFormat(), Pair(ListFormat(I64Format()),
          Pair(ListFormat(I64Format()), ListFormat(SourceFormat()))))), m, v1, v2, View(), status, (title, (content,
          (supersedes, (supersededBy, provenance)))));
      ReadsPair(I64Format(), Pair(LifecycleFormat(), Pair(StrFormat(), Pair(StrFormat(), Pair(ListFormat(I64Format()),
          Pair(ListFormat(I64Format()), ListFormat(SourceFormat())))))), m, v0, v1, View(), id, (status, (title,
          (content, (supersedes, (supersededBy, provenance))))));
    }

    method ReadDecisions() returns (out: seq<Decision>)
      requires Valid()
      modifies `pos, `error
      ensures Valid() && Reads(ListFormat(DecisionFormat()), Standard(version), old(View()), View(), out)
    {
      hide ListFormat, DecisionFormat, Midway, Reads;
      var count := ReadCount();
      ghost var start, m := View(), Standard(version);
      out := [];
      var i := 0;
      MidwayStart(DecisionFormat(), m, count, start);
      while error.None? && i < count
        invariant Valid() && i <= count && (error.None? ==> |out| == i)
        invariant Midway(DecisionFormat(), m, count, start, out, View())
      {
        ghost var before := View();
        var x := ReadDecision();
        MidwayStep(DecisionFormat(), m, count, start, out, before, View(), x);
        if error.None? {
          out := out + [x];
        }
        i := i + 1;
      }
      MidwayEnd(DecisionFormat(), m, count, old(View()), start, out, View());
    }

    method ReadMemoryRecord() returns (x: MemoryRecord)
      requires Valid()
      modifies `pos, `error
      ensures Valid() && Reads(MemoryFormat(), Standard(version), old(View()), View(), x)
    {
      hide StrFormat, ListFormat, SourceFormat;
      ghost var v0, m := View(), Standard(version);
      var kind := ReadEnum(MEMORY_KINDS, MemoryKindFormat()); ghost var v1 := View();
      var status := ReadEnum(MEMORY_STATUSES, MemoryStatusFormat()); ghost var v2 := View();
      var title := ReadStr(); ghost var v3 := View();
      var statement := ReadStr(); ghost var v4 := View();
      var provenance := ReadSources();
      x := MemoryRecord(kind, Observation, status, title, statement, provenance);
      ReadsPair(StrFormat(), ListFormat(SourceFormat()), m, v3, v4, View(), statement, provenance);
      ReadsPair(StrFormat(), Pair(StrFormat(), ListFormat(SourceFormat())), m, v2, v3, View(), title, (statement,
          provenance));
      ReadsPair(MemoryStatusFormat(), Pair(StrFormat(), Pair(StrFormat(), ListFormat(SourceFormat()))), m, v1, v2,
          View(), status, (title, (statement, provenance)));
      ReadsPair(MemoryKindFormat(), Pair(MemoryStatusFormat(), Pair(StrFormat(), Pair(StrFormat(),
          ListFormat(SourceFormat())))), m, v0, v1, View(), kind, (status, (title, (statement, provenance))));
    }

    method ReadMemoryRecords() returns (out: seq<MemoryRecord>)
      requires Valid()
      modifies `pos, `error
      ensures Valid() && Reads(ListFormat(MemoryFormat()), Standard(version), old(View()), View(), out)
    {
      hide ListFormat, MemoryFormat, Midway, Reads;
      var count := ReadCount();
      ghost var start, m := View(), Standard(version);
      out := [];
      var i := 0;
      MidwayStart(MemoryFormat(), m, count, start);
      while error.None? && i < count
        invariant Valid() && i <= count && (error.None? ==> |out| == i)
        invariant Midway(MemoryFormat(), m, count, start, out, View())
      {
        ghost var before := View();
        var x := ReadMemoryRecord();
        MidwayStep(MemoryFormat(), m, count, start, out, before, View(), x);
        if error.None? {
          out := out + [x];
        }
        i := i + 1;
      }
      MidwayEnd(MemoryFormat(), m, count, old(View()), start, out, View());
    }

    method ReadObligation() returns (x: Obligation)
      requires Valid()
      modifies `pos, `error
      ensures Valid() && Reads(ObligationFormat(), Standard(version), old(View()), View(), x)
    {
      hide StrFormat, I64Format;
      ghost var v0, m := View(), Standard(version);
      var status := ReadEnum(OBLIGATION_STATUSES, ObligationStatusFormat()); ghost var v1 := View();
      var trigger := ReadEnum(TRIGGER_KINDS, TriggerKindFormat()); ghost var v2 := View();
      var id := ReadI64(); ghost var v3 := View();
      var statement := ReadStr(); ghost var v4 := View();
      var completion := ReadStr();
      x := Obligation(status, trigger, [], id, statement, completion);
      ReadsPair(StrFormat(), StrFormat(), m, v3, v4, View(), statement, completion);
      ReadsPair(I64Format(), Pair(StrFormat(), StrFormat()), m, v2, v3, View(), id, (statement, completion));
      ReadsPair(TriggerKindFormat(), Pair(I64Format(), Pair(StrFormat(), StrFormat())), m, v1, v2, View(), trigger,
          (id, (statement, completion)));
      ReadsPair(ObligationStatusFormat(), Pair(TriggerKindFormat(), Pair(I64Format(), Pair(StrFormat(), StrFormat()))),
          m, v0, v1, View(), status, (trigger, (id, (statement, completion))));
    }

    method ReadObligations() returns (out: seq<Obligation>)
      requires Valid()
      modifies `pos, `error
      ensures Valid() && Reads(ListFormat(ObligationFormat()), Standard(version), old(View()), View(), out)
    {
      hide ListFormat, ObligationFormat, Midway, Reads;
      var count := ReadCount();
      ghost var start, m := View(), Standard(version);
      out := [];
      var i := 0;
      MidwayStart(ObligationFormat(), m, count, start);
      while error.None? && i < count
        invariant Valid() && i <= count && (error.None? ==> |out| == i)
        invariant Midway(ObligationFormat(), m, count, start, out, View())
      {
        ghost var before := View();
        var x := ReadObligation();
        MidwayStep(ObligationFormat(), m, count, start, out, before, View(), x);
        if error.None? {
          out := out + [x];
        }
        i := i + 1;
      }
      MidwayEnd(ObligationFormat(), m, count, old(View()), start, out, View());
    }

    method ReadEvidenceRecord() returns (x: EvidenceRecord)
      requires Valid()
      modifies `pos, `error
      ensures Valid() && Reads(EvidenceFormat(), Standard(version), old(View()), View(), x)
    {
      hide StrFormat;
      ghost var v0, m := View(), Standard(version);
      var boundTo := ReadStr(); ghost var v1 := View();
      var content := ReadStr();
      x := EvidenceRecord(boundTo, content);
      ReadsPair(StrFormat(), StrFormat(), m, v0, v1, View(), boundTo, content);
    }

    method ReadEvidenceRecords() returns (out: seq<EvidenceRecord>)
      requires Valid()
      modifies `pos, `error
      ensures Valid() && Reads(ListFormat(EvidenceFormat()), Standard(version), old(View()), View(), out)
    {
      hide ListFormat, EvidenceFormat, Midway, Reads;
      var count := ReadCount();
      ghost var start, m := View(), Standard(version);
      out := [];
      var i := 0;
      MidwayStart(EvidenceFormat(), m, count, start);
      while error.None? && i < count
        invariant Valid() && i <= count && (error.None? ==> |out| == i)
        invariant Midway(EvidenceFormat(), m, count, start, out, View())
      {
        ghost var before := View();
        var x := ReadEvidenceRecord();
        MidwayStep(EvidenceFormat(), m, count, start, out, before, View(), x);
        if error.None? {
          out := out + [x];
        }
        i := i + 1;
      }
      MidwayEnd(EvidenceFormat(), m, count, old(View()), start, out, View());
    }

    method ReadConflict() returns (x: Conflict)
      requires Valid()
      modifies `pos, `error
      ensures Valid() && Reads(ConflictFormat(), Standard(version), old(View()), View(), x)
    {
      hide StrFormat;
      ghost var v0, m := View(), Standard(version);
      var id := ReadStr(); ghost var v1 := View();
      var status := ReadEnum(CONFLICT_STATUSES, ConflictStatusFormat()); ghost var v2 := View();
      var scope := ReadStr(); ghost var v3 := View();
      var description := ReadStr(); ghost var v4 := View();
      var resolution := ReadStr();
      x := Conflict(id, status, scope, description, resolution);
      ReadsPair(StrFormat(), StrFormat(), m, v3, v4, View(), description, resolution);
      ReadsPair(StrFormat(), Pair(StrFormat(), StrFormat()), m, v2, v3, View(), scope, (description, resolution));
      ReadsPair(ConflictStatusFormat(), Pair(StrFormat(), Pair(StrFormat(), StrFormat())), m, v1, v2, View(), status,
          (scope, (description, resolution)));
      ReadsPair(StrFormat(), Pair(ConflictStatusFormat(), Pair(StrFormat(), Pair(StrFormat(), StrFormat()))), m, v0,
          v1, View(), id, (status, (scope, (description, resolution))));
    }

    method ReadConflicts() returns (out: seq<Conflict>)
      requires Valid()
      modifies `pos, `error
      ensures Valid() && Reads(ListFormat(ConflictFormat()), Standard(version), old(View()), View(), out)
    {
      hide ListFormat, ConflictFormat, Midway, Reads;
      var count := ReadCount();
      ghost var start, m := View(), Standard(version);
      out := [];
      var i := 0;
      MidwayStart(ConflictFormat(), m, count, start);
      while error.None? && i < count
        invariant Valid() && i <= count && (error.None? ==> |out| == i)
        invariant Midway(ConflictFormat(), m, count, start, out, View())
      {
        ghost var before := View();
        var x := ReadConflict();
        MidwayStep(ConflictFormat(), m, count, start, out, before, View(), x);
        if error.None? {
          out := out + [x];
        }
        i := i + 1;
      }
      MidwayEnd(ConflictFormat(), m, count, old(View()), start, out, View());
    }

    method ReadProfile() returns (x: ProfileRecord)
      requires Valid()
      modifies `pos, `error
      ensures Valid() && Reads(ProfileFormat(), Standard(version), old(View()), View(), x)
    {
      hide StrFormat;
      ghost var v0, m := View(), Standard(version);
      var id := ReadStr(); ghost var v1 := View();
      var kind := ReadStr(); ghost var v2 := View();
      var summary := ReadStr(); ghost var v3 := View();
      var layer := ReadEnum(WORKFLOW_LAYERS, WorkflowLayerFormat());
      x := ProfileRecord(id, kind, summary, layer);
      ReadsPair(StrFormat(), WorkflowLayerFormat(), m, v2, v3, View(), summary, layer);
      ReadsPair(StrFormat(), Pair(StrFormat(), WorkflowLayerFormat()), m, v1, v2, View(), kind, (summary, layer));
      ReadsPair(StrFormat(), Pair(StrFormat(), Pair(StrFormat(), WorkflowLayerFormat())), m, v0, v1, View(), id, (kind,
          (summary, layer)));
    }

    method ReadProfiles() returns (out: seq<ProfileRecord>)
      requires Valid()
      modifies `pos, `error
      ensures Valid() && Reads(ListFormat(ProfileFormat()), Standard(version), old(View()), View(), out)
    {
      hide ListFormat, ProfileFormat, Midway, Reads;
      var count := ReadCount();
      ghost var start, m := View(), Standard(version);
      out := [];
      var i := 0;
      MidwayStart(ProfileFormat(), m, count, start);
      while error.None? && i < count
        invariant Valid() && i <= count && (error.None? ==> |out| == i)
        invariant Midway(ProfileFormat(), m, count, start, out, View())
      {
        ghost var before := View();
        var x := ReadProfile();
        MidwayStep(ProfileFormat(), m, count, start, out, before, View(), x);
        if error.None? {
          out := out + [x];
        }
        i := i + 1;
      }
      MidwayEnd(ProfileFormat(), m, count, old(View()), start, out, View());
    }

    method ReadView() returns (x: ViewSpec)
      requires Valid()
      modifies `pos, `error
      ensures Valid() && Reads(ViewFormat(), Standard(version), old(View()), View(), x)
    {
      hide StrFormat, ListFormat;
      ghost var v0, m := View(), Standard(version);
      var id := ReadStr(); ghost var v1 := View();
      var agent := ReadStr(); ghost var v2 := View();
      var human := ReadStr(); ghost var v3 := View();
      var summary := ReadStr(); ghost var v4 := View();
      var refs := ReadStrings();
      x := ViewSpec(id, agent, human, summary, refs);
      ReadsPair(StrFormat(), ListFormat(StrFormat()), m, v3, v4, View(), summary, refs);
      ReadsPair(StrFormat(), Pair(StrFormat(), ListFormat(StrFormat())), m, v2, v3, View(), human, (summary, refs));
      ReadsPair(StrFormat(), Pair(StrFormat(), Pair(StrFormat(), ListFormat(StrFormat()))), m, v1, v2, View(), agent,
          (human, (summary, refs)));
      ReadsPair(StrFormat(), Pair(StrFormat(), Pair(StrFormat(), Pair(StrFormat(), ListFormat(StrFormat())))), m, v0,
          v1, View(), id, (agent, (human, (summary, refs))));
    }

    method ReadViews() returns (out: seq<ViewSpec>)
      requires Valid()
      modifies `pos, `error
      ensures Valid() && Reads(ListFormat(ViewFormat()), Standard(version), old(View()), View(), out)
    {
      hide ListFormat, ViewFormat, Midway, Reads;
      var count := ReadCount();
      ghost var start, m := View(), Standard(version);
      out := [];
      var i := 0;
      MidwayStart(ViewFormat(), m, count, start);
      while error.None? && i < count
        invariant Valid() && i <= count && (error.None? ==> |out| == i)
        invariant Midway(ViewFormat(), m, count, start, out, View())
      {
        ghost var before := View();
        var x := ReadView();
        MidwayStep(ViewFormat(), m, count, start, out, before, View(), x);
        if error.None? {
          out := out + [x];
        }
        i := i + 1;
      }
      MidwayEnd(ViewFormat(), m, count, old(View()), start, out, View());
    }

    method ReadClaim() returns (x: Option<ClaimClass>)
      requires Valid()
      modifies `pos, `error
      ensures Valid() && Reads(ClaimFormat(), Standard(version), old(View()), View(), x)
    {
      x := None;
      var present := ReadFlag();
      if present {
        var claim := ReadEnum(CLAIM_CLASSES, ClaimClassFormat());
        x := Some(claim);
      }
    }

    /** Rules carry a claim class since version 8. */
    method ReadRuleClaim() returns (x: Option<ClaimClass>)
      requires Valid()
      modifies `pos, `error
      ensures Valid() && Reads(Since(8, ClaimFormat(), None), Standard(version), old(View()), View(), x)
    {
      x := None;
      if version >= 8 {
        x := ReadClaim();
      }
    }

    /** ... and a boundary. */
    method ReadRuleBoundary() returns (x: RequirementBoundary)
      requires Valid()
      modifies `pos, `error
      ensures Valid() && Reads(Since(8, RequirementBoundaryFormat(), BeforeJudgment), Standard(version), old(View()),
        View(), x)
    {
      x := BeforeJudgment;
      if version >= 8 {
        x := ReadEnum(REQUIREMENT_BOUNDARIES, RequirementBoundaryFormat());
      }
    }

    method ReadRule() returns (x: InvocationRule)
      requires Valid()
      modifies `pos, `error
      ensures Valid() && Reads(RuleFormat(), Standard(version), old(View()), View(), x)
    {
      ghost var v0, m := View(), Standard(version);
      var action := ReadEnum(ACTION_KINDS, ActionKindFormat()); ghost var v1 := View();
      var claim := ReadRuleClaim(); ghost var v2 := View();
      var requirement := ReadEnum(REQUIREMENT_KINDS, RequirementKindFormat()); ghost var v3 := View();
      var boundary := ReadRuleBoundary(); ghost var v4 := View();
      var subject := ReadStr(); ghost var v5 := View();
      var blocking := ReadFlag();
      x := InvocationRule(action, claim, requirement, boundary, subject, blocking);
      ReadsPair(StrFormat(), FlagFormat(), m, v4, v5, View(), subject, blocking);
      ReadsPair(Since(8, RequirementBoundaryFormat(), BeforeJudgment), Pair(StrFormat(), FlagFormat()), m, v3, v4,
          View(), boundary, (subject, blocking));
      ReadsPair(RequirementKindFormat(), Pair(Since(8, RequirementBoundaryFormat(), BeforeJudgment), Pair(StrFormat(),
          FlagFormat())), m, v2, v3, View(), requirement, (boundary, (subject, blocking)));
      ReadsPair(Since(8, ClaimFormat(), None), Pair(RequirementKindFormat(), Pair(Since(8, RequirementBoundaryFormat(),
          BeforeJudgment), Pair(StrFormat(), FlagFormat()))), m, v1, v2, View(), claim, (requirement, (boundary,
          (subject, blocking))));
      ReadsPair(ActionKindFormat(), Pair(Since(8, ClaimFormat(), None), Pair(RequirementKindFormat(), Pair(Since(8,
          RequirementBoundaryFormat(), BeforeJudgment), Pair(StrFormat(), FlagFormat())))), m, v0, v1, View(), action,
          (claim, (requirement, (boundary, (subject, blocking)))));
    }

    method ReadRules() returns (out: seq<InvocationRule>)
      requires Valid()
      modifies `pos, `error
      ensures Valid() && Reads(ListFormat(RuleFormat()), Standard(version), old(View()), View(), out)
    {
      hide ListFormat, RuleFormat, Midway, Reads;
      var count := ReadCount();
      ghost var start, m := View(), Standard(version);
      out := [];
      var i := 0;
      MidwayStart(RuleFormat(), m, count, start);
      while error.None? && i < count
        invariant Valid() && i <= count && (error.None? ==> |out| == i)
        invariant Midway(RuleFormat(), m, count, start, out, View())
      {
        ghost var before := View();
        var x := ReadRule();
        MidwayStep(RuleFormat(), m, count, start, out, before, View(), x);
        if error.None? {
          out := out + [x];
        }
        i := i + 1;
      }
      MidwayEnd(RuleFormat(), m, count, old(View()), start, out, View());
    }

    method ReadPresence() returns (x: bool)
      requires Valid()
      modifies `pos, `error
      ensures Valid() && Reads(Since(8, FlagFormat(), false), Standard(version), old(View()), View(), x)
    {
      x := false;
      if version >= 8 {
        x := ReadFlag();
      }
    }

    method ReadRulesIfAny() returns (x: seq<InvocationRule>)
      requires Valid()
      modifies `pos, `error
      ensures Valid() && Reads(Since(7, ListFormat(RuleFormat()), []), Standard(version), old(View()), View(), x)
    {
      x := [];
      if version >= 7 {
        x := ReadRules();
      }
    }

    /** Version 6 has no invocation policy; version 7 has rules without a presence byte. */
    method ReadInvocation() returns (x: InvocationPolicy)
      requires Valid()
      modifies `pos, `error
      ensures Valid() && Reads(InvocationFormat(), Standard(version), old(View()), View(), x)
    {
      ghost var v0, m := View(), Standard(version);
      var present := ReadPresence(); ghost var v1 := View();
      var rules := ReadRulesIfAny();
      x := InvocationPolicy(if version == 7 then rules != [] else present, rules);
      ReadsPair(Since(8, FlagFormat(), false), Since(7, ListFormat(RuleFormat()), []), m, v0, v1, View(), present,
          rules);
    }

    method ReadFloor() returns (x: Floor)
      requires Valid()
      modifies `pos, `error
      ensures Valid() && Reads(FloorFormat(), Standard(version), old(View()), View(), x)
    {
      hide FlagFormat;
      ghost var v0, m := View(), Standard(version);
      var reasoning := ReadFlag(); ghost var v1 := View();
      var execution := ReadEnum(CAPABILITY_CLASSES, CapabilityClassFormat()); ghost var v2 := View();
      var identity := ReadFlag();
      x := Floor(reasoning, execution, identity);
      ReadsPair(CapabilityClassFormat(), FlagFormat(), m, v1, v2, View(), execution, identity);
      ReadsPair(FlagFormat(), Pair(CapabilityClassFormat(), FlagFormat()), m, v0, v1, View(), reasoning, (execution,
          identity));
    }

    method ReadRole() returns (x: RoleSpec)
      requires Valid()
      modifies `pos, `error
      ensures Valid() && Reads(RoleSpecFormat(), Standard(version), old(View()), View(), x)
    {
      hide ListFormat, OperationClassFormat, StrFormat, SourceFormat, FloorFormat, Standard;
      ghost var v0, m := View(), Standard(version);
      var id := ReadEnum(ROLES, RoleFormat()); ghost var v1 := View();
      var authorities := ReadAuthorities(); ghost var v2 := View();
      var duties := ReadStrings(); ghost var v3 := View();
      var floor := ReadFloor(); ghost var v4 := View();
      var provenance := ReadSources();
      x := RoleSpec(id, authorities, duties, floor, provenance);
      ReadsPair(FloorFormat(), ListFormat(SourceFormat()), m, v3, v4, View(), floor, provenance);
      ReadsPair(ListFormat(StrFormat()), Pair(FloorFormat(), ListFormat(SourceFormat())), m, v2, v3, View(), duties,
          (floor, provenance));
      ReadsPair(ListFormat(OperationClassFormat()), Pair(ListFormat(StrFormat()), Pair(FloorFormat(),
          ListFormat(SourceFormat()))), m, v1, v2, View(), authorities, (duties, (floor, provenance)));
      ReadsPair(RoleFormat(), Pair(ListFormat(OperationClassFormat()), Pair(ListFormat(StrFormat()),
          Pair(FloorFormat(), ListFormat(SourceFormat())))), m, v0, v1, View(), id, (authorities, (duties, (floor,
          provenance))));
    }

    method ReadRoles() returns (out: seq<RoleSpec>)
      requires Valid()
      modifies `pos, `error
      ensures Valid() && Reads(ListFormat(RoleSpecFormat()), Standard(version), old(View()), View(), out)
    {
      hide ListFormat, RoleSpecFormat, Midway, Reads;
      var count := ReadCount();
      ghost var start, m := View(), Standard(version);
      out := [];
      var i := 0;
      MidwayStart(RoleSpecFormat(), m, count, start);
      while error.None? && i < count
        invariant Valid() && i <= count && (error.None? ==> |out| == i)
        invariant Midway(RoleSpecFormat(), m, count, start, out, View())
      {
        ghost var before := View();
        var x := ReadRole();
        MidwayStep(RoleSpecFormat(), m, count, start, out, before, View(), x);
        if error.None? {
          out := out + [x];
        }
        i := i + 1;
      }
      MidwayEnd(RoleSpecFormat(), m, count, old(View()), start, out, View());
    }

    method ReadState() returns (x: StateView)
      requires Valid()
      modifies `pos, `error
      ensures Valid() && Reads(StateFormat(), Standard(version), old(View()), View(), x)
    {
      hide StrFormat;
      ghost var v0, m := View(), Standard(version);
      var objective := ReadStr(); ghost var v1 := View();
      var current := ReadStr(); ghost var v2 := View();
      var checkpointRef := ReadStr(); ghost var v3 := View();
      var candidateRef := ReadStr(); ghost var v4 := View();
      var nextBoundaryRef := ReadStr(); ghost var v5 := View();
      var repositories := ReadStr(); ghost var v6 := View();
      var roadmap := ReadStr();
      x := StateView(objective, current, checkpointRef, candidateRef, nextBoundaryRef, repositories, roadmap);
      ReadsPair(StrFormat(), StrFormat(), m, v5, v6, View(), repositories, roadmap);
      ReadsPair(StrFormat(), Pair(StrFormat(), StrFormat()), m, v4, v5, View(), nextBoundaryRef, (repositories,
          roadmap));
      ReadsPair(StrFormat(), Pair(StrFormat(), Pair(StrFormat(), StrFormat())), m, v3, v4, View(), candidateRef,
          (nextBoundaryRef, (repositories, roadmap)));
      ReadsPair(StrFormat(), Pair(StrFormat(), Pair(StrFormat(), Pair(StrFormat(), StrFormat()))), m, v2, v3, View(),
          checkpointRef, (candidateRef, (nextBoundaryRef, (repositories, roadmap))));
      ReadsPair(StrFormat(), Pair(StrFormat(), Pair(StrFormat(), Pair(StrFormat(), Pair(StrFormat(), StrFormat())))),
          m, v1, v2, View(), current, (checkpointRef, (candidateRef, (nextBoundaryRef, (repositories, roadmap)))));
      ReadsPair(StrFormat(), Pair(StrFormat(), Pair(StrFormat(), Pair(StrFormat(), Pair(StrFormat(), Pair(StrFormat(),
          StrFormat()))))), m, v0, v1, View(), objective, (current, (checkpointRef, (candidateRef, (nextBoundaryRef,
          (repositories, roadmap))))));
    }

    method ReadFront() returns (x: Front)
      requires Valid()
      modifies `pos, `error
      ensures Valid() && Reads(FrontFormat(), Standard(version), old(View()), View(), x)
    {
      hide StrFormat, ListFormat, HandoffRowFormat, RecoveryRowFormat, StateFormat, DecisionFormat;
      ghost var v0, m := View(), Standard(version);
      var root := ReadStr(); ghost var v1 := View();
      var articles := ReadStrings(); ghost var v2 := View();
      var handoff := ReadHandoffRows(); ghost var v3 := View();
      var recovery := ReadRecoveryRows(); ghost var v4 := View();
      var state := ReadState(); ghost var v5 := View();
      var decisions := ReadDecisions();
      x := (root, (articles, (handoff, (recovery, (state, decisions)))));
      ReadsPair(StateFormat(), ListFormat(DecisionFormat()), m, v4, v5, View(), state, decisions);
      ReadsPair(ListFormat(RecoveryRowFormat()), Pair(StateFormat(), ListFormat(DecisionFormat())), m, v3, v4, View(),
          recovery, (state, decisions));
      ReadsPair(ListFormat(HandoffRowFormat()), Pair(ListFormat(RecoveryRowFormat()), Pair(StateFormat(),
          ListFormat(DecisionFormat()))), m, v2, v3, View(), handoff, (recovery, (state, decisions)));
      ReadsPair(ListFormat(StrFormat()), Pair(ListFormat(HandoffRowFormat()), Pair(ListFormat(RecoveryRowFormat()),
          Pair(StateFormat(), ListFormat(DecisionFormat())))), m, v1, v2, View(), articles, (handoff, (recovery,
          (state, decisions))));
      ReadsPair(StrFormat(), Pair(ListFormat(StrFormat()), Pair(ListFormat(HandoffRowFormat()),
          Pair(ListFormat(RecoveryRowFormat()), Pair(StateFormat(), ListFormat(DecisionFormat()))))), m, v0, v1,
          View(), root, (articles, (handoff, (recovery, (state, decisions)))));
    }

    method ReadMiddle() returns (x: Middle)
      requires Valid()
      modifies `pos, `error
      ensures Valid() && Reads(MiddleFormat(), Standard(version), old(View()), View(), x)
    {
      hide ListFormat, MemoryFormat, ObligationFormat;
      ghost var v0, m := View(), Standard(version);
      var memory := ReadMemoryRecords(); ghost var v1 := View();
      var obligations := ReadObligations();
      x := (memory, obligations);
      ReadsPair(ListFormat(MemoryFormat()), ListFormat(ObligationFormat()), m, v0, v1, View(), memory, obligations);
    }

    method ReadBack() returns (x: Back)
      requires Valid()
      modifies `pos, `error
      ensures Valid() && Reads(BackFormat(), Standard(version), old(View()), View(), x)
    {
      hide ListFormat, EvidenceFormat, ConflictFormat, ProfileFormat, ViewFormat, InvocationFormat, RoleSpecFormat;
      ghost var v0, m := View(), Standard(version);
      var evidence := ReadEvidenceRecords(); ghost var v1 := View();
      var conflicts := ReadConflicts(); ghost var v2 := View();
      var profiles := ReadProfiles(); ghost var v3 := View();
      var views := ReadViews(); ghost var v4 := View();
      var invocation := ReadInvocation(); ghost var v5 := View();
      var roles := ReadRoles();
      x := (evidence, (conflicts, (profiles, (views, (invocation, roles)))));
      ReadsPair(InvocationFormat(), ListFormat(RoleSpecFormat()), m, v4, v5, View(), invocation, roles);
      ReadsPair(ListFormat(ViewFormat()), Pair(InvocationFormat(), ListFormat(RoleSpecFormat())), m, v3, v4, View(),
          views, (invocation, roles));
      ReadsPair(ListFormat(ProfileFormat()), Pair(ListFormat(ViewFormat()), Pair(InvocationFormat(),
          ListFormat(RoleSpecFormat()))), m, v2, v3, View(), profiles, (views, (invocation, roles)));
      ReadsPair(ListFormat(ConflictFormat()), Pair(ListFormat(ProfileFormat()), Pair(ListFormat(ViewFormat()),
          Pair(InvocationFormat(), ListFormat(RoleSpecFormat())))), m, v1, v2, View(), conflicts, (profiles, (views,
          (invocation, roles))));
      ReadsPair(ListFormat(EvidenceFormat()), Pair(ListFormat(ConflictFormat()), Pair(ListFormat(ProfileFormat()),
          Pair(ListFormat(ViewFormat()), Pair(InvocationFormat(), ListFormat(RoleSpecFormat()))))), m, v0, v1, View(),
          evidence, (conflicts, (profiles, (views, (invocation, roles)))));
    }

    method ReadSnapshot() returns (x: Snapshot)
      requires Valid()
      modifies `pos, `error
      ensures Valid() && Reads(WholeFormat(), Standard(version), old(View()), View(), x)
    {
      hide FrontFormat, MiddleFormat, BackFormat, Reads;
      ghost var v0 := View();
      var front := ReadFront(); ghost var v1 := View();
      var middle := ReadMiddle(); ghost var v2 := View();
      var back := ReadBack();
      x := MakeSnapshot((front, (middle, back)));
      AssembledRead(FrontFormat(), MiddleFormat(), BackFormat(), Standard(version), v0, v1, v2, View(), front, middle,
          back);
    }
  }

  // ---- the whole snapshot ----

  datatype DeserializeResult = DeserializeResult(ok: bool, snapshot: Snapshot, error: ErrorKind)

  /** The outcome as the program reports it: on refusal the snapshot is the empty one. */
  ghost predicate Reports(outcome: Result<Snapshot, ErrorKind>, result: DeserializeResult) {
    match outcome
    case Success(s) => result.ok && result.snapshot == s
    case Failure(kind) => !result.ok && result.snapshot == EMPTY_SNAPSHOT && result.error == kind
  }

  /** What remains to say once the record is read: bytes after it are an error too. */
  function Conclusion(s: Snapshot, end: ReaderView): Result<Snapshot, ErrorKind> {
    match end
    case Failed(kind) => Failure(kind)
    case Reading(rest) => if rest == [] then Success(s) else Failure(Truncated)
  }

  /** The version check, the record and the check for trailing bytes make up the decoder. */
  lemma Concluded(f: Layout, b: Bytes, version: nat, start: ReaderView, end: ReaderView, s: Snapshot)
    requires match Continue(GetU8, Standard(0), Reading(b))
      case Ok(v, rest) => version == v && start == if v > 8 || v < 6 then Failed(BadVersion) else Reading(rest)
      case Err(kind) => start == Failed(kind)
    requires Reads(f, Standard(version), start, end, s)
    ensures Deserialize(f, b) == Conclusion(s, end)
  {
  }

  method DeserializeImpl(b: Bytes) returns (result: DeserializeResult)
    ensures Reports(Deserialize(SnapshotFormat(), b), result)
  {
    hide WholeFormat, Reads, Deserialize;
    var reader := new Reader(b);
    var version := reader.ReadU8();
    if reader.error.None? && (version > CURRENT_VERSION || version < OLDEST_VERSION) {
      reader.error := Some(BadVersion);
    }
    reader.version := version;
    ghost var start := reader.View();
    var snapshot := reader.ReadSnapshot();
    Concluded(SnapshotFormat(), b, version, start, reader.View(), snapshot);
    if reader.error.None? && reader.pos < |reader.input| {
      reader.error := Some(Truncated);
    }
    match reader.error
    case Some(kind) => result := DeserializeResult(false, EMPTY_SNAPSHOT, kind);
    case None => result := DeserializeResult(true, snapshot, Truncated);
  }
}
