/** The streaming payload parser, a byte scanner. */
module StreamSplitter {
  // The scanner keeps its state across arbitrary chunks: `Splitter` is the scanner, and `Step`, `Boundary`
  // and `RunChunks` say what it computes.

  import opened ChunkedScan
  import opened JsonText
  import opened Options

  datatype Phase = Top | Key | Colon | ValueStart | SourceValue | ArrayBody | Element | Done

  /** The raw JSON text of the source object and of every array element, per field. */
  datatype Payload = Payload(source: Option<Bytes>, fields: map<Bytes, seq<Bytes>>)

  /** The fields that every parsed payload carries. */
  const ARRAY_FIELD_NAMES: seq<Bytes> := [
    Ascii("stage_runs"), Ascii("loss_audits"), Ascii("blobs"), Ascii("records"), Ascii("fragments"),
    Ascii("atoms"), Ascii("edges"), Ascii("candidates"), Ascii("sessions"), Ascii("turns"), Ascii("contexts")
  ]

  function Ascii(s: string): Bytes {
    seq(|s|, i requires 0 <= i < |s| => s[i] as int % 256)
  }

  lemma {:induction false} ConcatAppend(xs: seq<Bytes>, ys: seq<Bytes>)
    ensures Concat(xs + ys) == Concat(xs) + Concat(ys)
  {
    if xs == [] {
      assert xs + ys == ys;
    } else {
      ConcatAppend(xs[1..], ys);
      assert (xs + ys)[1..] == xs[1..] + ys;
      assert xs[0] + (Concat(xs[1..]) + Concat(ys)) == (xs[0] + Concat(xs[1..])) + Concat(ys);
    }
  }

  lemma ConcatPush(xs: seq<Bytes>, y: Bytes)
    ensures Concat(xs + [y]) == Concat(xs) + y
  {
    ConcatAppend(xs, [y]);
    assert Concat([y]) == y + Concat([]);
  }

  // ------------------------------------------------- what one byte does

  /** The scanner's state with the bytes collected so far in `acc`; `collecting` says whether the
      next byte belongs to the value or key being collected. */
  datatype Scan = Scan(
    phase: Phase, key: Bytes, depth: int, inString: bool, escape: bool,
    collecting: bool, acc: Bytes, result: map<Bytes, seq<Bytes>>, source: Option<Bytes>)

  const START := Scan(Top, [], 0, false, false, false, [], map[], None)

  predicate InValue(phase: Phase) {
    phase == SourceValue || phase == Element
  }

  predicate Ok(st: Scan) {
    && (InValue(st.phase) ==> st.collecting && st.depth >= 1)
    && (st.collecting ==> InValue(st.phase) || (st.phase == Key && st.inString))
    && (!st.collecting ==> st.acc == [])
    && (st.phase == ArrayBody || st.phase == Element ==> st.key in st.result)
  }

  function Keep(st: Scan, b: byte): Scan {
    if st.collecting then st.(acc := st.acc + [b]) else st
  }

  predicate Opens(b: byte) {
    b == LBRACE || b == LBRACKET
  }

  predicate Closes(b: byte) {
    b == RBRACE || b == RBRACKET
  }

  function Step(st: Scan, b: byte): (r: Scan)
    requires Ok(st)
    ensures Ok(r)
    ensures st.result.Keys <= r.result.Keys
  {
    if st.escape then Keep(st.(escape := false), b)
    else if b == BACKSLASH && st.inString then Keep(st.(escape := true), b)
    else if b == QUOTE then
      if st.inString then
        if st.phase == Key then
          st.(inString := false, key := st.acc, acc := [], collecting := false, phase := Colon)
        else Keep(st.(inString := false), b)
      else if st.phase == Key then st.(inString := true, collecting := true, acc := [])
      else Keep(st.(inString := true), b)
    else if st.inString then Keep(st, b)
    else Structural(st, b)
  }

  /** A byte outside strings. */
  function Structural(st: Scan, b: byte): (r: Scan)
    requires Ok(st) && !st.inString
    ensures Ok(r) && st.result.Keys <= r.result.Keys
  {
    match st.phase
    case Top => if b == LBRACE then st.(phase := Key) else st
    case Key => st
    case Colon => if b == COLON then st.(phase := ValueStart) else st
    case ValueStart =>
      if b == LBRACE then st.(phase := SourceValue, depth := 1, collecting := true, acc := [b])
      else if b == LBRACKET then
        st.(phase := ArrayBody, result := if st.key in st.result then st.result else st.result[st.key := []])
      else st
    case SourceValue =>
      if Closes(b) && st.depth == 1 then
        st.(depth := 0, source := Some(st.acc + [b]), acc := [], collecting := false, phase := Key)
      else Keep(Nest(st, b), b)
    case ArrayBody =>
      if b == RBRACKET then st.(phase := Key)
      else if Opens(b) then st.(phase := Element, depth := 1, collecting := true, acc := [b])
      else st
    case Element =>
      if Closes(b) && st.depth == 1 then
        st.(depth := 0, result := st.result[st.key := st.result[st.key] + [st.acc + [b]]],
            acc := [], collecting := false, phase := ArrayBody)
      else Keep(Nest(st, b), b)
    case Done => st
  }

  function Nest(st: Scan, b: byte): Scan {
    st.(depth := st.depth + if Opens(b) then 1 else if Closes(b) then -1 else 0)
  }

  function ScanBytes(st: Scan, bs: Bytes): (r: Scan)
    requires Ok(st)
    ensures Ok(r)
    decreases bs
  {
    if bs == [] then st else ScanBytes(Step(st, bs[0]), bs[1..])
  }

  /** What the end of a chunk does: only a value being collected is carried over. */
  function Boundary(st: Scan): (r: Scan)
    requires Ok(st)
    ensures Ok(r)
  {
    if InValue(st.phase) then st else st.(collecting := false, acc := [])
  }

  function RunChunks(st: Scan, chunks: seq<Bytes>): (r: Scan)
    requires Ok(st)
    ensures Ok(r)
    decreases chunks
  {
    if chunks == [] then st else RunChunks(Boundary(ScanBytes(st, chunks[0])), chunks[1..])
  }

  /** The end of the stream: fields that never appeared get an empty list. */
  function Complete(result: map<Bytes, seq<Bytes>>): map<Bytes, seq<Bytes>> {
    (map k | k in ARRAY_FIELD_NAMES :: []) + result
  }

  function Finish(st: Scan): Payload {
    Payload(st.source, Complete(st.result))
  }

  // ------------------------------------------------- the scanner

  /** `Buffer.subarray`: a negative start counts from the end. */
  function Subarray(buf: Bytes, start: int, end: int): Bytes
    requires 0 <= end <= |buf|
  {
    var from := if start < 0 then (if |buf| + start < 0 then 0 else |buf| + start) else start;
    if from <= end then buf[from..end] else []
  }

  lemma NothingFromTheEnd(buf: Bytes, end: nat)
    requires end < |buf|
    ensures Subarray(buf, -1, end) == []
  {}

  class Splitter {
    var phase: Phase
    var currentKey: Bytes
    var depth: int
    var inString: bool
    var escape: bool
    var accBufs: seq<Bytes>
    var accLen: nat
    var result: map<Bytes, seq<Bytes>>
    var source: Option<Bytes>

    ghost predicate Valid()
      reads this
    {
      && accLen == |Concat(accBufs)|
      && (!InValue(phase) ==> Concat(accBufs) == [])
      && Ok(State())
    }

    /** The state between two chunks. */
    ghost function State(): Scan
      reads this
    {
      Scan(phase, currentKey, depth, inString, escape, InValue(phase), Concat(accBufs), result, source)
    }

    /** The state inside `chunk` after `i` bytes, when collecting since `accStart` (if not negative). */
    ghost function StateWithin(chunk: Bytes, accStart: int, i: nat): Scan
      requires i <= |chunk| && accStart <= i
      reads this
    {
      Scan(phase, currentKey, depth, inString, escape, accStart >= 0,
           Concat(accBufs) + (if accStart >= 0 then chunk[accStart..i] else []), result, source)
    }

    constructor ()
      ensures Valid() && State() == START
    {
      phase, currentKey, depth, inString, escape := Top, [], 0, false, false;
      accBufs, accLen, result, source := [], 0, map[], None;
    }

    method FlushAcc() returns (text: Bytes)
      requires accLen == |Concat(accBufs)|
      modifies this`accBufs, this`accLen
      ensures text == old(Concat(accBufs)) && accBufs == [] && accLen == 0
    {
      text := Concat(accBufs)[..accLen];
      accBufs, accLen := [], 0;
    }

    method PushAcc(buf: Bytes, start: int, end: nat)
      requires end <= |buf| && accLen == |Concat(accBufs)|
      modifies this`accBufs, this`accLen
      ensures accLen == |Concat(accBufs)|
      ensures Concat(accBufs) == old(Concat(accBufs)) + (if start < end then Subarray(buf, start, end) else [])
    {
      if start < end {
        var slice := Subarray(buf, start, end);
        ConcatPush(accBufs, slice);
        accBufs := accBufs + [slice];
        accLen := accLen + |slice|;
      }
    }

    /** The finished value: what earlier chunks left, and this chunk up to and including byte `i`. */
    method TakeValue(chunk: Bytes, start: nat, i: nat) returns (text: Bytes)
      requires start <= i < |chunk| && accLen == |Concat(accBufs)|
      modifies this`accBufs, this`accLen
      ensures text == (old(Concat(accBufs)) + chunk[start..i]) + [chunk[i]]
      ensures accBufs == [] && accLen == 0
    {
      PushAcc(chunk, start, i + 1);
      text := FlushAcc();
      assert chunk[start..i + 1] == chunk[start..i] + [chunk[i]];
    }

    /** The finished key. When its start is lost the offset is -1, which takes nothing. */
    method TakeKey(chunk: Bytes, start: int, i: nat)
      requires -1 <= start <= i < |chunk| && accLen == |Concat(accBufs)|
      modifies this`accBufs, this`accLen, this`currentKey
      ensures currentKey == old(Concat(accBufs)) + (if start >= 0 then chunk[start..i] else [])
      ensures accBufs == [] && accLen == 0
    {
      NothingFromTheEnd(chunk, i);
      PushAcc(chunk, start, i);
      currentKey := FlushAcc();
    }

    /** The end of a chunk: the part of an unfinished value is kept, an unfinished key is not. */
    method CarryOver(chunk: Bytes, accStart: int)
      requires -1 <= accStart <= |chunk| && accLen == |Concat(accBufs)|
      requires accStart < 0 || phase == Key ==> Concat(accBufs) == []
      requires Ok(StateWithin(chunk, accStart, |chunk|))
      modifies this`accBufs, this`accLen
      ensures Valid()
      ensures State() == Boundary(old(StateWithin(chunk, accStart, |chunk|)))
    {
      if accStart >= 0 && InValue(phase) {
        PushAcc(chunk, accStart, |chunk|);
      }
    }

    /** One byte inside a chunk: the body of the scan loop. */
    method Byte(chunk: Bytes, i: nat, start: int) returns (accStart: int)
      requires i < |chunk| && -1 <= start <= i
      requires accLen == |Concat(accBufs)| && Ok(StateWithin(chunk, start, i))
      requires start < 0 || phase == Key ==> Concat(accBufs) == []
      modifies this
      ensures -1 <= accStart <= i + 1
      ensures accLen == |Concat(accBufs)|
      ensures accStart < 0 || phase == Key ==> Concat(accBufs) == []
      ensures StateWithin(chunk, accStart, i + 1) == Step(old(StateWithin(chunk, start, i)), chunk[i])
    {
      accStart := start;
      var b := chunk[i];
      assert start >= 0 ==> chunk[start..i + 1] == chunk[start..i] + [b];
      if escape {
        escape := false;
      } else if b == BACKSLASH && inString {
        escape := true;
      } else if b == QUOTE {
        accStart := QuoteByte(chunk, i, accStart);
      } else if !inString {
        accStart := StructuralByte(chunk, i, accStart);
      }
    }

    /** A quote that is not escaped begins or ends a string, and a string where a key is expected is the key. */
    method QuoteByte(chunk: Bytes, i: nat, start: int) returns (accStart: int)
      requires i < |chunk| && -1 <= start <= i && !escape && chunk[i] == QUOTE
      requires accLen == |Concat(accBufs)| && Ok(StateWithin(chunk, start, i))
      requires start < 0 || phase == Key ==> Concat(accBufs) == []
      modifies this
      ensures -1 <= accStart <= i + 1
      ensures accLen == |Concat(accBufs)|
      ensures accStart < 0 || phase == Key ==> Concat(accBufs) == []
      ensures StateWithin(chunk, accStart, i + 1) == Step(old(StateWithin(chunk, start, i)), chunk[i])
    {
      accStart := start;
      assert start >= 0 ==> chunk[start..i + 1] == chunk[start..i] + [QUOTE];
      assert chunk[i + 1..i + 1] == [];
      if inString {
        inString := false;
        if phase == Key {
          TakeKey(chunk, start, i);
          phase := Colon;
          accStart := -1;
        }
      } else {
        inString := true;
        if phase == Key {
          accStart := i + 1;
        }
      }
    }

    /** The switch over the phases. */
    method StructuralByte(chunk: Bytes, i: nat, start: int) returns (accStart: int)
      requires i < |chunk| && -1 <= start <= i && !inString
      requires accLen == |Concat(accBufs)| && Ok(StateWithin(chunk, start, i))
      requires start < 0 || phase == Key ==> Concat(accBufs) == []
      modifies this
      ensures -1 <= accStart <= i + 1
      ensures accLen == |Concat(accBufs)|
      ensures accStart < 0 || phase == Key ==> Concat(accBufs) == []
      ensures StateWithin(chunk, accStart, i + 1) == Structural(old(StateWithin(chunk, start, i)), chunk[i])
    {
      accStart := start;
      var b := chunk[i];
      assert start >= 0 ==> chunk[start..i + 1] == chunk[start..i] + [b];
      assert chunk[i..i + 1] == [b];
      match phase
      case Top =>
        if b == LBRACE { phase := Key; }
      case Key =>
      case Colon =>
        if b == COLON { phase := ValueStart; }
      case ValueStart =>
        if b == LBRACE {
          phase, depth, accStart := SourceValue, 1, i;
        } else if b == LBRACKET {
          if currentKey !in result { result := result[currentKey := []]; }
          phase := ArrayBody;
        }
      case SourceValue =>
        accStart := ValueByte(chunk, i, start);
      case ArrayBody =>
        if b == RBRACKET {
          phase := Key;
        } else if Opens(b) {
          phase, depth, accStart := Element, 1, i;
        }
      case Element =>
        accStart := ValueByte(chunk, i, start);
      case Done =>
    }

    /** Inside the source object or an element: brackets nest, and the one that ends the value takes it. */
    method ValueByte(chunk: Bytes, i: nat, start: int) returns (accStart: int)
      requires i < |chunk| && -1 <= start <= i && !inString && InValue(phase)
      requires accLen == |Concat(accBufs)| && Ok(StateWithin(chunk, start, i))
      modifies this
      ensures -1 <= accStart <= i + 1
      ensures accLen == |Concat(accBufs)|
      ensures accStart < 0 || phase == Key ==> Concat(accBufs) == []
      ensures StateWithin(chunk, accStart, i + 1) == Structural(old(StateWithin(chunk, start, i)), chunk[i])
    {
      accStart := start;
      var b := chunk[i];
      ghost var before := StateWithin(chunk, start, i);
      assert chunk[start..i + 1] == chunk[start..i] + [b];
      assert Concat(accBufs) + chunk[start..i + 1] == before.acc + [b];
      if Opens(b) {
        depth := depth + 1;
      } else if Closes(b) {
        depth := depth - 1;
        if depth == 0 {
          var text := TakeValue(chunk, accStart, i);
          accStart := -1;
          if phase == SourceValue {
            source, phase := Some(text), Key;
          } else {
            result := result[currentKey := result[currentKey] + [text]];
            phase := ArrayBody;
          }
        }
      }
    }

    /** The `data` event. */
    method Data(chunk: Bytes)
      requires Valid()
      modifies this
      ensures Valid()
      ensures State() == Boundary(ScanBytes(old(State()), chunk))
    {
      ghost var before := State();
      var accStart := if InValue(phase) then 0 else -1;
      var i := 0;
      assert StateWithin(chunk, accStart, 0) == before;
      while i < |chunk|
        invariant 0 <= i <= |chunk| && -1 <= accStart <= i
        invariant accLen == |Concat(accBufs)|
        invariant accStart < 0 || phase == Key ==> Concat(accBufs) == []
        invariant Ok(StateWithin(chunk, accStart, i))
        invariant ScanBytes(StateWithin(chunk, accStart, i), chunk[i..]) == ScanBytes(before, chunk)
      {
        assert chunk[i..][0] == chunk[i] && chunk[i..][1..] == chunk[i + 1..];
        accStart := Byte(chunk, i, accStart);
        i := i + 1;
      }
      assert chunk[i..] == [];
      CarryOver(chunk, accStart);
    }

    /** The `end` event. */
    method End() returns (payload: Payload)
      requires Valid()
      ensures payload == Finish(State())
    {
      var fields := result;
      for i := 0 to |ARRAY_FIELD_NAMES|
        invariant FilledUpTo(fields, result, i)
      {
        var key := ARRAY_FIELD_NAMES[i];
        if key !in fields {
          fields := fields[key := []];
        }
      }
      FilledIsComplete(fields, result);
      payload := Payload(source, fields);
    }
  }

  /** The first `i` array fields are there, empty if they never appeared. */
  ghost predicate FilledUpTo(fields: map<Bytes, seq<Bytes>>, result: map<Bytes, seq<Bytes>>, i: nat)
    requires i <= |ARRAY_FIELD_NAMES|
  {
    && (forall k :: k in fields <==> k in result || exists j :: 0 <= j < i && ARRAY_FIELD_NAMES[j] == k)
    && (forall k | k in fields :: fields[k] == if k in result then result[k] else [])
  }

  lemma FilledIsComplete(fields: map<Bytes, seq<Bytes>>, result: map<Bytes, seq<Bytes>>)
    requires FilledUpTo(fields, result, |ARRAY_FIELD_NAMES|)
    ensures fields == Complete(result)
  {
    forall k
      ensures k in ARRAY_FIELD_NAMES <==> exists j :: 0 <= j < |ARRAY_FIELD_NAMES| && ARRAY_FIELD_NAMES[j] == k
    {}
  }

  /** Parsing a file that arrives as the given chunks. */
  method ParsePayloadStreaming(chunks: seq<Bytes>) returns (payload: Payload)
    ensures payload == Finish(RunChunks(START, chunks))
  {
    var splitter := new Splitter();
    for i := 0 to |chunks|
      invariant splitter.Valid()
      invariant RunChunks(splitter.State(), chunks[i..]) == RunChunks(START, chunks)
    {
      assert chunks[i..][1..] == chunks[i + 1..];
      splitter.Data(chunks[i]);
    }
    payload := splitter.End();
  }
}
