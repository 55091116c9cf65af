/** Parsing undoes printing. */
module StreamRoundTrip {
  // A printed payload is scanned under an arbitrary set of chunk ends, and the result is computed exactly:
  // every value survives every cut, and a field keeps its name if and only if no chunk ends inside that name.

  import opened ChunkedScan
  import opened JsonText
  import opened Options
  import opened StreamSplitter

  // ------------------------------------------------- scanning with cuts

  /** Scanning `bs`, which starts at offset `off` of the file, when chunks end at the offsets `cuts`. */
  function RunFrom(st: Scan, bs: Bytes, off: nat, cuts: set<nat>): (r: Scan)
    requires Ok(st)
    ensures Ok(r)
    decreases bs
  {
    if bs == [] then st else RunFrom(Next(st, bs[0], off, cuts), bs[1..], off + 1, cuts)
  }

  /** The state after a byte at an offset. */
  function Next(st: Scan, b: byte, off: nat, cuts: set<nat>): (r: Scan)
    requires Ok(st)
    ensures Ok(r)
  {
    Step(if off in cuts then Boundary(st) else st, b)
  }

  /** The scanner's step and chunk end on all states, as functions. */
  function Steps(): (Scan, byte) -> Scan {
    (st: Scan, b: byte) => if Ok(st) then Step(st, b) else st
  }

  function Cut(): Scan -> Scan {
    (st: Scan) => if Ok(st) then Boundary(st) else st
  }

  lemma {:induction false} RunIsWalk(st: Scan, bs: Bytes, off: nat, cuts: set<nat>)
    requires Ok(st)
    ensures RunFrom(st, bs, off, cuts) == Walk(Steps(), Cut(), st, bs, off, cuts)
    decreases bs
  {
    if bs != [] {
      RunIsWalk(Next(st, bs[0], off, cuts), bs[1..], off + 1, cuts);
    }
  }

  lemma {:induction false} ScanIsWalk(st: Scan, bs: Bytes)
    requires Ok(st)
    ensures ScanBytes(st, bs) == WalkAll(Steps(), st, bs)
    decreases bs
  {
    if bs != [] {
      ScanIsWalk(Step(st, bs[0]), bs[1..]);
    }
  }

  lemma {:induction false} ChunksAreWalked(st: Scan, chunks: seq<Bytes>)
    requires Ok(st)
    ensures RunChunks(st, chunks) == WalkChunks(Steps(), Cut(), st, chunks)
    decreases chunks
  {
    if chunks != [] {
      ScanIsWalk(st, chunks[0]);
      ChunksAreWalked(Boundary(ScanBytes(st, chunks[0])), chunks[1..]);
    }
  }

  lemma RunFromAppend(st: Scan, a: Bytes, b: Bytes, off: nat, cuts: set<nat>)
    requires Ok(st)
    ensures RunFrom(st, a + b, off, cuts) == RunFrom(RunFrom(st, a, off, cuts), b, off + |a|, cuts)
  {
    RunIsWalk(st, a + b, off, cuts);
    RunIsWalk(st, a, off, cuts);
    RunIsWalk(RunFrom(st, a, off, cuts), b, off + |a|, cuts);
    WalkAppend(Steps(), Cut(), st, a, b, off, cuts);
  }

  /** What is read off the state at the end of the stream. */
  function Outcome(): Scan -> (Option<Bytes>, map<Bytes, seq<Bytes>>) {
    (st: Scan) => (st.source, st.result)
  }

  /** Chunked parsing is scanning with the cuts that the chunks make. */
  lemma ParsedChunksAreCuts(chunks: seq<Bytes>)
    ensures Outcome()(RunChunks(START, chunks)) == Outcome()(RunFrom(START, Concat(chunks), 0, CutsOf(chunks, 0)))
  {
    assert Settles(Cut(), Outcome());
    ChunksAreWalked(START, chunks);
    RunIsWalk(START, Concat(chunks), 0, CutsOf(chunks, 0));
    ChunksAreCuts(Steps(), Cut(), Outcome(), START, chunks, 0);
  }

  lemma RunTwo(st: Scan, a: Bytes, mid: Scan, b: Bytes, end: Scan, off: nat, cuts: set<nat>)
    requires Ok(st) && RunFrom(st, a, off, cuts) == mid && RunFrom(mid, b, off + |a|, cuts) == end
    ensures RunFrom(st, a + b, off, cuts) == end
  {
    RunFromAppend(st, a, b, off, cuts);
  }

  /** A byte in a state that a chunk end does not change. */
  lemma RunOne(st: Scan, b: byte, off: nat, cuts: set<nat>)
    requires Ok(st) && Boundary(st) == st
    ensures RunFrom(st, [b], off, cuts) == Step(st, b)
  {
    assert [b][1..] == [];
  }

  // ------------------------------------------------- values survive every cut

  /** Inside a value that is being collected, outside strings. */
  predicate Inside(st: Scan) {
    Ok(st) && InValue(st.phase) && !st.inString && !st.escape
  }

  function Collected(st: Scan, bs: Bytes): Scan {
    st.(acc := st.acc + bs)
  }

  lemma {:induction false} ScanPlain(st: Scan, bs: Bytes, off: nat, cuts: set<nat>)
    requires Inside(st)
    requires forall b | b in bs :: b !in {QUOTE, LBRACKET, BACKSLASH, RBRACKET, LBRACE, RBRACE}
    ensures RunFrom(st, bs, off, cuts) == Collected(st, bs)
    decreases bs
  {
    if bs == [] {
      assert st.acc + bs == st.acc;
    } else {
      assert bs[0] in bs && forall b | b in bs[1..] :: b in bs;
      ScanPlain(Collected(st, [bs[0]]), bs[1..], off + 1, cuts);
      assert st.acc + bs == (st.acc + [bs[0]]) + bs[1..];
    }
  }

  lemma {:induction false} ScanBody(st: Scan, s: Bytes, off: nat, cuts: set<nat>)
    requires Ok(st) && InValue(st.phase) && st.inString && !st.escape && StringBody(s)
    ensures RunFrom(st, s, off, cuts) == Collected(st, s)
    decreases s
  {
    if s == [] {
      assert st.acc + s == st.acc;
    } else if s[0] == BACKSLASH {
      assert s[1..][1..] == s[2..];
      var escaped := Collected(st, [s[0]]).(escape := true);
      assert Step(escaped, s[1]) == Collected(Collected(st, [s[0]]), [s[1]]);
      ScanBody(Collected(Collected(st, [s[0]]), [s[1]]), s[2..], off + 2, cuts);
      assert st.acc + s == ((st.acc + [s[0]]) + [s[1]]) + s[2..];
    } else {
      ScanBody(Collected(st, [s[0]]), s[1..], off + 1, cuts);
      assert st.acc + s == (st.acc + [s[0]]) + s[1..];
    }
  }

  lemma ScanQuoted(st: Scan, body: Bytes, off: nat, cuts: set<nat>)
    requires Inside(st) && StringBody(body)
    ensures RunFrom(st, Quoted(body), off, cuts) == Collected(st, Quoted(body))
  {
    var entered := Collected(st, [QUOTE]).(inString := true);
    RunOne(st, QUOTE, off, cuts);
    ScanBody(entered, body, off + 1, cuts);
    RunOne(Collected(entered, body), QUOTE, off + 1 + |body|, cuts);
    RunFromAppend(st, [QUOTE], body, off, cuts);
    RunFromAppend(st, [QUOTE] + body, [QUOTE], off, cuts);
    assert ((st.acc + [QUOTE]) + body) + [QUOTE] == st.acc + Quoted(body);
  }

  /** The nesting depth first returns to where it was at the end of the value, and all of its bytes
      are collected, whatever the cuts. */
  lemma {:induction false} ScanValue(st: Scan, v: Json, off: nat, cuts: set<nat>)
    requires Inside(st) && Valid(v)
    ensures RunFrom(st, Print(v), off, cuts) == Collected(st, Print(v))
    decreases v, 1
  {
    match v
    case Scalar(text) => ScanPlain(st, text, off, cuts);
    case Str(body) => ScanQuoted(st, body, off, cuts);
    case Arr(items) =>
      OpeningNests(st, LBRACKET);
      ScanItems(Step(st, LBRACKET), items, off + 1, cuts);
      ScanClose(st, LBRACKET, PrintItems(items), RBRACKET, off, cuts);
    case Obj(members) =>
      OpeningNests(st, LBRACE);
      ScanMembers(Step(st, LBRACE), members, off + 1, cuts);
      ScanClose(st, LBRACE, PrintMembers(members), RBRACE, off, cuts);
  }

  lemma OpeningNests(st: Scan, open: byte)
    requires Inside(st) && Opens(open)
    ensures Inside(Step(st, open)) && Step(st, open) == Collected(st, [open]).(depth := st.depth + 1)
  {}

  lemma ScanClose(st: Scan, open: byte, inner: Bytes, close: byte, off: nat, cuts: set<nat>)
    requires Inside(st) && Opens(open) && Closes(close)
    requires RunFrom(Step(st, open), inner, off + 1, cuts) == Collected(Step(st, open), inner)
    ensures RunFrom(st, [open] + inner + [close], off, cuts) == Collected(st, [open] + inner + [close])
  {
    var began := Step(st, open);
    var full := Collected(began, inner);
    RunOne(st, open, off, cuts);
    RunTwo(st, [open], began, inner, full, off, cuts);
    RunOne(full, close, off + 1 + |inner|, cuts);
    RunTwo(st, [open] + inner, full, [close], Step(full, close), off, cuts);
    CloseCollects(st, open, inner, close);
  }

  lemma CloseCollects(st: Scan, open: byte, inner: Bytes, close: byte)
    requires Inside(st) && Opens(open) && Closes(close)
    ensures Step(Collected(Step(st, open), inner), close) == Collected(st, [open] + inner + [close])
  {
    assert ((st.acc + [open]) + inner) + [close] == st.acc + ([open] + inner + [close]);
  }

  lemma ScanJoin(st: Scan, a: Bytes, b: Bytes, off: nat, cuts: set<nat>)
    requires Inside(st)
    requires RunFrom(st, a, off, cuts) == Collected(st, a)
    requires RunFrom(Collected(st, a), b, off + |a|, cuts) == Collected(Collected(st, a), b)
    ensures RunFrom(st, a + b, off, cuts) == Collected(st, a + b)
  {
    RunTwo(st, a, Collected(st, a), b, Collected(Collected(st, a), b), off, cuts);
    assert (st.acc + a) + b == st.acc + (a + b);
  }

  lemma {:induction false} ScanItems(st: Scan, items: seq<Json>, off: nat, cuts: set<nat>)
    requires Inside(st) && ValidItems(items)
    ensures RunFrom(st, PrintItems(items), off, cuts) == Collected(st, PrintItems(items))
    decreases items, 0
  {
    if items == [] {
      assert st.acc + [] == st.acc;
    } else {
      var first := Print(items[0]);
      ScanValue(st, items[0], off, cuts);
      if |items| > 1 {
        ScanPlain(Collected(st, first), [COMMA], off + |first|, cuts);
        ScanJoin(st, first, [COMMA], off, cuts);
        ScanItems(Collected(st, first + [COMMA]), items[1..], off + |first| + 1, cuts);
        ScanJoin(st, first + [COMMA], PrintItems(items[1..]), off, cuts);
      }
    }
  }

  lemma ScanMember(st: Scan, m: Member, off: nat, cuts: set<nat>)
    requires Inside(st) && StringBody(m.name) && Valid(m.value)
    ensures RunFrom(st, PrintMember(m), off, cuts) == Collected(st, PrintMember(m))
    decreases m, 0
  {
    var name := Quoted(m.name);
    ScanQuoted(st, m.name, off, cuts);
    ScanPlain(Collected(st, name), [COLON], off + |name|, cuts);
    ScanJoin(st, name, [COLON], off, cuts);
    ScanValue(Collected(st, name + [COLON]), m.value, off + |name| + 1, cuts);
    ScanJoin(st, name + [COLON], Print(m.value), off, cuts);
  }

  lemma {:induction false} ScanMembers(st: Scan, members: seq<Member>, off: nat, cuts: set<nat>)
    requires Inside(st) && ValidMembers(members)
    ensures RunFrom(st, PrintMembers(members), off, cuts) == Collected(st, PrintMembers(members))
    decreases members, 0
  {
    if members == [] {
      assert st.acc + [] == st.acc;
    } else {
      var first := PrintMember(members[0]);
      ScanMember(st, members[0], off, cuts);
      if |members| > 1 {
        ScanPlain(Collected(st, first), [COMMA], off + |first|, cuts);
        ScanJoin(st, first, [COMMA], off, cuts);
        ScanMembers(Collected(st, first + [COMMA]), members[1..], off + |first| + 1, cuts);
        ScanJoin(st, first + [COMMA], PrintMembers(members[1..]), off, cuts);
      }
    }
  }

  // ------------------------------------------------- the payload

  datatype Field = Field(name: Bytes, items: seq<Json>)

  predicate Container(v: Json) {
    (v.Obj? || v.Arr?) && Valid(v)
  }

  /** A field name as the exporter writes it: not empty, and nothing in it needs escaping. */
  predicate PlainName(name: Bytes) {
    name != [] && forall b | b in name :: b != QUOTE && b != BACKSLASH
  }

  ghost predicate Exportable(source: Json, fields: seq<Field>) {
    && source.Obj? && Valid(source)
    && forall f | f in fields :: PlainName(f.name) && Containers(f.items)
  }

  const SOURCE_NAME: Bytes := Ascii("source")

  function PrintField(f: Field): Bytes {
    [COMMA] + Quoted(f.name) + [COLON, LBRACKET] + PrintItems(f.items) + [RBRACKET]
  }

  function PrintFields(fields: seq<Field>): Bytes {
    if fields == [] then [] else PrintField(fields[0]) + PrintFields(fields[1..])
  }

  function PrintHead(source: Json): Bytes {
    [LBRACE] + Quoted(SOURCE_NAME) + [COLON] + Print(source)
  }

  /** The text that the exporter streams to disk. */
  function PrintPayload(source: Json, fields: seq<Field>): Bytes {
    PrintHead(source) + PrintFields(fields) + [RBRACE]
  }

  function Texts(items: seq<Json>): seq<Bytes> {
    if items == [] then [] else [Print(items[0])] + Texts(items[1..])
  }

  function AddTexts(result: map<Bytes, seq<Bytes>>, name: Bytes, texts: seq<Bytes>): map<Bytes, seq<Bytes>> {
    result[name := (if name in result then result[name] else []) + texts]
  }

  /** Some chunk ends after the opening quote of a name that starts at `start`, and before its end. */
  predicate CutWithin(name: Bytes, start: nat, cuts: set<nat>) {
    exists c | c in cuts :: start <= c <= start + |name|
  }

  /** The name that the parser reads. */
  function NameSeen(name: Bytes, start: nat, cuts: set<nat>): Bytes {
    if CutWithin(name, start, cuts) then [] else name
  }

  /** The fields as the parser sees them, the first one printed at `off`: a name that is cut reads
      as the empty name. */
  function FieldsSeen(result: map<Bytes, seq<Bytes>>, fields: seq<Field>, off: nat, cuts: set<nat>)
    : map<Bytes, seq<Bytes>>
    decreases fields
  {
    if fields == [] then result
    else
      var f := fields[0];
      var name := NameSeen(f.name, off + 2, cuts);
      FieldsSeen(AddTexts(result, name, Texts(f.items)), fields[1..], off + |PrintField(f)|, cuts)
  }

  /** Waiting for the next name. */
  predicate AtName(st: Scan) {
    Ok(st) && st.phase == Key && !st.inString && !st.escape && !st.collecting
  }

  lemma {:induction false} ScanNameKept(st: Scan, name: Bytes, off: nat, cuts: set<nat>)
    requires Ok(st) && st.phase == Key && st.inString && !st.escape && st.collecting
    requires forall b | b in name :: b != QUOTE && b != BACKSLASH
    requires !CutWithin(name, off, cuts)
    ensures RunFrom(st, name + [QUOTE], off, cuts)
         == st.(inString := false, key := st.acc + name, acc := [], collecting := false, phase := Colon)
    decreases name
  {
    var text := name + [QUOTE];
    assert off !in cuts;
    if name == [] {
      assert text[1..] == [] && st.acc + name == st.acc;
    } else {
      assert name[0] in name && forall b | b in name[1..] :: b in name;
      assert text[1..] == name[1..] + [QUOTE];
      ScanNameKept(Collected(st, [name[0]]), name[1..], off + 1, cuts);
      assert st.acc + name == (st.acc + [name[0]]) + name[1..];
    }
  }

  lemma {:induction false} ScanNameLost(st: Scan, name: Bytes, off: nat, cuts: set<nat>)
    requires Ok(st) && st.phase == Key && st.inString && !st.escape
    requires forall b | b in name :: b != QUOTE && b != BACKSLASH
    requires st.collecting ==> CutWithin(name, off, cuts)
    ensures RunFrom(st, name + [QUOTE], off, cuts)
         == st.(inString := false, key := [], acc := [], collecting := false, phase := Colon)
    decreases name
  {
    var text := name + [QUOTE];
    var here := if off in cuts then Boundary(st) else st;
    if name == [] {
      assert text[1..] == [];
    } else {
      assert name[0] in name && forall b | b in name[1..] :: b in name;
      assert text[1..] == name[1..] + [QUOTE];
      ScanNameLost(Keep(here, name[0]), name[1..], off + 1, cuts);
    }
  }

  lemma ScanName(st: Scan, name: Bytes, off: nat, cuts: set<nat>)
    requires AtName(st)
    requires forall b | b in name :: b != QUOTE && b != BACKSLASH
    ensures RunFrom(st, Quoted(name), off, cuts)
         == st.(key := NameSeen(name, off + 1, cuts), phase := Colon)
  {
    var entered := st.(inString := true, collecting := true);
    assert Quoted(name)[1..] == name + [QUOTE];
    assert Boundary(st) == st;
    if CutWithin(name, off + 1, cuts) {
      ScanNameLost(entered, name, off + 1, cuts);
    } else {
      ScanNameKept(entered, name, off + 1, cuts);
      assert [] + name == name;
    }
  }

  /** A container's closing byte ends the value that its opening byte began. */
  lemma ScanBrackets(st: Scan, began: Scan, open: byte, inner: Bytes, close: byte, off: nat, cuts: set<nat>)
    requires Ok(st) && Boundary(st) == st && began == Step(st, open) && InValue(began.phase)
    requires RunFrom(began, inner, off + 1, cuts) == Collected(began, inner)
    ensures RunFrom(st, [open] + inner + [close], off, cuts) == Step(Collected(began, inner), close)
  {
    RunOne(st, open, off, cuts);
    RunTwo(st, [open], began, inner, Collected(began, inner), off, cuts);
    RunOne(Collected(began, inner), close, off + 1 + |inner|, cuts);
    RunTwo(st, [open] + inner, Collected(began, inner), [close], Step(Collected(began, inner), close), off, cuts);
  }

  /** A state between values. */
  predicate Between(st: Scan) {
    Ok(st) && !st.inString && !st.escape && !st.collecting
  }

  /** The state after a container that is a top-level value: it is extracted whole. */
  function Extracted(st: Scan, v: Json): Scan
    requires Between(st) && (st.phase == ArrayBody || st.phase == ValueStart)
  {
    if st.phase == ArrayBody then
      st.(depth := 0, result := st.result[st.key := st.result[st.key] + [Print(v)]])
    else st.(depth := 0, source := Some(Print(v)), phase := Key)
  }

  lemma ScanContainer(st: Scan, v: Json, off: nat, cuts: set<nat>)
    requires Between(st) && Container(v)
    requires st.phase == ArrayBody || (st.phase == ValueStart && v.Obj?)
    ensures RunFrom(st, Print(v), off, cuts) == Extracted(st, v)
  {
    if v.Arr? {
      var began := Step(st, LBRACKET);
      ScanItems(began, v.items, off + 1, cuts);
      ScanBrackets(st, began, LBRACKET, PrintItems(v.items), RBRACKET, off, cuts);
    } else {
      var began := Step(st, LBRACE);
      ScanMembers(began, v.members, off + 1, cuts);
      ScanBrackets(st, began, LBRACE, PrintMembers(v.members), RBRACE, off, cuts);
    }
  }

  /** The state after the elements of an array. */
  function WithElements(st: Scan, items: seq<Json>): Scan {
    st.(depth := if items == [] then st.depth else 0, result := AddTexts(st.result, st.key, Texts(items)))
  }

  lemma WithElementsStep(st: Scan, items: seq<Json>)
    requires Between(st) && st.phase == ArrayBody && items != []
    ensures WithElements(st, items) == WithElements(Extracted(st, items[0]), items[1..])
  {
    var texts := st.result[st.key];
    assert (texts + [Print(items[0])]) + Texts(items[1..]) == texts + Texts(items);
  }

  /** One element and the comma after it. */
  lemma ScanElementAndComma(st: Scan, v: Json, off: nat, cuts: set<nat>)
    requires Between(st) && st.phase == ArrayBody && Container(v)
    ensures RunFrom(st, Print(v) + [COMMA], off, cuts) == Extracted(st, v)
    ensures Between(Extracted(st, v)) && Extracted(st, v).phase == ArrayBody
  {
    var next := Extracted(st, v);
    ScanContainer(st, v, off, cuts);
    RunOne(next, COMMA, off + |Print(v)|, cuts);
    RunTwo(st, Print(v), next, [COMMA], next, off, cuts);
  }

  lemma LastElement(st: Scan, v: Json)
    requires Between(st) && st.phase == ArrayBody
    ensures WithElements(st, [v]) == Extracted(st, v)
  {
    assert [v][1..] == [] && Texts([v]) == [Print(v)];
  }

  lemma NoElements(st: Scan)
    requires Between(st) && st.phase == ArrayBody
    ensures WithElements(st, []) == st
  {
    assert st.result[st.key] + [] == st.result[st.key];
  }

  lemma ScanLastElement(st: Scan, items: seq<Json>, off: nat, cuts: set<nat>)
    requires Between(st) && st.phase == ArrayBody && |items| == 1 && Container(items[0])
    ensures RunFrom(st, PrintItems(items), off, cuts) == WithElements(st, items)
  {
    ScanContainer(st, items[0], off, cuts);
    LastElement(st, items[0]);
    assert items == [items[0]];
  }

  lemma NoElementsAreScanned(st: Scan, off: nat, cuts: set<nat>)
    requires Between(st) && st.phase == ArrayBody
    ensures RunFrom(st, PrintItems([]), off, cuts) == WithElements(st, [])
  {
    NoElements(st);
  }

  lemma JoinElements(st: Scan, items: seq<Json>, off: nat, cuts: set<nat>)
    requires Between(st) && st.phase == ArrayBody && |items| > 1
    requires RunFrom(st, Print(items[0]) + [COMMA], off, cuts) == Extracted(st, items[0])
    requires RunFrom(Extracted(st, items[0]), PrintItems(items[1..]), off + |Print(items[0])| + 1, cuts)
          == WithElements(Extracted(st, items[0]), items[1..])
    ensures RunFrom(st, PrintItems(items), off, cuts) == WithElements(st, items)
  {
    var next := Extracted(st, items[0]);
    WithElementsStep(st, items);
    RunTwo(st, Print(items[0]) + [COMMA], next, PrintItems(items[1..]), WithElements(next, items[1..]), off, cuts);
  }

  lemma ExtractedElement(st: Scan, v: Json)
    requires Between(st) && st.phase == ArrayBody
    ensures Between(Extracted(st, v)) && Extracted(st, v).phase == ArrayBody
  {}

  lemma OneMoreElement(st: Scan, items: seq<Json>, off: nat, cuts: set<nat>)
    requires Between(st) && st.phase == ArrayBody && |items| > 1 && Container(items[0])
    requires RunFrom(Extracted(st, items[0]), PrintItems(items[1..]), off + |Print(items[0])| + 1, cuts)
          == WithElements(Extracted(st, items[0]), items[1..])
    ensures RunFrom(st, PrintItems(items), off, cuts) == WithElements(st, items)
  {
    ScanElementAndComma(st, items[0], off, cuts);
    JoinElements(st, items, off, cuts);
  }

  lemma {:induction false} ScanElements(st: Scan, items: seq<Json>, off: nat, cuts: set<nat>)
    requires Between(st) && st.phase == ArrayBody && Containers(items)
    ensures RunFrom(st, PrintItems(items), off, cuts) == WithElements(st, items)
    decreases items
  {
    if items == [] {
      NoElementsAreScanned(st, off, cuts);
    } else if |items| == 1 {
      ContainersTail(items);
      ScanLastElement(st, items, off, cuts);
    } else {
      ContainersTail(items);
      ExtractedElement(st, items[0]);
      ScanElements(Extracted(st, items[0]), items[1..], off + |Print(items[0])| + 1, cuts);
      OneMoreElement(st, items, off, cuts);
    }
  }

  ghost predicate Containers(items: seq<Json>) {
    forall v | v in items :: Container(v)
  }

  lemma ContainersTail(items: seq<Json>)
    requires Containers(items) && items != []
    ensures Container(items[0]) && Containers(items[1..])
  {
    assert items[0] in items && forall v | v in items[1..] :: v in items;
  }

  /** `:[`, the elements, `]`. */
  lemma ScanArray(st: Scan, items: seq<Json>, off: nat, cuts: set<nat>)
    requires Between(st) && st.phase == Colon && Containers(items)
    ensures var r := RunFrom(st, [COLON, LBRACKET] + PrintItems(items) + [RBRACKET], off, cuts);
            r == st.(phase := Key, depth := r.depth, result := AddTexts(st.result, st.key, Texts(items)))
  {
    var inArray := Step(st.(phase := ValueStart), LBRACKET);
    var full := WithElements(inArray, items);
    ScanArrayStart(st, off, cuts);
    ScanElements(inArray, items, off + 2, cuts);
    RunTwo(st, [COLON, LBRACKET], inArray, PrintItems(items), full, off, cuts);
    RunOne(full, RBRACKET, off + 2 + |PrintItems(items)|, cuts);
    RunTwo(st, [COLON, LBRACKET] + PrintItems(items), full, [RBRACKET], full.(phase := Key), off, cuts);
    StartedArrayTexts(st, Texts(items));
  }

  lemma ScanArrayStart(st: Scan, off: nat, cuts: set<nat>)
    requires Between(st) && st.phase == Colon
    ensures var inArray := Step(st.(phase := ValueStart), LBRACKET);
            RunFrom(st, [COLON, LBRACKET], off, cuts) == inArray && Between(inArray) && inArray.phase == ArrayBody
  {
    var started := st.(phase := ValueStart);
    RunOne(st, COLON, off, cuts);
    RunOne(started, LBRACKET, off + 1, cuts);
    RunTwo(st, [COLON], started, [LBRACKET], Step(started, LBRACKET), off, cuts);
    assert [COLON] + [LBRACKET] == [COLON, LBRACKET];
  }

  lemma StartedArrayTexts(st: Scan, texts: seq<Bytes>)
    requires Between(st) && st.phase == Colon
    ensures AddTexts(Step(st.(phase := ValueStart), LBRACKET).result, st.key, texts)
      == AddTexts(st.result, st.key, texts)
  {
    assert [] + texts == texts;
  }

  /** One field: its texts go under its name, or under the empty name when the name is cut. */
  lemma ScanField(st: Scan, f: Field, off: nat, cuts: set<nat>)
    requires AtName(st) && PlainName(f.name) && Containers(f.items)
    ensures var name := NameSeen(f.name, off + 2, cuts);
            var r := RunFrom(st, PrintField(f), off, cuts);
            r == st.(key := name, depth := r.depth, result := AddTexts(st.result, name, Texts(f.items)))
  {
    var named := st.(key := NameSeen(f.name, off + 2, cuts), phase := Colon);
    var p, q := [COMMA] + Quoted(f.name), [COLON, LBRACKET] + PrintItems(f.items) + [RBRACKET];
    ScanFieldName(st, f.name, off, cuts);
    ScanArray(named, f.items, off + |p|, cuts);
    RunTwo(st, p, named, q, RunFrom(named, q, off + |p|, cuts), off, cuts);
    FieldIsTwoParts(f);
  }

  lemma ScanFieldName(st: Scan, name: Bytes, off: nat, cuts: set<nat>)
    requires AtName(st) && PlainName(name)
    ensures RunFrom(st, [COMMA] + Quoted(name), off, cuts) == st.(key := NameSeen(name, off + 2, cuts), phase := Colon)
  {
    RunOne(st, COMMA, off, cuts);
    ScanName(st, name, off + 1, cuts);
    RunTwo(st, [COMMA], st, Quoted(name), st.(key := NameSeen(name, off + 2, cuts), phase := Colon), off, cuts);
  }

  lemma FieldIsTwoParts(f: Field)
    ensures PrintField(f) == ([COMMA] + Quoted(f.name)) + ([COLON, LBRACKET] + PrintItems(f.items) + [RBRACKET])
  {}

  lemma ScanOneField(st: Scan, f: Field, off: nat, cuts: set<nat>)
    requires AtName(st) && PlainName(f.name) && Containers(f.items)
    ensures var r := RunFrom(st, PrintField(f), off, cuts);
            && AtName(r) && r.source == st.source
            && r.result == AddTexts(st.result, NameSeen(f.name, off + 2, cuts), Texts(f.items))
  {
    ScanField(st, f, off, cuts);
  }

  lemma FieldsJoin(st: Scan, f: Field, rest: seq<Field>, off: nat, cuts: set<nat>)
    requires Ok(st)
    ensures RunFrom(st, PrintField(f) + PrintFields(rest), off, cuts)
         == RunFrom(RunFrom(st, PrintField(f), off, cuts), PrintFields(rest), off + |PrintField(f)|, cuts)
  {
    var next := RunFrom(st, PrintField(f), off, cuts);
    RunTwo(st, PrintField(f), next, PrintFields(rest), RunFrom(next, PrintFields(rest), off + |PrintField(f)|, cuts),
           off, cuts);
  }

  /** What a run of fields leaves behind. */
  ghost predicate AfterFields(before: Scan, after: Scan, fields: seq<Field>, off: nat, cuts: set<nat>) {
    AtName(after) && after.source == before.source && after.result == FieldsSeen(before.result, fields, off, cuts)
  }

  ghost predicate ExportableFields(fields: seq<Field>) {
    forall f | f in fields :: PlainName(f.name) && Containers(f.items)
  }

  lemma FieldsTail(fields: seq<Field>)
    requires ExportableFields(fields) && fields != []
    ensures PlainName(fields[0].name) && Containers(fields[0].items) && ExportableFields(fields[1..])
  {
    assert fields[0] in fields && forall g | g in fields[1..] :: g in fields;
  }

  lemma AfterOneMore(st: Scan, next: Scan, after: Scan, fields: seq<Field>, off: nat, cuts: set<nat>)
    requires fields != [] && next.source == st.source
    requires next.result == AddTexts(st.result, NameSeen(fields[0].name, off + 2, cuts), Texts(fields[0].items))
    requires AfterFields(next, after, fields[1..], off + |PrintField(fields[0])|, cuts)
    ensures AfterFields(st, after, fields, off, cuts)
  {}

  lemma {:induction false} ScanFields(st: Scan, fields: seq<Field>, off: nat, cuts: set<nat>)
    requires AtName(st) && ExportableFields(fields)
    ensures AfterFields(st, RunFrom(st, PrintFields(fields), off, cuts), fields, off, cuts)
    decreases fields
  {
    if fields != [] {
      var f, rest := fields[0], fields[1..];
      var next := RunFrom(st, PrintField(f), off, cuts);
      FieldsTail(fields);
      ScanOneField(st, f, off, cuts);
      ScanFields(next, rest, off + |PrintField(f)|, cuts);
      FieldsJoin(st, f, rest, off, cuts);
      AfterOneMore(st, next, RunFrom(st, PrintFields(fields), off, cuts), fields, off, cuts);
    }
  }

  /** Up to the source object. */
  lemma ScanSourceName(cuts: set<nat>) returns (started: Scan)
    ensures started == RunFrom(START, [LBRACE] + Quoted(SOURCE_NAME) + [COLON], 0, cuts)
    ensures Between(started) && started.phase == ValueStart && started.result == map[]
  {
    var begun := START.(phase := Key);
    var p := [LBRACE] + Quoted(SOURCE_NAME);
    RunOne(START, LBRACE, 0, cuts);
    assert forall b | b in SOURCE_NAME :: b != QUOTE && b != BACKSLASH;
    ScanName(begun, SOURCE_NAME, 1, cuts);
    var named := begun.(key := NameSeen(SOURCE_NAME, 2, cuts), phase := Colon);
    RunTwo(START, [LBRACE], begun, Quoted(SOURCE_NAME), named, 0, cuts);
    started := named.(phase := ValueStart);
    RunOne(named, COLON, |p|, cuts);
    RunTwo(START, p, named, [COLON], started, 0, cuts);
  }

  lemma ScanHead(source: Json, cuts: set<nat>)
    requires source.Obj? && Valid(source)
    ensures var r := RunFrom(START, PrintHead(source), 0, cuts);
            AtName(r) && r.source == Some(Print(source)) && r.result == map[]
  {
    var p := [LBRACE] + Quoted(SOURCE_NAME) + [COLON];
    var started := ScanSourceName(cuts);
    ScanContainer(started, source, |p|, cuts);
    RunTwo(START, p, started, Print(source), Extracted(started, source), 0, cuts);
  }

  /** The result of parsing a printed payload, for every way of cutting it into chunks. */
  lemma ParseOfPrinted(source: Json, fields: seq<Field>, chunks: seq<Bytes>)
    requires Exportable(source, fields) && Concat(chunks) == PrintPayload(source, fields)
    ensures Finish(RunChunks(START, chunks))
         == Payload(Some(Print(source)),
                    Complete(FieldsSeen(map[], fields, |PrintHead(source)|, CutsOf(chunks, 0))))
  {
    var cuts := CutsOf(chunks, 0);
    var head, body := PrintHead(source), PrintFields(fields);
    ParsedChunksAreCuts(chunks);
    ScanHead(source, cuts);
    var afterHead := RunFrom(START, head, 0, cuts);
    ScanFields(afterHead, fields, |head|, cuts);
    var afterBody := RunFrom(afterHead, body, |head|, cuts);
    RunTwo(START, head, afterHead, body, afterBody, 0, cuts);
    RunOne(afterBody, RBRACE, |head + body|, cuts);
    RunTwo(START, head + body, afterBody, [RBRACE], afterBody, 0, cuts);
  }

  // ------------------------------------------------- exactly when the round trip is exact

  /** What was printed: every field under its own name, the missing array fields empty. */
  function Original(source: Json, fields: seq<Field>): Payload {
    Payload(Some(Print(source)), Complete(FieldsSeen(map[], fields, 0, {})))
  }

  /** Some chunk ends inside the name of a field; the first field is printed at `off`. */
  predicate CutsFieldName(fields: seq<Field>, off: nat, cuts: set<nat>) {
    fields != []
    && (CutWithin(fields[0].name, off + 2, cuts)
        || CutsFieldName(fields[1..], off + |PrintField(fields[0])|, cuts))
  }

  lemma {:induction false} FieldsSeenUncut(result: map<Bytes, seq<Bytes>>, fields: seq<Field>, off: nat, cuts: set<nat>,
                                           off': nat)
    requires !CutsFieldName(fields, off, cuts)
    ensures FieldsSeen(result, fields, off, cuts) == FieldsSeen(result, fields, off', {})
    decreases fields
  {
    if fields != [] {
      var f := fields[0];
      FieldsSeenUncut(AddTexts(result, f.name, Texts(f.items)), fields[1..],
                      off + |PrintField(f)|, cuts, off' + |PrintField(f)|);
    }
  }

  lemma {:induction false} EmptyNameSeen(result: map<Bytes, seq<Bytes>>, fields: seq<Field>, off: nat, cuts: set<nat>)
    requires forall f | f in fields :: PlainName(f.name)
    ensures [] in FieldsSeen(result, fields, off, cuts) <==> [] in result || CutsFieldName(fields, off, cuts)
    decreases fields
  {
    if fields != [] {
      var f := fields[0];
      assert f in fields && forall g | g in fields[1..] :: g in fields;
      var name := if CutWithin(f.name, off + 2, cuts) then [] else f.name;
      EmptyNameSeen(AddTexts(result, name, Texts(f.items)), fields[1..], off + |PrintField(f)|, cuts);
    }
  }

  lemma {:induction false} NoCutsNoCutName(fields: seq<Field>, off: nat)
    ensures !CutsFieldName(fields, off, {})
    decreases fields
  {
    if fields != [] {
      NoCutsNoCutName(fields[1..], off + |PrintField(fields[0])|);
    }
  }

  /** Streaming undoes printing exactly when no chunk ends inside the name of a field. */
  lemma RoundTripIff(source: Json, fields: seq<Field>, chunks: seq<Bytes>)
    requires Exportable(source, fields) && Concat(chunks) == PrintPayload(source, fields)
    ensures Finish(RunChunks(START, chunks)) == Original(source, fields)
       <==> !CutsFieldName(fields, |PrintHead(source)|, CutsOf(chunks, 0))
  {
    var off, cuts := |PrintHead(source)|, CutsOf(chunks, 0);
    ParseOfPrinted(source, fields, chunks);
    if CutsFieldName(fields, off, cuts) {
      EmptyNameSeen(map[], fields, off, cuts);
      EmptyNameSeen(map[], fields, 0, {});
      NoCutsNoCutName(fields, 0);
      assert forall k | k in ARRAY_FIELD_NAMES :: |k| > 0;
      assert [] in Complete(FieldsSeen(map[], fields, off, cuts));
      assert [] !in Complete(FieldsSeen(map[], fields, 0, {}));
    } else {
      FieldsSeenUncut(map[], fields, off, cuts, 0);
    }
  }

  // ------------------------------------------------- what the original holds

  predicate DistinctNames(fields: seq<Field>) {
    forall i, j | 0 <= i < j < |fields| :: fields[i].name != fields[j].name
  }

  lemma {:induction false} FieldsSeenOther(result: map<Bytes, seq<Bytes>>, fields: seq<Field>, off: nat, k: Bytes)
    requires forall f | f in fields :: f.name != k
    ensures var seen := FieldsSeen(result, fields, off, {});
            (k in seen <==> k in result) && (k in seen ==> seen[k] == result[k])
    decreases fields
  {
    if fields != [] {
      var f := fields[0];
      assert f in fields && forall g | g in fields[1..] :: g in fields;
      FieldsSeenOther(AddTexts(result, f.name, Texts(f.items)), fields[1..], off + |PrintField(f)|, k);
    }
  }

  lemma {:induction false} FieldsSeenOwn(result: map<Bytes, seq<Bytes>>, fields: seq<Field>, off: nat, i: nat)
    requires DistinctNames(fields) && i < |fields| && fields[i].name !in result
    ensures var seen := FieldsSeen(result, fields, off, {});
            fields[i].name in seen && seen[fields[i].name] == Texts(fields[i].items)
    decreases fields
  {
    var f, rest := fields[0], fields[1..];
    var next := AddTexts(result, f.name, Texts(f.items));
    if i == 0 {
      assert [] + Texts(f.items) == Texts(f.items);
      FieldsSeenOther(next, rest, off + |PrintField(f)|, f.name);
    } else {
      assert rest[i - 1] == fields[i];
      FieldsSeenOwn(next, rest, off + |PrintField(f)|, i - 1);
    }
  }

  /** With distinct names: each field holds the printed texts of its own elements in order, all
      eleven array fields are there, and there is nothing else. */
  lemma OriginalHolds(source: Json, fields: seq<Field>)
    requires DistinctNames(fields)
    ensures var original := Original(source, fields);
            && original.source == Some(Print(source))
            && (forall f | f in fields :: f.name in original.fields && original.fields[f.name] == Texts(f.items))
            && (forall k | k in ARRAY_FIELD_NAMES :: k in original.fields)
            && (forall k | k in original.fields ::
                  || (exists f :: f in fields && f.name == k)
                  || (k in ARRAY_FIELD_NAMES && original.fields[k] == []))
  {
    forall f | f in fields
      ensures f.name in Original(source, fields).fields && Original(source, fields).fields[f.name] == Texts(f.items)
    {
      var i :| 0 <= i < |fields| && fields[i] == f;
      FieldsSeenOwn(map[], fields, 0, i);
    }
    forall k | k in Original(source, fields).fields && !exists f :: f in fields && f.name == k
      ensures k in ARRAY_FIELD_NAMES && Original(source, fields).fields[k] == []
    {
      FieldsSeenOther(map[], fields, 0, k);
    }
  }

  // ------------------------------------------------- where the elements of a cut field end up

  /** Where field `i` is printed, the first one being printed at `off`. */
  function FieldStart(fields: seq<Field>, off: nat, i: nat): nat
    requires i < |fields|
    decreases fields
  {
    if i == 0 then off else FieldStart(fields[1..], off + |PrintField(fields[0])|, i - 1)
  }

  /** Some chunk ends inside the name of field `i`. */
  predicate NameCut(fields: seq<Field>, off: nat, cuts: set<nat>, i: nat)
    requires i < |fields|
  {
    CutWithin(fields[i].name, FieldStart(fields, off, i) + 2, cuts)
  }

  /** What one field adds under the empty name. */
  function Stray(f: Field, off: nat, cuts: set<nat>): seq<Bytes> {
    if CutWithin(f.name, off + 2, cuts) then Texts(f.items) else []
  }

  /** The elements of all fields whose names are cut, in the order of the text. */
  function Strays(fields: seq<Field>, off: nat, cuts: set<nat>): seq<Bytes>
    decreases fields
  {
    if fields == [] then []
    else Stray(fields[0], off, cuts) + Strays(fields[1..], off + |PrintField(fields[0])|, cuts)
  }

  function Under(result: map<Bytes, seq<Bytes>>, name: Bytes): seq<Bytes> {
    if name in result then result[name] else []
  }

  lemma StrayStep(result: map<Bytes, seq<Bytes>>, f: Field, off: nat, cuts: set<nat>)
    requires f.name != []
    ensures Under(AddTexts(result, NameSeen(f.name, off + 2, cuts), Texts(f.items)), [])
         == Under(result, []) + Stray(f, off, cuts)
  {
    assert Under(result, []) + [] == Under(result, []);
  }

  lemma Regroup(a: seq<Bytes>, b: seq<Bytes>, c: seq<Bytes>)
    ensures (a + b) + c == a + (b + c)
  {}

  lemma {:induction false} StraysAreUnnamed(result: map<Bytes, seq<Bytes>>, fields: seq<Field>, off: nat,
                                            cuts: set<nat>)
    requires forall f | f in fields :: f.name != []
    ensures Under(FieldsSeen(result, fields, off, cuts), []) == Under(result, []) + Strays(fields, off, cuts)
    decreases fields
  {
    if fields == [] {
      assert Under(result, []) + [] == Under(result, []);
    } else {
      var f, rest, after := fields[0], fields[1..], off + |PrintField(fields[0])|;
      assert f in fields && forall g | g in rest :: g in fields;
      StrayStep(result, f, off, cuts);
      StraysAreUnnamed(AddTexts(result, NameSeen(f.name, off + 2, cuts), Texts(f.items)), rest, after, cuts);
      Regroup(Under(result, []), Stray(f, off, cuts), Strays(rest, after, cuts));
    }
  }

  lemma {:induction false} SeenElsewhere(result: map<Bytes, seq<Bytes>>, fields: seq<Field>, off: nat, cuts: set<nat>,
                                         k: Bytes)
    requires k != [] && forall f | f in fields :: f.name != k
    ensures var seen := FieldsSeen(result, fields, off, cuts);
            (k in seen <==> k in result) && (k in seen ==> seen[k] == result[k])
    decreases fields
  {
    if fields != [] {
      var f := fields[0];
      assert f in fields && forall g | g in fields[1..] :: g in fields;
      SeenElsewhere(AddTexts(result, NameSeen(f.name, off + 2, cuts), Texts(f.items)), fields[1..],
                    off + |PrintField(f)|, cuts, k);
    }
  }

  lemma SeenFirst(result: map<Bytes, seq<Bytes>>, fields: seq<Field>, off: nat, cuts: set<nat>)
    requires DistinctNames(fields) && fields != [] && fields[0].name != [] && fields[0].name !in result
    ensures var seen := FieldsSeen(result, fields, off, cuts);
            && (fields[0].name in seen <==> !CutWithin(fields[0].name, off + 2, cuts))
            && (fields[0].name in seen ==> seen[fields[0].name] == Texts(fields[0].items))
  {
    var f, rest := fields[0], fields[1..];
    assert [] + Texts(f.items) == Texts(f.items);
    SeenElsewhere(AddTexts(result, NameSeen(f.name, off + 2, cuts), Texts(f.items)), rest,
                  off + |PrintField(f)|, cuts, f.name);
  }

  lemma {:induction false} SeenUnlessCut(result: map<Bytes, seq<Bytes>>, fields: seq<Field>, off: nat, cuts: set<nat>,
                                         i: nat)
    requires DistinctNames(fields) && i < |fields| && fields[i].name != [] && fields[i].name !in result
    ensures var seen := FieldsSeen(result, fields, off, cuts);
            && (fields[i].name in seen <==> !NameCut(fields, off, cuts, i))
            && (fields[i].name in seen ==> seen[fields[i].name] == Texts(fields[i].items))
    decreases fields
  {
    if i == 0 {
      SeenFirst(result, fields, off, cuts);
    } else {
      var f, rest := fields[0], fields[1..];
      assert rest[i - 1] == fields[i];
      SeenUnlessCut(AddTexts(result, NameSeen(f.name, off + 2, cuts), Texts(f.items)), rest,
                    off + |PrintField(f)|, cuts, i - 1);
    }
  }

  lemma SeenAfterAll(fields: seq<Field>, off: nat, cuts: set<nat>, i: nat)
    requires DistinctNames(fields) && i < |fields| && fields[i].name != []
    ensures var completed := Complete(FieldsSeen(map[], fields, off, cuts));
            && Under(completed, fields[i].name)
              == (if NameCut(fields, off, cuts, i) then [] else Texts(fields[i].items))
            && (NameCut(fields, off, cuts, i) ==>
                (fields[i].name in completed <==> fields[i].name in ARRAY_FIELD_NAMES))
  {
    SeenUnlessCut(map[], fields, off, cuts, i);
  }

  lemma StraysAfterAll(fields: seq<Field>, off: nat, cuts: set<nat>)
    requires forall f | f in fields :: f.name != []
    ensures Under(Complete(FieldsSeen(map[], fields, off, cuts)), []) == Strays(fields, off, cuts)
  {
    StraysAreUnnamed(map[], fields, off, cuts);
    assert [] + Strays(fields, off, cuts) == Strays(fields, off, cuts);
    assert forall k | k in ARRAY_FIELD_NAMES :: |k| > 0;
  }

  /** What parsing makes of the fields, for every way of cutting: a field keeps exactly its own elements unless
      its name is cut; then it is empty, or missing if it is none of the eleven, and its elements turn up under
      the empty name, after those of the fields cut before it. */
  lemma CutFieldsGoAstray(source: Json, fields: seq<Field>, chunks: seq<Bytes>)
    requires Exportable(source, fields) && Concat(chunks) == PrintPayload(source, fields) && DistinctNames(fields)
    ensures var off, cuts := |PrintHead(source)|, CutsOf(chunks, 0);
            var parsed := Finish(RunChunks(START, chunks)).fields;
            && Under(parsed, []) == Strays(fields, off, cuts)
            && (forall i | 0 <= i < |fields| :: Under(parsed, fields[i].name)
                  == if NameCut(fields, off, cuts, i) then [] else Texts(fields[i].items))
            && (forall i | 0 <= i < |fields| && NameCut(fields, off, cuts, i) ::
                  fields[i].name in parsed <==> fields[i].name in ARRAY_FIELD_NAMES)
  {
    var off, cuts := |PrintHead(source)|, CutsOf(chunks, 0);
    ParseOfPrinted(source, fields, chunks);
    StraysAfterAll(fields, off, cuts);
    forall i | 0 <= i < |fields|
      ensures var completed := Complete(FieldsSeen(map[], fields, off, cuts));
              && Under(completed, fields[i].name)
                == (if NameCut(fields, off, cuts, i) then [] else Texts(fields[i].items))
              && (NameCut(fields, off, cuts, i) ==>
                  (fields[i].name in completed <==> fields[i].name in ARRAY_FIELD_NAMES))
    {
      assert fields[i] in fields;
      SeenAfterAll(fields, off, cuts, i);
    }
  }

  /** A chunk that ends after the opening quote of a name: the field is empty, and its element is under the
      empty name. */
  lemma CutNameExample()
    ensures var name := Ascii("turns");
            var source, fields := Obj([]), [Field(name, [Obj([])])];
            var text := PrintPayload(source, fields);
            var chunks := [text[..|PrintHead(source)| + 2], text[|PrintHead(source)| + 2..]];
            var parsed := Finish(RunChunks(START, chunks)).fields;
            && Exportable(source, fields) && Concat(chunks) == text
            && Under(parsed, []) == [[LBRACE, RBRACE]] && name in parsed && parsed[name] == []
  {
    var name := Ascii("turns");
    var source, fields := Obj([]), [Field(name, [Obj([])])];
    var text := PrintPayload(source, fields);
    var n := |PrintHead(source)| + 2;
    var chunks := [text[..n], text[n..]];
    assert Concat(chunks) == text by {
      assert Concat(chunks[1..]) == text[n..] + Concat([]);
    }
    assert Container(Obj([]));
    assert n in CutsOf(chunks, 0);
    CutFieldsGoAstray(source, fields, chunks);
    assert NameCut(fields, |PrintHead(source)|, CutsOf(chunks, 0), 0);
    CutElement(fields[0].items, fields, |PrintHead(source)|, CutsOf(chunks, 0));
  }

  lemma CutElement(items: seq<Json>, fields: seq<Field>, off: nat, cuts: set<nat>)
    requires items == [Obj([])] && |fields| == 1 && fields[0].items == items && CutWithin(fields[0].name, off + 2, cuts)
    ensures Strays(fields, off, cuts) == [[LBRACE, RBRACE]]
  {
    assert Texts(items[1..]) == [] && Strays(fields[1..], off + |PrintField(fields[0])|, cuts) == [];
    assert Print(items[0]) == [LBRACE, RBRACE];
  }
}
