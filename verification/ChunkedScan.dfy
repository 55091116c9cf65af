/** Scanning a text that arrives in chunks, for any state, any step over a byte and any effect that the end
    of a chunk has on the state. */
module ChunkedScan {
  import opened JsonText

  function Concat(bufs: seq<Bytes>): Bytes {
    if bufs == [] then [] else bufs[0] + Concat(bufs[1..])
  }

  function WalkAll<S>(step: (S, byte) -> S, st: S, bs: Bytes): S
    decreases bs
  {
    if bs == [] then st else WalkAll(step, step(st, bs[0]), bs[1..])
  }

  function WalkChunks<S>(step: (S, byte) -> S, cut: S -> S, st: S, chunks: seq<Bytes>): S
    decreases chunks
  {
    if chunks == [] then st else WalkChunks(step, cut, cut(WalkAll(step, st, chunks[0])), chunks[1..])
  }

  /** Scanning `bs`, which starts at offset `off` of the whole text, when chunks end at the offsets `cuts`. */
  function Walk<S>(step: (S, byte) -> S, cut: S -> S, st: S, bs: Bytes, off: nat, cuts: set<nat>): S
    decreases bs
  {
    if bs == [] then st
    else Walk(step, cut, step(if off in cuts then cut(st) else st, bs[0]), bs[1..], off + 1, cuts)
  }

  lemma {:induction false} WalkAppend<S>(step: (S, byte) -> S, cut: S -> S, st: S, a: Bytes, b: Bytes, off: nat,
                                         cuts: set<nat>)
    ensures Walk(step, cut, st, a + b, off, cuts)
      == Walk(step, cut, Walk(step, cut, st, a, off, cuts), b, off + |a|, cuts)
    decreases a
  {
    if a == [] {
      assert a + b == b;
    } else {
      WalkAppend(step, cut, step(if off in cuts then cut(st) else st, a[0]), a[1..], b, off + 1, cuts);
      assert (a + b)[1..] == a[1..] + b;
    }
  }

  /** The offsets at which the chunks end, when the first one starts at `off`. */
  function CutsOf(chunks: seq<Bytes>, off: nat): set<nat> {
    if chunks == [] then {} else {off + |chunks[0]|} + CutsOf(chunks[1..], off + |chunks[0]|)
  }

  lemma {:induction false} CutsAreLater(chunks: seq<Bytes>, off: nat)
    ensures forall c | c in CutsOf(chunks, off) :: off <= c
  {
    if chunks != [] {
      CutsAreLater(chunks[1..], off + |chunks[0]|);
    }
  }

  lemma {:induction false} WalkWithoutCuts<S>(step: (S, byte) -> S, cut: S -> S, st: S, bs: Bytes, off: nat,
                                              cuts: set<nat>)
    requires forall c | c in cuts :: !(off <= c < off + |bs|)
    ensures Walk(step, cut, st, bs, off, cuts) == WalkAll(step, st, bs)
    decreases bs
  {
    if bs != [] {
      assert off !in cuts;
      WalkWithoutCuts(step, cut, step(st, bs[0]), bs[1..], off + 1, cuts);
    }
  }

  lemma {:induction false} WalkAlike<S>(step: (S, byte) -> S, cut: S -> S, st: S, bs: Bytes, off: nat, cuts: set<nat>,
                                        cuts': set<nat>)
    requires forall c | c >= off :: c in cuts <==> c in cuts'
    ensures Walk(step, cut, st, bs, off, cuts) == Walk(step, cut, st, bs, off, cuts')
    decreases bs
  {
    if bs != [] {
      WalkAlike(step, cut, step(if off in cuts then cut(st) else st, bs[0]), bs[1..], off + 1, cuts, cuts');
    }
  }

  /** A cut at the very start, in a state that cutting does not change, does not matter. */
  lemma WalkSkipsStartCut<S>(step: (S, byte) -> S, cut: S -> S, st: S, bs: Bytes, off: nat, cuts: set<nat>)
    requires cut(st) == st
    ensures Walk(step, cut, st, bs, off, cuts) == Walk(step, cut, st, bs, off, cuts - {off})
  {
    if bs != [] {
      WalkAlike(step, cut, step(st, bs[0]), bs[1..], off + 1, cuts, cuts - {off});
    }
  }

  lemma FirstChunk<S>(step: (S, byte) -> S, cut: S -> S, st: S, chunks: seq<Bytes>, off: nat)
    requires cut(st) == st && chunks != []
    ensures Walk(step, cut, st, chunks[0], off, CutsOf(chunks, off)) == WalkAll(step, st, chunks[0])
  {
    var cuts := CutsOf(chunks, off);
    CutsAreLater(chunks[1..], off + |chunks[0]|);
    WalkSkipsStartCut(step, cut, st, chunks[0], off, cuts);
    assert cuts == {off + |chunks[0]|} + CutsOf(chunks[1..], off + |chunks[0]|);
    WalkWithoutCuts(step, cut, st, chunks[0], off, cuts - {off});
  }

  /** Cutting twice is cutting once, and what is read off the state at the end does not see a cut. */
  ghost predicate Settles<S(!new), O>(cut: S -> S, outcome: S -> O) {
    forall s :: cut(cut(s)) == cut(s) && outcome(cut(s)) == outcome(s)
  }

  /** After the first chunk, its end is one of the cuts. */
  lemma LaterChunks<S(!new), O>(step: (S, byte) -> S, cut: S -> S, outcome: S -> O, st: S, bs: Bytes,
                                chunks: seq<Bytes>, off: nat)
    requires Settles(cut, outcome) && chunks != []
    ensures var mid := off + |chunks[0]|;
            outcome(Walk(step, cut, st, bs, mid, CutsOf(chunks, off)))
              == outcome(Walk(step, cut, cut(st), bs, mid, CutsOf(chunks[1..], mid)))
  {
    var mid := off + |chunks[0]|;
    var cuts, later := CutsOf(chunks, off), CutsOf(chunks[1..], mid);
    assert outcome(Walk(step, cut, st, bs, mid, cuts)) == outcome(Walk(step, cut, cut(st), bs, mid, cuts));
    WalkSkipsStartCut(step, cut, cut(st), bs, mid, cuts);
    WalkSkipsStartCut(step, cut, cut(st), bs, mid, later);
    assert cuts - {mid} == later - {mid};
  }

  /** Scanning chunk by chunk is scanning with the cuts that the chunks make. */
  lemma {:induction false} ChunksAreCuts<S(!new), O>(step: (S, byte) -> S, cut: S -> S, outcome: S -> O,
                                                    st: S, chunks: seq<Bytes>, off: nat)
    requires Settles(cut, outcome) && cut(st) == st
    ensures outcome(WalkChunks(step, cut, st, chunks))
      == outcome(Walk(step, cut, st, Concat(chunks), off, CutsOf(chunks, off)))
    decreases chunks
  {
    if chunks != [] {
      var c, rest := chunks[0], chunks[1..];
      var mid := WalkAll(step, st, c);
      FirstChunk(step, cut, st, chunks, off);
      WalkAppend(step, cut, st, c, Concat(rest), off, CutsOf(chunks, off));
      LaterChunks(step, cut, outcome, mid, Concat(rest), chunks, off);
      ChunksAreCuts(step, cut, outcome, cut(mid), rest, off + |c|);
    }
  }
}
