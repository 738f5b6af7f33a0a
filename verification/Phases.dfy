/** The eight phases of a worker context and the bit operations that move
    between them.  A phase is kept in the low three bits of the state word;
    the other two bits used here are INACTIVE and HELPER. */
module Phases {
  datatype Option<+T> = None | Some(value: T)

  datatype Phase = PreAsync | Async | PreSync1 | Sync1 | PreSync2 | Sync2 | PreMark | Mark

  /** Three bits, most significant first. */
  datatype Bits = Bits(b2: bool, b1: bool, b0: bool)

  function Encode(p: Phase): (b: Bits)
    ensures Decode(b) == p
  {
    match p
    case PreAsync => Bits(false, false, false)
    case Async    => Bits(false, false, true)
    case PreSync1 => Bits(false, true, false)
    case Sync1    => Bits(false, true, true)
    case PreSync2 => Bits(true, false, false)
    case Sync2    => Bits(true, false, true)
    case PreMark  => Bits(true, true, false)
    case Mark     => Bits(true, true, true)
  }

  function Decode(b: Bits): Phase {
    if b.b2 then
      if b.b1 then (if b.b0 then Mark else PreMark) else (if b.b0 then Sync2 else PreSync2)
    else
      if b.b1 then (if b.b0 then Sync1 else PreSync1) else (if b.b0 then Async else PreAsync)
  }

  function Xor(a: Bits, b: Bits): Bits {
    Bits(a.b2 != b.b2, a.b1 != b.b1, a.b0 != b.b0)
  }

  /** fetch_xor(&state, from ^ to): the flip performed by change_phase. */
  function FlipPhase(p: Phase, from: Phase, to: Phase): Phase {
    Decode(Xor(Encode(p), Xor(Encode(from), Encode(to))))
  }

  /** A phase whose name starts with PRE: a signal is pending. */
  predicate Pending(p: Phase) { p.PreAsync? || p.PreSync1? || p.PreSync2? || p.PreMark? }

  /** The acceptance of a pending signal. */
  function Accept(p: Phase): Phase {
    match p
    case PreAsync => Async
    case PreSync1 => Sync1
    case PreSync2 => Sync2
    case PreMark => Mark
    case _ => p
  }

  /** The phase announcing signal q. */
  function Pre(q: Phase): Phase {
    match q
    case Async => PreAsync
    case Sync1 => PreSync1
    case Sync2 => PreSync2
    case Mark => PreMark
    case _ => q
  }

  /** The numeric phase value used by range tests such as SYNC1 <= phase. */
  function Code(p: Phase): (n: nat)
    ensures n < 8
  {
    var b := Encode(p);
    (if b.b2 then 4 else 0) + (if b.b1 then 2 else 0) + (if b.b0 then 1 else 0)
  }

  /** The snapshot of the collection in progress, or of the next one, is still to be
      taken: objects allocated now are its targets. */
  predicate BeforeSnapshot(p: Phase) { Code(Async) <= Code(p) <= Code(PreSync2) }

  /** Acceptance is or-ing the state word with 1, announcing is clearing that
      bit, and pending means that the bit is clear. */
  lemma AcceptIsOrOne(p: Phase)
    ensures Encode(Accept(p)) == Encode(p).(b0 := true)
    ensures Encode(Pre(p)) == Encode(p).(b0 := false)
    ensures Pending(p) <==> Code(p) % 2 == 0
  {
  }

  /** The flip lands on the announced phase from the old phase and from no
      other one, so a worker that is not in `from` when it is flipped would be
      moved to a wrong phase. */
  lemma FlipExact(p: Phase, from: Phase, to: Phase)
    ensures FlipPhase(p, from, to) == to <==> p == from
  {
  }

  lemma EncodeDecode(b: Bits)
    ensures Encode(Decode(b)) == b
  {
  }

  /** A flip is its own inverse: flipping a worker twice in one round would
      take the announcement back. */
  lemma FlipInvolutive(p: Phase, from: Phase, to: Phase)
    ensures FlipPhase(FlipPhase(p, from, to), from, to) == p
  {
    var x := Xor(Encode(from), Encode(to));
    EncodeDecode(Xor(Encode(p), x));
    assert Xor(Xor(Encode(p), x), x) == Encode(p);
  }
}
