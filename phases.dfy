/** The phase classifier (`phaseText`): five ordered labels chosen by a
    threshold table, evaluated low to high, first match wins. */
module Phases {

  datatype Phase = Oversold | BearishIncline | Accumulation | BullishIncline | Overbought

  /** Position of a phase in the severity order, Oversold lowest. */
  function Rank(p: Phase): (n: nat)
    ensures n <= 4
  {
    match p
    case Oversold => 0
    case BearishIncline => 1
    case Accumulation => 2
    case BullishIncline => 3
    case Overbought => 4
  }

  /** How many bracket boundaries a score has reached: 3.0 is an exclusive
      upper bound of the lowest bracket; 4.9, 6.0 and 8.1 are inclusive lower
      bounds of the next bracket up. */
  function BoundariesReached(score: real): (n: nat)
    ensures n <= 4
  {
    (if score > 3.0 then 1 else 0)
    + (if score >= 4.9 then 1 else 0)
    + (if score >= 6.0 then 1 else 0)
    + (if score >= 8.1 then 1 else 0)
  }

  function PhaseOf(score: real): (p: Phase)
    ensures Rank(p) == BoundariesReached(score)
  {
    if score <= 3.0 then Oversold
    else if score < 4.9 then BearishIncline
    else if score < 6.0 then Accumulation
    else if score < 8.1 then BullishIncline
    else Overbought
  }

  /** The display text the source returns for each phase. */
  function Label(p: Phase): string
  {
    match p
    case Oversold => "\U{1F534} Oversold"
    case BearishIncline => "\U{1F534} Bearish Incline"
    case Accumulation => "\U{1F7E0} Accumulation"
    case BullishIncline => "\U{1F7E1} Bullish Incline"
    case Overbought => "\U{1F7E2} Overbought"
  }

  /** Distinct phases have distinct labels, so comparing labels (as the
      source does) is comparing phases. */
  lemma LabelInjective(p: Phase, q: Phase)
    ensures Label(p) == Label(q) <==> p == q
  {
  }

  /** The severity order is total: the rank identifies the phase. */
  lemma RankInjective(p: Phase, q: Phase)
    ensures Rank(p) == Rank(q) <==> p == q
  {
  }

  /** A higher score never yields a lower phase. */
  lemma PhaseMonotone(s1: real, s2: real)
    requires s1 <= s2
    ensures Rank(PhaseOf(s1)) <= Rank(PhaseOf(s2))
  {
  }

  /** The exact boundary behaviour. */
  lemma Boundaries()
    ensures PhaseOf(3.0) == Oversold
    ensures PhaseOf(4.9) == Accumulation
    ensures PhaseOf(6.0) == BullishIncline
    ensures PhaseOf(8.1) == Overbought
    ensures forall s :: 3.0 < s < 4.9 ==> PhaseOf(s) == BearishIncline
  {
  }

  /** On the half-point grid the scores actually take, the brackets are
      Oversold up to 3, Bearish Incline 3.5 to 4.5, Accumulation 5 and 5.5,
      Bullish Incline 6 to 8, Overbought from 8.5. */
  lemma PhaseOnHalfGrid(k: int)
    ensures PhaseOf(k as real / 2.0) ==
      if k <= 6 then Oversold
      else if k <= 9 then BearishIncline
      else if k <= 11 then Accumulation
      else if k <= 16 then BullishIncline
      else Overbought
  {
  }
}
