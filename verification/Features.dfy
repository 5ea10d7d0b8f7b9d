/** The music as abc2midi keeps it (store.c): the arrays feature, pitch, pitchline, num and
    denom, here one array of entries. */
module Features {
  import opened Fractions

  /** The kinds of feature that ties and grace notes are about. BAR stands for SINGLE_BAR,
      BAR_REP and REP_BAR; DOUBLE for DOUBLE_BAR and DOUBLE_REP. */
  datatype Kind = NOTE | REST | TNOTE | TIE | OLDTIE | BAR | DOUBLE | GRACEON | GRACEOFF | SETGRACE | OTHER

  /** `own` says that an accidental is written in front of the note itself. The arrays do not
      keep that; no pass reads it, and it is here to say what the notes mean. */
  datatype Feature = Feature(kind: Kind, pitch: int, line: int, num: int, denom: int, own: bool)

  ghost function Len(f: Feature): real {
    if f.denom > 0 then Value(f.num, f.denom) else 0.0
  }

  lemma SameLen(f: Feature, g: Feature)
    requires f.num == g.num && f.denom == g.denom
    ensures Len(f) == Len(g)
  {
  }

  lemma LenIs(f: Feature)
    requires f.denom > 0
    ensures Len(f) == Value(f.num, f.denom)
  {
  }

  lemma LowestDenom(num: int, denom: int)
    requires LowestTerms(num, denom)
    ensures denom > 0
  {
  }
}
