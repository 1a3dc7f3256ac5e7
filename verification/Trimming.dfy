/** The laws of trimming that the chunkers rely on. */
module Trimming {
  import opened Strings

  const BREAK: string := "\n"

  ghost predicate Trims(trim: string -> string) {
    && trim("") == "" && trim(BREAK) == ""
    && (forall pad, s {:trigger trim(pad + s)} :: trim(pad) == "" ==> trim(pad + s) == trim(s))
    && (forall a, b {:trigger trim(a + BREAK + b)} :: trim(a + BREAK + b) == "" ==> trim(a) == "" && trim(b) == "")
    && (forall s {:trigger ByteLen(trim(s))} :: ByteLen(trim(s)) <= ByteLen(s))
  }

  /** Trimming leaves no blank end. */
  ghost predicate Settles(trim: string -> string) {
    && (forall s {:trigger |trim(s)|} :: |trim(s)| <= |s|)
    && (forall s {:trigger trim(trim(s))} :: trim(trim(s)) == trim(s))
    && (forall a, b {:trigger trim(a + b)} :: trim(a + b) == a + b && b != "" ==> trim(b) != "")
  }

  ghost predicate CutsOff(trim: string -> string, p: char -> bool) {
    forall s :: trim(s) == Trim(s, p)
  }

  lemma PadDropped(pad: string, s: string, p: char -> bool)
    requires Trim(pad, p) == ""
    ensures Trim(pad + s, p) == Trim(s, p)
  {
    TrimBlank(pad, p);
    TrimPadded(pad, s, "", p);
    assert pad + s + "" == pad + s;
  }

  lemma BlankParts(a: string, b: string, p: char -> bool)
    requires Trim(a + b, p) == ""
    ensures Trim(a, p) == "" && Trim(b, p) == ""
  {
    AllInConcat(a, b, p);
    TrimBlank(a + b, p);
    TrimBlank(a, p);
    TrimBlank(b, p);
  }

  lemma BlankSeam(a: string, b: string, p: char -> bool)
    requires Trim(a + BREAK + b, p) == ""
    ensures Trim(a, p) == "" && Trim(b, p) == ""
  {
    BlankParts(a + BREAK, b, p);
    BlankParts(a, BREAK, p);
  }

  lemma TrimTrims(trim: string -> string, p: char -> bool)
    requires CutsOff(trim, p) && p('\n')
    ensures Trims(trim)
  {
    assert trim(BREAK) == "" by { TrimBlank(BREAK, p); }
    forall pad, s | trim(pad) == "" ensures trim(pad + s) == trim(s) {
      PadDropped(pad, s, p);
    }
    forall a: string, b: string | trim(a + BREAK + b) == "" ensures trim(a) == "" && trim(b) == "" {
      BlankSeam(a, b, p);
    }
    forall s ensures ByteLen(trim(s)) <= ByteLen(s) {
      TrimShrinks(s, p);
    }
  }

  lemma TrimSpaceTrims()
    ensures Trims(TrimSpace)
  {
    TrimTrims(TrimSpace, IsSpace);
  }
}
