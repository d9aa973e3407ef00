/**
 * The fragment of ECMAScript regular expressions used by the employee form:
 * a pattern anchored with `^...$` that is a sequence of quantified atoms
 * `atom{lo,hi}`, where an atom is `\d`, `\s` or one literal character.
 * Matching is defined the way a backtracking engine does it: every
 * repetition count from `lo` to `hi` is tried for each atom in turn.
 */
module Pattern {

  /** The atoms that occur in the form's patterns. */
  datatype CharClass = Digit | Space | Literal(c: char)

  /** `\d` in a pattern without the `u` flag: the ASCII digits only. */
  predicate IsDigit(ch: char) {
    '0' <= ch <= '9'
  }

  /** `\s`: the ECMAScript WhiteSpace and LineTerminator code points. */
  predicate IsSpace(ch: char) {
    || ch == '\t' || ch == '\n' || ch == '\U{000B}' || ch == '\U{000C}' || ch == '\r'
    || ch == ' ' || ch == '\U{00A0}' || ch == '\U{1680}'
    || ('\U{2000}' <= ch <= '\U{200A}')
    || ch == '\U{2028}' || ch == '\U{2029}' || ch == '\U{202F}' || ch == '\U{205F}'
    || ch == '\U{3000}' || ch == '\U{FEFF}'
  }

  predicate InClass(k: CharClass, ch: char) {
    match k
    case Digit => IsDigit(ch)
    case Space => IsSpace(ch)
    case Literal(c) => ch == c
  }

  /** Every character of `s` belongs to class `k`. */
  predicate AllIn(k: CharClass, s: string) {
    forall i :: 0 <= i < |s| ==> InClass(k, s[i])
  }

  predicate AllDigits(s: string) {
    AllIn(Digit, s)
  }

  /** One quantified atom `k{lo,hi}`; a bare atom is `k{1,1}`. */
  datatype Piece = Piece(k: CharClass, lo: nat, hi: nat)

  /** A bare atom. */
  function Once(k: CharClass): Piece {
    Piece(k, 1, 1)
  }

  /** An atom repeated exactly `n` times, `k{n}`. */
  function Times(k: CharClass, n: nat): Piece {
    Piece(k, n, n)
  }

  /** Whether the anchored pattern `^r$` matches the whole of `s`. */
  function Matches(r: seq<Piece>, s: string): bool
    decreases |r|, 0
  {
    if r == [] then s == [] else MatchesFrom(r[0], r[1..], r[0].lo, s)
  }

  /**
   * Whether `p` repeated `n` times, for some `n` from `count` to `p.hi`,
   * followed by the pattern `rest`, matches the whole of `s`.
   */
  function MatchesFrom(p: Piece, rest: seq<Piece>, count: nat, s: string): bool
    decreases |rest|, if count <= p.hi then p.hi - count + 1 else 0
  {
    if count > p.hi then false
    else
      || (count <= |s| && AllIn(p.k, s[..count]) && Matches(rest, s[count..]))
      || MatchesFrom(p, rest, count + 1, s)
  }

  /** The backtracking search succeeds exactly when some admissible repetition count works. */
  lemma {:induction false} MatchesFromSpec(p: Piece, rest: seq<Piece>, count: nat, s: string)
    ensures MatchesFrom(p, rest, count, s) <==>
      exists n :: count <= n <= p.hi && n <= |s| && AllIn(p.k, s[..n]) && Matches(rest, s[n..])
    decreases if count <= p.hi then p.hi - count + 1 else 0
  {
    if count <= p.hi {
      MatchesFromSpec(p, rest, count + 1, s);
      if MatchesFrom(p, rest, count, s) && !(count <= |s| && AllIn(p.k, s[..count]) && Matches(rest, s[count..])) {
        var n :| count + 1 <= n <= p.hi && n <= |s| && AllIn(p.k, s[..n]) && Matches(rest, s[n..]);
        assert count <= n;
      }
      if exists n :: count <= n <= p.hi && n <= |s| && AllIn(p.k, s[..n]) && Matches(rest, s[n..]) {
        var n :| count <= n <= p.hi && n <= |s| && AllIn(p.k, s[..n]) && Matches(rest, s[n..]);
        if n != count {
          assert count + 1 <= n;
        }
      }
    }
  }

  /**
   * Matching the suffix `r[j..]` of a pattern whose atom `r[j]` has a fixed
   * count consumes exactly that many characters.
   */
  lemma FixedStep(r: seq<Piece>, j: nat, s: string, i: nat)
    requires j < |r| && r[j].lo == r[j].hi && i <= |s|
    ensures Matches(r[j..], s[i..]) <==>
      i + r[j].lo <= |s| && AllIn(r[j].k, s[i..i + r[j].lo]) && Matches(r[j + 1..], s[i + r[j].lo..])
  {
    var p, t := r[j], s[i..];
    assert r[j..][1..] == r[j + 1..];
    MatchesFromSpec(p, r[j + 1..], p.lo, t);
    if i + p.lo <= |s| {
      assert t[..p.lo] == s[i..i + p.lo];
      assert t[p.lo..] == s[i + p.lo..];
    }
  }

  /** Matching the suffix `r[j..]` whose atom `r[j]` is `k{lo,lo+1}` tries both counts. */
  lemma RangeStep(r: seq<Piece>, j: nat, s: string, i: nat)
    requires j < |r| && r[j].hi == r[j].lo + 1 && i <= |s|
    ensures Matches(r[j..], s[i..]) <==>
      || (i + r[j].lo <= |s| && AllIn(r[j].k, s[i..i + r[j].lo]) && Matches(r[j + 1..], s[i + r[j].lo..]))
      || (i + r[j].hi <= |s| && AllIn(r[j].k, s[i..i + r[j].hi]) && Matches(r[j + 1..], s[i + r[j].hi..]))
  {
    var p, t := r[j], s[i..];
    assert r[j..][1..] == r[j + 1..];
    MatchesFromSpec(p, r[j + 1..], p.lo, t);
    if i + p.lo <= |s| {
      assert t[..p.lo] == s[i..i + p.lo];
      assert t[p.lo..] == s[i + p.lo..];
    }
    if i + p.hi <= |s| {
      assert t[..p.hi] == s[i..i + p.hi];
      assert t[p.hi..] == s[i + p.hi..];
    }
  }

  /** A single character belongs to a class exactly when the one-character slice does. */
  lemma OneChar(k: CharClass, s: string, i: nat)
    requires i < |s|
    ensures AllIn(k, s[i..i + 1]) <==> InClass(k, s[i])
  {
    assert s[i..i + 1][0] == s[i];
  }

  /** The empty pattern `^$` matches only the empty string. */
  lemma EndStep(s: string, i: nat)
    requires i <= |s|
    ensures Matches([], s[i..]) <==> i == |s|
  {
  }
}
