/** The names requests carry (`identifier`, `RULE_ID_RE`), and why a new one can always be found. */
module Identifiers {

  predicate Upper(c: char) { 'A' <= c <= 'Z' }

  predicate Digit(c: char) { '0' <= c <= '9' }

  predicate Alphanumeric(c: char) { Upper(c) || 'a' <= c <= 'z' || Digit(c) }

  predicate NameChar(c: char) { Alphanumeric(c) || c == '.' || c == '_' || c == ':' || c == '-' }

  /** A letter or digit, then at most 127 more characters. */
  predicate Identifier(s: string) {
    1 <= |s| <= 128 && Alphanumeric(s[0]) && forall i | 0 <= i < |s| :: NameChar(s[i])
  }

  /** An identifier that is neither a path nor somebody's name (`coarse_label`). */
  predicate CoarseLabel(s: string) {
    Identifier(s) && ':' !in s && forall i | 0 <= i < |s| - 1 :: s[i] != '.' || s[i + 1] != '.'
  }

  /** One to sixteen different references. */
  predicate Evidence(refs: seq<string>) {
    && 1 <= |refs| <= 16 && (forall i | 0 <= i < |refs| :: CoarseLabel(refs[i]))
    && forall i, j | 0 <= i < j < |refs| :: refs[i] != refs[j]
  }

  /** Segments of capitals and digits, at least two, joined by hyphens; a letter comes first. */
  predicate RuleName(s: string) {
    && 1 <= |s| <= 80 && Upper(s[0]) && s[|s| - 1] != '-' && '-' in s
    && (forall i | 0 <= i < |s| :: Upper(s[i]) || Digit(s[i]) || s[i] == '-')
    && forall i | 0 <= i < |s| - 1 :: s[i] != '-' || s[i + 1] != '-'
  }

  // ---------- a new name ----------

  const NAMES := 0x1_0000_0000

  function Power(k: nat): (p: nat)
    ensures p >= 1
  {
    if k == 0 then 1 else 2 * Power(k - 1)
  }

  /** The last `k` binary digits of `n`. */
  function Bits(n: nat, k: nat): (s: string)
    ensures |s| == k && forall i | 0 <= i < k :: Digit(s[i])
  {
    if k == 0 then "" else Bits(n / 2, k - 1) + [if n % 2 == 0 then '0' else '1']
  }

  lemma {:induction false} BitsTellApart(m: nat, n: nat, k: nat)
    requires m < Power(k) && n < Power(k) && Bits(m, k) == Bits(n, k)
    ensures m == n
  {
    if k > 0 {
      var s, t := Bits(m, k), Bits(n, k);
      assert s[..k - 1] == Bits(m / 2, k - 1) && t[..k - 1] == Bits(n / 2, k - 1);
      assert s[k - 1] == t[k - 1];
      BitsTellApart(m / 2, n / 2, k - 1);
    }
  }

  lemma ManyNames()
    ensures Power(32) == NAMES
  {
    assert Power(8) == 256;
    assert Power(16) == 65_536;
    assert Power(24) == 16_777_216;
  }

  function Name(n: nat): string { Bits(n, 32) }

  /** Of more names than are used, one is new. */
  lemma {:induction false} OneIsNew(used: set<string>, m: nat) returns (n: nat)
    requires |used| < m <= NAMES
    ensures n < m && Name(n) !in used
  {
    if Name(m - 1) !in used {
      n := m - 1;
    } else {
      n := OneIsNew(used - {Name(m - 1)}, m - 1);
      if Name(n) == Name(m - 1) {
        ManyNames();
        BitsTellApart(n, m - 1, 32);
      }
    }
  }

  /** No history is long enough to use every identifier up. */
  lemma NewIdentifier(used: set<string>) returns (id: string)
    requires |used| < NAMES
    ensures Identifier(id) && id !in used
  {
    var n := OneIsNew(used, NAMES);
    id := Name(n);
  }
}
