/** The handful of Python `str` operations the core relies on. */
module Text {

  /** `str.upper()` restricted to ASCII: `a`..`z` become `A`..`Z`, every other character is kept. */
  function UpperChar(c: char): (u: char)
    ensures 'a' <= c <= 'z' ==> 'A' <= u <= 'Z' && u as int - c as int == 'A' as int - 'a' as int
    ensures !('a' <= c <= 'z') ==> u == c
  {
    if 'a' <= c <= 'z' then (c as int - 'a' as int + 'A' as int) as char else c
  }

  function Upper(s: string): (u: string)
    ensures |u| == |s|
    ensures forall i :: 0 <= i < |s| ==> u[i] == UpperChar(s[i])
  {
    if s == [] then [] else [UpperChar(s[0])] + Upper(s[1..])
  }

  /** Upper-casing twice is upper-casing once, so a name that is already upper case is looked up as given. */
  lemma UpperIdempotent(s: string)
    ensures Upper(Upper(s)) == Upper(s)
  {
  }

  /** `s.rstrip(ch)` for a single character. */
  function RStrip(s: string, ch: char): (r: string)
    ensures |r| <= |s| && r == s[..|r|]
    ensures forall i :: |r| <= i < |s| ==> s[i] == ch
    ensures r == [] || r[|r| - 1] != ch
  {
    if s != [] && s[|s| - 1] == ch then RStrip(s[..|s| - 1], ch) else s
  }

  /** The characters `str.strip()` removes, limited to ASCII. */
  predicate IsSpace(c: char) {
    c == ' ' || c == '\t' || c == '\n' || c == '\r' || c == 11 as char || c == 12 as char
    || (28 as char <= c <= 31 as char)
  }

  function LStripSpace(s: string): (r: string)
    ensures |r| <= |s| && r == s[|s| - |r|..]
    ensures r == [] || !IsSpace(r[0])
  {
    if s != [] && IsSpace(s[0]) then LStripSpace(s[1..]) else s
  }

  function RStripSpace(s: string): (r: string)
    ensures |r| <= |s| && r == s[..|r|]
    ensures r == [] || !IsSpace(r[|r| - 1])
  {
    if s != [] && IsSpace(s[|s| - 1]) then RStripSpace(s[..|s| - 1]) else s
  }

  /** `str.strip()`. */
  function Strip(s: string): string {
    RStripSpace(LStripSpace(s))
  }

  /** A string without surrounding white space is its own `strip()`. */
  lemma StripKeeps(s: string)
    requires s == [] || (!IsSpace(s[0]) && !IsSpace(s[|s| - 1]))
    ensures Strip(s) == s
  {
  }

  /** `' ' * n` (a negative count gives the empty string, as in Python). */
  function Spaces(n: int): (r: string)
    ensures |r| == if n < 0 then 0 else n
    ensures forall i :: 0 <= i < |r| ==> r[i] == ' '
  {
    if n <= 0 then "" else " " + Spaces(n - 1)
  }

  /** `f'{s:>{w}}'`: right-justify `s` in a field of `w` characters, padding with spaces. */
  function RJust(s: string, w: int): (r: string)
    ensures |r| == if w > |s| then w else |s|
    ensures r[|r| - |s|..] == s
    ensures forall i :: 0 <= i < |r| - |s| ==> r[i] == ' '
  {
    Spaces(w - |s|) + s
  }

  /** The string with every occurrence of `ch` deleted. */
  function Remove(s: string, ch: char): string {
    if s == [] then "" else (if s[0] == ch then "" else [s[0]]) + Remove(s[1..], ch)
  }

  /** No `ch` is left, and a string without `ch` is kept as it is. */
  lemma {:induction false} RemoveDeletes(s: string, ch: char)
    ensures ch !in Remove(s, ch)
    ensures ch !in s ==> Remove(s, ch) == s
  {
    if s != [] {
      RemoveDeletes(s[1..], ch);
      assert s == [s[0]] + s[1..];
    }
  }

  lemma RemoveAppend(a: string, b: string, ch: char)
    ensures Remove(a + b, ch) == Remove(a, ch) + Remove(b, ch)
  {
    if a != [] {
      assert (a + b)[1..] == a[1..] + b;
      RemoveAppend(a[1..], b, ch);
    } else {
      assert a + b == b;
    }
  }

  predicate IsDigit(c: char) {
    '0' <= c <= '9'
  }

  /** The end of the run of decimal digits that starts at index `i`. */
  function RunEnd(s: string, i: nat): (k: nat)
    requires i <= |s|
    ensures i <= k <= |s|
    ensures k == |s| || !IsDigit(s[k])
    decreases |s| - i
  {
    if i < |s| && IsDigit(s[i]) then RunEnd(s, i + 1) else i
  }

  /** Every character of the run is a digit. */
  lemma {:induction false} RunEndDigits(s: string, i: nat)
    requires i <= |s|
    ensures forall j :: i <= j < RunEnd(s, i) ==> IsDigit(s[j])
    decreases |s| - i
  {
    if i < |s| && IsDigit(s[i]) {
      RunEndDigits(s, i + 1);
    }
  }

  /** A run of digits from `i` to a non-digit (or the end) at `k` ends at `k`. */
  lemma {:induction false} RunEndAt(s: string, i: nat, k: nat)
    requires i <= k <= |s|
    requires forall j :: i <= j < k ==> IsDigit(s[j])
    requires k == |s| || !IsDigit(s[k])
    ensures RunEnd(s, i) == k
    decreases k - i
  {
    if i < k {
      RunEndAt(s, i + 1, k);
    }
  }

  /** The length of the longest prefix of `s` made of decimal digits. */
  function DigitRun(s: string): (n: nat)
    ensures n <= |s|
    ensures n == |s| || !IsDigit(s[n])
  {
    RunEnd(s, 0)
  }

  /** Every character of the run is a digit. */
  lemma DigitRunDigits(s: string)
    ensures forall i :: 0 <= i < DigitRun(s) ==> IsDigit(s[i])
  {
    RunEndDigits(s, 0);
  }

  /** A digit run followed by a non-digit is exactly as long as the run. */
  lemma DigitRunPrefix(a: string, b: string)
    requires forall i :: 0 <= i < |a| ==> IsDigit(a[i])
    requires b != [] && !IsDigit(b[0])
    ensures DigitRun(a + b) == |a|
  {
    assert forall i :: 0 <= i < |a| ==> (a + b)[i] == a[i];
    assert (a + b)[|a|] == b[0];
    RunEndAt(a + b, 0, |a|);
  }

  lemma NotInSplit(a: string, b: string, ch: char)
    requires ch !in a + b
    ensures ch !in a && ch !in b
  {
    assert forall i :: 0 <= i < |a| ==> (a + b)[i] == a[i];
    assert forall i :: 0 <= i < |b| ==> (a + b)[|a| + i] == b[i];
  }

  /** Deleting `ch` from `g + [ch] + b`, where `g` loses its `ch`s to become `a` and `b` has none. */
  lemma RemoveSeparated(g: string, a: string, b: string, ch: char)
    requires Remove(g, ch) == a && ch !in b
    ensures Remove(g + [ch] + b, ch) == a + b
  {
    RemoveAppend(g + [ch], b, ch);
    RemoveSnoc(g, ch);
    RemoveDeletes(b, ch);
  }

  /** A trailing `ch` is deleted with the rest. */
  lemma RemoveSnoc(g: string, ch: char)
    ensures Remove(g + [ch], ch) == Remove(g, ch)
  {
    RemoveAppend(g, [ch], ch);
    assert Remove([ch], ch) == [] by {
      assert [ch][1..] == [];
    }
  }

  /** Deleting `ch` keeps every other character. */
  lemma {:induction false} RemoveKeepsOthers(s: string, ch: char, c: char)
    requires c != ch
    ensures c in Remove(s, ch) <==> c in s
  {
    if s != [] {
      RemoveKeepsOthers(s[1..], ch, c);
      assert s == [s[0]] + s[1..];
    }
  }
}
