/** The three JavaScript string operations the components use, restricted to
    what they need: `String.prototype.trim` (only to ask whether anything is
    left), `toLowerCase` on ASCII letters, and `String.prototype.includes`. */
module Text {

  /** The code points `trim` removes: ECMAScript WhiteSpace (tab, vertical
      tab, form feed, space, no-break space, byte order mark and the Unicode
      space separators) and LineTerminator (line feed, carriage return, line
      and paragraph separators). */
  predicate IsSpace(c: char) {
    c == '\t' || c == '\n' || c == '\U{000B}' || c == '\U{000C}' || c == '\r' || c == ' '
    || c == '\U{00A0}' || c == '\U{1680}' || ('\U{2000}' <= c <= '\U{200A}')
    || c == '\U{2028}' || c == '\U{2029}' || c == '\U{202F}' || c == '\U{205F}'
    || c == '\U{3000}' || c == '\U{FEFF}'
  }

  /** How many whitespace characters `s` starts with. */
  function LeadingSpaces(s: string): (k: nat)
    ensures k <= |s|
    ensures forall i :: 0 <= i < k ==> IsSpace(s[i])
    ensures k < |s| ==> !IsSpace(s[k])
  {
    if s == [] || !IsSpace(s[0]) then 0 else 1 + LeadingSpaces(s[1..])
  }

  /** Where the run of whitespace that `s` ends with begins. */
  function TrailingSpacesStart(s: string): (k: nat)
    ensures k <= |s|
    ensures forall i :: k <= i < |s| ==> IsSpace(s[i])
    ensures 0 < k ==> !IsSpace(s[k - 1])
  {
    if s == [] || !IsSpace(s[|s| - 1]) then |s| else TrailingSpacesStart(s[..|s| - 1])
  }

  /** `s.trim()`: `s` without its leading and trailing whitespace. */
  function Trim(s: string): (r: string)
    ensures r == [] <==> forall i :: 0 <= i < |s| ==> IsSpace(s[i])
    ensures r != [] ==> !IsSpace(r[0]) && !IsSpace(r[|r| - 1])
    ensures LeadingSpaces(s) + |r| <= |s| && r == s[LeadingSpaces(s)..LeadingSpaces(s) + |r|]
    ensures forall i :: 0 <= i < |s| && !(LeadingSpaces(s) <= i < LeadingSpaces(s) + |r|) ==> IsSpace(s[i])
  {
    var a := LeadingSpaces(s);
    if a == |s| then [] else s[a..TrailingSpacesStart(s)]
  }

  /** `toLowerCase` of one character, for the ASCII letters. */
  function LowerChar(c: char): char {
    if 'A' <= c <= 'Z' then (c as int + ('a' as int - 'A' as int)) as char else c
  }

  /** `s.toLowerCase()`, for the ASCII letters. */
  function Lower(s: string): string {
    seq(|s|, i requires 0 <= i < |s| => LowerChar(s[i]))
  }

  /** Lowering twice is lowering once. */
  lemma LowerIdempotent(s: string)
    ensures Lower(Lower(s)) == Lower(s)
  {
  }

  /** Lowering distributes over concatenation. */
  lemma LowerAppend(a: string, b: string)
    ensures Lower(a + b) == Lower(a) + Lower(b)
  {
  }

  /** `n` occurs in `h` starting at index `i`. */
  predicate OccursAt(h: string, n: string, i: int) {
    0 <= i && i + |n| <= |h| && h[i..i + |n|] == n
  }

  /** `h.includes(n)`: scans `h` for a position where `n` is a prefix. */
  predicate Includes(h: string, n: string) {
    n <= h || (h != [] && Includes(h[1..], n))
  }

  /** The scan agrees with the definition of `includes`: `n` occurs in `h` at
      some index. */
  lemma {:induction false} IncludesIff(h: string, n: string)
    ensures Includes(h, n) <==> exists i :: OccursAt(h, n, i)
  {
    if n <= h {
      assert OccursAt(h, n, 0);
    } else if h == [] {
      if i :| OccursAt(h, n, i) {
        assert false;
      }
    } else {
      IncludesIff(h[1..], n);
      if i :| OccursAt(h, n, i) {
        assert i != 0;
        assert h[1..][i - 1..i - 1 + |n|] == h[i..i + |n|];
        assert OccursAt(h[1..], n, i - 1);
      }
      if j :| OccursAt(h[1..], n, j) {
        assert h[j + 1..j + 1 + |n|] == h[1..][j..j + |n|];
        assert OccursAt(h, n, j + 1);
      }
    }
  }

  /** Every string includes the empty string. */
  lemma IncludesEmpty(h: string)
    ensures Includes(h, [])
  {
  }

  /** An occurrence in either half is an occurrence in the concatenation, and
      when the second half starts with a character the needle lacks, no
      occurrence can straddle the seam. */
  lemma IncludesConcat(a: string, b: string, n: string)
    requires b != [] && b[0] !in n
    ensures Includes(a + b, n) <==> Includes(a, n) || Includes(b, n)
  {
    IncludesIff(a + b, n);
    IncludesIff(a, n);
    IncludesIff(b, n);
    var ab := a + b;
    if i :| OccursAt(ab, n, i) {
      if i + |n| <= |a| {
        assert ab[i..i + |n|] == a[i..i + |n|];
        assert OccursAt(a, n, i);
      } else if |a| <= i {
        assert ab[i..i + |n|] == b[i - |a|..i - |a| + |n|];
        assert OccursAt(b, n, i - |a|);
      } else {
        // the match would cover `b[0]`, which `n` does not contain
        OccursAtChars(ab, n, i, |a| - i);
        assert false;
      }
    }
    if i :| OccursAt(a, n, i) {
      assert ab[i..i + |n|] == a[i..i + |n|];
      assert OccursAt(ab, n, i);
    }
    if j :| OccursAt(b, n, j) {
      assert ab[|a| + j..|a| + j + |n|] == b[j..j + |n|];
      assert OccursAt(ab, n, |a| + j);
    }
  }

  /** An occurrence is a character-by-character match. */
  lemma OccursAtChars(h: string, n: string, i: int, j: int)
    requires OccursAt(h, n, i) && 0 <= j < |n|
    ensures h[i + j] == n[j]
  {
    assert h[i..i + |n|][j] == h[i + j];
  }
}
