/** The string operations the client applies, restricted to ASCII case
    mapping: `toLowerCase`, `toUpperCase`, `includes`, `replace` with a
    string pattern, and `charAt(0).toUpperCase() + slice(1)`. */
module Text {

  predicate IsUpper(c: char) { 'A' <= c <= 'Z' }

  predicate IsLower(c: char) { 'a' <= c <= 'z' }

  function LowerChar(c: char): char
  {
    if IsUpper(c) then (c as int + 32) as char else c
  }

  function UpperChar(c: char): char
  {
    if IsLower(c) then (c as int - 32) as char else c
  }

  /** `s.toLowerCase()` on ASCII letters. */
  function Lower(s: string): (r: string)
    ensures |r| == |s|
    ensures forall i :: 0 <= i < |s| ==> r[i] == LowerChar(s[i])
    ensures forall i :: 0 <= i < |r| ==> !IsUpper(r[i])
    ensures forall i :: 0 <= i < |s| && !IsUpper(s[i]) ==> r[i] == s[i]
  {
    seq(|s|, i requires 0 <= i < |s| => LowerChar(s[i]))
  }

  /** A character lower-cases to `d`, which is itself not an upper-case
      letter, exactly when it is `d` or the upper-case form of `d`. */
  lemma LowerCharIs(c: char, d: char)
    requires !IsUpper(d)
    ensures LowerChar(c) == d <==> c == d || c == UpperChar(d)
  {
  }

  /** Lower-casing is idempotent. */
  lemma LowerIdempotent(s: string)
    ensures Lower(Lower(s)) == Lower(s)
  {
  }

  /** Case-insensitive equality against a lower-case target, stated
      character by character: `Lower(e) == t` holds iff every character of
      `e` is the target's character or its upper-case form. */
  lemma LowerEqualsIff(e: string, t: string)
    requires Lower(t) == t
    ensures Lower(e) == t <==>
      |e| == |t| && forall i :: 0 <= i < |e| ==> e[i] == t[i] || e[i] == UpperChar(t[i])
  {
  }

  /** `sub` occurs in `s` starting at index `i`. */
  ghost predicate OccursAt(s: string, sub: string, i: int)
  {
    0 <= i && i + |sub| <= |s| && s[i..i + |sub|] == sub
  }

  /** `s.includes(sub)`, scanning the start positions left to right. */
  function Includes(s: string, sub: string): (r: bool)
    ensures |sub| == 0 ==> r
    ensures r ==> |sub| <= |s|
    decreases |s|
  {
    if |sub| <= |s| && s[..|sub|] == sub then true
    else if |s| == 0 then false
    else Includes(s[1..], sub)
  }

  /** The scan finds `sub` exactly when it occurs somewhere in `s`. */
  lemma {:induction false} IncludesIff(s: string, sub: string)
    ensures Includes(s, sub) <==> exists i :: OccursAt(s, sub, i)
    decreases |s|
  {
    if |sub| <= |s| && s[..|sub|] == sub {
      assert OccursAt(s, sub, 0);
    } else if |s| == 0 {
      assert !OccursAt(s, sub, 0);
    } else {
      IncludesIff(s[1..], sub);
      if exists j :: OccursAt(s[1..], sub, j) {
        var j :| OccursAt(s[1..], sub, j);
        assert s[1..][j..j + |sub|] == s[j + 1..j + 1 + |sub|];
        assert OccursAt(s, sub, j + 1);
      }
      if exists i :: OccursAt(s, sub, i) {
        var i :| OccursAt(s, sub, i);
        assert i != 0;
        assert s[1..][i - 1..i - 1 + |sub|] == s[i..i + |sub|];
        assert OccursAt(s[1..], sub, i - 1);
      }
    }
  }

  /** Every string includes the empty string. */
  lemma IncludesEmpty(s: string)
    ensures Includes(s, "")
  {
  }

  /** `s.replace(a, b)` for one-character strings `a`, `b`: only the FIRST
      occurrence of `a` is replaced. */
  function ReplaceFirst(s: string, a: char, b: char): (r: string)
    ensures |r| == |s|
    ensures forall i :: 0 <= i < |s| ==>
      r[i] == (if s[i] == a && a !in s[..i] then b else s[i])
  {
    if |s| == 0 then s
    else if s[0] == a then [b] + s[1..]
    else
      var rest := ReplaceFirst(s[1..], a, b);
      assert forall i :: 1 <= i < |s| ==> s[..i] == [s[0]] + s[1..][..i - 1];
      [s[0]] + rest
  }

  /** `s.charAt(0).toUpperCase() + s.slice(1)`. */
  function Capitalize(s: string): (r: string)
    ensures |r| == |s|
    ensures |s| > 0 ==> r[0] == UpperChar(s[0]) && r[1..] == s[1..]
  {
    if |s| == 0 then "" else [UpperChar(s[0])] + s[1..]
  }

  /** Capitalising twice changes nothing further. */
  lemma CapitalizeIdempotent(s: string)
    ensures Capitalize(Capitalize(s)) == Capitalize(s)
  {
  }
}
