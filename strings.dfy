/**
 * Text helpers: the byte-wise ordering SQLite uses for `ORDER BY` on text
 * columns (ISO-8601 dates included), `Array.prototype.join`, number-to-text
 * conversion for template literals, SQLite's `LIKE` patterns and how
 * `LIKE '%term%'` relates to substring search, and the case mapping of ASCII
 * and Latin-1 letters.
 */
module Strings {

  /** Lexicographic order on character codes: `a` sorts at or before `b`. */
  predicate StrLe(a: string, b: string)
  {
    if |a| == 0 then true
    else if |b| == 0 then false
    else if a[0] != b[0] then a[0] < b[0]
    else StrLe(a[1..], b[1..])
  }

  lemma {:induction false} StrLeReflexive(a: string)
    ensures StrLe(a, a)
  {
    if |a| > 0 {
      StrLeReflexive(a[1..]);
    }
  }

  lemma {:induction false} StrLeTotal(a: string, b: string)
    ensures StrLe(a, b) || StrLe(b, a)
  {
    if |a| > 0 && |b| > 0 && a[0] == b[0] {
      StrLeTotal(a[1..], b[1..]);
    }
  }

  lemma {:induction false} StrLeTransitive(a: string, b: string, c: string)
    requires StrLe(a, b) && StrLe(b, c)
    ensures StrLe(a, c)
  {
    if |a| > 0 && |b| > 0 && |c| > 0 && a[0] == b[0] && b[0] == c[0] {
      StrLeTransitive(a[1..], b[1..], c[1..]);
    }
  }

  /** Two texts that sort at or before each other are equal. */
  lemma {:induction false} StrLeAntisymmetric(a: string, b: string)
    requires StrLe(a, b) && StrLe(b, a)
    ensures a == b
  {
    if |a| > 0 && |b| > 0 {
      StrLeAntisymmetric(a[1..], b[1..]);
      assert a == [a[0]] + a[1..] && b == [b[0]] + b[1..];
    }
  }

  /** The parts separated by `sep` (`parts.join(sep)`). */
  function Join(parts: seq<string>, sep: string): string
  {
    if |parts| == 0 then ""
    else if |parts| == 1 then parts[0]
    else parts[0] + sep + Join(parts[1..], sep)
  }

  /** A joined text starts with its first part. */
  lemma JoinStartsWithFirst(parts: seq<string>, sep: string)
    requires |parts| > 0
    ensures |parts[0]| <= |Join(parts, sep)|
    ensures Join(parts, sep)[..|parts[0]|] == parts[0]
  {
  }

  /** The decimal digits of a natural number, as `String(n)` prints them. */
  function NatToString(n: nat): (s: string)
    ensures |s| > 0
    ensures forall i :: 0 <= i < |s| ==> '0' <= s[i] <= '9'
    ensures n > 0 ==> s[0] != '0'
  {
    if n < 10 then [DigitChar(n)] else NatToString(n / 10) + [DigitChar(n % 10)]
  }

  function DigitChar(d: nat): (c: char)
    requires d < 10
    ensures '0' <= c <= '9'
  {
    ('0' as int + d) as char
  }

  /** The value a string of decimal digits denotes. */
  function DigitsValue(s: string): nat
    requires forall i :: 0 <= i < |s| ==> '0' <= s[i] <= '9'
  {
    if |s| == 0 then 0 else DigitsValue(s[..|s| - 1]) * 10 + (s[|s| - 1] as int - '0' as int)
  }

  /** NatToString is a faithful decimal rendering: reading the digits back gives the number. */
  lemma {:induction false} NatToStringValue(n: nat)
    ensures DigitsValue(NatToString(n)) == n
  {
    if n >= 10 {
      NatToStringValue(n / 10);
      var s := NatToString(n);
      assert s[..|s| - 1] == NatToString(n / 10);
    }
  }

  /** An integer as a template literal prints it (`${n}`). */
  function IntToString(n: int): string
  {
    if n < 0 then "-" + NatToString(-n) else NatToString(n)
  }

  /** `needle` occurs in `hay` at some position, character for character. */
  predicate ContainsSubstring(hay: string, needle: string)
  {
    exists i :: 0 <= i <= |hay| - |needle| && OccursAt(hay, needle, i)
  }

  /** `needle` is the part of `hay` that starts at position `i`. */
  predicate OccursAt(hay: string, needle: string, i: int)
  {
    0 <= i <= |hay| - |needle| && hay[i..i + |needle|] == needle
  }

  /** Every text contains itself and the empty text. */
  lemma ContainsSelfAndEmpty(s: string)
    ensures ContainsSubstring(s, s)
    ensures ContainsSubstring(s, "")
  {
    assert OccursAt(s, s, 0);
    assert OccursAt(s, "", 0);
  }

  /** SQLite's case folding for `LIKE`: only the ASCII letters `A` to `Z` fold, to `a` to `z`. */
  function FoldAscii(c: char): (f: char)
    ensures 'A' <= c <= 'Z' ==> f as int == c as int + 32
    ensures !('A' <= c <= 'Z') ==> f == c
  {
    if 'A' <= c <= 'Z' then (c as int + 32) as char else c
  }

  /**
   * `text LIKE pattern` with SQLite's defaults (no `ESCAPE` clause): `%`
   * matches any run of characters, the empty one included, `_` matches exactly
   * one character, and every other character matches itself up to ASCII case.
   */
  predicate Like(text: string, pattern: string)
    decreases |pattern|, |text|
  {
    if |pattern| == 0 then |text| == 0
    else if pattern[0] == '%' then Like(text, pattern[1..]) || (|text| > 0 && Like(text[1..], pattern))
    else |text| > 0 && (pattern[0] == '_' || FoldAscii(pattern[0]) == FoldAscii(text[0])) && Like(text[1..], pattern[1..])
  }

  /** `text LIKE '%term%'`, the pattern a search binds around its term. */
  predicate LikeAnywhere(text: string, term: string)
  {
    Like(text, "%" + term + "%")
  }

  /** The term has neither of LIKE's wildcards. */
  predicate NoWildcards(term: string)
  {
    forall i :: 0 <= i < |term| ==> term[i] != '%' && term[i] != '_'
  }

  /** The text with every character folded as LIKE folds it. */
  function FoldAll(s: string): (r: string)
    ensures |r| == |s|
    ensures forall i :: 0 <= i < |s| ==> r[i] == FoldAscii(s[i])
  {
    seq(|s|, i requires 0 <= i < |s| => FoldAscii(s[i]))
  }

  /** `term` matches `text` at position `i` up to ASCII case. */
  predicate FoldedAt(text: string, term: string, i: int)
  {
    0 <= i && i + |term| <= |text| && forall j :: 0 <= j < |term| ==> FoldAscii(text[i + j]) == FoldAscii(term[j])
  }

  /** A lone `%` matches every text. */
  lemma {:induction false} LikeAny(t: string)
    ensures Like(t, "%")
  {
    assert "%"[1..] == "";
    if |t| > 0 {
      LikeAny(t[1..]);
    }
  }

  /** A wildcard-free term followed by `%` matches exactly the texts that start with the term, up to case. */
  lemma {:induction false} LikePrefix(t: string, p: string)
    requires NoWildcards(p)
    ensures Like(t, p + "%") <==> FoldedAt(t, p, 0)
  {
    if |p| == 0 {
      assert p + "%" == "%";
      LikeAny(t);
    } else {
      assert (p + "%")[0] == p[0];
      assert (p + "%")[1..] == p[1..] + "%";
      LikePrefix(t[..], p[1..]);
      if |t| > 0 {
        LikePrefix(t[1..], p[1..]);
        if FoldedAt(t[1..], p[1..], 0) && FoldAscii(p[0]) == FoldAscii(t[0]) {
          forall j | 0 <= j < |p| ensures FoldAscii(t[j]) == FoldAscii(p[j]) {
            if j > 0 {
              assert t[1..][j - 1] == t[j] && p[1..][j - 1] == p[j];
            }
          }
        }
        if FoldedAt(t, p, 0) {
          forall j | 0 <= j < |p| - 1 ensures FoldAscii(t[1..][j]) == FoldAscii(p[1..][j]) {
            assert t[1..][j] == t[j + 1] && p[1..][j] == p[j + 1];
          }
        }
      }
    }
  }

  /** A leading `%` lets the rest of the pattern match any suffix of the text. */
  lemma {:induction false} LikeSuffix(t: string, q: string)
    ensures Like(t, "%" + q) <==> exists i :: 0 <= i <= |t| && Like(t[i..], q)
  {
    assert ("%" + q)[0] == '%' && ("%" + q)[1..] == q;
    assert t[0..] == t;
    if |t| > 0 {
      LikeSuffix(t[1..], q);
      if Like(t[1..], "%" + q) {
        var i :| 0 <= i <= |t[1..]| && Like(t[1..][i..], q);
        assert t[1..][i..] == t[i + 1..];
      }
      if exists i :: 0 <= i <= |t| && Like(t[i..], q) {
        var i :| 0 <= i <= |t| && Like(t[i..], q);
        if i > 0 {
          assert t[1..][i - 1..] == t[i..];
        }
      }
    }
  }

  /**
   * For a term without wildcards, `text LIKE '%term%'` holds exactly when the
   * term occurs in the text once both are folded to ASCII lower case.
   */
  lemma LikeAnywhereLiteral(text: string, term: string)
    requires NoWildcards(term)
    ensures LikeAnywhere(text, term) <==> ContainsSubstring(FoldAll(text), FoldAll(term))
  {
    assert "%" + term + "%" == "%" + (term + "%");
    LikeSuffix(text, term + "%");
    var ft, fp := FoldAll(text), FoldAll(term);
    forall i | 0 <= i <= |text|
      ensures Like(text[i..], term + "%") <==> OccursAt(ft, fp, i)
    {
      LikePrefix(text[i..], term);
      if FoldedAt(text[i..], term, 0) {
        assert ft[i..i + |term|] == fp;
      }
      if OccursAt(ft, fp, i) {
        forall j | 0 <= j < |term| ensures FoldAscii(text[i..][j]) == FoldAscii(term[j]) {
          assert ft[i..i + |term|][j] == fp[j];
        }
      }
    }
  }

  /** An occurrence of the term as written is found by LIKE. */
  lemma SubstringIsLike(text: string, term: string)
    requires NoWildcards(term) && ContainsSubstring(text, term)
    ensures LikeAnywhere(text, term)
  {
    var i :| 0 <= i <= |text| - |term| && OccursAt(text, term, i);
    assert text[i..i + |term|] == term;
    assert FoldAll(text)[i..i + |term|] == FoldAll(term);
    assert OccursAt(FoldAll(text), FoldAll(term), i);
    LikeAnywhereLiteral(text, term);
  }

  /** `_` in a term stands for any one character: `a_c` finds `abc`, where it is not a substring. */
  lemma LikeUnderscoreExample()
    ensures LikeAnywhere("abc", "a_c") && !ContainsSubstring("abc", "a_c")
  {
    assert "%" + "a_c" + "%" == "%a_c%";
    LikeAny("");
    assert "c%"[1..] == "%" && "_c%"[1..] == "c%" && "a_c%"[1..] == "_c%" && "%a_c%"[1..] == "a_c%";
    assert "c"[1..] == "" && "bc"[1..] == "c" && "abc"[1..] == "bc";
    assert Like("c", "c%");
    assert Like("bc", "_c%");
    assert Like("abc", "a_c%");
    assert "abc"[0..3][1] != "a_c"[1];
  }

  /** ASCII letters match in either case: `ureia` finds `Ureia`. */
  lemma LikeCaseExample()
    ensures LikeAnywhere("Ureia", "ureia")
  {
    LikeAnywhereLiteral("Ureia", "ureia");
    assert FoldAll("Ureia") == "ureia" && FoldAll("ureia") == "ureia";
    assert OccursAt("ureia", "ureia", 0);
  }

  /** The term `%` finds every text. */
  lemma LikePercentExample(text: string)
    ensures LikeAnywhere(text, "%")
  {
    assert "%" + "%" + "%" == "%%%" && "%%%"[1..] == "%%" && "%%"[1..] == "%";
    LikeAny(text);
  }

  /**
   * A lower-case letter whose upper-case is 32 code points below: the ASCII
   * letters and the Latin-1 letters (à to þ, except ÷), which cover Portuguese.
   */
  predicate IsLowerLetter(c: char)
  {
    ('a' <= c <= 'z') || ('\U{E0}' <= c <= '\U{FE}' && c != '\U{F7}')
  }

  /** An upper-case letter whose lower-case is 32 code points above (A to Z, À to Þ except ×). */
  predicate IsUpperLetter(c: char)
  {
    ('A' <= c <= 'Z') || ('\U{C0}' <= c <= '\U{DE}' && c != '\U{D7}')
  }

  /** Upper-case of a letter; other characters are unchanged. */
  function UpperChar(c: char): (u: char)
    ensures IsLowerLetter(c) ==> u as int == c as int - 32 && IsUpperLetter(u)
    ensures !IsLowerLetter(c) ==> u == c
  {
    if IsLowerLetter(c) then (c as int - 32) as char else c
  }

  /** Lower-case of a letter; other characters are unchanged. */
  function LowerChar(c: char): (l: char)
    ensures IsUpperLetter(c) ==> l as int == c as int + 32 && IsLowerLetter(l)
    ensures !IsUpperLetter(c) ==> l == c
  {
    if IsUpperLetter(c) then (c as int + 32) as char else c
  }

  /** Upper- and lower-casing undo each other on letters. */
  lemma CaseRoundTrip(c: char)
    ensures IsLowerLetter(c) ==> LowerChar(UpperChar(c)) == c
    ensures IsUpperLetter(c) ==> UpperChar(LowerChar(c)) == c
    ensures !IsLowerLetter(UpperChar(c)) && !IsUpperLetter(LowerChar(c))
  {
  }

  /** `s.toUpperCase()`, one character at a time. */
  function Upper(s: string): (r: string)
    ensures |r| == |s|
    ensures forall i :: 0 <= i < |s| ==> r[i] == UpperChar(s[i])
  {
    seq(|s|, i requires 0 <= i < |s| => UpperChar(s[i]))
  }

  /** `s.toLowerCase()`, one character at a time. */
  function Lower(s: string): (r: string)
    ensures |r| == |s|
    ensures forall i :: 0 <= i < |s| ==> r[i] == LowerChar(s[i])
  {
    seq(|s|, i requires 0 <= i < |s| => LowerChar(s[i]))
  }
}
