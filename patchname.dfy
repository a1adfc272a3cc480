/** The patch-name normaliser of the name field (src/patch.tsx,
    `handleNameChange`): a raw name of 30 characters or more is refused;
    otherwise the name is lower-cased, everything but letters, digits,
    white space and hyphens is dropped, every run of white space becomes a
    hyphen, every run of hyphens becomes one hyphen, and leading hyphens are
    removed. A Dafny `char` is one Unicode scalar value, so the 30-character
    test counts UTF-16 code units explicitly, as JavaScript's `length` does;
    `toLowerCase` is modelled on ASCII letters only. */
module PatchName {
  import opened Common

  /** `\s` of JavaScript regular expressions: the ECMAScript WhiteSpace and
      LineTerminator code points. */
  predicate IsSpace(c: char)
  {
    || c == ' ' || c == '\t' || c == '\n' || c == '\U{000B}' || c == '\U{000C}' || c == '\r'
    || c == '\U{00A0}' || c == '\U{1680}' || ('\U{2000}' <= c <= '\U{200A}')
    || c == '\U{2028}' || c == '\U{2029}' || c == '\U{202F}' || c == '\U{205F}'
    || c == '\U{3000}' || c == '\U{FEFF}'
  }

  predicate IsHyphen(c: char) { c == '-' }

  predicate IsLowerAlnum(c: char) { ('a' <= c <= 'z') || ('0' <= c <= '9') }

  /** The class `[a-z0-9\s-]` the second step keeps. */
  predicate IsKept(c: char) { IsLowerAlnum(c) || IsSpace(c) || IsHyphen(c) }

  function LowerChar(c: char): (r: char)
    ensures 'A' <= c <= 'Z' ==> 'a' <= r <= 'z' && r as int == c as int + 32
    ensures !('A' <= c <= 'Z') ==> r == c
  {
    if 'A' <= c <= 'Z' then (c as int + 32) as char else c
  }

  /** `toLowerCase()`, for ASCII letters. */
  function Lower(s: string): (r: string)
    ensures |r| == |s|
    ensures forall i :: 0 <= i < |s| ==> !('A' <= r[i] <= 'Z')
    ensures forall i :: 0 <= i < |s| && !('A' <= s[i] <= 'Z') ==> r[i] == s[i]
    ensures forall i :: 0 <= i < |s| && 'A' <= s[i] <= 'Z' ==> r[i] as int == s[i] as int + 32
  {
    seq(|s|, i requires 0 <= i < |s| => LowerChar(s[i]))
  }

  /** Lower-casing twice is lower-casing once, and a name without capitals is
      left as it is. */
  lemma LowerIdempotent(s: string)
    ensures Lower(Lower(s)) == Lower(s)
    ensures (forall i :: 0 <= i < |s| ==> !('A' <= s[i] <= 'Z')) ==> Lower(s) == s
  {
  }

  /** `replace(/[^a-z0-9\s-]/g, '')` */
  function KeepAllowed(s: string): (r: string)
    ensures |r| <= |s|
    ensures forall c :: c in r ==> IsKept(c)
    decreases |s|
  {
    if |s| == 0 then []
    else if IsKept(s[0]) then [s[0]] + KeepAllowed(s[1..])
    else KeepAllowed(s[1..])
  }

  /** What is left after the leading run of characters in `p`. */
  function DropRun(s: string, p: char -> bool): (r: string)
    ensures |r| <= |s| && r == s[|s| - |r|..]
    ensures |r| > 0 ==> !p(r[0])
    decreases |s|
  {
    if |s| > 0 && p(s[0]) then DropRun(s[1..], p) else s
  }

  /** `replace(/P+/g, c)`: every maximal run of characters in `p` becomes
      the single character `c`. */
  function ReplaceRuns(s: string, p: char -> bool, c: char): (r: string)
    ensures |r| <= |s|
    decreases |s|
  {
    if |s| == 0 then []
    else if p(s[0]) then [c] + ReplaceRuns(DropRun(s[1..], p), p, c)
    else [s[0]] + ReplaceRuns(s[1..], p, c)
  }

  /** The four `replace` calls after `toLowerCase()`; none of them makes
      the name longer. */
  function Normalized(raw: string): (r: string)
    ensures |r| <= |raw|
  {
    var kept := KeepAllowed(Lower(raw));
    var spaced := ReplaceRuns(kept, IsSpace, '-');
    var single := ReplaceRuns(spaced, IsHyphen, '-');
    DropRun(single, IsHyphen)
  }

  /** JavaScript's `length`: a character outside the Basic Multilingual
      Plane is a surrogate pair, two UTF-16 code units. */
  function Utf16Length(s: string): (r: nat)
    ensures |s| <= r <= 2 * |s|
    ensures r == |s| <==> forall i :: 0 <= i < |s| ==> s[i] as int < 0x1_0000
    decreases |s|
  {
    if |s| == 0 then 0
    else (if s[0] as int < 0x1_0000 then 1 else 2) + Utf16Length(s[1..])
  }

  /** Characters outside the Basic Multilingual Plane count twice: fifteen
      of them already reach the limit of 30. */
  lemma {:induction false} AstralCountsTwice(s: string)
    requires forall i :: 0 <= i < |s| ==> s[i] as int >= 0x1_0000
    ensures Utf16Length(s) == 2 * |s|
    ensures |s| >= 15 ==> SanitizeName(s).None?
    decreases |s|
  {
    if |s| > 0 {
      AstralCountsTwice(s[1..]);
    }
  }

  /** handleNameChange: the name dispatched, or None when nothing is. */
  function SanitizeName(raw: string): (r: Option<string>)
    ensures r.None? <==> Utf16Length(raw) >= 30
    ensures r.Some? ==> r.value == Normalized(raw)
  {
    if Utf16Length(raw) >= 30 then None else Some(Normalized(raw))
  }

  // ---------------------------------------------------------------------------
  // The language of normalised names

  predicate NoDoubleHyphen(s: string)
  {
    forall i :: 0 <= i < |s| - 1 ==> !(s[i] == '-' && s[i + 1] == '-')
  }

  /** Letters, digits and single hyphens, not starting with a hyphen. */
  predicate IsCleanName(s: string)
  {
    && (forall c :: c in s ==> IsLowerAlnum(c) || IsHyphen(c))
    && NoDoubleHyphen(s)
    && (|s| > 0 ==> s[0] != '-')
  }

  /** Replacing runs of `p` keeps only characters outside `p`, plus `c`. */
  lemma {:induction false} ReplaceRunsAlphabet(s: string, p: char -> bool, c: char)
    ensures forall x :: x in ReplaceRuns(s, p, c) ==> x == c || (x in s && !p(x))
    decreases |s|
  {
    if |s| > 0 {
      if p(s[0]) {
        var rest := DropRun(s[1..], p);
        ReplaceRunsAlphabet(rest, p, c);
      } else {
        ReplaceRunsAlphabet(s[1..], p, c);
      }
    }
  }

  /** Hyphen runs replaced by one hyphen leave no two hyphens side by side;
      the result begins with a hyphen only if the input did. */
  lemma {:induction false} HyphenRunsSingle(s: string)
    ensures NoDoubleHyphen(ReplaceRuns(s, IsHyphen, '-'))
    ensures |ReplaceRuns(s, IsHyphen, '-')| > 0 ==> (ReplaceRuns(s, IsHyphen, '-')[0] == '-' <==> s[0] == '-')
    decreases |s|
  {
    if |s| > 0 {
      var tail := if IsHyphen(s[0]) then DropRun(s[1..], IsHyphen) else s[1..];
      HyphenRunsSingle(tail);
      var r := ReplaceRuns(s, IsHyphen, '-');
      var rt := ReplaceRuns(tail, IsHyphen, '-');
      assert r == [if IsHyphen(s[0]) then '-' else s[0]] + rt;
      if IsHyphen(s[0]) {
        assert |rt| > 0 ==> rt[0] != '-';
      }
      forall i | 0 <= i < |r| - 1 ensures !(r[i] == '-' && r[i + 1] == '-') {
        if i > 0 {
          assert r[i] == rt[i - 1] && r[i + 1] == rt[i];
        }
      }
    }
  }

  /** Dropping a leading run keeps the properties of what remains. */
  lemma DropRunClean(s: string)
    requires forall c :: c in s ==> IsLowerAlnum(c) || IsHyphen(c)
    requires NoDoubleHyphen(s)
    ensures IsCleanName(DropRun(s, IsHyphen))
  {
    var r := DropRun(s, IsHyphen);
    var k := |s| - |r|;
    forall i | 0 <= i < |r| - 1 ensures !(r[i] == '-' && r[i + 1] == '-') {
      assert r[i] == s[k + i] && r[i + 1] == s[k + i + 1];
    }
  }

  /** Every dispatched name is a clean name: only `a-z`, `0-9` and `-`, no
      two hyphens in a row, and no leading hyphen (trailing ones are kept). */
  lemma NormalizedClean(raw: string)
    ensures IsCleanName(Normalized(raw))
  {
    var kept := KeepAllowed(Lower(raw));
    var spaced := ReplaceRuns(kept, IsSpace, '-');
    var single := ReplaceRuns(spaced, IsHyphen, '-');
    ReplaceRunsAlphabet(kept, IsSpace, '-');
    ReplaceRunsAlphabet(spaced, IsHyphen, '-');
    HyphenRunsSingle(spaced);
    DropRunClean(single);
  }

  // ---------------------------------------------------------------------------
  // Clean names are fixed points

  lemma {:induction false} KeepAllowedAll(s: string)
    requires forall c :: c in s ==> IsKept(c)
    ensures KeepAllowed(s) == s
    decreases |s|
  {
    if |s| > 0 {
      KeepAllowedAll(s[1..]);
    }
  }

  lemma {:induction false} ReplaceRunsNone(s: string, p: char -> bool, c: char)
    requires forall x :: x in s ==> !p(x)
    ensures ReplaceRuns(s, p, c) == s
    decreases |s|
  {
    if |s| > 0 {
      ReplaceRunsNone(s[1..], p, c);
    }
  }

  /** Single hyphens are left alone by the hyphen-run step. */
  lemma {:induction false} HyphenRunsKeep(s: string)
    requires NoDoubleHyphen(s)
    ensures ReplaceRuns(s, IsHyphen, '-') == s
    decreases |s|
  {
    if |s| > 0 {
      var t := s[1..];
      assert NoDoubleHyphen(t) by {
        forall i | 0 <= i < |t| - 1 ensures !(t[i] == '-' && t[i + 1] == '-') {
          assert t[i] == s[i + 1] && t[i + 1] == s[i + 2];
        }
      }
      if IsHyphen(s[0]) {
        assert |t| > 0 ==> t[0] != '-';
        assert DropRun(t, IsHyphen) == t;
      }
      HyphenRunsKeep(t);
    }
  }

  /** A clean name normalises to itself. */
  lemma CleanFixed(s: string)
    requires IsCleanName(s)
    ensures Normalized(s) == s
  {
    forall i | 0 <= i < |s| ensures Lower(s)[i] == s[i] {
      assert s[i] in s;
    }
    assert Lower(s) == s;
    KeepAllowedAll(s);
    ReplaceRunsNone(s, IsSpace, '-');
    HyphenRunsKeep(s);
  }

  /** Normalising is idempotent, and a name is its own normal form exactly
      when it is clean. */
  lemma NormalizedIdempotent(raw: string)
    ensures Normalized(Normalized(raw)) == Normalized(raw)
    ensures Normalized(raw) == raw <==> IsCleanName(raw)
  {
    NormalizedClean(raw);
    CleanFixed(Normalized(raw));
    if IsCleanName(raw) {
      CleanFixed(raw);
    }
  }

  /** A clean name is all ASCII: one code unit per character. */
  lemma CleanUtf16(s: string)
    requires IsCleanName(s)
    ensures Utf16Length(s) == |s|
  {
    forall i | 0 <= i < |s| ensures s[i] as int < 0x1_0000 {
      assert s[i] in s;
    }
  }

  /** A dispatched name, typed again, is dispatched unchanged. */
  lemma SanitizeNameStable(raw: string)
    requires SanitizeName(raw).Some?
    ensures SanitizeName(SanitizeName(raw).value) == SanitizeName(raw)
  {
    var n := Normalized(raw);
    NormalizedIdempotent(raw);
    NormalizedClean(raw);
    CleanUtf16(n);
  }
}
