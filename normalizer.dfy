/**
  The string normalizer of the lead tracker: `normalize(str)` lower-cases its
  argument, replaces every run of underscores and white space by a single
  underscore, and then trims. Because every white-space character has already
  been replaced when the trim runs, the trim never removes anything: leading and
  trailing blanks survive as underscores.
 */
module Normalizer {
  import opened Wrappers

  /** A character matched by `\s` in a JavaScript regular expression: the
      WhiteSpace and LineTerminator code points. `String.prototype.trim` strips
      exactly the same set. */
  predicate IsWhitespace(c: char) {
    if c < '\U{00A0}' then c == ' ' || '\t' <= c <= '\r'
    else
      || c == '\U{00A0}' || c == '\U{1680}' || '\U{2000}' <= c <= '\U{200A}'
      || c == '\U{2028}' || c == '\U{2029}' || c == '\U{202F}' || c == '\U{205F}'
      || c == '\U{3000}' || c == '\U{FEFF}'
  }

  /** A character of the class `[_\s]`. */
  predicate IsSeparator(c: char) {
    c == '_' || IsWhitespace(c)
  }

  predicate IsUpper(c: char) {
    'A' <= c <= 'Z'
  }

  ghost predicate NoUpper(s: string) {
    forall c :: c in s ==> !IsUpper(c)
  }

  ghost predicate NoWhitespace(s: string) {
    forall c :: c in s ==> !IsWhitespace(c)
  }

  /** No two underscores stand next to each other. */
  ghost predicate NoDoubleUnderscore(s: string) {
    forall i, j :: 0 <= i && j == i + 1 && j < |s| ==> !(s[i] == '_' && s[j] == '_')
  }

  /** What `normalize` promises of every result. */
  ghost predicate IsNormal(s: string) {
    NoUpper(s) && NoWhitespace(s) && NoDoubleUnderscore(s)
  }

  /** A capital becomes the lower-case letter at the same place in the
      alphabet; every other character is kept. */
  function LowerChar(c: char): (r: char)
    ensures !IsUpper(r)
    ensures IsSeparator(r) <==> IsSeparator(c)
    ensures IsUpper(c) ==> 'a' <= r <= 'z' && r as int - 'a' as int == c as int - 'A' as int
    ensures !IsUpper(c) ==> r == c
  {
    if IsUpper(c) then (c as int + 32) as char else c
  }

  /** `toLowerCase`, for the ASCII letters. */
  function ToLower(s: string): (r: string)
    ensures |r| == |s| && NoUpper(r)
    ensures forall i :: 0 <= i < |s| ==> (IsSeparator(r[i]) <==> IsSeparator(s[i]))
    ensures forall i :: 0 <= i < |s| && IsUpper(s[i]) ==>
              'a' <= r[i] <= 'z' && r[i] as int - 'a' as int == s[i] as int - 'A' as int
    ensures forall i :: 0 <= i < |s| && !IsUpper(s[i]) ==> r[i] == s[i]
  {
    seq(|s|, i requires 0 <= i < |s| => LowerChar(s[i]))
  }

  /** `replace(/[_\s]+/g, "_")`: every maximal run of separators becomes a
      single underscore; every other character is kept. A separator that is
      followed by another one is dropped, the last one of a run is written as
      `_`. */
  function CollapseSeparators(s: string): (r: string)
    ensures |r| <= |s|
  {
    if s == [] then []
    else if !IsSeparator(s[0]) then [s[0]] + CollapseSeparators(s[1..])
    else if |s| > 1 && IsSeparator(s[1]) then CollapseSeparators(s[1..])
    else "_" + CollapseSeparators(s[1..])
  }

  /** Collapsing never lengthens a string, empties only the empty string, and
      keeps each end as it was: a separator there becomes `_`, any other
      character stays. */
  lemma {:induction false} CollapseEnds(s: string)
    ensures |CollapseSeparators(s)| <= |s|
    ensures CollapseSeparators(s) == [] <==> s == []
    ensures s != [] ==> (CollapseSeparators(s)[0] == '_' <==> IsSeparator(s[0]))
    ensures s != [] && !IsSeparator(s[0]) ==> CollapseSeparators(s)[0] == s[0]
    ensures s != [] ==> (CollapseSeparators(s)[|CollapseSeparators(s)| - 1] == '_' <==> IsSeparator(s[|s| - 1]))
    ensures s != [] && !IsSeparator(s[|s| - 1]) ==> CollapseSeparators(s)[|CollapseSeparators(s)| - 1] == s[|s| - 1]
  {
    if s != [] {
      CollapseEnds(s[1..]);
    }
  }

  /** The result of collapsing has no white space, no two adjacent
      underscores, and no character the input did not have except `_`. */
  lemma {:induction false} CollapseShape(s: string)
    ensures NoWhitespace(CollapseSeparators(s)) && NoDoubleUnderscore(CollapseSeparators(s))
    ensures NoUpper(s) ==> NoUpper(CollapseSeparators(s))
    ensures forall c :: c in CollapseSeparators(s) ==> c in s || c == '_'
  {
    if s != [] {
      var rest := s[1..];
      var r, tail := CollapseSeparators(s), CollapseSeparators(rest);
      CollapseShape(rest);
      CollapseEnds(rest);
      assert NoUpper(s) ==> NoUpper(rest) by {
        forall c | c in rest ensures c in s {
        }
      }
      if !IsSeparator(s[0]) {
        assert r == [s[0]] + tail;
        assert tail != [] ==> tail[0] == '_' || tail[0] == rest[0];
      } else if |s| > 1 && IsSeparator(s[1]) {
        assert r == tail;
      } else {
        assert r == "_" + tail;
        assert tail != [] ==> tail[0] == rest[0] && !IsSeparator(rest[0]);
      }
      forall i, j | 0 <= i && j == i + 1 && j < |r| ensures !(r[i] == '_' && r[j] == '_') {
        if r != tail && i > 0 {
          assert r[i] == tail[i - 1] && r[j] == tail[j - 1];
        }
      }
    }
  }

  /** `trimStart`: drops leading white space. */
  function TrimStart(s: string): string {
    if s != [] && IsWhitespace(s[0]) then TrimStart(s[1..]) else s
  }

  /** `trimEnd`: drops trailing white space. */
  function TrimEnd(s: string): string {
    if s != [] && IsWhitespace(s[|s| - 1]) then TrimEnd(s[..|s| - 1]) else s
  }

  /** `trim`: leaves no white space at either end. */
  function Trim(s: string): (r: string)
    ensures |r| <= |s|
    ensures r == [] || (!IsWhitespace(r[0]) && !IsWhitespace(r[|r| - 1]))
  {
    TrimStartDrops(s);
    TrimEndDrops(TrimStart(s));
    TrimEnd(TrimStart(s))
  }

  /** `trim` keeps one slice of the string and drops only white space before
      and after it. */
  lemma TrimSlice(s: string)
    ensures var r, i := Trim(s), |s| - |TrimStart(s)|;
            && 0 <= i && i + |r| <= |s| && r == s[i..i + |r|]
            && (forall k :: 0 <= k < i ==> IsWhitespace(s[k]))
            && (forall k :: i + |r| <= k < |s| ==> IsWhitespace(s[k]))
  {
    TrimStartDrops(s);
    TrimEndDrops(TrimStart(s));
  }

  /** `trimStart` drops exactly the leading white space: what remains is a
      suffix that does not start with white space, and everything dropped is
      white space. */
  lemma {:induction false} TrimStartDrops(s: string)
    ensures |TrimStart(s)| <= |s| && TrimStart(s) == s[|s| - |TrimStart(s)|..]
    ensures TrimStart(s) == [] || !IsWhitespace(TrimStart(s)[0])
    ensures forall i :: 0 <= i < |s| - |TrimStart(s)| ==> IsWhitespace(s[i])
  {
    if s != [] && IsWhitespace(s[0]) {
      TrimStartDrops(s[1..]);
      assert forall i :: 1 <= i < |s| ==> s[i] == s[1..][i - 1];
    }
  }

  /** `trimEnd` drops exactly the trailing white space. */
  lemma {:induction false} TrimEndDrops(s: string)
    ensures |TrimEnd(s)| <= |s| && TrimEnd(s) == s[..|TrimEnd(s)|]
    ensures TrimEnd(s) == [] || !IsWhitespace(TrimEnd(s)[|TrimEnd(s)| - 1])
    ensures forall i :: |TrimEnd(s)| <= i < |s| ==> IsWhitespace(s[i])
  {
    if s != [] && IsWhitespace(s[|s| - 1]) {
      TrimEndDrops(s[..|s| - 1]);
    }
  }

  /** A string without white space at either end is left alone by `trim`. */
  lemma TrimUnchanged(s: string)
    requires s == [] || (!IsWhitespace(s[0]) && !IsWhitespace(s[|s| - 1]))
    ensures Trim(s) == s
  {
  }

  /** `normalize(str)`, with `null` and `undefined` as `None`. */
  function Normalize(str: Option<string>): (r: string)
    ensures IsNormal(r)
    ensures r == CollapseSeparators(ToLower(str.GetOr("")))
  {
    var lowered := ToLower(str.GetOr(""));
    var collapsed := CollapseSeparators(lowered);
    CollapseShape(lowered);
    assert collapsed != [] ==> collapsed[0] in collapsed && collapsed[|collapsed| - 1] in collapsed;
    TrimUnchanged(collapsed);
    Trim(collapsed)
  }

  /** The non-separator characters of a string, in order. */
  function Letters(s: string): string {
    if s == [] then []
    else (if IsSeparator(s[0]) then [] else [s[0]]) + Letters(s[1..])
  }

  /** Collapsing keeps every other character, in order: only separators are
      merged or rewritten. */
  lemma {:induction false} CollapseKeepsLetters(s: string)
    ensures Letters(CollapseSeparators(s)) == Letters(s)
  {
    if s != [] {
      CollapseKeepsLetters(s[1..]);
      var r, tail := CollapseSeparators(s), CollapseSeparators(s[1..]);
      if r != tail {
        assert r[1..] == tail;
      }
    }
  }

  /** What collapsing writes for the first character of a non-empty string. */
  function CollapsedHead(s: string): (r: string)
    requires s != []
    ensures CollapseSeparators(s) == r + CollapseSeparators(s[1..])
  {
    if !IsSeparator(s[0]) then [s[0]]
    else if |s| > 1 && IsSeparator(s[1]) then []
    else "_"
  }

  /** Collapsing distributes over a concatenation unless the cut falls inside
      a run of separators. */
  lemma {:induction false} CollapseAppend(a: string, b: string)
    requires a == [] || b == [] || !IsSeparator(a[|a| - 1]) || !IsSeparator(b[0])
    ensures CollapseSeparators(a + b) == CollapseSeparators(a) + CollapseSeparators(b)
  {
    if a == [] {
      assert a + b == b;
    } else if b == [] {
      assert a + b == a;
    } else if |a| == 1 {
      CollapseAppendSingle(a, b);
    } else {
      CollapseAppend(a[1..], b);
      CollapseAppendStep(a, b);
    }
  }

  lemma DropFirstOfAppend(a: string, b: string)
    requires a != []
    ensures (a + b)[1..] == a[1..] + b
  {
  }

  /** The base case of `CollapseAppend`: a single character in front. */
  lemma CollapseAppendSingle(a: string, b: string)
    requires |a| == 1 && b != [] && (!IsSeparator(a[0]) || !IsSeparator(b[0]))
    ensures CollapseSeparators(a + b) == CollapseSeparators(a) + CollapseSeparators(b)
  {
    var ab := a + b;
    DropFirstOfAppend(a, b);
    assert ab[0] == a[0] && ab[1] == b[0];
    assert CollapseSeparators(a[1..]) == [];
    assert CollapsedHead(ab) == CollapsedHead(a);
  }

  /** The inductive step of `CollapseAppend`: the first character of a
      longer prefix is collapsed the same way with or without the suffix. */
  lemma CollapseAppendStep(a: string, b: string)
    requires |a| > 1
    requires CollapseSeparators(a[1..] + b) == CollapseSeparators(a[1..]) + CollapseSeparators(b)
    ensures CollapseSeparators(a + b) == CollapseSeparators(a) + CollapseSeparators(b)
  {
    var ab := a + b;
    DropFirstOfAppend(a, b);
    assert ab[0] == a[0] && ab[1] == a[1];
    var head := CollapsedHead(a);
    assert CollapsedHead(ab) == head;
    assert CollapseSeparators(ab) == head + (CollapseSeparators(a[1..]) + CollapseSeparators(b));
    assert CollapseSeparators(a) == head + CollapseSeparators(a[1..]);
  }

  /** A string that already has the shape of a collapsed string is its own
      collapse. */
  lemma {:induction false} CollapseFixedPoint(s: string)
    requires NoWhitespace(s) && NoDoubleUnderscore(s)
    ensures CollapseSeparators(s) == s
  {
    if s != [] {
      var rest := s[1..];
      assert s[0] in s;
      assert NoWhitespace(rest) by {
        forall c | c in rest ensures c in s {
        }
      }
      assert NoDoubleUnderscore(rest) by {
        forall i, j | 0 <= i && j == i + 1 && j < |rest| ensures !(rest[i] == '_' && rest[j] == '_') {
          assert rest[i] == s[i + 1] && rest[j] == s[j + 1];
        }
      }
      CollapseFixedPoint(rest);
      if |s| > 1 {
        assert s[1] in s;
      }
      assert s == [s[0]] + rest;
    }
  }

  /** `null`, `undefined` and the empty string, and only they, normalize to
      the empty string; a separator at either end of the input is kept as an
      underscore, because the trim runs after the replacement. */
  lemma NormalizeEnds(str: Option<string>)
    ensures Normalize(str) == [] <==> str.None? || str.value == []
    ensures str.Some? && str.value != [] ==> (Normalize(str)[0] == '_' <==> IsSeparator(str.value[0]))
    ensures str.Some? && str.value != [] ==> (Normalize(str)[|Normalize(str)| - 1] == '_' <==> IsSeparator(str.value[|str.value| - 1]))
  {
    CollapseEnds(ToLower(str.GetOr("")));
  }

  /** A string that already has the shape of a normalized string is left
      alone by `normalize`. */
  lemma NormalizeNormal(s: string)
    requires IsNormal(s)
    ensures Normalize(Some(s)) == s
  {
    assert ToLower(s) == s by {
      forall i | 0 <= i < |s| ensures ToLower(s)[i] == s[i] {
        assert s[i] in s;
      }
    }
    CollapseFixedPoint(s);
  }

  /** A capitalised word normalizes to its lower-case spelling. */
  lemma NormalizeCapitalized(c: char, rest: string)
    requires IsUpper(c) && IsNormal(rest)
    ensures Normalize(Some([c] + rest)) == [LowerChar(c)] + rest
  {
    var lowered := [LowerChar(c)];
    assert Normalize(Some([c])) == lowered by {
      assert ToLower([c]) == lowered;
      assert CollapseSeparators(lowered) == lowered + CollapseSeparators(lowered[1..]);
    }
    assert Normalize(Some(rest)) == rest by {
      NormalizeNormal(rest);
    }
    NormalizeAppend([c], rest);
  }

  /** `normalize` is idempotent. */
  lemma NormalizeIdempotent(str: Option<string>)
    ensures Normalize(Some(Normalize(str))) == Normalize(str)
  {
    NormalizeNormal(Normalize(str));
  }

  /** A run of separators alone collapses to one underscore. */
  lemma {:induction false} CollapseRun(s: string)
    requires s != [] && forall i :: 0 <= i < |s| ==> IsSeparator(s[i])
    ensures CollapseSeparators(s) == "_"
  {
    if |s| > 1 {
      CollapseRun(s[1..]);
    }
  }

  /** Lower-casing works character by character, so it distributes over a
      concatenation. */
  lemma ToLowerAppend(a: string, b: string)
    ensures ToLower(a + b) == ToLower(a) + ToLower(b)
  {
    assert forall i :: 0 <= i < |a| ==> (a + b)[i] == a[i];
    assert forall i :: |a| <= i < |a| + |b| ==> (a + b)[i] == b[i - |a|];
  }

  /** Normalizing distributes over a concatenation unless the cut falls inside
      a run of separators. */
  lemma NormalizeAppend(a: string, b: string)
    requires a == [] || b == [] || !IsSeparator(a[|a| - 1]) || !IsSeparator(b[0])
    ensures Normalize(Some(a + b)) == Normalize(Some(a)) + Normalize(Some(b))
  {
    ToLowerAppend(a, b);
    CollapseAppend(ToLower(a), ToLower(b));
  }

  /** A run of underscores and blanks normalizes to one underscore. */
  lemma NormalizeRun(s: string)
    requires s != [] && forall i :: 0 <= i < |s| ==> IsSeparator(s[i])
    ensures Normalize(Some(s)) == "_"
  {
    CollapseRun(ToLower(s));
  }

  lemma EnquireNowPieces()
    ensures "Enquire   Now" == (['E'] + "nquire") + ("   " + (['N'] + "ow"))
    ensures "enquire_now" == (['e'] + "nquire") + ("_" + (['n'] + "ow"))
  {
  }

  /** Capitals are lowered and a run of blanks becomes one underscore. */
  lemma NormalizeEnquireNow(s: string)
    requires s == "Enquire   Now"
    ensures Normalize(Some(s)) == "enquire_now"
  {
    var word, rest, blanks := "nquire", "ow", "   ";
    assert IsNormal(word) && IsNormal(rest);
    NormalizeCapitalized('E', word);
    NormalizeCapitalized('N', rest);
    NormalizeRun(blanks);
    NormalizeAppend(blanks, ['N'] + rest);
    EnquireNowPieces();
    NormalizeAppend(['E'] + word, blanks + (['N'] + rest));
  }

  lemma MixedRunPieces()
    ensures "A_B  C" == ['A'] + ("_" + "B  C") && "B  C" == ['B'] + ("  " + ['C'])
    ensures "a_b_c" == ['a'] + ("_" + "b_c") && "b_c" == ['b'] + ("_" + ['c'])
  {
  }

  lemma NormalizeBlankRun(t: string)
    requires t == "B  C"
    ensures Normalize(Some(t)) == "b_c"
  {
    NormalizeCapitalized('B', []);
    NormalizeCapitalized('C', []);
    NormalizeRun("  ");
    NormalizeAppend("  ", ['C']);
    NormalizeAppend(['B'], "  " + ['C']);
    MixedRunPieces();
  }

  /** An underscore standing alone and a run of blanks each become a single
      underscore. */
  lemma NormalizeMixedRun(s: string)
    requires s == "A_B  C"
    ensures Normalize(Some(s)) == "a_b_c"
  {
    var t := "B  C";
    assert Normalize(Some("_" + t)) == "_" + "b_c" by {
      NormalizeBlankRun(t);
      NormalizeRun("_");
      NormalizeAppend("_", t);
    }
    assert Normalize(Some(['A'])) == ['a'] by {
      NormalizeCapitalized('A', []);
    }
    NormalizeAppend(['A'], "_" + t);
    MixedRunPieces();
  }
}
