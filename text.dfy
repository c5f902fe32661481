/**
 * The Python string operations the parsers rely on: `in`, `find`,
 * `startswith`, `lower`, `split()`, `split(sep)`, `" ".join`, `replace`,
 * `int`, and the fixed regular expressions that recognise dates and amounts.
 * Whitespace is the ASCII whitespace set; `lower` folds ASCII letters only.
 */
module Text {
  import opened Wrappers

  predicate IsSpace(c: char) {
    c == ' ' || c == '\t' || c == '\n' || c == '\r' || c as int == 11 || c as int == 12
  }

  predicate IsDigit(c: char) { '0' <= c <= '9' }

  function LowerChar(c: char): char {
    if 'A' <= c <= 'Z' then (c as int + 32) as char else c
  }

  /** `s.lower()` on ASCII letters. */
  function Lower(s: string): (r: string)
    ensures |r| == |s|
    ensures forall i :: 0 <= i < |s| ==> r[i] == LowerChar(s[i])
  {
    if s == [] then [] else [LowerChar(s[0])] + Lower(s[1..])
  }

  /** Lowering twice changes nothing more than lowering once. */
  lemma LowerIdempotent(s: string)
    ensures Lower(Lower(s)) == Lower(s)
  {
    assert forall i :: 0 <= i < |s| ==> LowerChar(LowerChar(s[i])) == LowerChar(s[i]);
  }

  /** `sub` occurs in `s` starting at index `i`. */
  predicate OccursAt(s: string, sub: string, i: int) {
    0 <= i && i + |sub| <= |s| && s[i..i + |sub|] == sub
  }

  /** `sub in s`. */
  predicate Contains(s: string, sub: string) {
    exists i :: 0 <= i <= |s| && OccursAt(s, sub, i)
  }

  /** `s.find(sub, k)` for `0 <= k`: the first index at or after `k` where `sub` starts, or -1. */
  function FindFrom(s: string, sub: string, k: nat): (r: int)
    decreases |s| - k
    ensures r == -1 || (k <= r && r + |sub| <= |s|)
  {
    if k + |sub| > |s| then -1
    else if s[k..k + |sub|] == sub then k
    else FindFrom(s, sub, k + 1)
  }

  /** `find` answers the first occurrence at or after `k`, and -1 only when there is none. */
  lemma {:induction false} FindFromMeaning(s: string, sub: string, k: nat)
    ensures var r := FindFrom(s, sub, k);
            && (r == -1 || OccursAt(s, sub, r))
            && (r != -1 ==> forall j :: k <= j < r ==> !OccursAt(s, sub, j))
            && (r == -1 ==> forall j :: k <= j ==> !OccursAt(s, sub, j))
    decreases |s| - k
  {
    if k + |sub| <= |s| && s[k..k + |sub|] != sub {
      FindFromMeaning(s, sub, k + 1);
    }
  }

  /** `s.find(sub)`. */
  function Find(s: string, sub: string): int {
    FindFrom(s, sub, 0)
  }

  /** `find` reports -1 exactly when `in` is false. */
  lemma FindIffContains(s: string, sub: string)
    ensures Find(s, sub) != -1 <==> Contains(s, sub)
  {
    FindFromMeaning(s, sub, 0);
    var r := Find(s, sub);
    if r != -1 {
      assert OccursAt(s, sub, r);
    }
  }

  /** What the tail of a string contains, the string contains. */
  lemma ContainsTail(s: string, sub: string)
    requires s != []
    ensures Contains(s[1..], sub) ==> Contains(s, sub)
  {
    if Contains(s[1..], sub) {
      var k :| 0 <= k <= |s[1..]| && OccursAt(s[1..], sub, k);
      assert s[k + 1..k + 1 + |sub|] == s[1..][k..k + |sub|];
      assert OccursAt(s, sub, k + 1);
    }
  }

  /** What a suffix of a string contains, the string contains. */
  lemma ContainsSuffix(s: string, k: nat, sub: string)
    requires k <= |s| && Contains(s[k..], sub)
    ensures Contains(s, sub)
  {
    var j :| 0 <= j <= |s[k..]| && OccursAt(s[k..], sub, j);
    assert s[k + j..k + j + |sub|] == s[k..][j..j + |sub|];
    assert OccursAt(s, sub, k + j);
  }

  /** `s.startswith(p)`. */
  predicate StartsWith(s: string, p: string) {
    |p| <= |s| && s[..|p|] == p
  }

  /** `s.endswith(p)`. */
  predicate EndsWith(s: string, p: string) {
    |p| <= |s| && s[|s| - |p|..] == p
  }

  lemma StartsWithContains(s: string, p: string)
    requires StartsWith(s, p)
    ensures Contains(s, p)
  {
    assert OccursAt(s, p, 0);
  }

  // ---------------------------------------------------------------------
  // str.split() and " ".join
  // ---------------------------------------------------------------------

  /** A word of `str.split()`: non-empty, no whitespace. */
  predicate IsWord(w: string) {
    w != [] && forall i :: 0 <= i < |w| ==> !IsSpace(w[i])
  }

  /** `s.lstrip()`. */
  function SkipSpaces(s: string): (r: string)
    ensures |r| <= |s|
    ensures r == s[|s| - |r|..]
    ensures r == [] || !IsSpace(r[0])
    ensures forall i :: 0 <= i < |s| - |r| ==> IsSpace(s[i])
  {
    if s != [] && IsSpace(s[0]) then SkipSpaces(s[1..]) else s
  }

  /** The longest prefix of `s` without whitespace. */
  function WordPrefix(s: string): (w: string)
    ensures |w| <= |s| && w == s[..|w|]
    ensures forall i :: 0 <= i < |w| ==> !IsSpace(w[i])
    ensures |w| == |s| || IsSpace(s[|w|])
  {
    if s == [] || IsSpace(s[0]) then [] else [s[0]] + WordPrefix(s[1..])
  }

  /** `s.split()`: the maximal runs of non-whitespace characters, in order. */
  function Words(s: string): (ws: seq<string>)
    decreases |s|
  {
    var t := SkipSpaces(s);
    if t == [] then []
    else
      var w := WordPrefix(t);
      assert |w| >= 1;
      [w] + Words(t[|w|..])
  }

  /** Every piece of a split is a non-empty run without whitespace. */
  lemma {:induction false} WordsAreWords(s: string)
    ensures forall i :: 0 <= i < |Words(s)| ==> IsWord(Words(s)[i])
    decreases |s|
  {
    var t := SkipSpaces(s);
    if t != [] {
      var w := WordPrefix(t);
      var rest := Words(t[|w|..]);
      WordsAreWords(t[|w|..]);
      assert Words(s) == [w] + rest;
      assert IsWord(w);
      forall i | 0 <= i < |Words(s)|
        ensures IsWord(Words(s)[i])
      {
        if i > 0 {
          assert Words(s)[i] == rest[i - 1];
        }
      }
    }
  }

  /** No word is longer than the string it was split from. */
  lemma {:induction false} WordsNoLonger(s: string)
    ensures forall w :: w in Words(s) ==> |w| <= |s|
    decreases |s|
  {
    var t := SkipSpaces(s);
    if t != [] {
      WordsNoLonger(t[|WordPrefix(t)|..]);
    }
  }

  /** Every word of a split occurs in the string it was split from. */
  lemma {:induction false} WordsOccur(s: string)
    ensures forall w :: w in Words(s) ==> Contains(s, w)
    decreases |s|
  {
    var t := SkipSpaces(s);
    if t != [] {
      var w := WordPrefix(t);
      var rest := t[|w|..];
      assert Words(s) == [w] + Words(rest);
      WordsOccur(rest);
      var at := |s| - |t|;
      assert OccursAt(s, w, at) by {
        assert s[at..at + |w|] == t[..|w|];
      }
      var end := at + |w|;
      assert rest == s[end..];
      forall v | v in Words(rest)
        ensures Contains(s, v)
      {
        ContainsSuffix(s, end, v);
      }
    }
  }

  /** `sep.join(ws)`. */
  function Join(ws: seq<string>, sep: string): string {
    if ws == [] then ""
    else if |ws| == 1 then ws[0]
    else ws[0] + sep + Join(ws[1..], sep)
  }

  function JoinSpace(ws: seq<string>): string {
    Join(ws, " ")
  }

  /** Joining one more piece at the end. */
  lemma {:induction false} JoinSnoc(ws: seq<string>, w: string, sep: string)
    requires ws != []
    ensures Join(ws + [w], sep) == Join(ws, sep) + sep + w
  {
    if |ws| > 1 {
      assert (ws + [w])[1..] == ws[1..] + [w];
      JoinSnoc(ws[1..], w, sep);
    } else {
      assert (ws + [w])[1..] == [w];
    }
  }

  /** `s.rstrip()`. */
  function TrimEnd(s: string): (r: string)
    ensures |r| <= |s| && r == s[..|r|]
    ensures r == [] || !IsSpace(r[|r| - 1])
    ensures forall i :: |r| <= i < |s| ==> IsSpace(s[i])
  {
    if s != [] && IsSpace(s[|s| - 1]) then TrimEnd(s[..|s| - 1]) else s
  }

  /** `s.strip()`. */
  function Strip(s: string): string {
    TrimEnd(SkipSpaces(s))
  }

  /** `line.strip() == ""`. */
  predicate IsBlank(s: string) {
    forall i :: 0 <= i < |s| ==> IsSpace(s[i])
  }

  /** `" ".join(line.split())`: runs of whitespace collapsed to one space, ends trimmed. */
  function Collapse(line: string): string {
    JoinSpace(Words(line))
  }

  lemma {:induction false} WordPrefixOfWord(w: string, rest: string)
    requires IsWord(w)
    requires rest == [] || IsSpace(rest[0])
    ensures WordPrefix(w + rest) == w
    decreases |w|
  {
    if |w| > 1 {
      assert (w + rest)[1..] == w[1..] + rest;
      WordPrefixOfWord(w[1..], rest);
    } else {
      assert (w + rest)[1..] == rest;
    }
  }

  lemma WordsLeadingSpace(s: string)
    ensures Words(" " + s) == Words(s)
  {
    assert (" " + s)[1..] == s;
  }

  /** A word followed by a space and more text splits into the word and the text's words. */
  lemma WordsCons(w: string, rest: string)
    requires IsWord(w)
    ensures Words(w + " " + rest) == [w] + Words(rest)
  {
    var s := w + " " + rest;
    assert s == w + (" " + rest);
    assert SkipSpaces(s) == s;
    WordPrefixOfWord(w, " " + rest);
    assert s[|w|..] == " " + rest;
    WordsLeadingSpace(rest);
  }

  /** Splitting a space-joined list of words gives the words back. */
  lemma {:induction false} WordsOfJoin(ws: seq<string>)
    requires forall i :: 0 <= i < |ws| ==> IsWord(ws[i])
    ensures Words(JoinSpace(ws)) == ws
    decreases |ws|
  {
    if ws == [] {
    } else if |ws| == 1 {
      var w := ws[0];
      assert SkipSpaces(w) == w;
      WordPrefixOfWord(w, []);
      assert w + [] == w;
      assert w[|w|..] == [];
    } else {
      var w := ws[0];
      assert ws == [w] + ws[1..];
      JoinCons(w, ws[1..], " ");
      WordsCons(w, JoinSpace(ws[1..]));
      WordsOfJoin(ws[1..]);
    }
  }

  /** Collapsing a line keeps exactly its words. */
  lemma CollapseKeepsWords(line: string)
    ensures Words(Collapse(line)) == Words(line)
  {
    WordsAreWords(line);
    WordsOfJoin(Words(line));
  }

  /** The characters of `s` that are not whitespace, in order. */
  function Unspaced(s: string): string {
    if s == [] then [] else (if IsSpace(s[0]) then [] else [s[0]]) + Unspaced(s[1..])
  }

  lemma {:induction false} UnspacedAppend(a: string, b: string)
    ensures Unspaced(a + b) == Unspaced(a) + Unspaced(b)
  {
    if a != [] {
      var head := if IsSpace(a[0]) then [] else [a[0]];
      assert (a + b)[0] == a[0];
      assert (a + b)[1..] == a[1..] + b;
      assert Unspaced(a + b) == head + Unspaced(a[1..] + b);
      UnspacedAppend(a[1..], b);
      assert Unspaced(a) == head + Unspaced(a[1..]);
    } else {
      assert a + b == b;
    }
  }

  /** Whitespace alone leaves nothing; a word is left whole. */
  lemma {:induction false} UnspacedPieces(s: string)
    ensures (forall i :: 0 <= i < |s| ==> IsSpace(s[i])) ==> Unspaced(s) == []
    ensures (forall i :: 0 <= i < |s| ==> !IsSpace(s[i])) ==> Unspaced(s) == s
  {
    if s != [] {
      UnspacedPieces(s[1..]);
    }
  }

  /** Leading whitespace leaves nothing behind. */
  lemma UnspacedSkip(s: string)
    ensures Unspaced(SkipSpaces(s)) == Unspaced(s)
  {
    var t := SkipSpaces(s);
    var k := |s| - |t|;
    assert s == s[..k] + t;
    UnspacedAppend(s[..k], t);
    UnspacedPieces(s[..k]);
  }

  /** The leading word is left whole, followed by what is left of the rest. */
  lemma UnspacedWord(t: string)
    ensures Unspaced(t) == WordPrefix(t) + Unspaced(t[|WordPrefix(t)|..])
  {
    var w := WordPrefix(t);
    assert t == w + t[|w|..];
    UnspacedAppend(w, t[|w|..]);
    UnspacedPieces(w);
  }

  lemma GlueCons(w: string, ws: seq<string>)
    ensures Join([w] + ws, "") == w + Join(ws, "")
  {
    if ws != [] {
      JoinCons(w, ws, "");
    }
  }

  /** `"".join(s.split())` keeps exactly the characters of `s` that are not whitespace. */
  lemma {:induction false} GluedWordsAreUnspaced(s: string)
    ensures Join(Words(s), "") == Unspaced(s)
    decreases |s|
  {
    var t := SkipSpaces(s);
    UnspacedSkip(s);
    if t != [] {
      var w := WordPrefix(t);
      var rest := t[|w|..];
      var ws := Words(rest);
      UnspacedWord(t);
      GluedWordsAreUnspaced(rest);
      assert Words(s) == [w] + ws;
      GlueCons(w, ws);
    }
  }

  /** What is left holds no whitespace. */
  lemma {:induction false} UnspacedHasNoSpace(s: string)
    ensures forall i :: 0 <= i < |Unspaced(s)| ==> !IsSpace(Unspaced(s)[i])
  {
    if s != [] {
      UnspacedHasNoSpace(s[1..]);
    }
  }

  /** A line is blank exactly when it has no words. */
  lemma {:induction false} BlankIffNoWords(s: string)
    ensures IsBlank(s) <==> Words(s) == []
  {
    var t := SkipSpaces(s);
    if t == [] {
      assert IsBlank(s);
    } else {
      assert !IsSpace(s[|s| - |t|]);
    }
  }

  // ---------------------------------------------------------------------
  // str.split(sep), str.replace
  // ---------------------------------------------------------------------

  /** `s.split(sep)` for a non-empty separator. */
  function SplitOn(s: string, sep: string): (parts: seq<string>)
    requires sep != []
    ensures |parts| >= 1
    decreases |s|
  {
    var i := Find(s, sep);
    if i == -1 then [s] else [s[..i]] + SplitOn(s[i + |sep|..], sep)
  }

  lemma JoinCons(a: string, rest: seq<string>, sep: string)
    requires rest != []
    ensures Join([a] + rest, sep) == a + sep + Join(rest, sep)
  {
    assert ([a] + rest)[1..] == rest;
  }

  /** Joining the pieces of a split with the separator restores the string. */
  lemma {:induction false} JoinSplit(s: string, sep: string)
    requires sep != []
    ensures Join(SplitOn(s, sep), sep) == s
    decreases |s|
  {
    var i := Find(s, sep);
    FindFromMeaning(s, sep, 0);
    if i != -1 {
      var tail := s[i + |sep|..];
      var rest := SplitOn(tail, sep);
      assert SplitOn(s, sep) == [s[..i]] + rest;
      JoinCons(s[..i], rest, sep);
      JoinSplit(tail, sep);
      assert s == s[..i] + sep + tail by {
        assert OccursAt(s, sep, i);
      }
    }
  }

  /** No piece of a split contains the separator. */
  lemma {:induction false} SplitPiecesFree(s: string, sep: string)
    requires sep != []
    ensures forall k :: 0 <= k < |SplitOn(s, sep)| ==> !Contains(SplitOn(s, sep)[k], sep)
    decreases |s|
  {
    var i := Find(s, sep);
    var parts := SplitOn(s, sep);
    FindFromMeaning(s, sep, 0);
    if i == -1 {
      FindIffContains(s, sep);
    } else {
      SplitPiecesFree(s[i + |sep|..], sep);
      if Contains(s[..i], sep) {
        var j :| 0 <= j <= i && OccursAt(s[..i], sep, j);
        assert s[..i][j..j + |sep|] == s[j..j + |sep|];
        assert OccursAt(s, sep, j);
        assert false;
      }
      assert parts[0] == s[..i];
      assert forall k :: 1 <= k < |parts| ==> parts[k] == SplitOn(s[i + |sep|..], sep)[k - 1];
    }
  }

  /** The text after the last occurrence of `sep`: `s.split(sep)[-1]`. */
  function AfterLast(s: string, sep: string): string
    requires sep != []
  {
    var parts := SplitOn(s, sep);
    parts[|parts| - 1]
  }

  /** `s.replace(pat, repl)`. */
  function Replace(s: string, pat: string, repl: string): string
    requires pat != []
  {
    Join(SplitOn(s, pat), repl)
  }

  /** `[part.strip() for part in s.split(sep)]`. */
  function StrippedSplit(s: string, sep: string): (parts: seq<string>)
    requires sep != []
    ensures |parts| == |SplitOn(s, sep)|
    ensures forall k :: 0 <= k < |parts| ==> parts[k] == Strip(SplitOn(s, sep)[k])
  {
    var pieces := SplitOn(s, sep);
    seq(|pieces|, k requires 0 <= k < |pieces| => Strip(pieces[k]))
  }

  /** `s.replace(c, "")` for a one-character pattern: `s` with every `c` dropped, the rest in order. */
  function Without(s: string, c: char): (r: string)
    ensures c !in r
    ensures |r| <= |s|
    ensures c !in s ==> r == s
  {
    if s == [] then []
    else if s[0] == c then Without(s[1..], c)
    else [s[0]] + Without(s[1..], c)
  }

  /** Replacing a pattern by itself is the identity. */
  lemma ReplaceSelf(s: string, pat: string)
    requires pat != []
    ensures Replace(s, pat, pat) == s
  {
    JoinSplit(s, pat);
  }

  // ---------------------------------------------------------------------
  // Fixed regular expressions
  // ---------------------------------------------------------------------

  /** `\d{2}/\d{2}` starting at index `i`. */
  predicate MmDdAt(s: string, i: int) {
    0 <= i && i + 5 <= |s| && IsDigit(s[i]) && IsDigit(s[i + 1]) && s[i + 2] == '/'
    && IsDigit(s[i + 3]) && IsDigit(s[i + 4])
  }

  /** `re.search(r"\d{2}/\d{2}", s)`. */
  predicate HasMmDd(s: string) {
    exists i :: 0 <= i < |s| && MmDdAt(s, i)
  }

  /** `re.match(r"^\d{2}/\d{2}\s", s)`. */
  predicate LeadingMmDd(s: string) {
    MmDdAt(s, 0) && |s| > 5 && IsSpace(s[5])
  }

  /** `re.match(r"^\d{2}/\d{2}/\d{2}\s", s)`. */
  predicate LeadingMmDdYy(s: string) {
    MmDdAt(s, 0) && |s| > 8 && s[5] == '/' && IsDigit(s[6]) && IsDigit(s[7]) && IsSpace(s[8])
  }

  /** `re.match(r"^\d{2}/\d{2}/\d{4}", s)`. */
  predicate LeadingMmDdYyyy(s: string) {
    MmDdAt(s, 0) && |s| >= 10 && s[5] == '/' && IsDigit(s[6]) && IsDigit(s[7])
    && IsDigit(s[8]) && IsDigit(s[9])
  }

  /** `re.match(r"^\d{2}/\d{2}/\d{4}\s", s)`. */
  predicate LeadingMmDdYyyySpace(s: string) {
    LeadingMmDdYyyy(s) && |s| > 10 && IsSpace(s[10])
  }

  /** `re.search(r"\d{1,2}/\d{1,2}", s)`: a slash with a digit on each side. */
  predicate HasLooseMmDd(s: string) {
    exists i :: 1 <= i < |s| - 1 && s[i] == '/' && IsDigit(s[i - 1]) && IsDigit(s[i + 1])
  }

  /** The dollar-amount pattern `\$\d{1,3}(?:,\d{3})*(?:\.\d{2})?` occurs: a `$` followed by a digit. */
  predicate HasAmount(s: string) {
    exists i :: 0 <= i < |s| - 1 && s[i] == '$' && IsDigit(s[i + 1])
  }

  /** A stripped string is empty exactly when the string is blank. */
  lemma StripEmptyIffBlank(s: string)
    ensures Strip(s) == [] <==> IsBlank(s)
  {
    var t := SkipSpaces(s);
    if Strip(s) != [] && t != [] {
      assert !IsSpace(s[|s| - |t|]);
    }
  }

  // ---------------------------------------------------------------------
  // Integers
  // ---------------------------------------------------------------------

  predicate AllDigits(s: string) {
    forall i :: 0 <= i < |s| ==> IsDigit(s[i])
  }

  /** The value of a string of decimal digits. */
  function DigitsValue(s: string): nat
    requires AllDigits(s)
  {
    if s == [] then 0 else DigitsValue(s[..|s| - 1]) * 10 + (s[|s| - 1] as int - '0' as int)
  }

  /** `int(s)` on one word: an optional sign and at least one decimal digit; None where Python raises ValueError. */
  function ParseInt(s: string): (r: Option<int>)
    ensures r.Some? <==> (s != [] && AllDigits(s)) || (|s| >= 2 && (s[0] == '+' || s[0] == '-') && AllDigits(s[1..]))
  {
    if s != [] && AllDigits(s) then Some(DigitsValue(s))
    else if |s| >= 2 && (s[0] == '+' || s[0] == '-') && AllDigits(s[1..]) then
      Some(if s[0] == '-' then 0 - DigitsValue(s[1..]) as int else DigitsValue(s[1..]))
    else None
  }

  /** `str(n)` for a natural number. */
  function Decimal(n: nat): (s: string)
    ensures s != [] && AllDigits(s)
  {
    var d := ['0' + (n % 10) as char];
    if n < 10 then d else Decimal(n / 10) + d
  }

  /** `int(str(n)) == n`. */
  lemma {:induction false} ParseDecimal(n: nat)
    ensures ParseInt(Decimal(n)) == Some(n)
  {
    DecimalValue(n);
  }

  lemma {:induction false} DecimalValue(n: nat)
    ensures DigitsValue(Decimal(n)) == n
  {
    var s := Decimal(n);
    if n >= 10 {
      DecimalValue(n / 10);
      assert s[..|s| - 1] == Decimal(n / 10);
    }
  }
}
