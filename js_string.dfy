/**
 * The JavaScript string primitives the bot relies on, on `seq<char>`:
 * `includes`/`indexOf`, `replace` with a string pattern, a global literal
 * replace, `split` on one character, `join`, `trim`, a `toLowerCase` for the
 * scripts the bot's keyword lists use, and the decimal rendering of integers.
 */
module JsString {
  import opened Optional

  // ---------------------------------------------------------------------
  // Character classes
  // ---------------------------------------------------------------------

  /** The characters matched by `\s` in a JavaScript regular expression; `trim` removes exactly these. */
  predicate IsSpace(c: char) {
    || c == ' ' || c == '\t' || c == '\n' || c == '\r'
    || c == '\U{000B}' || c == '\U{000C}' || c == '\U{00A0}' || c == '\U{1680}'
    || ('\U{2000}' <= c <= '\U{200A}')
    || c == '\U{2028}' || c == '\U{2029}' || c == '\U{202F}' || c == '\U{205F}'
    || c == '\U{3000}' || c == '\U{FEFF}'
  }

  /** The line terminators, the characters that `.` in a JavaScript regular expression does not match. */
  predicate IsLineTerminator(c: char) {
    c == '\n' || c == '\r' || c == '\U{2028}' || c == '\U{2029}'
  }

  predicate IsDigit(c: char) {
    '0' <= c <= '9'
  }

  /** Where the run of whitespace starting at `i` ends: the stop of a greedy `\s*`. */
  function SpaceEnd(s: string, i: nat): (e: nat)
    requires i <= |s|
    decreases |s| - i
    ensures i <= e <= |s|
    ensures forall j :: i <= j < e ==> IsSpace(s[j])
    ensures e < |s| ==> !IsSpace(s[e])
  {
    if i < |s| && IsSpace(s[i]) then SpaceEnd(s, i + 1) else i
  }

  // ---------------------------------------------------------------------
  // Values that may be `undefined`
  // ---------------------------------------------------------------------

  /** A JavaScript string value is truthy iff it is defined and non-empty. */
  predicate Truthy(x: Option<string>) {
    x.Some? && x.value != []
  }

  /** `x || fallback` for a string value that may be `undefined`; the empty string is falsy. */
  function Or(x: Option<string>, fallback: string): (r: string)
    ensures Truthy(x) ==> r == x.value
    ensures !Truthy(x) ==> r == fallback
  {
    if Truthy(x) then x.value else fallback
  }

  /** `${x}` for a string value that may be `undefined`. */
  function Interp(x: Option<string>): string {
    x.GetOr("undefined")
  }

  /**
   * `toLowerCase` on one character, for Latin capitals and the Cyrillic block
   * U+0400-U+042F, the only cased letters in the keyword lists.
   */
  function LowerChar(c: char): (r: char)
    ensures 'A' <= c <= 'Z' ==> r as int == c as int + 32
    ensures !('A' <= c <= 'Z') && !('\U{0400}' <= c <= '\U{042F}') ==> r == c
  {
    if 'A' <= c <= 'Z' then (c as int + 32) as char
    else if '\U{0410}' <= c <= '\U{042F}' then (c as int + 32) as char
    else if '\U{0400}' <= c <= '\U{040F}' then (c as int + 80) as char
    else c
  }

  function ToLower(s: string): (r: string)
    ensures |r| == |s|
    ensures forall i :: 0 <= i < |s| ==> r[i] == LowerChar(s[i])
  {
    seq(|s|, i requires 0 <= i < |s| => LowerChar(s[i]))
  }

  // ---------------------------------------------------------------------
  // Searching: includes / indexOf
  // ---------------------------------------------------------------------

  predicate OccursAt(s: string, sub: string, i: nat) {
    i + |sub| <= |s| && s[i..i + |sub|] == sub
  }

  /** `s.indexOf(sub, i)`: the first occurrence of `sub` at or after `i`. */
  function FindFrom(s: string, sub: string, i: nat): (r: Option<nat>)
    requires i <= |s|
    decreases |s| - i
    ensures r.Some? ==> i <= r.value <= |s| && OccursAt(s, sub, r.value)
    ensures r.Some? ==> forall j :: i <= j < r.value ==> !OccursAt(s, sub, j)
    ensures r.None? ==> forall j :: i <= j <= |s| ==> !OccursAt(s, sub, j)
  {
    if OccursAt(s, sub, i) then Some(i)
    else if i == |s| then None
    else FindFrom(s, sub, i + 1)
  }

  function IndexOf(s: string, sub: string): Option<nat> {
    FindFrom(s, sub, 0)
  }

  /** `s.includes(sub)`. */
  predicate Includes(s: string, sub: string) {
    IndexOf(s, sub).Some?
  }

  lemma IncludesIff(s: string, sub: string)
    ensures Includes(s, sub) <==> exists j :: 0 <= j <= |s| && OccursAt(s, sub, j)
  {
  }

  lemma IncludesAt(s: string, sub: string, j: nat)
    requires OccursAt(s, sub, j)
    ensures Includes(s, sub)
  {
  }

  /** An occurrence survives text added on either side. */
  lemma IncludesShift(pre: string, s: string, post: string, sub: string)
    requires Includes(s, sub)
    ensures Includes(pre + s + post, sub)
  {
    IncludesIff(s, sub);
    var j :| 0 <= j <= |s| && OccursAt(s, sub, j);
    assert (pre + s + post)[|pre| + j..|pre| + j + |sub|] == s[j..j + |sub|];
    IncludesAt(pre + s + post, sub, |pre| + j);
  }

  /** `words.some(k => s.includes(k))`: some keyword of `words` occurs in `s`. */
  function AnyIncluded(s: string, words: seq<string>): (r: bool)
    decreases |words|
    ensures r <==> exists k :: 0 <= k < |words| && Includes(s, words[k])
  {
    if words == [] then false
    else Includes(s, words[0]) || AnyIncluded(s, words[1..])
  }

  // ---------------------------------------------------------------------
  // Replacing
  // ---------------------------------------------------------------------

  /** `s.replace(pat, rep)` with a string pattern: only the first occurrence is replaced. */
  function ReplaceFirst(s: string, pat: string, rep: string): (r: string)
    ensures IndexOf(s, pat).None? ==> r == s
    ensures IndexOf(s, pat).Some? ==>
      var k := IndexOf(s, pat).value; r == s[..k] + rep + s[k + |pat|..]
  {
    match IndexOf(s, pat)
    case None => s
    case Some(k) => s[..k] + rep + s[k + |pat|..]
  }

  /** A string that starts with the pattern loses exactly that leading occurrence. */
  lemma ReplaceFirstPrefix(pat: string, rest: string, rep: string)
    ensures ReplaceFirst(pat + rest, pat, rep) == rep + rest
  {
    assert OccursAt(pat + rest, pat, 0) by { assert (pat + rest)[..|pat|] == pat; }
    assert (pat + rest)[|pat|..] == rest;
  }

  /**
   * `s.replace(new RegExp(pat, 'g'), rep)` for a pattern without regular
   * expression metacharacters: non-overlapping occurrences, leftmost first;
   * the empty pattern matches at every position.
   */
  function ReplaceAll(s: string, pat: string, rep: string): (r: string)
    decreases |s|
    ensures forall c :: c in r ==> c in s || c in rep
  {
    if s == [] then (if pat == [] then rep else [])
    else
      assert forall c :: c in s[1..] ==> c in s;
      if pat == [] then rep + [s[0]] + ReplaceAll(s[1..], pat, rep)
      else if OccursAt(s, pat, 0) then
        assert forall c :: c in s[|pat|..] ==> c in s;
        rep + ReplaceAll(s[|pat|..], pat, rep)
      else [s[0]] + ReplaceAll(s[1..], pat, rep)
  }

  /** Replacing a pattern that does not occur leaves the string unchanged. */
  lemma {:induction false} ReplaceAllAbsent(s: string, pat: string, rep: string)
    requires pat != [] && !Includes(s, pat)
    ensures ReplaceAll(s, pat, rep) == s
  {
    if s != [] {
      assert !OccursAt(s, pat, 0);
      forall j | 0 <= j <= |s[1..]| ensures !OccursAt(s[1..], pat, j) {
        if OccursAt(s[1..], pat, j) {
          assert s[1..][j..j + |pat|] == s[j + 1..j + 1 + |pat|];
          IncludesAt(s, pat, j + 1);
        }
      }
      ReplaceAllAbsent(s[1..], pat, rep);
    }
  }

  /** After a global replace of `pat` by a replacement that cannot recreate it, `pat` no longer occurs. */
  lemma {:induction false} ReplaceAllRemoves(s: string, pat: string)
    requires |pat| == 1
    ensures !Includes(ReplaceAll(s, pat, ""), pat)
  {
    var r := ReplaceAll(s, pat, "");
    if s == [] {
      assert r == [];
      assert !OccursAt(r, pat, 0);
    } else {
      ReplaceAllRemoves(s[1..], pat);
      var t := ReplaceAll(s[1..], pat, "");
      if OccursAt(s, pat, 0) {
        assert r == t;
      } else {
        assert r == [s[0]] + t;
        forall j | 0 <= j <= |r| ensures !OccursAt(r, pat, j) {
          if j == 0 {
            assert r[0] == s[0];
            assert s[0..1] != pat;
          } else if OccursAt(r, pat, j) {
            assert r[j..j + 1] == t[j - 1..j];
            assert OccursAt(t, pat, j - 1);
          }
        }
      }
    }
  }

  // ---------------------------------------------------------------------
  // split / join
  // ---------------------------------------------------------------------

  function Count(s: string, c: char): (n: nat)
    ensures n <= |s|
  {
    if s == [] then 0 else (if s[0] == c then 1 else 0) + Count(s[1..], c)
  }

  /** One more character adds one to the count exactly when it is the one counted. */
  lemma {:induction false} CountSnoc(s: string, x: char, c: char)
    ensures Count(s + [x], c) == Count(s, c) + (if x == c then 1 else 0)
  {
    if s == [] {
      assert ([x])[1..] == [];
    } else {
      assert (s + [x])[1..] == s[1..] + [x];
      CountSnoc(s[1..], x, c);
    }
  }

  /** `s.split(sep)` for a one-character separator. */
  function Split(s: string, sep: char): (parts: seq<string>)
    ensures |parts| == Count(s, sep) + 1
  {
    if s == [] then [""]
    else
      var rest := Split(s[1..], sep);
      if s[0] == sep then [""] + rest
      else [[s[0]] + rest[0]] + rest[1..]
  }

  /** No piece of a split holds the separator. */
  lemma {:induction false} SplitNoSep(s: string, sep: char)
    ensures forall k :: 0 <= k < |Split(s, sep)| ==> sep !in Split(s, sep)[k]
  {
    if s != [] {
      SplitNoSep(s[1..], sep);
      var rest := Split(s[1..], sep);
      if s[0] != sep {
        assert sep !in [s[0]] + rest[0];
      }
    }
  }

  /** `parts.join(sep)`. */
  function Join(parts: seq<string>, sep: string): string {
    if |parts| == 0 then ""
    else if |parts| == 1 then parts[0]
    else parts[0] + sep + Join(parts[1..], sep)
  }

  /** Every character of a piece of a split comes from the split text. */
  lemma {:induction false} SplitChars(s: string, sep: char, k: nat)
    requires k < |Split(s, sep)|
    ensures forall c :: c in Split(s, sep)[k] ==> c in s
  {
    if s != [] {
      var rest := Split(s[1..], sep);
      if s[0] == sep {
        if k > 0 {
          SplitChars(s[1..], sep, k - 1);
        }
      } else if k == 0 {
        SplitChars(s[1..], sep, 0);
      } else {
        SplitChars(s[1..], sep, k);
      }
    }
  }

  /** Every piece occurs in the join. */
  lemma {:induction false} JoinIncludes(parts: seq<string>, sep: string, k: nat)
    requires k < |parts|
    ensures Includes(Join(parts, sep), parts[k])
  {
    if |parts| == 1 {
      assert OccursAt(Join(parts, sep), parts[0], 0);
      IncludesAt(Join(parts, sep), parts[0], 0);
    } else if k == 0 {
      assert OccursAt(Join(parts, sep), parts[0], 0);
      IncludesAt(Join(parts, sep), parts[0], 0);
    } else {
      JoinIncludes(parts[1..], sep, k - 1);
      IncludesShift(parts[0] + sep, Join(parts[1..], sep), "", parts[k]);
      assert parts[0] + sep + Join(parts[1..], sep) + "" == Join(parts, sep);
    }
  }

  /** Joining the pieces of a split with the separator gives back the string. */
  lemma {:induction false} JoinSplit(s: string, sep: char)
    ensures Join(Split(s, sep), [sep]) == s
  {
    if s != [] {
      var rest := Split(s[1..], sep);
      JoinSplit(s[1..], sep);
      if s[0] == sep {
        assert Split(s, sep) == [""] + rest;
      } else {
        var parts := [[s[0]] + rest[0]] + rest[1..];
        assert Split(s, sep) == parts;
        if |rest| == 1 {
          assert Join(parts, [sep]) == [s[0]] + rest[0];
        } else {
          assert parts[1..] == rest[1..];
          assert Join(rest, [sep]) == rest[0] + [sep] + Join(rest[1..], [sep]);
        }
      }
    }
  }

  /** The pieces after one more character: a separator opens a new empty piece, anything else extends the last piece. */
  function AddChar(parts: seq<string>, c: char, sep: char): seq<string>
    requires |parts| >= 1
  {
    if c == sep then parts + [""] else parts[..|parts| - 1] + [parts[|parts| - 1] + [c]]
  }

  lemma SplitSingle(c: char, sep: char)
    ensures Split([c], sep) == AddChar([""], c, sep)
  {
    assert [c][1..] == [];
    assert Split([], sep) == [""];
    if c == sep {
      assert Split([c], sep) == [""] + [""];
    } else {
      assert Split([c], sep) == [[c] + ""] + [""][1..];
      assert [c] + "" == [c] && "" + [c] == [c];
      assert [""][..0] == [];
      assert AddChar([""], c, sep) == [] + ["" + [c]];
    }
  }

  /** Adding a character commutes with a leading piece. */
  lemma AddCharCons(x: string, parts: seq<string>, c: char, sep: char)
    requires |parts| >= 1
    ensures AddChar([x] + parts, c, sep) == [x] + AddChar(parts, c, sep)
  {
    if c != sep {
      assert ([x] + parts)[..|parts|] == [x] + parts[..|parts| - 1];
    }
  }

  /** Adding a character commutes with extending the first piece at its front. */
  lemma AddCharHead(ch: char, parts: seq<string>, c: char, sep: char)
    requires |parts| >= 1
    ensures var q := AddChar(parts, c, sep);
      AddChar([[ch] + parts[0]] + parts[1..], c, sep) == [[ch] + q[0]] + q[1..]
  {
    var q := AddChar(parts, c, sep);
    if c == sep {
      assert q[0] == parts[0] && q[1..] == parts[1..] + [""];
    } else if |parts| == 1 {
      assert q == [parts[0] + [c]];
      assert [ch] + (parts[0] + [c]) == ([ch] + parts[0]) + [c];
    } else {
      assert q[0] == parts[0];
      assert q[1..] == parts[1..][..|parts| - 2] + [parts[|parts| - 1] + [c]];
    }
  }

  /** Splitting grows one character at a time as `AddChar` says. */
  lemma {:induction false} SplitSnoc(s: string, c: char, sep: char)
    ensures Split(s + [c], sep) == AddChar(Split(s, sep), c, sep)
  {
    if s == [] {
      assert s + [c] == [c];
      SplitSingle(c, sep);
    } else {
      var w := s + [c];
      assert w[0] == s[0] && w[1..] == s[1..] + [c];
      SplitSnoc(s[1..], c, sep);
      var rest := Split(s[1..], sep);
      if s[0] == sep {
        AddCharCons("", rest, c, sep);
      } else {
        AddCharHead(s[0], rest, c, sep);
      }
    }
  }

  /** Splitting a join of separator-free pieces gives back the pieces. */
  lemma {:induction false} SplitJoin(parts: seq<string>, sep: char)
    requires |parts| >= 1
    requires forall k :: 0 <= k < |parts| ==> sep !in parts[k]
    ensures Split(Join(parts, [sep]), sep) == parts
  {
    if |parts| == 1 {
      SplitPlain(parts[0], sep);
    } else {
      var tail := parts[1..];
      assert forall k :: 0 <= k < |tail| ==> sep !in tail[k] by {
        forall k | 0 <= k < |tail| ensures sep !in tail[k] {
          assert tail[k] == parts[k + 1];
        }
      }
      SplitJoin(tail, sep);
      SplitPrefix(parts[0], Join(tail, [sep]), sep);
      assert Join(parts, [sep]) == parts[0] + [sep] + Join(tail, [sep]);
      assert [parts[0]] + tail == parts;
    }
  }

  lemma {:induction false} SplitPlain(s: string, sep: char)
    requires sep !in s
    ensures Split(s, sep) == [s]
  {
    if s != [] {
      assert s[0] != sep && sep !in s[1..];
      SplitPlain(s[1..], sep);
      assert [s[0]] + s[1..] == s;
    }
  }

  lemma {:induction false} SplitPrefix(p: string, t: string, sep: char)
    requires sep !in p
    ensures Split(p + [sep] + t, sep) == [p] + Split(t, sep)
  {
    if p == [] {
      assert p + [sep] + t == [sep] + t;
      assert ([sep] + t)[1..] == t;
    } else {
      var w := p + [sep] + t;
      assert w[0] == p[0] && w[0] != sep;
      assert w[1..] == p[1..] + [sep] + t;
      assert sep !in p[1..];
      SplitPrefix(p[1..], t, sep);
      assert [p[0]] + p[1..] == p;
    }
  }

  // ---------------------------------------------------------------------
  // trim
  // ---------------------------------------------------------------------

  function TrimStart(s: string): (r: string)
    ensures |r| <= |s| && r == s[|s| - |r|..]
    ensures forall j :: 0 <= j < |s| - |r| ==> IsSpace(s[j])
    ensures r != [] ==> !IsSpace(r[0])
  {
    if s != [] && IsSpace(s[0]) then TrimStart(s[1..]) else s
  }

  function TrimEnd(s: string): (r: string)
    ensures |r| <= |s| && r == s[..|r|]
    ensures forall j :: |r| <= j < |s| ==> IsSpace(s[j])
    ensures r != [] ==> !IsSpace(r[|r| - 1])
  {
    if s != [] && IsSpace(s[|s| - 1]) then TrimEnd(s[..|s| - 1]) else s
  }

  predicate Trimmed(s: string) {
    s == [] || (!IsSpace(s[0]) && !IsSpace(s[|s| - 1]))
  }

  /** `s.trim()`. */
  function Trim(s: string): (r: string)
    ensures Trimmed(r)
    ensures |r| <= |s|
  {
    TrimEnd(TrimStart(s))
  }

  lemma {:induction false} TrimOfTrimmed(s: string)
    requires Trimmed(s)
    ensures Trim(s) == s
  {
    if s != [] {
      assert TrimStart(s) == s;
      assert TrimEnd(s) == s;
    }
  }

  /** A run of digits has nothing to trim. */
  lemma DigitsTrim(s: string)
    requires forall i :: 0 <= i < |s| ==> IsDigit(s[i])
    ensures Trim(s) == s
  {
    if s != [] {
      assert IsDigit(s[0]) && IsDigit(s[|s| - 1]);
    }
    TrimOfTrimmed(s);
  }

  /** Trimming keeps only characters of the input. */
  lemma TrimChars(s: string)
    ensures forall c :: c in Trim(s) ==> c in s
  {
    var t := TrimStart(s);
    var r := TrimEnd(t);
    var a := |s| - |t|;
    assert Trim(s) == s[a..a + |r|] by {
      assert r == t[..|r|] && t == s[a..];
    }
    SliceIn(s, a, a + |r|);
  }

  /** Every element of a slice is an element of the whole. */
  lemma SliceIn<T>(s: seq<T>, a: nat, b: nat)
    requires a <= b <= |s|
    ensures forall x :: x in s[a..b] ==> x in s
  {
    forall x | x in s[a..b] ensures x in s {
      var i :| 0 <= i < b - a && s[a..b][i] == x;
      assert s[a + i] == x;
    }
  }

  /** Trimming again changes nothing. */
  lemma TrimIdempotent(s: string)
    ensures Trim(Trim(s)) == Trim(s)
  {
    TrimOfTrimmed(Trim(s));
  }

  /** A string with a non-space character has a non-empty trim. */
  lemma {:induction false} TrimNonEmpty(s: string, i: nat)
    requires i < |s| && !IsSpace(s[i])
    ensures Trim(s) != []
  {
    var t := TrimStart(s);
    assert |s| - |t| <= i;
    assert t[i - (|s| - |t|)] == s[i];
    assert !IsSpace(t[i - (|s| - |t|)]);
  }

  /**
   * Trimming a text that opens with one space character and then `p`, which
   * neither starts nor ends with a space, keeps `p` at the front.
   */
  lemma TrimKeepsHead(c: char, p: string, rest: string)
    requires IsSpace(c) && p != [] && !IsSpace(p[0]) && !IsSpace(p[|p| - 1])
    ensures |Trim([c] + p + rest)| >= |p| && Trim([c] + p + rest)[..|p|] == p
  {
    var s := [c] + p + rest;
    assert s[1..] == p + rest;
    assert TrimStart(s) == TrimStart(p + rest);
    assert (p + rest)[0] == p[0];
    var r := TrimEnd(p + rest);
    assert (p + rest)[|p| - 1] == p[|p| - 1];
    assert r[..|p|] == (p + rest)[..|p|];
  }

  // ---------------------------------------------------------------------
  // Numbers as text
  // ---------------------------------------------------------------------

  function DigitChar(d: nat): (c: char)
    requires d < 10
    ensures IsDigit(c)
  {
    ('0' as int + d) as char
  }

  function DigitValue(c: char): nat
    requires IsDigit(c)
  {
    c as int - '0' as int
  }

  /** `n.toString()` for a non-negative integer: its decimal digits, without leading zeros. */
  function NatToString(n: nat): (r: string)
    ensures |r| >= 1
    ensures forall i :: 0 <= i < |r| ==> IsDigit(r[i])
    ensures r[0] == '0' ==> n == 0
  {
    if n < 10 then [DigitChar(n)] else NatToString(n / 10) + [DigitChar(n % 10)]
  }

  /** `n.toString()` for an integer. */
  function IntToString(n: int): string {
    if n < 0 then "-" + NatToString(-n) else NatToString(n)
  }

  /** The value of a string of decimal digits. */
  function DigitsValue(s: string): nat
    requires forall i :: 0 <= i < |s| ==> IsDigit(s[i])
  {
    if s == [] then 0 else DigitsValue(s[..|s| - 1]) * 10 + DigitValue(s[|s| - 1])
  }

  /** Reading back the decimal rendering of a number gives the number. */
  lemma {:induction false} DigitsValueNatToString(n: nat)
    ensures DigitsValue(NatToString(n)) == n
  {
    var r := NatToString(n);
    if n >= 10 {
      DigitsValueNatToString(n / 10);
      assert r[..|r| - 1] == NatToString(n / 10);
    }
  }

  /** `s.padStart(2, '0')`. */
  function PadStart2(s: string): (r: string)
    ensures |r| == if |s| >= 2 then |s| else 2
    ensures r[|r| - |s|..] == s
    ensures forall i :: 0 <= i < |r| - |s| ==> r[i] == '0'
  {
    if |s| >= 2 then s else seq(2 - |s|, _ => '0') + s
  }
}
