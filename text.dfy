/**
 * The string operations the components use. JavaScript's `toLowerCase` and
 * `toUpperCase` are modelled on ASCII letters only; string comparison with
 * `<`, `<=`, `>=` compares code units from the left, a proper prefix being smaller.
 */
module Text {
  import opened Seqs

  function LowerChar(c: char): char
  {
    if 'A' <= c <= 'Z' then (c as int + 32) as char else c
  }

  function UpperChar(c: char): char
  {
    if 'a' <= c <= 'z' then (c as int - 32) as char else c
  }

  /** `s.toLowerCase()`, ASCII letters only. */
  function Lower(s: string): (r: string)
    ensures |r| == |s|
  {
    if s == [] then [] else [LowerChar(s[0])] + Lower(s[1..])
  }

  /** `s.toUpperCase()`, ASCII letters only. */
  function Upper(s: string): (r: string)
    ensures |r| == |s|
    ensures forall k :: 0 <= k < |s| ==> r[k] == UpperChar(s[k])
  {
    if s == [] then [] else [UpperChar(s[0])] + Upper(s[1..])
  }

  /** Lowering twice is lowering once. */
  lemma {:induction false} LowerIdempotent(s: string)
    ensures Lower(Lower(s)) == Lower(s)
  {
    if s != [] {
      LowerIdempotent(s[1..]);
      assert Lower(s)[1..] == Lower(s[1..]);
    }
  }

  /** `hay.includes(needle)`: `needle` occurs in `hay` at some position. */
  predicate Contains(hay: string, needle: string)
  {
    needle <= hay || (hay != [] && Contains(hay[1..], needle))
  }

  /** Every string includes the empty string, so an empty search matches everything. */
  lemma EmptyIsContained(hay: string)
    ensures Contains(hay, "")
  {
  }

  /** `parts.join(sep)`. */
  function Join(parts: seq<string>, sep: string): string
  {
    if parts == [] then ""
    else if |parts| == 1 then parts[0]
    else parts[0] + sep + Join(parts[1..], sep)
  }

  /** Joining one more part adds the separator and the part at the end. */
  lemma {:induction false} JoinAppend(parts: seq<string>, x: string, sep: string)
    ensures parts == [] ==> Join(parts + [x], sep) == x
    ensures parts != [] ==> Join(parts + [x], sep) == Join(parts, sep) + sep + x
  {
    if |parts| > 1 {
      assert (parts + [x])[1..] == parts[1..] + [x];
      JoinAppend(parts[1..], x, sep);
    }
  }

  /** Joining with the empty separator is plain concatenation. */
  lemma JoinWithNothingCons(x: string, rest: seq<string>)
    ensures Join([x] + rest, "") == x + Join(rest, "")
  {
    if rest != [] {
      assert ([x] + rest)[1..] == rest;
    }
  }

  /** `s.split(sep)` for a one-character separator: the pieces between separators, empty ones included. */
  function Split(s: string, sep: char): (r: seq<string>)
    ensures |r| >= 1
  {
    if s == [] then [""]
    else
      var rest := Split(s[1..], sep);
      if s[0] == sep then [""] + rest else [[s[0]] + rest[0]] + rest[1..]
  }

  /** A string without the separator is one piece. */
  lemma {:induction false} SplitWithoutSeparator(s: string, sep: char)
    requires sep !in s
    ensures Split(s, sep) == [s]
  {
    if s != [] {
      assert sep !in s[1..];
      SplitWithoutSeparator(s[1..], sep);
      assert [s[0]] + s[1..] == s;
    }
  }

  /** The first separator ends the first piece; the rest is split on its own. */
  lemma {:induction false} SplitAtFirst(a: string, b: string, sep: char)
    requires sep !in a
    ensures Split(a + [sep] + b, sep) == [a] + Split(b, sep)
  {
    if a == [] {
      assert a + [sep] + b == [sep] + b;
      assert ([sep] + b)[1..] == b;
    } else {
      var s := a + [sep] + b;
      assert s[0] == a[0] && s[1..] == a[1..] + [sep] + b;
      assert sep !in a[1..];
      SplitAtFirst(a[1..], b, sep);
      assert [a[0]] + a[1..] == a;
    }
  }

  /** `a <= b` on JavaScript strings. */
  predicate LexLe(a: string, b: string)
  {
    if a == [] then true
    else if b == [] then false
    else if a[0] == b[0] then LexLe(a[1..], b[1..])
    else a[0] < b[0]
  }

  /** `a < b` on JavaScript strings. */
  predicate LexLt(a: string, b: string)
  {
    LexLe(a, b) && a != b
  }

  /** Every string is at or below itself. */
  lemma {:induction false} LexLeReflexive(a: string)
    ensures LexLe(a, a)
  {
    if a != [] {
      LexLeReflexive(a[1..]);
    }
  }

  lemma {:induction false} LexLeTransitive(a: string, b: string, c: string)
    requires LexLe(a, b) && LexLe(b, c)
    ensures LexLe(a, c)
  {
    if a != [] && b != [] && c != [] && a[0] == b[0] && b[0] == c[0] {
      LexLeTransitive(a[1..], b[1..], c[1..]);
    }
  }

  lemma {:induction false} LexLeAntisymmetric(a: string, b: string)
    requires LexLe(a, b) && LexLe(b, a)
    ensures a == b
  {
    if a != [] && b != [] {
      LexLeAntisymmetric(a[1..], b[1..]);
      assert a == [a[0]] + a[1..] && b == [b[0]] + b[1..];
    }
  }

  lemma {:induction false} LexLeTotal(a: string, b: string)
    ensures LexLe(a, b) || LexLe(b, a)
  {
    if a != [] && b != [] && a[0] == b[0] {
      LexLeTotal(a[1..], b[1..]);
    }
  }

  function DigitChar(d: nat): char
    requires d < 10
  {
    "0123456789"[d]
  }

  /** `n.toString()` for a whole number: its decimal digits, most significant first. */
  function Decimal(n: nat): (r: string)
    ensures |r| >= 1
  {
    if n < 10 then [DigitChar(n)] else Decimal(n / 10) + [DigitChar(n % 10)]
  }

  function Pow10(k: nat): nat
  {
    if k == 0 then 1 else 10 * Pow10(k - 1)
  }

  /** A number at least 10^k has more than k decimal digits. */
  lemma {:induction false} DecimalLength(n: nat, k: nat)
    requires Pow10(k) <= n
    ensures |Decimal(n)| > k
  {
    if k > 0 {
      assert Pow10(k) == 10 * Pow10(k - 1);
      DecimalLength(n / 10, k - 1);
    }
  }

  /** `s.slice(-n)` for n > 0: the last `n` characters, or all of `s` when it is shorter. */
  function TakeLast(s: string, n: nat): (r: string)
    ensures |r| == if |s| < n then |s| else n
    ensures r == s[|s| - |r|..]
  {
    if |s| <= n then s else s[|s| - n..]
  }

  /** `n[0]` of a word, rendered by `join`: nothing for an empty word. */
  function FirstChar(w: string): string
  {
    if w == "" then "" else [w[0]]
  }

  /** `s.split(" ").map((n) => n[0]).join("")`. */
  function WordInitials(s: string): string
  {
    Join(Map(Split(s, ' '), FirstChar), "")
  }

  function IsNonEmpty(w: string): bool
  {
    w != ""
  }

  function HeadChar(w: string): char
  {
    if w == "" then ' ' else w[0]
  }

  lemma {:induction false} JoinFirstChars(ws: seq<string>)
    ensures Join(Map(ws, FirstChar), "") == Map(Filter(ws, IsNonEmpty), HeadChar)
  {
    if ws != [] {
      JoinFirstChars(ws[1..]);
      assert Map(ws, FirstChar) == [FirstChar(ws[0])] + Map(ws[1..], FirstChar);
      JoinWithNothingCons(FirstChar(ws[0]), Map(ws[1..], FirstChar));
      if ws[0] != "" {
        assert Map([ws[0]] + Filter(ws[1..], IsNonEmpty), HeadChar)
               == [HeadChar(ws[0])] + Map(Filter(ws[1..], IsNonEmpty), HeadChar);
      }
    }
  }

  /**
   * The initials are the first characters of the non-empty space-separated words,
   * in order: an empty word (from a doubled, leading or trailing space) adds
   * nothing, so there are never more initials than words.
   */
  lemma WordInitialsSpec(s: string)
    ensures WordInitials(s) == Map(Filter(Split(s, ' '), IsNonEmpty), HeadChar)
    ensures |WordInitials(s)| <= |Split(s, ' ')|
    ensures forall k :: 0 <= k < |WordInitials(s)| ==>
              exists j :: 0 <= j < |Split(s, ' ')| && Split(s, ' ')[j] != "" && Split(s, ' ')[j][0] == WordInitials(s)[k]
  {
    var ws := Split(s, ' ');
    JoinFirstChars(ws);
    var r := WordInitials(s);
    forall k | 0 <= k < |r|
      ensures exists j :: 0 <= j < |ws| && ws[j] != "" && ws[j][0] == r[k]
    {
      var f := Filter(ws, IsNonEmpty);
      assert r[k] == HeadChar(f[k]);
      var j :| 0 <= j < |ws| && ws[j] == f[k];
    }
  }
}
