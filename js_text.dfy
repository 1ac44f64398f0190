// Failure-compatible wrappers and the small part of JavaScript's string
// library that the generator relies on, restricted to ASCII text.

module Wrappers {
  datatype Option<+T> = None | Some(value: T)

  datatype Result<+T, +E> = Ok(value: T) | Err(error: E)
}

module JsText {
  import opened Wrappers

  // ---------------------------------------------------------------------
  // Case mapping (String.prototype.toLowerCase / toUpperCase on ASCII)
  // ---------------------------------------------------------------------

  function LowerChar(c: char): char {
    if 'A' <= c <= 'Z' then (c as int + 32) as char else c
  }

  function UpperChar(c: char): char {
    if 'a' <= c <= 'z' then (c as int - 32) as char else c
  }

  function Lower(s: string): string {
    seq(|s|, i requires 0 <= i < |s| => LowerChar(s[i]))
  }

  function Upper(s: string): string {
    seq(|s|, i requires 0 <= i < |s| => UpperChar(s[i]))
  }

  /** Upper-casing a character does not change its lower-case form. */
  lemma LowerOfUpperChar(c: char)
    ensures LowerChar(UpperChar(c)) == LowerChar(c)
  {
  }

  // ---------------------------------------------------------------------
  // Number to text (template interpolation of a non-negative integer)
  // ---------------------------------------------------------------------

  function DigitChar(d: nat): (c: char)
    requires d < 10
    ensures '0' <= c <= '9'
  {
    ('0' as int + d) as char
  }

  /** The decimal form of n, as `${n}` or `n.toString()` renders it. */
  function NatToString(n: nat): (r: string)
    ensures |r| >= 1
    ensures forall i :: 0 <= i < |r| ==> '0' <= r[i] <= '9'
    decreases n
  {
    if n < 10 then [DigitChar(n)] else NatToString(n / 10) + [DigitChar(n % 10)]
  }

  /** Reads a run of decimal digits back; the inverse of NatToString. */
  function ParseDigits(s: string): int
    decreases |s|
  {
    if |s| == 0 then 0
    else 10 * ParseDigits(s[..|s| - 1]) + (s[|s| - 1] as int - '0' as int)
  }

  lemma {:induction false} ParseNatToString(n: nat)
    ensures ParseDigits(NatToString(n)) == n
    decreases n
  {
    var r := NatToString(n);
    if n >= 10 {
      ParseNatToString(n / 10);
      assert r[..|r| - 1] == NatToString(n / 10);
    }
  }

  /** Different numbers are rendered differently. */
  lemma NatToStringInjective(a: nat, b: nat)
    ensures NatToString(a) == NatToString(b) ==> a == b
  {
    ParseNatToString(a);
    ParseNatToString(b);
  }

  /** How a JavaScript template renders a value that may be null. */
  function NullableText(o: Option<string>): string {
    match o
    case Some(s) => s
    case None => "null"
  }

  /** How a JavaScript template renders a value that may be undefined. */
  function UndefinedText(o: Option<string>): string {
    match o
    case Some(s) => s
    case None => "undefined"
  }

  /** `${n}` for a number that may be null. */
  function NullableNumber(o: Option<nat>): string {
    match o
    case Some(n) => NatToString(n)
    case None => "null"
  }

  // ---------------------------------------------------------------------
  // String.prototype.indexOf
  // ---------------------------------------------------------------------

  predicate OccursAt(s: string, p: string, k: int) {
    0 <= k && k + |p| <= |s| && s[k..k + |p|] == p
  }

  function IndexFrom(s: string, p: string, k: nat): (r: int)
    ensures r == -1 || (k <= r && OccursAt(s, p, r))
    ensures r == -1 ==> forall m :: k <= m ==> !OccursAt(s, p, m)
    ensures r >= 0 ==> forall m :: k <= m < r ==> !OccursAt(s, p, m)
    decreases |s| - k
  {
    if k + |p| > |s| then -1
    else if s[k..k + |p|] == p then k
    else IndexFrom(s, p, k + 1)
  }

  /** The first position at which p occurs in s, or -1 when it does not occur. */
  function IndexOf(s: string, p: string): (r: int)
    ensures r == -1 <==> forall m :: !OccursAt(s, p, m)
    ensures r >= 0 ==> OccursAt(s, p, r) && forall m :: 0 <= m < r ==> !OccursAt(s, p, m)
  {
    IndexFrom(s, p, 0)
  }

  /** `s.indexOf(p) === 0` holds exactly when p is a prefix of s. */
  lemma IndexOfZeroIsPrefix(s: string, p: string)
    ensures IndexOf(s, p) == 0 <==> p <= s
  {
    if p <= s {
      assert s[0..|p|] == p;
      assert OccursAt(s, p, 0);
    }
    if IndexOf(s, p) == 0 {
      assert OccursAt(s, p, 0);
      assert s[..|p|] == p;
    }
  }

  // ---------------------------------------------------------------------
  // Array.prototype.findIndex / find
  // ---------------------------------------------------------------------

  function FindIndexFrom<T>(s: seq<T>, p: T -> bool, k: nat): (r: int)
    requires k <= |s|
    ensures r == -1 || (k <= r < |s| && p(s[r]))
    ensures r == -1 ==> forall m :: k <= m < |s| ==> !p(s[m])
    ensures r >= 0 ==> forall m :: k <= m < r ==> !p(s[m])
    decreases |s| - k
  {
    if k == |s| then -1 else if p(s[k]) then k else FindIndexFrom(s, p, k + 1)
  }

  /** The index of the first element satisfying p, or -1 when there is none. */
  function FindIndex<T>(s: seq<T>, p: T -> bool): (r: int)
    ensures -1 <= r < |s|
    ensures r == -1 <==> forall m :: 0 <= m < |s| ==> !p(s[m])
    ensures r >= 0 ==> p(s[r]) && forall m :: 0 <= m < r ==> !p(s[m])
  {
    FindIndexFrom(s, p, 0)
  }

  // ---------------------------------------------------------------------
  // Counting, splitting and joining
  // ---------------------------------------------------------------------

  function CountChar(s: string, c: char): nat
    decreases |s|
  {
    if |s| == 0 then 0 else CountChar(s[..|s| - 1], c) + (if s[|s| - 1] == c then 1 else 0)
  }

  lemma {:induction false} CountCharAppend(a: string, b: string, c: char)
    ensures CountChar(a + b, c) == CountChar(a, c) + CountChar(b, c)
    decreases |b|
  {
    if |b| > 0 {
      var b' := b[..|b| - 1];
      assert (a + b)[..|a + b| - 1] == a + b';
      CountCharAppend(a, b', c);
    } else {
      assert a + b == a;
    }
  }

  /** `s.split(sep)` for a one-character separator. */
  function Split(s: string, sep: char): (r: seq<string>)
    ensures |r| == CountChar(s, sep) + 1
    ensures forall k :: 0 <= k < |r| ==> sep !in r[k]
    decreases |s|
  {
    if |s| == 0 then [""]
    else
      var r := Split(s[..|s| - 1], sep);
      var c := s[|s| - 1];
      if c == sep then r + [""] else r[..|r| - 1] + [r[|r| - 1] + [c]]
  }

  /** `ws.join(sep)`. */
  function Join(ws: seq<string>, sep: string): string
    decreases |ws|
  {
    if |ws| == 0 then ""
    else if |ws| == 1 then ws[0]
    else Join(ws[..|ws| - 1], sep) + sep + ws[|ws| - 1]
  }

  /** Joining the pieces of a split with the separator gives the text back. */
  lemma {:induction false} JoinSplit(s: string, sep: char)
    ensures Join(Split(s, sep), [sep]) == s
    decreases |s|
  {
    if |s| > 0 {
      var s' := s[..|s| - 1];
      var c := s[|s| - 1];
      var r := Split(s', sep);
      JoinSplit(s', sep);
      if c == sep {
        assert (r + [""])[..|r|] == r;
        assert Join(r + [""], [sep]) == Join(r, [sep]) + [sep] + "";
      } else {
        var w := r[|r| - 1];
        if |r| > 1 {
          var r' := r[..|r| - 1];
          assert (r' + [w + [c]])[..|r'|] == r';
          assert Join(r, [sep]) == Join(r', [sep]) + [sep] + w;
        }
      }
      assert s == s' + [c];
    }
  }

  /** `Array(n).map(() => x)`. */
  function Repeat(x: string, n: nat): (r: seq<string>)
    ensures |r| == n && forall k :: 0 <= k < n ==> r[k] == x
  {
    seq(n, k => x)
  }

  /** n copies of x joined by a separator free of c contain n times the count of c in x. */
  lemma {:induction false} CountInRepeatJoin(x: string, sep: string, n: nat, c: char)
    requires CountChar(sep, c) == 0
    ensures CountChar(Join(Repeat(x, n), sep), c) == n * CountChar(x, c)
    decreases n
  {
    if n > 1 {
      var r := Repeat(x, n);
      var j := Join(Repeat(x, n - 1), sep);
      var k := CountChar(x, c);
      assert r[..n - 1] == Repeat(x, n - 1);
      assert Join(r, sep) == j + sep + x;
      CountInRepeatJoin(x, sep, n - 1, c);
      CountCharAppend(j, sep, c);
      CountCharAppend(j + sep, x, c);
      assert CountChar(Join(r, sep), c) == (n - 1) * k + k;
    }
  }

  /** `n` question marks joined by sep: the placeholder list of a statement. */
  function Placeholders(n: nat, sep: string): string {
    Join(Repeat("?", n), sep)
  }

  /** A placeholder list joined by a separator without '?' holds exactly n of them. */
  lemma PlaceholderCount(n: nat, sep: string)
    requires CountChar(sep, '?') == 0
    ensures CountChar(Placeholders(n, sep), '?') == n
  {
    assert CountChar("?", '?') == 1 by {
      assert "?"[..0] == "";
    }
    CountInRepeatJoin("?", sep, n, '?');
  }

  // ---------------------------------------------------------------------
  // Emitted lines
  // ---------------------------------------------------------------------

  /** `${idx < (len - 1) ? ',' : ''}`: a comma after every item but the last. */
  function Comma(idx: int, len: int): string {
    if idx < len - 1 then "," else ""
  }

  /** `idx === (len - 1) ? '' : ','`, the other spelling of the same separator. */
  function CommaEnd(idx: int, len: int): (r: string)
    ensures 0 <= idx < len ==> r == Comma(idx, len)
  {
    if idx == len - 1 then "" else ","
  }

  /** The lines of consecutive blocks, one block after another. */
  function Flatten<T>(blocks: seq<seq<T>>): seq<T>
    decreases |blocks|
  {
    if |blocks| == 0 then [] else Flatten(blocks[..|blocks| - 1]) + blocks[|blocks| - 1]
  }

  lemma FlattenSnoc<T>(blocks: seq<seq<T>>, i: nat)
    requires i < |blocks|
    ensures Flatten(blocks[..i + 1]) == Flatten(blocks[..i]) + blocks[i]
  {
    assert blocks[..i + 1][..i] == blocks[..i];
  }

  /** Every line of every block is a line of the result. */
  lemma {:induction false} FlattenMember<T>(blocks: seq<seq<T>>, k: nat, x: T)
    requires k < |blocks| && x in blocks[k]
    ensures x in Flatten(blocks)
    decreases |blocks|
  {
    if k < |blocks| - 1 {
      FlattenMember(blocks[..|blocks| - 1], k, x);
    }
  }

  // ---------------------------------------------------------------------
  // Character replacement and removal
  // ---------------------------------------------------------------------

  /** `s.replaceAll(a, b)` for one-character a and b. */
  function ReplaceChar(s: string, a: char, b: char): string {
    seq(|s|, i requires 0 <= i < |s| => if s[i] == a then b else s[i])
  }

  /** Replacing every a by a different b leaves no a behind and keeps every other character. */
  lemma ReplaceCharProperties(s: string, a: char, b: char)
    requires a != b
    ensures |ReplaceChar(s, a, b)| == |s|
    ensures a !in ReplaceChar(s, a, b)
    ensures forall i :: 0 <= i < |s| && s[i] != a ==> ReplaceChar(s, a, b)[i] == s[i]
  {
  }

  /** s with every occurrence of c deleted. */
  function RemoveChar(s: string, c: char): string
    decreases |s|
  {
    if |s| == 0 then ""
    else RemoveChar(s[..|s| - 1], c) + (if s[|s| - 1] == c then "" else [s[|s| - 1]])
  }
}
