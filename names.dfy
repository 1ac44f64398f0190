// Names derived from a table name: the controller class name, the file
// element name and the plural resource name of the routes.

module Names {
  import opened JsText

  /** One word of capitalizeName: lower-cased, then its first character upper-cased. */
  function CapWord(w: string): string {
    var l := Lower(w);
    if |l| > 0 then [UpperChar(l[0])] + l[1..] else l
  }

  function CapWords(ws: seq<string>): seq<string> {
    seq(|ws|, i requires 0 <= i < |ws| => CapWord(ws[i]))
  }

  /** capitalizeName: split on '_', capitalise every word, join with ''. */
  function Capitalize(name: string): string {
    Join(CapWords(Split(name, '_')), "")
  }

  lemma LowerConcat(a: string, b: string)
    ensures Lower(a + b) == Lower(a) + Lower(b)
  {
  }

  lemma LowerCapWord(w: string)
    ensures Lower(CapWord(w)) == Lower(w)
  {
    var l := Lower(w);
    var cw := CapWord(w);
    assert |cw| == |l|;
    forall i | 0 <= i < |l|
      ensures Lower(cw)[i] == l[i]
    {
      if i == 0 {
        LowerOfUpperChar(l[0]);
      } else {
        assert cw[i] == l[i];
      }
    }
  }

  lemma {:induction false} LowerJoinCapWords(ws: seq<string>)
    ensures Lower(Join(CapWords(ws), "")) == Lower(Join(ws, ""))
    decreases |ws|
  {
    if |ws| == 1 {
      LowerCapWord(ws[0]);
    } else if |ws| > 1 {
      var ws' := ws[..|ws| - 1];
      var w := ws[|ws| - 1];
      assert CapWords(ws)[..|ws| - 1] == CapWords(ws');
      LowerJoinCapWords(ws');
      LowerCapWord(w);
      LowerConcat(Join(CapWords(ws'), "") + "", CapWord(w));
      LowerConcat(Join(ws', "") + "", w);
      assert Join(CapWords(ws'), "") + "" == Join(CapWords(ws'), "");
      assert Join(ws', "") + "" == Join(ws', "");
    }
  }

  /** Joining the pieces of a split with '' deletes the separator. */
  lemma {:induction false} JoinSplitEmpty(s: string, sep: char)
    ensures Join(Split(s, sep), "") == RemoveChar(s, sep)
    decreases |s|
  {
    if |s| > 0 {
      var s' := s[..|s| - 1];
      var c := s[|s| - 1];
      var r := Split(s', sep);
      JoinSplitEmpty(s', sep);
      if c == sep {
        assert (r + [""])[..|r|] == r;
        assert Join(r + [""], "") == Join(r, "") + "" + "";
      } else {
        var w := r[|r| - 1];
        if |r| > 1 {
          var r' := r[..|r| - 1];
          assert (r' + [w + [c]])[..|r'|] == r';
          assert Join(r, "") == Join(r', "") + "" + w;
        }
      }
    }
  }

  /** Up to letter case, the class name is the table name without its underscores. */
  lemma CapitalizeIsNameWithoutUnderscores(name: string)
    ensures Lower(Capitalize(name)) == Lower(RemoveChar(name, '_'))
  {
    LowerJoinCapWords(Split(name, '_'));
    JoinSplitEmpty(name, '_');
  }

  lemma {:induction false} JoinEmptyFree(ws: seq<string>, c: char)
    requires forall i :: 0 <= i < |ws| ==> c !in ws[i]
    ensures c !in Join(ws, "")
    decreases |ws|
  {
    if |ws| > 1 {
      JoinEmptyFree(ws[..|ws| - 1], c);
    }
  }

  lemma CapWordKeepsUnderscoreOut(w: string)
    requires '_' !in w
    ensures '_' !in CapWord(w)
  {
  }

  /** The class name never contains an underscore. */
  lemma CapitalizeHasNoUnderscore(name: string)
    ensures '_' !in Capitalize(name)
  {
    var ws := Split(name, '_');
    forall i | 0 <= i < |ws|
      ensures '_' !in CapWords(ws)[i]
    {
      CapWordKeepsUnderscoreOut(ws[i]);
    }
    JoinEmptyFree(CapWords(ws), '_');
  }

  /**
   * The case capitalizeName gives the character at position p of a name: a
   * character that starts a word (the first one, or one after a '_') is
   * upper-cased after lower-casing, any other is lower-cased.
   */
  function CaseAt(n: string, p: nat): char
    requires p < |n|
  {
    if p == 0 || n[p - 1] == '_' then UpperChar(LowerChar(n[p])) else LowerChar(n[p])
  }

  /** capitalizeName read character by character from the left, without splitting. */
  function CapitalizeChars(n: string): string
    decreases |n|
  {
    if |n| == 0 then ""
    else CapitalizeChars(n[..|n| - 1]) + (if n[|n| - 1] == '_' then "" else [CaseAt(n, |n| - 1)])
  }

  /** The last piece of a split is empty exactly when the text is empty or ends with the separator. */
  lemma SplitLastEmpty(s: string, sep: char)
    ensures var r := Split(s, sep); (|r[|r| - 1]| == 0 <==> |s| == 0 || s[|s| - 1] == sep)
  {
  }

  lemma CapWordSnoc(w: string, c: char)
    ensures CapWord(w + [c]) == CapWord(w) + [if |w| == 0 then UpperChar(LowerChar(c)) else LowerChar(c)]
  {
    assert Lower(w + [c]) == Lower(w) + [LowerChar(c)];
  }

  lemma JoinSnocEmpty(ws: seq<string>, x: string)
    ensures Join(ws + [x], "") == Join(ws, "") + x
  {
    assert (ws + [x])[..|ws|] == ws;
  }

  lemma LowerEmpty()
    ensures CapWord("") == ""
  {
    assert Lower("") == "";
  }

  lemma SplitSnoc(s: string, c: char, sep: char)
    ensures var r := Split(s, sep);
      Split(s + [c], sep) == if c == sep then r + [""] else r[..|r| - 1] + [r[|r| - 1] + [c]]
  {
    assert (s + [c])[..|s|] == s;
  }

  lemma CapWordsSnoc(ws: seq<string>, w: string)
    ensures CapWords(ws + [w]) == CapWords(ws) + [CapWord(w)]
  {
  }

  /** A trailing '_' adds an empty word, which changes nothing. */
  lemma CapitalizeSnocUnderscore(n': string)
    ensures Capitalize(n' + ['_']) == Capitalize(n')
  {
    var r := Split(n', '_');
    SplitSnoc(n', '_', '_');
    LowerEmpty();
    CapWordsSnoc(r, "");
    JoinSnocEmpty(CapWords(r), "");
  }

  /** Extending the last word by c extends the joined, capitalised words by one character. */
  lemma CapWordsExtendLast(r: seq<string>, c: char)
    requires |r| > 0
    ensures var k := |r| - 1;
      Join(CapWords(r[..k] + [r[k] + [c]]), "") ==
      Join(CapWords(r), "") + [if |r[k]| == 0 then UpperChar(LowerChar(c)) else LowerChar(c)]
  {
    var k := |r| - 1;
    var w := r[k];
    assert r == r[..k] + [w];
    CapWordsSnoc(r[..k], w);
    CapWordsSnoc(r[..k], w + [c]);
    CapWordSnoc(w, c);
    var cs := CapWords(r[..k]);
    JoinSnocEmpty(cs, CapWord(w));
    JoinSnocEmpty(cs, CapWord(w + [c]));
  }

  /** Any other character extends the last word by its cased form. */
  lemma CapitalizeSnocChar(n': string, c: char)
    requires c != '_'
    ensures Capitalize(n' + [c]) == Capitalize(n') + [CaseAt(n' + [c], |n'|)]
  {
    var r := Split(n', '_');
    SplitLastEmpty(n', '_');
    SplitSnoc(n', c, '_');
    CapWordsExtendLast(r, c);
  }

  /** Splitting, capitalising every word and joining is the character-by-character reading. */
  lemma {:induction false} CapitalizeIsChars(n: string)
    ensures Capitalize(n) == CapitalizeChars(n)
    decreases |n|
  {
    if |n| > 0 {
      var n' := n[..|n| - 1];
      var c := n[|n| - 1];
      assert n == n' + [c];
      CapitalizeIsChars(n');
      if c == '_' {
        CapitalizeSnocUnderscore(n');
      } else {
        CapitalizeSnocChar(n', c);
      }
    }
  }

  lemma {:induction false} CapitalizeCharsLength(n: string)
    ensures |CapitalizeChars(n)| == |RemoveChar(n, '_')|
    decreases |n|
  {
    if |n| > 0 {
      CapitalizeCharsLength(n[..|n| - 1]);
    }
  }

  lemma {:induction false} CapitalizeCharsPrefix(n: string, q: nat)
    requires q <= |n|
    ensures CapitalizeChars(n[..q]) <= CapitalizeChars(n)
    ensures RemoveChar(n[..q], '_') <= RemoveChar(n, '_')
    decreases |n| - q
  {
    if q < |n| {
      CapitalizeCharsPrefix(n, q + 1);
      assert n[..q + 1][..q] == n[..q];
    } else {
      assert n[..q] == n;
    }
  }

  /**
   * Letter case of the class name: the character at position p of the table
   * name, when it is not a '_', is the class name's character at the position
   * it keeps once the underscores before it are removed. It is upper-case when
   * it starts a word and lower-case otherwise.
   */
  lemma CapitalizeCharAt(n: string, p: nat)
    requires p < |n| && n[p] != '_'
    ensures |Capitalize(n)| == |RemoveChar(n, '_')|
    ensures |RemoveChar(n[..p], '_')| < |Capitalize(n)|
    ensures RemoveChar(n, '_')[|RemoveChar(n[..p], '_')|] == n[p]
    ensures Capitalize(n)[|RemoveChar(n[..p], '_')|] ==
      if p == 0 || n[p - 1] == '_' then UpperChar(LowerChar(n[p])) else LowerChar(n[p])
  {
    CapitalizeIsChars(n);
    CapitalizeCharsLength(n);
    var m := n[..p + 1];
    assert m[..p] == n[..p];
    CapitalizeCharsLength(n[..p]);
    CapitalizeCharsPrefix(n, p + 1);
    assert CapitalizeChars(m) == CapitalizeChars(n[..p]) + [CaseAt(m, p)];
    assert RemoveChar(m, '_') == RemoveChar(n[..p], '_') + [n[p]];
  }

  /** Every character of the class name comes from a character of the table name that is not a '_'. */
  lemma {:induction false} CapitalizeCharSource(n: string, i: nat)
    requires i < |Capitalize(n)|
    ensures exists p :: 0 <= p < |n| && n[p] != '_' && |RemoveChar(n[..p], '_')| == i
    decreases |n|
  {
    CapitalizeIsChars(n);
    var n' := n[..|n| - 1];
    CapitalizeCharsLength(n');
    if i < |CapitalizeChars(n')| {
      CapitalizeIsChars(n');
      CapitalizeCharSource(n', i);
      var p :| 0 <= p < |n'| && n'[p] != '_' && |RemoveChar(n'[..p], '_')| == i;
      assert n'[..p] == n[..p];
    } else {
      assert n[|n| - 1] != '_' && n[..|n| - 1] == n';
    }
  }

  /** The file element name: every '_' becomes '-'. */
  function ElementName(name: string): (r: string)
    ensures |r| == |name| && '_' !in r
    ensures forall i :: 0 <= i < |name| ==> r[i] == if name[i] == '_' then '-' else name[i]
  {
    ReplaceCharProperties(name, '_', '-');
    ReplaceChar(name, '_', '-')
  }

  /** The element name does not tell `a_b` from `a-b`, so such tables share their files. */
  lemma ElementNamesCollide()
    ensures ElementName("a_b") == ElementName("a-b") == "a-b"
  {
  }

  /** The resource name of the routes: a trailing 'y' becomes "ies", otherwise "s" is appended. */
  function Plural(el: string): (r: string)
    ensures |r| > 0 && r[|r| - 1] == 's'
  {
    if |el| > 0 && el[|el| - 1] == 'y' then el[..|el| - 1] + "ies" else el + "s"
  }

  predicate EndsWith(s: string, suffix: string) {
    |suffix| <= |s| && s[|s| - |suffix|..] == suffix
  }

  /** The inverse reading of a plural. */
  function Singular(p: string): string {
    if EndsWith(p, "ies") then p[..|p| - 3] + "y"
    else if |p| > 0 then p[..|p| - 1]
    else p
  }

  /** The plural can be read back, except for names ending in "ie", whose plural looks like that of a "y" name. */
  lemma SingularOfPlural(el: string)
    requires !EndsWith(el, "ie")
    ensures Singular(Plural(el)) == el
  {
    var p := Plural(el);
    if |el| > 0 && el[|el| - 1] == 'y' {
      assert p[|p| - 3..] == "ies";
      assert p[..|p| - 3] == el[..|el| - 1];
      assert el == el[..|el| - 1] + "y";
    } else {
      assert p[..|p| - 1] == el;
      if |el| >= 2 {
        assert el[|el| - 2..] != "ie";
        assert p[|p| - 3..] == el[|el| - 2..] + "s";
      }
    }
  }

  /** Two different element names can share a plural. */
  lemma PluralCollides()
    ensures Plural("by") == Plural("bie") == "bies"
  {
  }
}
