/**
 * The handful of Python string operations the report parsers use, over
 * `string == seq<char>`: ASCII `lower()`, `startswith`, `endswith`,
 * `split(sep)` with a one-character separator, `replace(pat, rep)` and
 * `sep.join(items)`.
 */
module Strings {

  /** ASCII lower-casing of one character; every other character is unchanged. */
  function LowerChar(c: char): char
  {
    if 'A' <= c <= 'Z' then (c as int - 'A' as int + 'a' as int) as char else c
  }

  predicate IsUpper(c: char)
  {
    'A' <= c <= 'Z'
  }

  /** `s.lower()`, restricted to ASCII letters: each character lower-cased in place. */
  function Lower(s: string): (r: string)
    ensures |r| == |s|
  {
    seq(|s|, i requires 0 <= i < |s| => LowerChar(s[i]))
  }

  /** No upper-case ASCII letter is left after `lower()`. */
  lemma LowerHasNoUpper(s: string)
    ensures forall c :: c in Lower(s) ==> !IsUpper(c)
  {
    forall c | c in Lower(s)
      ensures !IsUpper(c)
    {
      var i :| 0 <= i < |s| && Lower(s)[i] == c;
    }
  }

  /** `s.startswith(p)` */
  predicate StartsWith(s: string, p: string)
  {
    |p| <= |s| && s[..|p|] == p
  }

  /** `s.endswith(p)` */
  predicate EndsWith(s: string, p: string)
  {
    |p| <= |s| && s[|s| - |p|..] == p
  }

  /** `s.startswith(p)` holds exactly when `s` is `p` followed by some text; `""` is a prefix of every text. */
  lemma StartsWithConcat(s: string, p: string)
    ensures StartsWith(s, p) <==> exists t :: s == p + t
    ensures StartsWith(s, [])
  {
    if StartsWith(s, p) {
      assert s == p + s[|p|..];
    }
  }

  /** `s.endswith(p)` holds exactly when `s` is some text followed by `p`; `""` is a suffix of every text. */
  lemma EndsWithConcat(s: string, p: string)
    ensures EndsWith(s, p) <==> exists t :: s == t + p
    ensures EndsWith(s, [])
  {
    if EndsWith(s, p) {
      assert s == s[..|s| - |p|] + p;
    }
  }

  /** Number of occurrences of `c` in `s`. */
  function Count(s: string, c: char): nat
  {
    if s == [] then 0 else (if s[0] == c then 1 else 0) + Count(s[1..], c)
  }

  /**
   * `s.split(sep)` for a one-character separator: the pieces between the
   * occurrences of `sep`, empty pieces included, so there is always one more
   * piece than there are separators.
   */
  function Split(s: string, sep: char): (parts: seq<string>)
    ensures |parts| == Count(s, sep) + 1
    ensures forall k :: 0 <= k < |parts| ==> sep !in parts[k]
  {
    if s == [] then [[]]
    else
      var rest := Split(s[1..], sep);
      if s[0] == sep then [[]] + rest
      else [[s[0]] + rest[0]] + rest[1..]
  }

  /** `sep.join(items)`: the items in order, the separator between each two. */
  function Join(items: seq<string>, sep: string): (r: string)
    ensures items != [] ==> StartsWith(r, items[0])
  {
    if |items| == 0 then []
    else if |items| == 1 then items[0]
    else items[0] + sep + Join(items[1..], sep)
  }

  /**
   * `s.replace(pat, rep)`: scans left to right and replaces every
   * non-overlapping occurrence of `pat` by `rep`. Every pattern the parsers
   * use is a non-empty literal. A replacement no longer than the pattern
   * never makes the text longer.
   */
  function Replace(s: string, pat: string, rep: string): (r: string)
    requires pat != []
    ensures |rep| <= |pat| ==> |r| <= |s|
    decreases |s|
  {
    if s == [] then []
    else if StartsWith(s, pat) then rep + Replace(s[|pat|..], pat, rep)
    else [s[0]] + Replace(s[1..], pat, rep)
  }

  /** `s` with every occurrence of `c` removed, the other characters kept in order. */
  function Without(s: string, c: char): (r: string)
  {
    if s == [] then [] else (if s[0] == c then [] else [s[0]]) + Without(s[1..], c)
  }

  // ---------------------------------------------------------------- lemmas

  /** Removing a character distributes over concatenation. */
  lemma {:induction false} WithoutAppend(a: string, b: string, c: char)
    ensures Without(a + b, c) == Without(a, c) + Without(b, c)
  {
    if a != [] {
      assert (a + b)[0] == a[0] && (a + b)[1..] == a[1..] + b;
      WithoutAppend(a[1..], b, c);
    } else {
      assert a + b == b;
    }
  }

  /** Removing a character that does not occur changes nothing. */
  lemma WithoutAbsent(s: string, c: char)
    requires c !in s
    ensures Without(s, c) == s
  {
    if s != [] {
      assert s[0] != c;
      WithoutAbsent(s[1..], c);
      assert [s[0]] + s[1..] == s;
    }
  }

  /** Deleting a one-character pattern removes every occurrence of it and keeps the rest in order. */
  lemma {:induction false} DeleteCharIsWithout(s: string, c: char)
    ensures Replace(s, [c], []) == Without(s, c)
    ensures c !in Replace(s, [c], [])
  {
    if s != [] {
      DeleteCharIsWithout(s[1..], c);
      assert StartsWith(s, [c]) <==> s[0] == c;
    }
  }

  /** A character absent from the input and from the replacement is absent from the result. */
  lemma ReplaceKeepsAbsent(s: string, pat: string, rep: string, c: char)
    requires pat != []
    requires c !in s && c !in rep
    ensures c !in Replace(s, pat, rep)
    decreases |s|
  {
    if s != [] {
      if StartsWith(s, pat) {
        assert forall x :: x in s[|pat|..] ==> x in s;
        ReplaceKeepsAbsent(s[|pat|..], pat, rep, c);
      } else {
        assert forall x :: x in s[1..] ==> x in s;
        ReplaceKeepsAbsent(s[1..], pat, rep, c);
      }
    }
  }

  /** One step of `Split`: the first character either ends the first piece or joins it. */
  lemma SplitCons(x: char, t: string, sep: char)
    ensures Split([x] + t, sep) ==
      if x == sep then [[]] + Split(t, sep) else [[x] + Split(t, sep)[0]] + Split(t, sep)[1..]
  {
    assert ([x] + t)[0] == x && ([x] + t)[1..] == t;
  }

  /** The step of `Split` commutes with appending further pieces. */
  lemma ConsPieces(x: char, sep: char, left: seq<string>, right: seq<string>, rest: seq<string>)
    requires left != [] && rest == left + right
    ensures (if x == sep then [[]] + rest else [[x] + rest[0]] + rest[1..]) ==
      (if x == sep then [[]] + left else [[x] + left[0]] + left[1..]) + right
  {
    if x == sep {
      assert [[]] + rest == ([[]] + left) + right;
    } else {
      var head := [x] + left[0];
      assert rest[0] == left[0];
      assert rest[1..] == left[1..] + right;
      assert [head] + rest[1..] == ([head] + left[1..]) + right;
    }
  }

  /** Splitting at a separator splits the two sides independently. */
  lemma {:induction false} SplitAppend(a: string, b: string, sep: char)
    ensures Split(a + [sep] + b, sep) == Split(a, sep) + Split(b, sep)
  {
    if a == [] {
      assert a + [sep] + b == [sep] + b;
      SplitCons(sep, b, sep);
    } else {
      var x, t := a[0], a[1..];
      assert a == [x] + t;
      assert a + [sep] + b == [x] + (t + [sep] + b);
      SplitAppend(t, b, sep);
      SplitCons(x, t + [sep] + b, sep);
      SplitCons(x, t, sep);
      ConsPieces(x, sep, Split(t, sep), Split(b, sep), Split(t + [sep] + b, sep));
    }
  }

  /** A string without the separator is one piece. */
  lemma {:induction false} SplitNone(s: string, sep: char)
    requires sep !in s
    ensures Split(s, sep) == [s]
  {
    if s != [] {
      SplitNone(s[1..], sep);
      assert [s[0]] + s[1..] == s;
    }
  }

  /** Joining the pieces with the separator gives the string back: `sep.join(s.split(sep)) == s`. */
  lemma {:induction false} JoinSplit(s: string, sep: char)
    ensures Join(Split(s, sep), [sep]) == s
  {
    if s != [] {
      JoinSplit(s[1..], sep);
      var rest := Split(s[1..], sep);
      if s[0] == sep {
        assert Split(s, sep) == [[]] + rest;
        assert ([[]] + rest)[1..] == rest;
      } else {
        var parts := Split(s, sep);
        assert parts == [[s[0]] + rest[0]] + rest[1..];
        if |rest| == 1 {
          assert Join(parts, [sep]) == [s[0]] + rest[0];
        } else {
          assert parts[1..] == rest[1..];
          assert Join(rest, [sep]) == rest[0] + [sep] + Join(rest[1..], [sep]);
        }
      }
    }
  }

  /** Splitting a join of separator-free pieces gives the pieces back. */
  lemma {:induction false} SplitJoin(items: seq<string>, sep: char)
    requires items != []
    requires forall k :: 0 <= k < |items| ==> sep !in items[k]
    ensures Split(Join(items, [sep]), sep) == items
  {
    SplitNone(items[0], sep);
    if |items| > 1 {
      SplitJoin(items[1..], sep);
      SplitAppend(items[0], Join(items[1..], [sep]), sep);
      assert [items[0]] + items[1..] == items;
    }
  }

  /** Joining one more item adds the separator and the item at the end. */
  lemma {:induction false} JoinSnoc(items: seq<string>, x: string, sep: string)
    requires items != []
    ensures Join(items + [x], sep) == Join(items, sep) + sep + x
  {
    if |items| == 1 {
      assert items + [x] == [items[0], x];
      assert [items[0], x][1..] == [x];
    } else {
      assert (items + [x])[0] == items[0];
      assert (items + [x])[1..] == items[1..] + [x];
      JoinSnoc(items[1..], x, sep);
      calc {
        Join(items + [x], sep);
        items[0] + sep + Join(items[1..] + [x], sep);
        items[0] + sep + (Join(items[1..], sep) + sep + x);
        (items[0] + sep + Join(items[1..], sep)) + sep + x;
        Join(items, sep) + sep + x;
      }
    }
  }

  /** Joining no items gives the empty string; joining one gives it unchanged. */
  lemma JoinShort(items: seq<string>, sep: string)
    ensures |items| == 0 ==> Join(items, sep) == []
    ensures |items| == 1 ==> Join(items, sep) == items[0]
  {
  }

  // ------------------------------------------- evaluation on concrete strings

  /** `lower()` distributes over concatenation. */
  lemma LowerAppend(a: string, b: string)
    ensures Lower(a + b) == Lower(a) + Lower(b)
  {
  }

  /** A string with no upper-case ASCII letter is its own lower-casing. */
  lemma LowerNoUpper(a: string)
    requires forall c :: c in a ==> !IsUpper(c)
    ensures Lower(a) == a
  {
    forall i | 0 <= i < |a|
      ensures Lower(a)[i] == a[i]
    {
      assert a[i] in a;
    }
  }

  /** Characters that cannot start the pattern are copied unchanged. */
  lemma {:induction false} ReplaceSkip(a: string, b: string, pat: string, rep: string)
    requires pat != []
    requires pat[0] !in a
    ensures Replace(a + b, pat, rep) == a + Replace(b, pat, rep)
  {
    if a == [] {
      assert a + b == b;
    } else {
      assert (a + b)[0] == a[0];
      assert !StartsWith(a + b, pat);
      assert (a + b)[1..] == a[1..] + b;
      ReplaceSkip(a[1..], b, pat, rep);
    }
  }

  /** An occurrence of the pattern at the front is replaced. */
  lemma ReplaceHit(b: string, pat: string, rep: string)
    requires pat != []
    ensures Replace(pat + b, pat, rep) == rep + Replace(b, pat, rep)
  {
    assert (pat + b)[..|pat|] == pat;
    assert (pat + b)[|pat|..] == b;
  }

  /** A character at which the pattern does not start is copied unchanged. */
  lemma ReplaceMiss(x: char, b: string, pat: string, rep: string)
    requires pat != []
    requires !StartsWith([x] + b, pat)
    ensures Replace([x] + b, pat, rep) == [x] + Replace(b, pat, rep)
  {
    assert ([x] + b)[1..] == b;
  }

  /**
   * One occurrence of the pattern, with no character that could start
   * another one on either side, is replaced once.
   */
  lemma ReplaceOnce(a: string, b: string, pat: string, rep: string)
    requires pat != []
    requires pat[0] !in a && pat[0] !in b
    ensures Replace(a + pat + b, pat, rep) == a + rep + b
  {
    calc {
      Replace(a + pat + b, pat, rep);
      { assert a + pat + b == (a + pat + b) + []; }
      Replace((a + pat + b) + [], pat, rep);
      { ReplaceToken(a, b, [], pat, rep); }
      (a + rep + b) + Replace([], pat, rep);
      a + rep + b;
    }
  }

  /** A one-character pattern cannot straddle a boundary, so replacing it distributes over concatenation. */
  lemma {:induction false} ReplaceCharAppend(a: string, b: string, c: char, rep: string)
    ensures Replace(a + b, [c], rep) == Replace(a, [c], rep) + Replace(b, [c], rep)
  {
    if a == [] {
      assert a + b == b;
    } else {
      assert (a + b)[1..] == a[1..] + b;
      assert StartsWith(a + b, [c]) <==> StartsWith(a, [c]);
      assert (a + b)[1..] == (a + b)[|[c]|..];
      ReplaceCharAppend(a[1..], b, c, rep);
    }
  }

  /** A string in which the pattern's first character does not occur is left unchanged. */
  lemma ReplaceAbsent(s: string, pat: string, rep: string)
    requires pat != []
    requires pat[0] !in s
    ensures Replace(s, pat, rep) == s
  {
    ReplaceSkip(s, [], pat, rep);
    assert s + [] == s;
  }

  /** A capitalised word is lower-cased by lower-casing its first letter. */
  lemma LowerCapitalized(x: char, w: string)
    requires forall c :: c in w ==> !IsUpper(c)
    ensures Lower([x] + w) == [LowerChar(x)] + w
  {
    LowerAppend([x], w);
    LowerNoUpper(w);
  }

  /** Every character of the result comes from the input or from the replacement. */
  lemma ReplaceChars(s: string, pat: string, rep: string)
    requires pat != []
    ensures forall c :: c in Replace(s, pat, rep) ==> c in s || c in rep
  {
    forall c | c in Replace(s, pat, rep)
      ensures c in s || c in rep
    {
      if c !in s && c !in rep {
        ReplaceKeepsAbsent(s, pat, rep, c);
      }
    }
  }

  /** The token at the front, holding one occurrence of the pattern, is rewritten. */
  lemma ReplaceToken(a1: string, a2: string, rest: string, pat: string, rep: string)
    requires pat != []
    requires pat[0] !in a1 && pat[0] !in a2
    ensures Replace((a1 + pat + a2) + rest, pat, rep) == (a1 + rep + a2) + Replace(rest, pat, rep)
  {
    calc {
      Replace((a1 + pat + a2) + rest, pat, rep);
      { assert (a1 + pat + a2) + rest == a1 + (pat + (a2 + rest)); }
      Replace(a1 + (pat + (a2 + rest)), pat, rep);
      { ReplaceSkip(a1, pat + (a2 + rest), pat, rep); }
      a1 + Replace(pat + (a2 + rest), pat, rep);
      { ReplaceHit(a2 + rest, pat, rep); }
      a1 + (rep + Replace(a2 + rest, pat, rep));
      { ReplaceSkip(a2, rest, pat, rep); }
      a1 + (rep + (a2 + Replace(rest, pat, rep)));
      (a1 + rep + a2) + Replace(rest, pat, rep);
    }
  }
}
