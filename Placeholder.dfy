/**
 * `clean_placeholder` of send_campaign.py: the provider's template engine
 * rejects placeholders with control characters or irregular whitespace, so
 * every value is flattened onto one line before it is sent.
 */
module Placeholder {
  import opened Text
  import opened Seqs

  predicate IsLineControl(c: char)
  {
    c == '\n' || c == '\r' || c == '\t'
  }

  /** No line break or tab: the value fits on one line. */
  predicate OneLine(s: string)
  {
    forall i :: 0 <= i < |s| ==> !IsLineControl(s[i])
  }

  /** No two whitespace characters stand next to each other. */
  predicate NoSpaceRun(s: string)
  {
    forall i :: 0 <= i < |s| - 1 ==> !(IsSpace(s[i]) && IsSpace(s[i + 1]))
  }

  /** The non-whitespace characters of `s`, in order: what sanitising must keep. */
  function Visible(s: string): (r: string)
    ensures |r| <= |s|
  {
    if s == [] then []
    else (if IsSpace(s[0]) then [] else [s[0]]) + Visible(s[1..])
  }

  lemma {:induction false} VisibleAppend(a: string, b: string)
    ensures Visible(a + b) == Visible(a) + Visible(b)
  {
    if a == [] {
      assert a + b == b;
    } else {
      var h := if IsSpace(a[0]) then [] else [a[0]];
      assert (a + b)[1..] == a[1..] + b;
      assert Visible(a + b) == h + Visible(a[1..] + b);
      VisibleAppend(a[1..], b);
      AppendAssoc(h, Visible(a[1..]), Visible(b));
    }
  }

  lemma {:induction false} VisibleAllSpace(s: string)
    requires forall i :: 0 <= i < |s| ==> IsSpace(s[i])
    ensures Visible(s) == []
  {
    if s != [] {
      VisibleAllSpace(s[1..]);
    }
  }

  /**
   * The words of `s`, in order: its maximal runs of non-whitespace
   * characters (`s.split()` in Python). A non-whitespace character opens a
   * new word when whitespace or the end follows it, and joins the word that
   * follows it otherwise.
   */
  function Words(s: string): (r: seq<string>)
    ensures s != [] && !IsSpace(s[0]) ==> r != []
    ensures forall i :: 0 <= i < |r| ==> r[i] != []
    decreases |s|
  {
    if s == [] then []
    else
      var rest := Words(s[1..]);
      if IsSpace(s[0]) then rest
      else if |s| == 1 || IsSpace(s[1]) then [[s[0]]] + rest
      else [[s[0]] + rest[0]] + rest[1..]
  }

  /** Whitespace in front of a string adds no word. */
  lemma {:induction false} WordsSpacePrefix(p: string, q: string)
    requires forall i :: 0 <= i < |p| ==> IsSpace(p[i])
    ensures Words(p + q) == Words(q)
  {
    if p == [] {
      assert p + q == q;
    } else {
      assert (p + q)[1..] == p[1..] + q;
      WordsSpacePrefix(p[1..], q);
    }
  }

  /** Whitespace after a string adds no word and ends its last word. */
  lemma {:induction false} WordsSpaceSuffix(p: string, q: string)
    requires forall i :: 0 <= i < |q| ==> IsSpace(q[i])
    ensures Words(p + q) == Words(p)
  {
    if p == [] {
      assert p + q == q + [];
      WordsSpacePrefix(q, []);
    } else {
      assert (p + q)[1..] == p[1..] + q;
      WordsSpaceSuffix(p[1..], q);
    }
  }

  /**
   * The words of `[c] + x`, for a non-whitespace `c`, depend only on the
   * words of `x` and on whether `x` starts with whitespace.
   */
  lemma WordsCons(c: char, x: string, y: string)
    requires !IsSpace(c) && Words(x) == Words(y)
    requires x != [] <==> y != []
    requires x != [] ==> (IsSpace(x[0]) <==> IsSpace(y[0]))
    ensures Words([c] + x) == Words([c] + y)
  {
    assert ([c] + x)[1..] == x && ([c] + y)[1..] == y;
  }

  /** The three `str.replace` calls: every '\n', '\r' and '\t' becomes a space. */
  function ReplaceControls(s: string): (r: string)
    ensures |r| == |s|
    ensures forall i :: 0 <= i < |s| ==> r[i] == (if IsLineControl(s[i]) then ' ' else s[i])
  {
    seq(|s|, i requires 0 <= i < |s| => if IsLineControl(s[i]) then ' ' else s[i])
  }

  /** The replacements leave a one-line value as it is. */
  lemma ReplaceControlsOneLine(s: string)
    requires OneLine(s)
    ensures ReplaceControls(s) == s
  {
    var r := ReplaceControls(s);
    assert |r| == |s| && forall i :: 0 <= i < |s| ==> r[i] == s[i];
  }

  lemma {:induction false} ReplaceControlsVisible(s: string)
    ensures Visible(ReplaceControls(s)) == Visible(s)
  {
    if s != [] {
      assert ReplaceControls(s)[1..] == ReplaceControls(s[1..]);
      ReplaceControlsVisible(s[1..]);
    }
  }

  /** The replacements keep the words: they only turn whitespace into other whitespace. */
  lemma {:induction false} ReplaceControlsWords(s: string)
    ensures Words(ReplaceControls(s)) == Words(s)
  {
    if s != [] {
      var r := ReplaceControls(s);
      assert r[1..] == ReplaceControls(s[1..]);
      ReplaceControlsWords(s[1..]);
      if !IsSpace(s[0]) {
        assert r == [s[0]] + r[1..] && s == [s[0]] + s[1..];
        WordsCons(s[0], r[1..], s[1..]);
      }
    }
  }

  /**
   * What the regex substitution promises of its result `r` on `s`: no two
   * whitespace characters in a row, empty exactly when `s` is, starting with
   * whitespace exactly when `s` does, made of spaces and characters of `s`,
   * with the visible characters of `s` in order and split into the same words.
   */
  predicate CollapsedFrom(r: string, s: string)
  {
    && NoSpaceRun(r)
    && (r != [] <==> s != [])
    && (r != [] ==> (IsSpace(r[0]) <==> IsSpace(s[0])))
    && (forall i :: 0 <= i < |r| ==> r[i] == ' ' || r[i] in s)
    && Visible(r) == Visible(s)
    && Words(r) == Words(s)
  }

  /**
   * `re.sub(r"\s{2,}", " ", s)`: scanning left to right, each maximal run of
   * two or more whitespace characters becomes one space; a lone whitespace
   * character is left as it is.
   */
  function CollapseRuns(s: string): string
    decreases |s|
  {
    if s == [] then []
    else
      var k := LeadingSpaces(s);
      if k >= 2 then " " + CollapseRuns(s[k..])
      else [s[0]] + CollapseRuns(s[1..])
  }

  /** The substitution does what the regex promises, run by run. */
  lemma {:induction false} CollapseRunsCollapses(s: string)
    ensures CollapsedFrom(CollapseRuns(s), s)
    decreases |s|
  {
    if s != [] {
      var k := LeadingSpaces(s);
      if k >= 2 {
        CollapseRunsCollapses(s[k..]);
        CollapseRunCase(s, k, CollapseRuns(s[k..]));
      } else {
        CollapseRunsCollapses(s[1..]);
        CollapseKeepCase(s, CollapseRuns(s[1..]));
      }
    }
  }

  /** A run of two or more whitespace characters becomes one space in front of the rest. */
  lemma CollapseRunCase(s: string, k: nat, rest: string)
    requires 2 <= k == LeadingSpaces(s)
    requires CollapsedFrom(rest, s[k..])
    ensures CollapsedFrom(" " + rest, s)
  {
    var r := " " + rest;
    assert NoSpaceRun(r) by {
      if rest != [] {
        assert !IsSpace(s[k]) && rest[0] in s[k..];
        assert !IsSpace(rest[0]) by {
          assert s[k..][0] == s[k];
        }
      }
      forall i | 0 <= i < |r| - 1
        ensures !(IsSpace(r[i]) && IsSpace(r[i + 1]))
      {
        if i > 0 {
          assert r[i] == rest[i - 1] && r[i + 1] == rest[i];
        }
      }
    }
    forall i | 0 <= i < |r|
      ensures r[i] == ' ' || r[i] in s
    {
      if i > 0 {
        assert r[i] == rest[i - 1];
        assert rest[i - 1] in s[k..] ==> rest[i - 1] in s;
      }
    }
    assert s == s[..k] + s[k..];
    assert Visible(s) == Visible(rest) by {
      VisibleAppend(s[..k], s[k..]);
      VisibleAllSpace(s[..k]);
    }
    VisibleAppend(" ", rest);
    WordsSpacePrefix(s[..k], s[k..]);
    WordsSpacePrefix(" ", rest);
  }

  /** A character that does not start a run is kept, in front of the rest. */
  lemma CollapseKeepCase(s: string, rest: string)
    requires s != [] && LeadingSpaces(s) < 2
    requires CollapsedFrom(rest, s[1..])
    ensures CollapsedFrom([s[0]] + rest, s)
  {
    var r := [s[0]] + rest;
    assert r[1..] == rest;
    assert NoSpaceRun(r) by {
      forall i | 0 <= i < |r| - 1
        ensures !(IsSpace(r[i]) && IsSpace(r[i + 1]))
      {
        if i == 0 {
          if IsSpace(s[0]) {
            assert LeadingSpaces(s) == 1;
            assert s[1..] != [] ==> !IsSpace(s[1]);
            assert rest != [] ==> s[1..][0] == s[1];
          }
        } else {
          assert r[i] == rest[i - 1] && r[i + 1] == rest[i];
        }
      }
    }
    forall i | 0 <= i < |r|
      ensures r[i] == ' ' || r[i] in s
    {
      if i > 0 {
        assert r[i] == rest[i - 1];
        assert rest[i - 1] in s[1..] ==> rest[i - 1] in s;
      }
    }
    assert s == [s[0]] + s[1..];
    if !IsSpace(s[0]) {
      WordsCons(s[0], rest, s[1..]);
    }
  }

  /** A string without whitespace runs is left as it is by the regex substitution. */
  lemma {:induction false} CollapseRunsUnchanged(s: string)
    requires NoSpaceRun(s)
    ensures CollapseRuns(s) == s
    decreases |s|
  {
    if s != [] {
      assert LeadingSpaces(s) <= 1 by {
        if |s| >= 2 && IsSpace(s[0]) {
          assert !IsSpace(s[1]);
        }
      }
      CollapseRunsUnchanged(s[1..]);
    }
  }

  /** `r` is `value` made safe for the template engine, as `clean_placeholder` promises. */
  predicate Sanitised(r: string, value: string)
  {
    && OneLine(r)
    && NoSpaceRun(r)
    && (r != [] ==> !IsSpace(r[0]) && !IsSpace(r[|r| - 1]))
    && Visible(r) == Visible(value)
    && Words(r) == Words(value)
  }

  /**
   * `clean_placeholder(value)`: "" for an empty value; otherwise the value on
   * one line, with single separators, trimmed, and with every visible
   * character kept in order.
   */
  function CleanPlaceholder(value: string): (r: string)
    ensures value == "" ==> r == ""
    ensures Sanitised(r, value)
  {
    if value == "" then ""
    else
      var replaced := ReplaceControls(value);
      var collapsed := CollapseRuns(replaced);
      var r := Strip(collapsed);
      assert OneLine(replaced);
      CollapseRunsCollapses(replaced);
      CollapseOneLine(replaced, collapsed);
      ReplaceControlsVisible(value);
      ReplaceControlsWords(value);
      StripKeeps(collapsed, r);
      r
  }

  /** What `str.strip` keeps of a collapsed string: no control, no run, the same visible text. */
  lemma StripKeeps(c: string, r: string)
    requires r == Strip(c)
    ensures OneLine(c) ==> OneLine(r)
    ensures NoSpaceRun(c) ==> NoSpaceRun(r)
    ensures Visible(r) == Visible(c)
    ensures Words(r) == Words(c)
  {
    var a := LeadingSpaces(c);
    assert a + |r| <= |c| && forall i :: 0 <= i < |r| ==> r[i] == c[a + i];
    SliceKeeps(c, a, r);
    StripVisible(c, a, r);
    StripWords(c, a, r);
  }

  /** Collapsing whitespace runs of a one-line value keeps it on one line. */
  lemma CollapseOneLine(s: string, r: string)
    requires CollapsedFrom(r, s) && OneLine(s)
    ensures OneLine(r)
  {
    forall i | 0 <= i < |r|
      ensures !IsLineControl(r[i])
    {
      if r[i] != ' ' {
        var j :| 0 <= j < |s| && s[j] == r[i];
      }
    }
  }

  lemma SliceKeeps(c: string, a: nat, r: string)
    requires a + |r| <= |c| && forall i :: 0 <= i < |r| ==> r[i] == c[a + i]
    ensures OneLine(c) ==> OneLine(r)
    ensures NoSpaceRun(c) ==> NoSpaceRun(r)
  {
    if OneLine(c) {
      forall i | 0 <= i < |r|
        ensures !IsLineControl(r[i])
      {
        assert r[i] == c[a + i];
      }
    }
    if NoSpaceRun(c) {
      forall i | 0 <= i < |r| - 1
        ensures !(IsSpace(r[i]) && IsSpace(r[i + 1]))
      {
        assert r[i] == c[a + i] && r[i + 1] == c[a + i + 1];
      }
    }
  }

  lemma StripVisible(c: string, a: nat, r: string)
    requires a + |r| <= |c| && forall i :: 0 <= i < |r| ==> r[i] == c[a + i]
    requires forall i :: 0 <= i < a ==> IsSpace(c[i])
    requires forall i :: a + |r| <= i < |c| ==> IsSpace(c[i])
    ensures Visible(r) == Visible(c)
  {
    var b := a + |r|;
    assert r == c[a..b];
    assert Visible(c) == Visible(c[a..]) by {
      assert c == c[..a] + c[a..];
      VisibleSpacesThen(c[..a], c[a..]);
    }
    assert Visible(c[a..]) == Visible(r) by {
      assert c[a..] == r + c[b..];
      VisibleThenSpaces(r, c[b..]);
    }
  }

  lemma StripWords(c: string, a: nat, r: string)
    requires a + |r| <= |c| && r == c[a..a + |r|]
    requires forall i :: 0 <= i < a ==> IsSpace(c[i])
    requires forall i :: a + |r| <= i < |c| ==> IsSpace(c[i])
    ensures Words(r) == Words(c)
  {
    var b := a + |r|;
    assert c == c[..a] + c[a..];
    WordsSpacePrefix(c[..a], c[a..]);
    assert c[a..] == r + c[b..];
    WordsSpaceSuffix(r, c[b..]);
  }

  lemma VisibleSpacesThen(p: string, q: string)
    requires forall i :: 0 <= i < |p| ==> IsSpace(p[i])
    ensures Visible(p + q) == Visible(q)
  {
    VisibleAllSpace(p);
    VisibleAppend(p, q);
  }

  lemma VisibleThenSpaces(p: string, q: string)
    requires forall i :: 0 <= i < |q| ==> IsSpace(q[i])
    ensures Visible(p + q) == Visible(p)
  {
    VisibleAllSpace(q);
    VisibleAppend(p, q);
  }

  /** A value already on one line, without whitespace runs and trimmed, is sent as it is. */
  lemma CleanPlaceholderKeepsClean(value: string)
    requires OneLine(value) && NoSpaceRun(value)
    requires value != [] ==> !IsSpace(value[0]) && !IsSpace(value[|value| - 1])
    ensures CleanPlaceholder(value) == value
  {
    if value != "" {
      ReplaceControlsOneLine(value);
      CollapseRunsUnchanged(value);
      StripUnchanged(value);
    }
  }

  /** Tabs, line breaks and runs of blanks inside a value become single spaces, and the ends are trimmed. */
  lemma CleanPlaceholderExample()
    ensures CleanPlaceholder("  A\n\tB  ") == "A B"
  {
    CleanPlaceholderTwoWords('A', 'B');
    assert "  A\n\tB  " == [' ', ' ', 'A', '\n', '\t', 'B', ' ', ' '];
  }

  /** Two one-character words between blanks, a line break and a tab are sent as "a b". */
  lemma CleanPlaceholderTwoWords(a: char, b: char)
    requires !IsSpace(a) && !IsSpace(b)
    ensures CleanPlaceholder([' ', ' ', a, '\n', '\t', b, ' ', ' ']) == [a, ' ', b]
  {
    var value := [' ', ' ', a, '\n', '\t', b, ' ', ' '];
    assert ReplaceControls(value) == [' ', ' ', a, ' ', ' ', b, ' ', ' '];
    CollapseExampleSteps(a, b);
    StripExample(a, b);
  }

  /** The substitution replaces two blanks in front of a word by one space. */
  lemma CollapseRunStep(t: string)
    requires t == [] || !IsSpace(t[0])
    ensures CollapseRuns([' ', ' '] + t) == " " + CollapseRuns(t)
  {
    var s := [' ', ' '] + t;
    assert s[1..][1..] == t;
    assert LeadingSpaces(s) == 2;
    assert s[2..] == t;
  }

  /** The substitution keeps a character that is not whitespace. */
  lemma CollapseKeepStep(c: char, t: string)
    requires !IsSpace(c)
    ensures CollapseRuns([c] + t) == [c] + CollapseRuns(t)
  {
    assert ([c] + t)[1..] == t;
  }

  /** The scan of the regex substitution over "  a  b  ", one run or character at a time. */
  lemma CollapseExampleSteps(a: char, b: char)
    requires !IsSpace(a) && !IsSpace(b)
    ensures CollapseRuns([' ', ' ', a, ' ', ' ', b, ' ', ' ']) == [' ', a, ' ', b, ' ']
  {
    var t := [a, ' ', ' ', b, ' ', ' '];
    CollapseExampleWords(a, b);
    CollapseRunStep(t);
    assert [' ', ' '] + t == [' ', ' ', a, ' ', ' ', b, ' ', ' '];
    assert " " + [a, ' ', b, ' '] == [' ', a, ' ', b, ' '];
  }

  lemma CollapseExampleWords(a: char, b: char)
    requires !IsSpace(a) && !IsSpace(b)
    ensures CollapseRuns([a, ' ', ' ', b, ' ', ' ']) == [a, ' ', b, ' ']
  {
    var t := [' ', ' ', b, ' ', ' '];
    CollapseExampleLast(b);
    CollapseKeepStep(a, t);
    assert [a] + t == [a, ' ', ' ', b, ' ', ' '];
    assert [a] + [' ', b, ' '] == [a, ' ', b, ' '];
  }

  lemma CollapseExampleLast(b: char)
    requires !IsSpace(b)
    ensures CollapseRuns([' ', ' ', b, ' ', ' ']) == [' ', b, ' ']
  {
    var t := [b, ' ', ' '];
    CollapseExampleEnd(b);
    CollapseRunStep(t);
    assert [' ', ' '] + t == [' ', ' ', b, ' ', ' '];
    assert " " + [b, ' '] == [' ', b, ' '];
  }

  lemma CollapseExampleEnd(b: char)
    requires !IsSpace(b)
    ensures CollapseRuns([b, ' ', ' ']) == [b, ' ']
  {
    CollapseRunStep([]);
    assert [' ', ' '] + [] == [' ', ' '];
    CollapseKeepStep(b, [' ', ' ']);
    assert [b] + [' ', ' '] == [b, ' ', ' '];
  }

  lemma StripExample(a: char, b: char)
    requires !IsSpace(a) && !IsSpace(b)
    ensures Strip([' ', a, ' ', b, ' ']) == [a, ' ', b]
  {
    var s := [' ', a, ' ', b, ' '];
    assert LeadingSpaces(s) == 1;
    assert TrailingSpaces(s[1..]) == 1;
  }

  /** Sanitising an already sanitised value changes nothing. */
  lemma CleanPlaceholderIdempotent(value: string)
    ensures CleanPlaceholder(CleanPlaceholder(value)) == CleanPlaceholder(value)
  {
    CleanPlaceholderKeepsClean(CleanPlaceholder(value));
  }

  /** A value made only of whitespace (blanks, tabs, line breaks) becomes an empty placeholder. */
  lemma CleanPlaceholderBlank(value: string)
    requires forall i :: 0 <= i < |value| ==> IsSpace(value[i])
    ensures CleanPlaceholder(value) == ""
  {
    VisibleAllSpace(value);
  }
}
