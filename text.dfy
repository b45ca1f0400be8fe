/** The few Python string operations the map servers rely on: `str.lower()`,
    the substring test `needle in hay`, `str.strip()` and `str.split()`.
    Case folding and whitespace are modelled for ASCII characters only. */
module Text {
  import opened Common


  /** `c.lower()` for one character: only 'A'..'Z' change. */
  function LowerChar(c: char): char
  {
    if 'A' <= c <= 'Z' then (c as int - 'A' as int + 'a' as int) as char else c
  }

  /** `s.lower()` */
  function Lower(s: string): string
  {
    seq(|s|, i requires 0 <= i < |s| => LowerChar(s[i]))
  }

  /** Every character is already in lower case. */
  predicate IsLower(s: string)
  {
    forall i :: 0 <= i < |s| ==> LowerChar(s[i]) == s[i]
  }

  lemma LowerIsLower(s: string)
    ensures IsLower(Lower(s))
    ensures Lower(Lower(s)) == Lower(s)
  {
  }

  lemma LowerOfLower(s: string)
    requires IsLower(s)
    ensures Lower(s) == s
  {
  }

  /** Python's `needle in hay` on two strings. */
  predicate Contains(hay: string, needle: string)
  {
    exists i :: 0 <= i <= |hay| && needle <= hay[i..]
  }

  /** `needle` occurs in `hay` at position `i`. */
  lemma ContainsAt(hay: string, needle: string, i: nat)
    requires i + |needle| <= |hay| && hay[i..i + |needle|] == needle
    ensures Contains(hay, needle)
  {
    assert needle <= hay[i..];
  }

  /** The empty string occurs in every string, and every string occurs in itself. */
  lemma ContainsTrivial(s: string)
    ensures Contains(s, "")
    ensures Contains(s, s)
  {
    assert "" <= s[0..];
    assert s <= s[0..];
  }

  /** A string occurs only in strings at least as long as itself. */
  lemma ContainsLength(hay: string, needle: string)
    requires Contains(hay, needle)
    ensures |needle| <= |hay|
  {
  }

  /** The characters `str.isspace()` accepts in the ASCII range: space,
      tab, line feed, vertical tab, form feed, carriage return and the
      four separators 0x1C..0x1F. */
  predicate IsSpace(c: char)
  {
    c == ' ' || ('\t' <= c <= '\r') || ('\U{1C}' <= c <= '\U{1F}')
  }

  /** `s.lstrip()` */
  function TrimStart(s: string): string
  {
    if s != [] && IsSpace(s[0]) then TrimStart(s[1..]) else s
  }

  /** `s.rstrip()` */
  function TrimEnd(s: string): string
  {
    if s != [] && IsSpace(s[|s| - 1]) then TrimEnd(s[..|s| - 1]) else s
  }

  /** `s.strip()` */
  function Strip(s: string): string
  {
    TrimEnd(TrimStart(s))
  }

  /** `s.lstrip()` drops a prefix made only of whitespace and leaves a string
      that does not start with whitespace. */
  lemma {:induction false} TrimStartSpec(s: string)
    ensures |TrimStart(s)| <= |s|
    ensures TrimStart(s) == s[|s| - |TrimStart(s)|..]
    ensures forall i :: 0 <= i < |s| - |TrimStart(s)| ==> IsSpace(s[i])
    ensures TrimStart(s) != [] ==> !IsSpace(TrimStart(s)[0])
  {
    if s != [] && IsSpace(s[0]) {
      var rest := s[1..];
      TrimStartSpec(rest);
      var t := TrimStart(rest);
      assert TrimStart(s) == t;
      assert rest[|rest| - |t|..] == s[|s| - |t|..];
      forall i | 0 <= i < |s| - |t| ensures IsSpace(s[i]) {
        if i > 0 {
          assert s[i] == rest[i - 1];
        }
      }
    }
  }

  /** `s.rstrip()` drops a suffix made only of whitespace and leaves a string
      that does not end with whitespace. */
  lemma {:induction false} TrimEndSpec(s: string)
    ensures |TrimEnd(s)| <= |s|
    ensures TrimEnd(s) == s[..|TrimEnd(s)|]
    ensures forall i :: |TrimEnd(s)| <= i < |s| ==> IsSpace(s[i])
    ensures TrimEnd(s) != [] ==> !IsSpace(TrimEnd(s)[|TrimEnd(s)| - 1])
  {
    if s != [] && IsSpace(s[|s| - 1]) {
      TrimEndSpec(s[..|s| - 1]);
    }
  }

  /** A string that neither starts nor ends with whitespace is its own strip. */
  lemma {:induction false} StripOfStripped(s: string)
    requires s != [] ==> !IsSpace(s[0]) && !IsSpace(s[|s| - 1])
    ensures Strip(s) == s
  {
  }

  /** `s.strip()` is the infix of `s` left after removing leading and trailing
      whitespace: it neither starts nor ends with whitespace, and stripping it
      again changes nothing. */
  lemma StripSpec(s: string)
    ensures var t := Strip(s);
      Contains(s, t)
    ensures var t := Strip(s); t != [] ==> !IsSpace(t[0]) && !IsSpace(t[|t| - 1])
    ensures Strip(Strip(s)) == Strip(s)
  {
    var a := TrimStart(s);
    TrimStartSpec(s);
    TrimEndSpec(a);
    var t := TrimEnd(a);
    var i := |s| - |a|;
    assert s[i..i + |t|] == t by {
      assert a == s[i..];
      assert t == a[..|t|];
    }
    ContainsAt(s, t, i);
    if t != [] {
      assert t[0] == a[0];
    }
    StripOfStripped(t);
  }

  predicate AllSpace(s: string)
  {
    forall i :: 0 <= i < |s| ==> IsSpace(s[i])
  }

  /** `s.lower()` leaves whitespace alone. */
  lemma LowerOfSpace(s: string)
    requires AllSpace(s)
    ensures Lower(s) == s
  {
  }

  /** `s.lower()` works character by character, so it distributes over
      concatenation. */
  lemma LowerConcat(a: string, b: string)
    ensures Lower(a + b) == Lower(a) + Lower(b)
  {
  }

  /** A string made only of whitespace strips to the empty string. */
  lemma StripOfBlank(s: string)
    requires AllSpace(s)
    ensures Strip(s) == ""
  {
    TrimStartSpec(s);
  }

  /** Whitespace added around a word that neither starts nor ends with
      whitespace is exactly what `strip()` removes again. */
  lemma {:induction false} StripOfPadded(pre: string, w: string, post: string)
    requires AllSpace(pre) && AllSpace(post)
    requires w != [] && !IsSpace(w[0]) && !IsSpace(w[|w| - 1])
    ensures Strip(pre + w + post) == w
  {
    assert pre + w + post == pre + (w + post);
    TrimStartOfPadded(pre, w + post);
    TrimEndOfPadded(w, post);
  }

  lemma {:induction false} TrimStartOfPadded(pre: string, t: string)
    requires AllSpace(pre) && t != [] && !IsSpace(t[0])
    ensures TrimStart(pre + t) == t
    decreases |pre|
  {
    if pre == [] {
      assert pre + t == t;
    } else {
      assert (pre + t)[1..] == pre[1..] + t;
      TrimStartOfPadded(pre[1..], t);
    }
  }

  lemma {:induction false} TrimEndOfPadded(t: string, post: string)
    requires AllSpace(post) && t != [] && !IsSpace(t[|t| - 1])
    ensures TrimEnd(t + post) == t
    decreases |post|
  {
    if post == [] {
      assert t + post == t;
    } else {
      assert (t + post)[..|t + post| - 1] == t + post[..|post| - 1];
      TrimEndOfPadded(t, post[..|post| - 1]);
    }
  }

  /** The longest prefix of `s` that holds no whitespace. */
  function LeadingWord(s: string): (w: string)
    ensures |w| <= |s| && w == s[..|w|]
    ensures forall i :: 0 <= i < |w| ==> !IsSpace(w[i])
    ensures |w| < |s| ==> IsSpace(s[|w|])
  {
    if s == [] || IsSpace(s[0]) then [] else [s[0]] + LeadingWord(s[1..])
  }

  /** `s.split()` with no separator: the maximal runs of non-whitespace
      characters, in order. */
  function Words(s: string): (ws: seq<string>)
    decreases |s|
  {
    var t := TrimStart(s);
    TrimStartSpec(s);
    if t == [] then []
    else
      var w := LeadingWord(t);
      [w] + Words(t[|w|..])
  }

  /** Every word of `s.split()` is non-empty and holds no whitespace. */
  lemma {:induction false} WordsSpec(s: string)
    ensures forall k :: 0 <= k < |Words(s)| ==> Words(s)[k] != [] && NoSpace(Words(s)[k])
    decreases |s|
  {
    var t := TrimStart(s);
    TrimStartSpec(s);
    if t != [] {
      var w := LeadingWord(t);
      WordsSpec(t[|w|..]);
      assert Words(s) == [w] + Words(t[|w|..]);
    }
  }

  predicate NoSpace(w: string)
  {
    forall i :: 0 <= i < |w| ==> !IsSpace(w[i])
  }

  /** A string with no non-whitespace character splits into no words. */
  lemma BlankHasNoWords(s: string)
    requires forall i :: 0 <= i < |s| ==> IsSpace(s[i])
    ensures Words(s) == []
  {
    TrimStartSpec(s);
  }

  /** A single run of non-whitespace characters is one word. Together with
      `BlankHasNoWords` and `WordsAroundSpace` this determines `Words` on
      every string: the words are the maximal non-whitespace runs, in order,
      each once. */
  lemma WordsOfWord(w: string)
    requires w != [] && NoSpace(w)
    ensures Words(w) == [w]
  {
    assert TrimStart(w) == w;
    var v := LeadingWord(w);
    assert |v| == |w|;
    assert v == w;
    assert w[|v|..] == [];
    assert Words([]) == [];
  }

  /** A whitespace character always separates: the words on either side of
      it are split independently and concatenated in order. */
  lemma {:induction false} WordsAroundSpace(a: string, c: char, b: string)
    requires IsSpace(c)
    ensures Words(a + [c] + b) == Words(a) + Words(b)
    decreases |a|
  {
    if AllSpace(a) {
      WordsAroundSpaceAfterBlank(a, c, b);
    } else {
      WordsStep(a, c, b);
      var ta := TrimStart(a);
      var rest := ta[|LeadingWord(ta)|..];
      WordsAroundSpace(rest, c, b);
      ConcatAssoc([LeadingWord(ta)], Words(rest), Words(b));
    }
  }

  lemma WordsAroundSpaceAfterBlank(a: string, c: char, b: string)
    requires IsSpace(c) && AllSpace(a)
    ensures Words(a + [c] + b) == Words(a) + Words(b)
  {
    assert a + [c] + b == (a + [c]) + b;
    assert AllSpace(a + [c]);
    WordsAfterBlank(a + [c], b);
    BlankHasNoWords(a);
  }

  /** Leading whitespace produces no word. */
  lemma WordsAfterBlank(a: string, b: string)
    requires AllSpace(a)
    ensures Words(a + b) == Words(b)
  {
    TrimStartConcat(a, b);
  }

  /** One unfolding of `Words` on both sides of a separator, for a string
      that is not blank: both start with the same first word. */
  lemma WordsStep(a: string, c: char, b: string)
    requires IsSpace(c) && !AllSpace(a)
    ensures var ta := TrimStart(a); var w := LeadingWord(ta);
      |ta[|w|..]| < |a| && Words(a) == [w] + Words(ta[|w|..]) &&
      Words(a + [c] + b) == [w] + Words(ta[|w|..] + [c] + b)
  {
    TrimStartConcat(a, [c] + b);
    TrimStartSpec(a);
    var ta := TrimStart(a);
    var w := LeadingWord(ta);
    assert a + [c] + b == a + ([c] + b);
    assert ta + ([c] + b) == ta + [c] + b;
    LeadingWordBeforeSpace(ta, c, b);
    assert !IsSpace(ta[0]) by { TrimStartSpec(a); }
    assert |w| > 0;
    assert (ta + [c] + b)[|w|..] == ta[|w|..] + [c] + b;
  }

  lemma {:induction false} TrimStartConcat(a: string, b: string)
    ensures TrimStart(a + b) == if AllSpace(a) then TrimStart(b) else TrimStart(a) + b
    decreases |a|
  {
    if a == [] {
      assert a + b == b;
    } else {
      assert (a + b)[0] == a[0];
      assert (a + b)[1..] == a[1..] + b;
      TrimStartConcat(a[1..], b);
      if IsSpace(a[0]) {
        assert AllSpace(a) <==> AllSpace(a[1..]) by {
          assert forall i :: 0 < i < |a| ==> a[i] == a[1..][i - 1];
        }
      }
    }
  }

  lemma {:induction false} LeadingWordBeforeSpace(x: string, c: char, y: string)
    requires IsSpace(c)
    ensures LeadingWord(x + [c] + y) == LeadingWord(x)
    decreases |x|
  {
    if x == [] {
      assert (x + [c] + y)[0] == c;
    } else {
      assert (x + [c] + y)[0] == x[0];
      assert (x + [c] + y)[1..] == x[1..] + [c] + y;
      LeadingWordBeforeSpace(x[1..], c, y);
    }
  }

  function Digit(d: nat): char
    requires d < 10
  {
    ('0' as int + d) as char
  }

  /** `str(n)` for an integer, as an f-string renders it. */
  function IntToString(n: int): string
  {
    if n < 0 then "-" + NatToString(-n) else NatToString(n)
  }

  function NatToString(n: nat): string
  {
    if n < 10 then [Digit(n)] else NatToString(n / 10) + [Digit(n % 10)]
  }
}
