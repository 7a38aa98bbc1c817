/** Option and Result, used for the optional request fields and for error returns. */
module Wrappers {

  datatype Option<+T> = None | Some(value: T)

  datatype Result<+R, +E> = Ok(value: R) | Err(error: E)
}

/**
 * The few string operations of Python's `str` type that the prompt
 * backends and the FFmpeg builder rely on: `lower`, `in` (substring),
 * `split()` without arguments, `strip`, `title`, `replace` of one
 * character, `str.join`, and `str(n)` for a natural number.
 */
module Text {
  import opened Wrappers

  /** Python's `str.isspace`, the separator set of `split()` and `strip()`. */
  predicate IsSpace(c: char)
  {
    || c == ' '
    || ('\t' <= c <= '\r')
    || ('\U{1c}' <= c <= '\U{1f}')
    || c == '\U{85}' || c == '\U{a0}' || c == '\U{1680}'
    || ('\U{2000}' <= c <= '\U{200a}')
    || c == '\U{2028}' || c == '\U{2029}' || c == '\U{202f}'
    || c == '\U{205f}' || c == '\U{3000}'
  }

  predicate IsUpper(c: char) { 'A' <= c <= 'Z' }

  predicate IsLetter(c: char) { IsUpper(c) || 'a' <= c <= 'z' }

  /** `str.lower` restricted to ASCII letters. */
  function LowerChar(c: char): char
  {
    if IsUpper(c) then (c as int + 32) as char else c
  }

  function UpperChar(c: char): char
  {
    if 'a' <= c <= 'z' then (c as int - 32) as char else c
  }

  function Lower(s: string): (r: string)
    ensures |r| == |s|
    ensures forall i :: 0 <= i < |s| ==> r[i] == LowerChar(s[i])
  {
    seq(|s|, i requires 0 <= i < |s| => LowerChar(s[i]))
  }

  /** Lowercasing again changes nothing. */
  lemma LowerIdempotent(s: string)
    ensures Lower(Lower(s)) == Lower(s)
  {
    forall i | 0 <= i < |s|
      ensures Lower(Lower(s))[i] == Lower(s)[i]
    {
      assert !IsUpper(LowerChar(s[i]));
    }
  }

  /** `key` occurs in `text` starting at position `i`. */
  predicate OccursAt(text: string, key: string, i: nat)
  {
    i + |key| <= |text| && text[i..i + |key|] == key
  }

  /** An occurrence survives appending more text. */
  lemma OccursAtExtend(text: string, key: string, i: nat, more: string)
    requires OccursAt(text, key, i)
    ensures OccursAt(text + more, key, i)
  {
    assert (text + more)[i..i + |key|] == text[i..i + |key|];
  }

  /** The second half of a concatenation occurs right after the first. */
  lemma OccursAtJunction(front: string, key: string)
    ensures OccursAt(front + key, key, |front|)
  {
    assert (front + key)[|front|..|front| + |key|] == key;
  }

  /** Python's `key in text` on strings. */
  predicate Contains(text: string, key: string)
  {
    exists i :: 0 <= i <= |text| && OccursAt(text, key, i)
  }

  /** Python's `any(key in text for key in keys)`. */
  predicate AnyContains(text: string, keys: seq<string>)
  {
    exists j :: 0 <= j < |keys| && Contains(text, keys[j])
  }

  /** Matching against a concatenated keyword list is matching against either part. */
  lemma AnyContainsConcat(text: string, a: seq<string>, b: seq<string>)
    ensures AnyContains(text, a + b) <==> AnyContains(text, a) || AnyContains(text, b)
  {
    if AnyContains(text, a + b) {
      var j :| 0 <= j < |a + b| && Contains(text, (a + b)[j]);
      if j < |a| {
        assert (a + b)[j] == a[j];
      } else {
        assert (a + b)[j] == b[j - |a|];
      }
    }
    if AnyContains(text, b) {
      var j :| 0 <= j < |b| && Contains(text, b[j]);
      assert (a + b)[|a| + j] == b[j];
    }
    if AnyContains(text, a) {
      var j :| 0 <= j < |a| && Contains(text, a[j]);
      assert (a + b)[j] == a[j];
    }
  }

  /** The number of leading elements of `s` that satisfy `p`. */
  function LeadingCount<T>(s: seq<T>, p: T -> bool): (n: nat)
    ensures n <= |s|
    ensures forall i :: 0 <= i < n ==> p(s[i])
    ensures n == |s| || !p(s[n])
  {
    if s != [] && p(s[0]) then 1 + LeadingCount(s[1..], p) else 0
  }

  /** The length of `s` once its longest suffix of elements satisfying `p` is dropped. */
  function TrailingStart<T>(s: seq<T>, p: T -> bool): (m: nat)
    ensures m <= |s|
    ensures forall i :: m <= i < |s| ==> p(s[i])
    ensures m == 0 || !p(s[m - 1])
  {
    if s != [] && p(s[|s| - 1]) then TrailingStart(s[..|s| - 1], p) else |s|
  }

  /** Python's `str.lstrip()`: drops the longest whitespace prefix. */
  function TrimLeft(s: string): (r: string)
    ensures |r| <= |s| && r == s[|s| - |r|..]
    ensures r == [] || !IsSpace(r[0])
    ensures forall i :: 0 <= i < |s| - |r| ==> IsSpace(s[i])
  {
    s[LeadingCount(s, IsSpace)..]
  }

  /** Python's `str.rstrip()`: drops the longest whitespace suffix. */
  function TrimRight(s: string): (r: string)
    ensures |r| <= |s| && r == s[..|r|]
    ensures r == [] || !IsSpace(r[|r| - 1])
    ensures forall i :: |r| <= i < |s| ==> IsSpace(s[i])
  {
    s[..TrailingStart(s, IsSpace)]
  }

  /** `r` is `s[a..b]` and everything of `s` outside that slice is whitespace. */
  predicate SpaceFramed(s: string, r: string, a: nat, b: nat)
  {
    && a <= b <= |s| && r == s[a..b]
    && (forall i :: 0 <= i < a ==> IsSpace(s[i]))
    && (forall i :: b <= i < |s| ==> IsSpace(s[i]))
  }

  /** Where the text `strip()` keeps starts in `s`. */
  function StripStart(s: string): nat
  {
    LeadingCount(s, IsSpace)
  }

  /** Where the text `strip()` keeps ends in `s`. */
  function StripEnd(s: string): nat
  {
    var a := LeadingCount(s, IsSpace);
    a + TrailingStart(s[a..], IsSpace)
  }

  /** Python's `str.strip()`. */
  function Strip(s: string): (r: string)
    ensures exists a: nat, b: nat :: SpaceFramed(s, r, a, b)
    ensures r == [] || (!IsSpace(r[0]) && !IsSpace(r[|r| - 1]))
    ensures |r| <= |s|
  {
    StripFrame(s);
    s[StripStart(s)..StripEnd(s)]
  }

  /** The text `strip()` keeps has only whitespace around it and none at its ends. */
  lemma StripFrame(s: string)
    ensures StripStart(s) <= StripEnd(s) <= |s|
    ensures SpaceFramed(s, s[StripStart(s)..StripEnd(s)], StripStart(s), StripEnd(s))
    ensures StripStart(s) == StripEnd(s) || (!IsSpace(s[StripStart(s)]) && !IsSpace(s[StripEnd(s) - 1]))
  {
    var a := LeadingCount(s, IsSpace);
    TailHolds(s, a, TrailingStart(s[a..], IsSpace), IsSpace);
  }

  /** `strip()` is `lstrip()` followed by `rstrip()`. */
  lemma StripIsTrims(s: string)
    ensures Strip(s) == TrimRight(TrimLeft(s))
  {
    var a := LeadingCount(s, IsSpace);
    SliceOfSlice(s, a, TrailingStart(s[a..], IsSpace));
  }

  lemma SliceOfSlice<T>(s: seq<T>, a: nat, n: nat)
    requires a + n <= |s|
    ensures s[a..][..n] == s[a..a + n]
  {
  }

  /** A property of every element of a suffix of `s[a..]` holds of the same elements of `s`. */
  lemma TailHolds<T>(s: seq<T>, a: nat, k: nat, p: T -> bool)
    requires a <= |s|
    requires forall i :: k <= i < |s| - a ==> p(s[a..][i])
    ensures forall i :: a + k <= i < |s| ==> p(s[i])
  {
    forall i | a + k <= i < |s|
      ensures p(s[i])
    {
      assert s[a..][i - a] == s[i];
    }
  }

  /** The longest prefix of `t` free of whitespace. */
  function TakeWord(t: string): (w: string)
    ensures |w| <= |t| && w == t[..|w|]
    ensures forall i :: 0 <= i < |w| ==> !IsSpace(w[i])
    ensures |w| == |t| || IsSpace(t[|w|])
  {
    if t == [] || IsSpace(t[0]) then [] else [t[0]] + TakeWord(t[1..])
  }

  /** A non-empty string without whitespace. */
  predicate IsWord(w: string)
  {
    w != [] && forall i :: 0 <= i < |w| ==> !IsSpace(w[i])
  }

  /** Python's `str.split()` with no separator: the maximal runs of non-whitespace. */
  function Words(s: string): (ws: seq<string>)
    ensures forall k :: 0 <= k < |ws| ==> IsWord(ws[k])
    decreases |s|
  {
    if s == [] then []
    else if IsSpace(s[0]) then Words(s[1..])
    else
      var w := TakeWord(s);
      assert IsWord(w);
      [w] + Words(s[|w|..])
  }

  /** `len(text.split())`. */
  function WordCount(s: string): nat
  {
    |Words(s)|
  }

  /** `len(text) // 4`. */
  function TokenEstimate(s: string): nat
  {
    |s| / 4
  }

  lemma {:induction false} TakeWordAppendSpace(t: string, c: char)
    requires IsSpace(c)
    ensures TakeWord(t + [c]) == TakeWord(t)
  {
    if t != [] && !IsSpace(t[0]) {
      assert (t + [c])[1..] == t[1..] + [c];
      TakeWordAppendSpace(t[1..], c);
    }
  }

  /** A trailing whitespace character does not change the words. */
  lemma {:induction false} WordsAppendSpace(s: string, c: char)
    requires IsSpace(c)
    ensures Words(s + [c]) == Words(s)
    decreases |s|
  {
    if s == [] {
      assert Words([c]) == Words([c][1..]);
    } else if IsSpace(s[0]) {
      assert (s + [c])[1..] == s[1..] + [c];
      WordsAppendSpace(s[1..], c);
    } else {
      var w := TakeWord(s);
      TakeWordAppendSpace(s, c);
      assert (s + [c])[|w|..] == s[|w|..] + [c];
      WordsAppendSpace(s[|w|..], c);
    }
  }

  /** Leading whitespace does not change the words. */
  lemma {:induction false} WordsTrimLeft(s: string)
    ensures Words(TrimLeft(s)) == Words(s)
    decreases |s|
  {
    if s != [] && IsSpace(s[0]) {
      WordsTrimLeft(s[1..]);
    }
  }

  lemma {:induction false} WordsTrimRight(s: string)
    ensures Words(TrimRight(s)) == Words(s)
    decreases |s|
  {
    if s != [] && IsSpace(s[|s| - 1]) {
      var init := s[..|s| - 1];
      assert s == init + [s[|s| - 1]];
      WordsAppendSpace(init, s[|s| - 1]);
      WordsTrimRight(init);
      assert TrimRight(s) == TrimRight(init) by {
        var m := TrailingStart(init, IsSpace);
        assert TrailingStart(s, IsSpace) == m;
        assert s[..m] == init[..m];
      }
    } else {
      assert TrailingStart(s, IsSpace) == |s|;
      assert s[..|s|] == s;
    }
  }

  /** A whitespace character inside the text ends the first word there. */
  lemma {:induction false} TakeWordAtSpace(a: string, c: char, b: string)
    requires IsSpace(c)
    ensures TakeWord(a + [c] + b) == TakeWord(a)
    decreases |a|
  {
    if a != [] && !IsSpace(a[0]) {
      assert (a + [c] + b)[1..] == a[1..] + [c] + b;
      TakeWordAtSpace(a[1..], c, b);
    } else if a == [] {
      assert (a + [c] + b)[0] == c;
    }
  }

  /** A single word splits into itself. */
  lemma {:induction false} WordsOfWord(w: string)
    requires IsWord(w)
    ensures Words(w) == [w]
  {
    TakeWordOfWord(w);
    assert w[|w|..] == [];
  }

  lemma {:induction false} TakeWordOfWord(w: string)
    requires forall i :: 0 <= i < |w| ==> !IsSpace(w[i])
    ensures TakeWord(w) == w
    decreases |w|
  {
    if w != [] {
      TakeWordOfWord(w[1..]);
      assert w == [w[0]] + w[1..];
    }
  }

  /**
   * Splitting at a whitespace character splits the words: `split()` returns
   * the words of the text before it followed by those of the text after it.
   */
  lemma {:induction false} WordsSplitAtSpace(a: string, c: char, b: string)
    requires IsSpace(c)
    ensures Words(a + [c] + b) == Words(a) + Words(b)
    decreases |a|
  {
    var s := a + [c] + b;
    if a == [] {
      assert s[0] == c && s[1..] == b;
    } else if IsSpace(a[0]) {
      DropAroundSpace(a, c, b, 1);
      WordsSplitAtSpace(a[1..], c, b);
    } else {
      var w := TakeWord(a);
      TakeWordAtSpace(a, c, b);
      DropAroundSpace(a, c, b, |w|);
      WordsSplitAtSpace(a[|w|..], c, b);
    }
  }

  lemma DropAroundSpace(a: string, c: char, b: string, n: nat)
    requires 0 < n <= |a|
    ensures (a + [c] + b)[0] == a[0]
    ensures (a + [c] + b)[n..] == a[n..] + [c] + b
  {
  }

  /** `len(s.strip().split()) == len(s.split())`: stripping keeps every word. */
  lemma WordsStrip(s: string)
    ensures Words(Strip(s)) == Words(s)
    ensures WordCount(Strip(s)) == WordCount(s)
  {
    StripIsTrims(s);
    WordsTrimLeft(s);
    WordsTrimRight(TrimLeft(s));
  }

  /** Python's `str(n)` for a natural number. */
  function NatToString(n: nat): (r: string)
    ensures r != []
    ensures forall i :: 0 <= i < |r| ==> '0' <= r[i] <= '9'
    decreases n
  {
    if n < 10 then [DigitChar(n)] else NatToString(n / 10) + [DigitChar(n % 10)]
  }

  function DigitChar(d: nat): (c: char)
    requires d < 10
    ensures '0' <= c <= '9' && c as int - '0' as int == d
  {
    (d + '0' as int) as char
  }

  /** Reads a string of decimal digits back as a number (`int(s)`). */
  function ParseNat(s: string): nat
    requires forall i :: 0 <= i < |s| ==> '0' <= s[i] <= '9'
  {
    if s == [] then 0 else ParseNat(s[..|s| - 1]) * 10 + (s[|s| - 1] as int - '0' as int)
  }

  /** `int(str(n)) == n`: the decimal rendering of a label index is unambiguous. */
  lemma {:induction false} ParseNatToString(n: nat)
    ensures ParseNat(NatToString(n)) == n
    decreases n
  {
    var r := NatToString(n);
    if n >= 10 {
      assert r[..|r| - 1] == NatToString(n / 10);
      ParseNatToString(n / 10);
    }
  }

  lemma NatToStringInjective(m: nat, n: nat)
    ensures NatToString(m) == NatToString(n) ==> m == n
  {
    ParseNatToString(m);
    ParseNatToString(n);
  }

  /** Python's `sep.join(parts)`. */
  function Join(parts: seq<string>, sep: string): (r: string)
    ensures parts == [] ==> r == ""
    ensures parts != [] ==> |parts[0]| <= |r| && r[..|parts[0]|] == parts[0]
    ensures |parts| == 1 ==> r == parts[0]
  {
    if parts == [] then ""
    else if |parts| == 1 then parts[0]
    else parts[0] + sep + Join(parts[1..], sep)
  }

  /** The concatenation of `parts`, as an f-string joins its literal and replacement fields. */
  function Concat(parts: seq<string>): string
  {
    if parts == [] then "" else parts[0] + Concat(parts[1..])
  }

  lemma {:induction false} ConcatAppend(a: seq<string>, b: seq<string>)
    ensures Concat(a + b) == Concat(a) + Concat(b)
  {
    if a != [] {
      assert (a + b)[1..] == a[1..] + b;
      ConcatAppend(a[1..], b);
    } else {
      assert a + b == b;
    }
  }

  lemma ConcatThree(a: string, b: string, c: string)
    ensures Concat([a, b, c]) == a + b + c
  {
    assert Concat([c]) == c by {
      assert [c][1..] == [];
    }
    assert Concat([b, c]) == b + c by {
      assert [b, c][1..] == [c];
    }
    assert [a, b, c][1..] == [b, c];
  }

  /**
   * A concatenation of at least three parts starts with the first two parts,
   * followed by the first character of the third.
   */
  lemma ConcatOpening(parts: seq<string>)
    requires |parts| >= 3
    ensures var r := Concat(parts);
            var n := |parts[0] + parts[1]|;
            && n <= |r|
            && r[..n] == parts[0] + parts[1]
            && (parts[2] != [] ==> n < |r| && r[n] == parts[2][0])
  {
    var rest := parts[3..];
    assert parts == [parts[0], parts[1], parts[2]] + rest;
    ConcatAppend([parts[0], parts[1], parts[2]], rest);
    ConcatThree(parts[0], parts[1], parts[2]);
    assert Concat(parts) == (parts[0] + parts[1]) + (parts[2] + Concat(rest));
  }

  /** Python's `s.replace(from, to)` for single characters. */
  function ReplaceChar(s: string, from: char, to: char): (r: string)
    ensures |r| == |s|
    ensures forall i :: 0 <= i < |s| ==> r[i] == (if s[i] == from then to else s[i])
  {
    seq(|s|, i requires 0 <= i < |s| => if s[i] == from then to else s[i])
  }

  /**
   * Python's `str.title` over ASCII: a letter is upper-cased when the
   * character before it is not a letter and lower-cased otherwise.
   */
  function TitleFrom(s: string, afterLetter: bool): (r: string)
    ensures |r| == |s|
  {
    if s == [] then []
    else [if afterLetter then LowerChar(s[0]) else UpperChar(s[0])] + TitleFrom(s[1..], IsLetter(s[0]))
  }

  function Title(s: string): string
  {
    TitleFrom(s, false)
  }

  /** Python's `str(b)` for a boolean. */
  function BoolString(b: bool): string
  {
    if b then "True" else "False"
  }

  /** f-string formatting of an optional string: `None` prints as "None". */
  function OptionString(o: Option<string>): string
  {
    if o.Some? then o.value else "None"
  }
}
