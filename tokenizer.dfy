/**
 * The analyser's tokenizer (server/services/text-similarity.ts, `tokenize`):
 * every character that is neither a word character nor whitespace becomes a space,
 * the text is split on whitespace runs, and only tokens longer than two characters are kept.
 */
module Tokenizer {
  import opened Strings

  /** `text.replace(/[^\w\s]/g, ' ')`. */
  function Sanitize(s: string): (r: string)
    ensures |r| == |s|
    ensures forall i :: 0 <= i < |s| ==> IsWordChar(r[i]) || IsSpace(r[i])
    ensures forall i :: 0 <= i < |s| && IsWordChar(s[i]) ==> r[i] == s[i]
    ensures forall i :: 0 <= i < |s| && !IsWordChar(s[i]) ==> IsSpace(r[i])
  {
    seq(|s|, i requires 0 <= i < |s| => if IsWordChar(s[i]) || IsSpace(s[i]) then s[i] else ' ')
  }

  /** Length of the longest prefix of `s` that holds no whitespace. */
  function RunLength(s: string): (n: nat)
    ensures n <= |s|
    ensures forall i :: 0 <= i < n ==> !IsSpace(s[i])
    ensures n < |s| ==> IsSpace(s[n])
  {
    if s == [] || IsSpace(s[0]) then 0 else 1 + RunLength(s[1..])
  }

  /** `split(/\s+/)`, without the empty pieces that leading or trailing whitespace produce. */
  function Words(s: string): seq<string>
    decreases |s|
  {
    if s == [] then []
    else if IsSpace(s[0]) then Words(s[1..])
    else
      var n := RunLength(s);
      [s[..n]] + Words(s[n..])
  }

  /** `filter(token => token.length > 2)`. */
  function LongTokens(ws: seq<string>): (r: seq<string>)
    ensures forall k :: 0 <= k < |r| ==> |r[k]| > 2
    ensures forall w :: w in r <==> w in ws && |w| > 2
  {
    if ws == [] then []
    else if |ws[0]| > 2 then [ws[0]] + LongTokens(ws[1..])
    else LongTokens(ws[1..])
  }

  function Tokenize(text: string): seq<string> {
    LongTokens(Words(Sanitize(text)))
  }

  predicate AllWordChars(w: string) {
    forall j :: 0 <= j < |w| ==> IsWordChar(w[j])
  }

  lemma {:induction false} WordsOfCleanText(s: string)
    requires forall i :: 0 <= i < |s| ==> IsWordChar(s[i]) || IsSpace(s[i])
    ensures forall k :: 0 <= k < |Words(s)| ==> |Words(s)[k]| > 0 && AllWordChars(Words(s)[k])
    decreases |s|
  {
    if s == [] {
    } else if IsSpace(s[0]) {
      WordsOfCleanText(s[1..]);
    } else {
      var n := RunLength(s);
      WordsOfCleanText(s[n..]);
      assert Words(s) == [s[..n]] + Words(s[n..]);
    }
  }

  /** Every token is longer than two characters and made of word characters only. */
  lemma TokensAreLongWords(text: string)
    ensures forall k :: 0 <= k < |Tokenize(text)| ==>
      |Tokenize(text)[k]| > 2 && AllWordChars(Tokenize(text)[k])
  {
    WordsOfCleanText(Sanitize(text));
    var ts := Tokenize(text);
    forall k | 0 <= k < |ts|
      ensures |ts[k]| > 2 && AllWordChars(ts[k])
    {
      assert ts[k] in Words(Sanitize(text));
    }
  }

  /** Tokens of lower-cased text contain no upper-case letter. */
  lemma {:induction false} WordsOfLowerText(s: string)
    requires IsLowerText(s)
    ensures forall k :: 0 <= k < |Words(s)| ==> IsLowerText(Words(s)[k])
    decreases |s|
  {
    if s == [] {
    } else if IsSpace(s[0]) {
      WordsOfLowerText(s[1..]);
    } else {
      var n := RunLength(s);
      WordsOfLowerText(s[n..]);
      assert Words(s) == [s[..n]] + Words(s[n..]);
    }
  }

  lemma TokensOfLowerText(text: string)
    requires IsLowerText(text)
    ensures forall k :: 0 <= k < |Tokenize(text)| ==> IsLowerText(Tokenize(text)[k])
  {
    var clean := Sanitize(text);
    assert IsLowerText(clean);
    WordsOfLowerText(clean);
    forall k | 0 <= k < |Tokenize(text)|
      ensures IsLowerText(Tokenize(text)[k])
    {
      assert Tokenize(text)[k] in Words(clean);
    }
  }

  lemma {:induction false} RunLengthStopsAtSpace(a: string, c: char, b: string)
    requires IsSpace(c)
    ensures RunLength(a + [c] + b) == RunLength(a)
    decreases |a|
  {
    if a != [] && !IsSpace(a[0]) {
      assert (a + [c] + b)[1..] == a[1..] + [c] + b;
      RunLengthStopsAtSpace(a[1..], c, b);
    }
  }

  lemma {:induction false} WordsSplitAtSpace(a: string, c: char, b: string)
    requires IsSpace(c)
    ensures Words(a + [c] + b) == Words(a) + Words(b)
    decreases |a|
  {
    var s := a + [c] + b;
    if a == [] {
      assert s[1..] == b;
    } else if IsSpace(a[0]) {
      assert s[1..] == a[1..] + [c] + b;
      WordsSplitAtSpace(a[1..], c, b);
    } else {
      RunLengthStopsAtSpace(a, c, b);
      var n := RunLength(a);
      assert s[..n] == a[..n];
      assert s[n..] == a[n..] + [c] + b;
      WordsSplitAtSpace(a[n..], c, b);
    }
  }

  lemma {:induction false} LongTokensAppend(xs: seq<string>, ys: seq<string>)
    ensures LongTokens(xs + ys) == LongTokens(xs) + LongTokens(ys)
    decreases |xs|
  {
    if xs == [] {
      assert xs + ys == ys;
    } else {
      assert (xs + ys)[0] == xs[0];
      assert (xs + ys)[1..] == xs[1..] + ys;
      LongTokensAppend(xs[1..], ys);
    }
  }

  /** A separator splits the token stream: tokenizing is a homomorphism over separated pieces. */
  lemma TokenizeSplits(a: string, sep: char, b: string)
    requires !IsWordChar(sep)
    ensures Tokenize(a + [sep] + b) == Tokenize(a) + Tokenize(b)
  {
    var c := if IsSpace(sep) then sep else ' ';
    var s := a + [sep] + b;
    assert Sanitize(s) == Sanitize(a) + [c] + Sanitize(b) by {
      forall i | 0 <= i < |s|
        ensures Sanitize(s)[i] == (Sanitize(a) + [c] + Sanitize(b))[i]
      {
        if i < |a| {
          assert s[i] == a[i];
        } else if i > |a| {
          assert s[i] == b[i - |a| - 1];
        }
      }
    }
    WordsSplitAtSpace(Sanitize(a), c, Sanitize(b));
    LongTokensAppend(Words(Sanitize(a)), Words(Sanitize(b)));
  }

  /** A single run of word characters is one token exactly when it is longer than two characters. */
  lemma {:induction false} TokenizeWord(w: string)
    requires |w| > 0 && AllWordChars(w)
    ensures Tokenize(w) == if |w| > 2 then [w] else []
  {
    assert Sanitize(w) == w;
    RunLengthOfWord(w);
    assert w[..|w|] == w && w[|w|..] == [];
    assert !IsSpace(w[0]);
    assert Words(w) == [w[..|w|]] + Words(w[|w|..]);
    assert Words(w) == [w];
    assert [w][1..] == [];
    assert LongTokens([w]) == if |w| > 2 then [w] + LongTokens([]) else LongTokens([]);
  }

  lemma {:induction false} RunLengthOfWord(w: string)
    requires AllWordChars(w)
    ensures RunLength(w) == |w|
    decreases |w|
  {
    if w != [] {
      RunLengthOfWord(w[1..]);
    }
  }

  /** Text without a single word character yields no token at all. */
  lemma {:induction false} TokenizeNoWordChars(text: string)
    requires forall i :: 0 <= i < |text| ==> !IsWordChar(text[i])
    ensures Tokenize(text) == []
  {
    BlankWords(Sanitize(text));
  }

  lemma {:induction false} BlankWords(s: string)
    requires forall i :: 0 <= i < |s| ==> IsSpace(s[i])
    ensures Words(s) == []
    decreases |s|
  {
    if s != [] {
      BlankWords(s[1..]);
    }
  }
}
