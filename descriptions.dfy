/** Human-readable names for currencies and payment methods, and title-casing of words. */
module Descriptions {
  import opened Wrappers
  import opened Text
  import opened Records

  /** The currency codes the app can name, with their names. */
  const CurrencyDescriptions: Record<string> := [
    ("USD", "US Dollar"), ("USDC", "US Dollar Coin"), ("EUR", "Euro"), ("KES", "Kenyan Shilling"),
    ("GBP", "British Pound"), ("BTC", "Bitcoin"), ("AUD", "Australian Dollar"), ("MXN", "Mexican Peso"),
    ("GHS", "Ghanaian Cedi"), ("NGN", "Nigerian Naira")
  ]

  /** The table names exactly ten codes, each once. */
  lemma TenCurrencies()
    ensures |Keys(CurrencyDescriptions)| == 10 && DistinctKeys(CurrencyDescriptions)
    ensures Keys(CurrencyDescriptions) == ["USD", "USDC", "EUR", "KES", "GBP", "BTC", "AUD", "MXN", "GHS", "NGN"]
  {
  }

  /** A word as the replacement callback writes it: first character upper-cased, the rest lower-cased. */
  function TitleWord(w: string): (r: string)
    requires |w| > 0
    ensures |r| == |w| && r[0] == UpperChar(w[0]) && r[1..] == Lower(w[1..])
  {
    [UpperChar(w[0])] + Lower(w[1..])
  }

  /** The length of the leading run of non-space characters (`\S*`). */
  function NonSpaceRun(s: string): (n: nat)
    ensures n <= |s|
    ensures forall i :: 0 <= i < n ==> !IsSpace(s[i])
    ensures n < |s| ==> IsSpace(s[n])
    decreases |s|
  {
    if |s| == 0 || IsSpace(s[0]) then 0 else 1 + NonSpaceRun(s[1..])
  }

  /**
   * `toTitleCase`: a global replace of the pattern `\w\S*` scanning left to right; a word starts at a `\w`
   * character, runs to the next white space, and is replaced by its title-cased form.
   */
  function TitleCase(s: string): (r: string)
    ensures |r| == |s|
    decreases |s|
  {
    if |s| == 0 then ""
    else if IsWordChar(s[0]) then
      var n := 1 + NonSpaceRun(s[1..]);
      TitleWord(s[..n]) + TitleCase(s[n..])
    else [s[0]] + TitleCase(s[1..])
  }

  /**
   * The same mapping character by character: white space and characters outside a word are
   * kept, a word's first character is upper-cased and its later ones lower-cased.
   */
  function TitleFrom(s: string, inWord: bool): (r: string)
    ensures |r| == |s|
    decreases |s|
  {
    if |s| == 0 then ""
    else if IsSpace(s[0]) then [s[0]] + TitleFrom(s[1..], false)
    else if inWord then [LowerChar(s[0])] + TitleFrom(s[1..], true)
    else if IsWordChar(s[0]) then [UpperChar(s[0])] + TitleFrom(s[1..], true)
    else [s[0]] + TitleFrom(s[1..], false)
  }

  /** Inside a word, a run of non-space characters is lower-cased. */
  lemma {:induction false} InWordLowers(v: string, rest: string)
    requires forall i :: 0 <= i < |v| ==> !IsSpace(v[i])
    ensures TitleFrom(v + rest, true) == Lower(v) + TitleFrom(rest, true)
    decreases |v|
  {
    if |v| > 0 {
      assert (v + rest)[0] == v[0] && (v + rest)[1..] == v[1..] + rest;
      InWordLowers(v[1..], rest);
      assert Lower(v) == [LowerChar(v[0])] + Lower(v[1..]);
    } else {
      assert v + rest == rest;
    }
  }

  /** At white space or the end, whether a word was open makes no difference. */
  lemma WordClosesAtSpace(rest: string)
    requires |rest| == 0 || IsSpace(rest[0])
    ensures TitleFrom(rest, true) == TitleFrom(rest, false)
  {
  }

  /** The word-by-word replacement and the character-by-character mapping agree. */
  lemma {:induction false} TitleCaseIsCharwise(s: string)
    ensures TitleCase(s) == TitleFrom(s, false)
    decreases |s|
  {
    if |s| > 0 {
      if IsWordChar(s[0]) {
        var n := 1 + NonSpaceRun(s[1..]);
        var w, rest := s[..n], s[n..];
        assert s == [s[0]] + (w[1..] + rest);
        assert forall i :: 0 <= i < |w[1..]| ==> w[1..][i] == s[1..][i];
        assert rest == s[1..][n - 1..];
        InWordLowers(w[1..], rest);
        WordClosesAtSpace(rest);
        TitleCaseIsCharwise(rest);
        assert TitleFrom(s, false) == [UpperChar(s[0])] + TitleFrom(w[1..] + rest, true);
      } else {
        TitleCaseIsCharwise(s[1..]);
      }
    }
  }

  lemma {:induction false} TitleFromIsIdempotent(s: string, inWord: bool)
    ensures TitleFrom(TitleFrom(s, inWord), inWord) == TitleFrom(s, inWord)
    decreases |s|
  {
    if |s| > 0 {
      var r := TitleFrom(s, inWord);
      TitleFromIsIdempotent(s[1..], !IsSpace(s[0]) && (inWord || IsWordChar(s[0])));
      assert r[1..] == TitleFrom(s[1..], !IsSpace(s[0]) && (inWord || IsWordChar(s[0])));
    }
  }

  /** Title-casing a title-cased string changes nothing. */
  lemma TitleCaseIsIdempotent(s: string)
    ensures TitleCase(TitleCase(s)) == TitleCase(s)
  {
    TitleCaseIsCharwise(s);
    TitleCaseIsCharwise(TitleCase(s));
    TitleFromIsIdempotent(s, false);
  }

  /** White space is never changed, and a string without `\w` characters is left as it is. */
  lemma {:induction false} TitleFromKeeps(s: string, inWord: bool)
    ensures forall i :: 0 <= i < |s| && IsSpace(s[i]) ==> TitleFrom(s, inWord)[i] == s[i]
    ensures !inWord && (forall i :: 0 <= i < |s| ==> !IsWordChar(s[i])) ==> TitleFrom(s, inWord) == s
    decreases |s|
  {
    if |s| > 0 {
      TitleFromKeeps(s[1..], !IsSpace(s[0]) && (inWord || IsWordChar(s[0])));
      var r := TitleFrom(s, inWord);
      assert forall i :: 1 <= i < |s| ==> r[i] == TitleFrom(s[1..], !IsSpace(s[0]) && (inWord || IsWordChar(s[0])))[i - 1] && s[i] == s[1..][i - 1];
      assert !inWord && (forall i :: 0 <= i < |s| ==> !IsWordChar(s[i])) ==> (forall i :: 0 <= i < |s[1..]| ==> !IsWordChar(s[1..][i]));
    }
  }

  lemma TitleCaseKeeps(s: string)
    ensures forall i :: 0 <= i < |s| && IsSpace(s[i]) ==> TitleCase(s)[i] == s[i]
    ensures (forall i :: 0 <= i < |s| ==> !IsWordChar(s[i])) ==> TitleCase(s) == s
  {
    TitleCaseIsCharwise(s);
    TitleFromKeeps(s, false);
  }

  /**
   * `makeHumanReadablePaymentMethod`: a method whose first `_`-separated segment is a known
   * currency code becomes that currency's name, a space, and the title-cased remaining
   * segments joined by spaces; any other method is returned as it is.
   */
  function HumanReadablePaymentMethod(kind: string): (r: string)
    ensures Get(CurrencyDescriptions, Split(kind, '_')[0]).None? ==> r == kind
    ensures Get(CurrencyDescriptions, Split(kind, '_')[0]).Some? ==>
              var name := Get(CurrencyDescriptions, Split(kind, '_')[0]).value;
              |r| >= |name| + 1 && r[..|name| + 1] == name + " "
  {
    var segments := Split(kind, '_');
    match Get(CurrencyDescriptions, segments[0])
    case None => kind
    case Some(name) => name + " " + TitleCase(Join(segments[1..], " "))
  }

  /** A bare currency code names the currency, with the trailing space of an empty rest. */
  lemma BareCurrency(i: nat)
    requires i < |CurrencyDescriptions|
    ensures HumanReadablePaymentMethod(CurrencyDescriptions[i].0) == CurrencyDescriptions[i].1 + " "
  {
    var code := CurrencyDescriptions[i].0;
    assert '_' !in code;
    NoSeparatorSplit(code, '_');
    TenCurrencies();
    GetDistinct(CurrencyDescriptions, i);
  }

  lemma {:induction false} NoSeparatorSplit(s: string, sep: char)
    requires sep !in s
    ensures Split(s, sep) == [s]
    decreases |s|
  {
    if |s| > 0 {
      NoSeparatorSplit(s[1..], sep);
      assert [s[0]] + s[1..] == s;
    }
  }

  /**
   * A known code followed by `_` and a rest is the currency's name, a space, and the rest
   * with each `_` read as a space, title-cased.
   */
  lemma KnownCurrencyMethod(i: nat, rest: string)
    requires i < |CurrencyDescriptions|
    ensures HumanReadablePaymentMethod(CurrencyDescriptions[i].0 + "_" + rest)
            == CurrencyDescriptions[i].1 + " " + TitleCase(Join(Split(rest, '_'), " "))
  {
    var code := CurrencyDescriptions[i].0;
    assert '_' !in code;
    NoSeparatorSplit(code, '_');
    SplitAppend(code, rest, '_');
    var segments := Split(code + "_" + rest, '_');
    assert segments == [code] + Split(rest, '_');
    assert segments[1..] == Split(rest, '_');
    TenCurrencies();
    GetDistinct(CurrencyDescriptions, i);
  }
}
