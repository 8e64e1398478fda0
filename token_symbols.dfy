/** The `$SYMBOL` extractor of the token trend engine
    (`TokenTrendService._extract_token_symbols`): the symbols matched by
    `\$([A-Za-z][A-Za-z0-9]{1,9})` in one text, uppercased, as a set. */
module TokenSymbols {
  import opened Wrappers
  import opened Text

  /** The most characters a symbol group can hold: one letter and nine more. */
  const MaxSymbolLength: nat := 10

  /** What every extracted symbol looks like: 2 to 10 characters, an upper-case
      ASCII letter first, then upper-case ASCII letters and digits. */
  predicate IsSymbol(s: string) {
    2 <= |s| <= MaxSymbolLength
    && 'A' <= s[0] <= 'Z'
    && forall k :: 0 <= k < |s| ==> ('A' <= s[k] <= 'Z' || IsAsciiDigit(s[k]))
  }

  /** The length of the greedy `[A-Za-z0-9]{0,n}` run starting at `i`. */
  function AlnumRun(text: string, i: nat, n: nat): (r: nat)
    requires i <= |text|
    ensures r <= n && i + r <= |text|
    ensures forall k :: i <= k < i + r ==> IsAsciiAlnum(text[k])
    ensures r < n && i + r < |text| ==> !IsAsciiAlnum(text[i + r])
    decreases n
  {
    if n == 0 || i == |text| || !IsAsciiAlnum(text[i]) then 0
    else 1 + AlnumRun(text, i + 1, n - 1)
  }

  /** The captured group of a match of the pattern starting at index `i`:
      a `$`, a letter, then greedily one to nine letters or digits. */
  function MatchAt(text: string, i: nat): (r: Option<string>)
    ensures r.Some? ==> i + 1 + |r.value| <= |text| && r.value == text[i + 1..i + 1 + |r.value|]
    ensures r.Some? ==> 2 <= |r.value| <= MaxSymbolLength
    ensures r.Some? ==> text[i] == '$' && IsAsciiLetter(r.value[0])
    ensures r.Some? ==> forall k :: 0 <= k < |r.value| ==> IsAsciiAlnum(r.value[k])
  {
    if i + 2 < |text| && text[i] == '$' && IsAsciiLetter(text[i + 1]) && IsAsciiAlnum(text[i + 2])
    then Some(text[i + 1..i + 2 + AlnumRun(text, i + 2, MaxSymbolLength - 1)])
    else None
  }

  /** `re.finditer` from index `i` on: try a match at `i`; after a match go on
      at its end, otherwise one character further. */
  function Scan(text: string, i: nat): (r: set<string>)
    requires i <= |text|
    ensures forall s :: s in r ==> IsSymbol(s)
    decreases |text| - i
  {
    if i == |text| then {}
    else match MatchAt(text, i)
      case Some(g) => {Upper(g)} + Scan(text, i + 1 + |g|)
      case None => Scan(text, i + 1)
  }

  /** `_extract_token_symbols(text)`. */
  function ExtractTokenSymbols(text: string): (r: set<string>)
    ensures forall s :: s in r ==> IsSymbol(s)
  {
    Scan(text, 0)
  }

  /** The symbol contributed by a match starting at index `i`, if any. */
  function SymbolAt(text: string, i: nat): Option<string> {
    match MatchAt(text, i)
    case Some(g) => Some(Upper(g))
    case None => None
  }

  /** `s` is the symbol of a match that starts in `text` at or after `from`. */
  predicate MatchedFrom(text: string, from: nat, s: string) {
    exists i :: from <= i < |text| && SymbolAt(text, i) == Some(s)
  }

  /** Inside a match there is no `$`, so no match starts there. */
  lemma NoMatchInside(text: string, i: nat, p: nat)
    requires MatchAt(text, i).Some?
    requires i < p < i + 1 + |MatchAt(text, i).value|
    ensures SymbolAt(text, p).None?
  {
    var g := MatchAt(text, i).value;
    assert text[p] == g[p - i - 1];
  }

  /** One step of the scan where no match starts at `from`. */
  lemma MatchedFromSkip(text: string, from: nat, s: string)
    requires from < |text| && SymbolAt(text, from).None?
    ensures MatchedFrom(text, from, s) <==> MatchedFrom(text, from + 1, s)
  {
    if MatchedFrom(text, from, s) {
      var i :| from <= i < |text| && SymbolAt(text, i) == Some(s);
      assert from + 1 <= i;
    }
  }

  /** One step of the scan over a match starting at `from`. */
  lemma MatchedFromOver(text: string, from: nat, s: string)
    requires from < |text| && MatchAt(text, from).Some?
    ensures var next := from + 1 + |MatchAt(text, from).value|;
      MatchedFrom(text, from, s) <==> s == Upper(MatchAt(text, from).value) || MatchedFrom(text, next, s)
  {
    var g := MatchAt(text, from).value;
    var next := from + 1 + |g|;
    if MatchedFrom(text, from, s) && s != Upper(g) {
      var i :| from <= i < |text| && SymbolAt(text, i) == Some(s);
      if i < next {
        NoMatchInside(text, from, i);
      }
    }
    assert SymbolAt(text, from) == Some(Upper(g));
  }

  /** The left-to-right scan finds every match: skipping over a match loses
      nothing, because no other match starts inside it. */
  lemma {:induction false} ScanFindsAllMatches(text: string, from: nat, s: string)
    requires from <= |text|
    ensures s in Scan(text, from) <==> MatchedFrom(text, from, s)
    decreases |text| - from
  {
    if from < |text| {
      match MatchAt(text, from)
      case Some(g) =>
        ScanFindsAllMatches(text, from + 1 + |g|, s);
        MatchedFromOver(text, from, s);
      case None =>
        ScanFindsAllMatches(text, from + 1, s);
        MatchedFromSkip(text, from, s);
    }
  }

  /** A symbol is extracted exactly when some `$` of the text starts a match
      whose uppercased group is that symbol. */
  lemma ExtractIffMatch(text: string, s: string)
    ensures s in ExtractTokenSymbols(text)
        <==> exists i :: 0 <= i < |text| && SymbolAt(text, i) == Some(s)
  {
    ScanFindsAllMatches(text, 0, s);
  }

  /** A `$` followed by a digit starts no match. */
  lemma DollarDigitNoMatch(text: string, i: nat)
    requires i + 1 < |text| && text[i] == '$' && IsAsciiDigit(text[i + 1])
    ensures MatchAt(text, i) == None
  {
  }

  /** A text in which no `$` is followed by a letter yields no symbol; in
      particular `$` followed by a digit yields nothing. */
  lemma NoLetterAfterDollarNoSymbol(text: string)
    requires forall i :: 0 <= i < |text| - 1 && text[i] == '$' ==> !IsAsciiLetter(text[i + 1])
    ensures ExtractTokenSymbols(text) == {}
  {
    forall s ensures s !in ExtractTokenSymbols(text) {
      ExtractIffMatch(text, s);
      forall i | 0 <= i < |text| ensures SymbolAt(text, i).None? {
        if i + 2 < |text| && text[i] == '$' {
          assert !IsAsciiLetter(text[i + 1]);
        }
      }
    }
  }

  /** The pattern has no trailing boundary: a run of more than ten letters
      and digits after a `$` is cut to its first ten. */
  lemma LongRunCutToTen(text: string, i: nat)
    requires i + 1 + MaxSymbolLength <= |text|
    requires text[i] == '$' && IsAsciiLetter(text[i + 1])
    requires forall k :: i + 1 <= k < i + 1 + MaxSymbolLength ==> IsAsciiAlnum(text[k])
    ensures MatchAt(text, i) == Some(text[i + 1..i + 1 + MaxSymbolLength])
  {
    assert IsAsciiAlnum(text[i + 2]);
  }

  /** The two spellings `$ab` and `$AB` in one text give the single symbol `AB`. */
  lemma ExtractCaseFolds()
    ensures ExtractTokenSymbols("$ab $AB") == {"AB"}
  {
    var t := "$ab $AB";
    assert AlnumRun(t, 3, 8) == 0;
    assert t[1..3] == "ab";
    assert MatchAt(t, 0) == Some("ab");
    assert Scan(t, 7) == {};
    assert AlnumRun(t, 7, 8) == 0;
    assert t[5..7] == "AB";
    assert MatchAt(t, 4) == Some("AB");
    assert Upper("AB") == "AB";
    assert Scan(t, 4) == {"AB"};
    assert MatchAt(t, 3) == None;
    assert Scan(t, 3) == {"AB"};
    assert Upper("ab") == "AB";
  }

  /** `$1x` gives nothing. */
  lemma ExtractDigitFirst()
    ensures ExtractTokenSymbols("$1x") == {}
  {
    var t := "$1x";
    assert MatchAt(t, 0) == None;
    assert MatchAt(t, 1) == None;
    assert MatchAt(t, 2) == None;
    assert Scan(t, 3) == {};
  }

  /** `$toolongtoolong` gives `TOOLONGTOO`. */
  lemma ExtractTooLong()
    ensures ExtractTokenSymbols("$toolongtoolong") == {"TOOLONGTOO"}
  {
    var t := "$toolongtoolong";
    LongRunCutToTen(t, 0);
    assert t[1..11] == "toolongtoo";
    assert MatchAt(t, 0) == Some("toolongtoo");
    assert Upper("toolongtoo") == "TOOLONGTOO";
    assert Scan(t, 15) == {};
    assert MatchAt(t, 14) == None;
    assert MatchAt(t, 13) == None;
    assert MatchAt(t, 12) == None;
    assert MatchAt(t, 11) == None;
    assert Scan(t, 11) == {};
  }
}
