/**
 * Symbol handling shared by every component: the default trading pair,
 * `normalize_symbol` (every symbol is stored as BASE/USDT) and the display-name table.
 */
module Config {
  const DEFAULT_SYMBOL: string := "SOL/USDT"
  const QUOTE: string := "USDT"

  /** Characters Python's `str.strip()` removes. */
  predicate IsSpace(c: char)
  {
    (9 <= c as int <= 13) || (28 <= c as int <= 32) || c as int == 0x85 || c as int == 0xA0
    || c as int == 0x1680 || (0x2000 <= c as int <= 0x200A) || c as int == 0x2028
    || c as int == 0x2029 || c as int == 0x202F || c as int == 0x205F || c as int == 0x3000
  }

  /** Upper-casing of one character (ASCII letters only). */
  function UpperChar(c: char): (u: char)
    ensures 'a' <= c <= 'z' ==> 'A' <= u <= 'Z'
    ensures !('a' <= c <= 'z') ==> u == c
    ensures IsSpace(u) <==> IsSpace(c)
  {
    if 'a' <= c <= 'z' then (c as int - 'a' as int + 'A' as int) as char else c
  }

  function ToUpper(s: string): (r: string)
    ensures |r| == |s|
    ensures forall i :: 0 <= i < |s| ==> r[i] == UpperChar(s[i])
  {
    seq(|s|, i requires 0 <= i < |s| => UpperChar(s[i]))
  }

  function TrimLeft(s: string): (r: string)
    ensures |r| <= |s| && r == s[|s| - |r|..]
    ensures r == [] || !IsSpace(r[0])
  {
    if s != [] && IsSpace(s[0]) then TrimLeft(s[1..]) else s
  }

  function TrimRight(s: string): (r: string)
    ensures |r| <= |s| && r == s[..|r|]
    ensures r == [] || !IsSpace(r[|r| - 1])
  {
    if s != [] && IsSpace(s[|s| - 1]) then TrimRight(s[..|s| - 1]) else s
  }

  /** Python's `str.strip()`. */
  function Strip(s: string): (r: string)
    ensures r == [] || (!IsSpace(r[0]) && !IsSpace(r[|r| - 1]))
    ensures forall c :: c in r ==> c in s
  {
    var l := TrimLeft(s);
    var r := TrimRight(l);
    assert r != [] ==> r[0] == l[0];
    assert forall c :: c in r ==> c in l;
    r
  }

  predicate EndsWith(s: string, suffix: string)
  {
    |s| >= |suffix| && s[|s| - |suffix|..] == suffix
  }

  /** `s.split("/")[0]`: everything before the first slash. */
  function BaseOf(s: string): (r: string)
    ensures |r| <= |s| && r == s[..|r|]
    ensures '/' !in r
    ensures '/' in s ==> |r| < |s| && s[|r|] == '/'
    ensures '/' !in s ==> r == s
  {
    if s == [] then []
    else if s[0] == '/' then []
    else [s[0]] + BaseOf(s[1..])
  }

  /** `f"{base}/USDT"` */
  function WithQuote(base: string): (r: string)
    ensures '/' in r && EndsWith(r, QUOTE)
    ensures |r| == |base| + 5 && r[..|base|] == base
  {
    var r := base + "/USDT";
    assert r[|base|] == '/';
    assert r[|r| - 4..] == QUOTE;
    r
  }

  /** `normalize_symbol`: upper-case, strip, and bring into BASE/USDT form. */
  function NormalizeSymbol(symbol: string): (r: string)
    ensures '/' in r && EndsWith(r, QUOTE)
    ensures symbol == [] ==> r == DEFAULT_SYMBOL
    ensures symbol != [] ==> var s := Strip(ToUpper(symbol));
      ('/' in s && EndsWith(s, QUOTE) ==> r == s)
      && ('/' !in s && !EndsWith(s, QUOTE) ==> r == s + "/USDT")
      && ('/' !in s && EndsWith(s, QUOTE) ==> r == s[..|s| - 4] + "/USDT")
      && ('/' in s && !EndsWith(s, QUOTE) ==> r == BaseOf(s) + "/USDT")
  {
    if symbol == [] then
      assert DEFAULT_SYMBOL[3] == '/';
      DEFAULT_SYMBOL
    else
      var s := Strip(ToUpper(symbol));
      if '/' in s && EndsWith(s, QUOTE) then s
      else if !EndsWith(s, QUOTE) then
        (if '/' in s then WithQuote(BaseOf(s)) else WithQuote(s))
      else
        WithQuote(s[..|s| - 4])
  }

  predicate UpperFixed(s: string)
  {
    forall i :: 0 <= i < |s| ==> UpperChar(s[i]) == s[i]
  }

  /** Upper-case, with no surrounding white space, and (when non-empty) not starting with white space. */
  predicate Clean(s: string)
  {
    UpperFixed(s) && (s == [] || !IsSpace(s[0]))
  }

  lemma StripUpperClean(symbol: string)
    ensures Clean(Strip(ToUpper(symbol)))
  {
    var u := ToUpper(symbol);
    var s := Strip(u);
    forall i | 0 <= i < |s|
      ensures UpperChar(s[i]) == s[i]
    {
      assert s[i] in s;
      assert s[i] in u;
    }
  }

  lemma WithQuoteClean(base: string)
    requires Clean(base)
    ensures UpperFixed(WithQuote(base))
    ensures !IsSpace(WithQuote(base)[0]) && !IsSpace(WithQuote(base)[|WithQuote(base)| - 1])
  {
    var r := WithQuote(base);
    assert r == base + "/USDT";
  }

  lemma PrefixClean(s: string, n: nat)
    requires Clean(s) && n <= |s|
    ensures Clean(s[..n])
  {
  }

  /** A clean string whose last character is not white space is its own normal form input. */
  lemma StripUpperFixed(r: string)
    requires r != [] && UpperFixed(r) && !IsSpace(r[0]) && !IsSpace(r[|r| - 1])
    ensures Strip(ToUpper(r)) == r
  {
    assert ToUpper(r) == r;
    assert TrimLeft(r) == r;
    assert TrimRight(r) == r;
  }

  /** The stored form: upper-case BASE/USDT, with no white space at either end. */
  predicate NormalForm(s: string)
  {
    '/' in s && EndsWith(s, QUOTE) && UpperFixed(s) && !IsSpace(s[0])
  }

  /** Every result of `normalize_symbol` is in the stored form. */
  lemma NormalizeGivesNormalForm(symbol: string)
    ensures NormalForm(NormalizeSymbol(symbol))
  {
    var r := NormalizeSymbol(symbol);
    if symbol == [] {
      assert r == "SOL/USDT";
    } else {
      var s := Strip(ToUpper(symbol));
      StripUpperClean(symbol);
      if '/' in s && EndsWith(s, QUOTE) {
      } else if !EndsWith(s, QUOTE) {
        if '/' in s {
          PrefixClean(s, |BaseOf(s)|);
          WithQuoteClean(BaseOf(s));
        } else {
          WithQuoteClean(s);
        }
      } else {
        PrefixClean(s, |s| - 4);
        WithQuoteClean(s[..|s| - 4]);
      }
    }
  }

  /** A symbol in the stored form is left as it is. */
  lemma NormalFormIsFixed(s: string)
    requires NormalForm(s)
    ensures NormalizeSymbol(s) == s
  {
    assert s[|s| - 1] == 'T';
    StripUpperFixed(s);
  }

  /** Normalising twice changes nothing. */
  lemma NormalizeIdempotent(symbol: string)
    ensures NormalizeSymbol(NormalizeSymbol(symbol)) == NormalizeSymbol(symbol)
  {
    NormalizeGivesNormalForm(symbol);
    NormalFormIsFixed(NormalizeSymbol(symbol));
  }

  const SYMBOL_NAMES: map<string, string> := map[
    "SOL" := "Solana", "BTC" := "Bitcoin", "ETH" := "Ethereum", "BNB" := "Binance Coin",
    "ADA" := "Cardano", "DOT" := "Polkadot", "AVAX" := "Avalanche", "MATIC" := "Polygon",
    "LINK" := "Chainlink", "UNI" := "Uniswap", "DOGE" := "Dogecoin", "XRP" := "Ripple",
    "LTC" := "Litecoin", "ATOM" := "Cosmos", "NEAR" := "NEAR Protocol", "SHIB" := "Shiba Inu",
    "PEPE" := "Pepe"]

  /** `get_symbol_display_name`: the base currency's long name, or the base itself. */
  function DisplayName(symbol: string): (r: string)
    ensures '/' !in symbol ==> r == symbol
    ensures '/' in symbol && BaseOf(symbol) in SYMBOL_NAMES ==> r == SYMBOL_NAMES[BaseOf(symbol)]
    ensures '/' in symbol && BaseOf(symbol) !in SYMBOL_NAMES ==> r == BaseOf(symbol)
  {
    if '/' in symbol then
      var base := BaseOf(symbol);
      if base in SYMBOL_NAMES then SYMBOL_NAMES[base] else base
    else symbol
  }

  /** A pair symbol is always displayed without the quote currency. */
  lemma DisplayNameDropsQuote(symbol: string)
    requires '/' in symbol
    ensures '/' !in DisplayName(symbol)
  {
    NamesHaveNoSlash();
  }

  /** No long name contains a slash. */
  lemma NamesHaveNoSlash()
    ensures forall v :: v in SYMBOL_NAMES.Values ==> '/' !in v
  {
  }
}
