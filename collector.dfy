/**
 * The data collector's set of symbols to collect: it is replaced wholesale by the
 * normalized form of a requested list, and the default symbol is always in it.
 */
module Collector {
  import opened Config

  /** The set `update_active_symbols` builds from a requested list. */
  function ActiveSet(symbols: seq<string>): (r: set<string>)
    ensures DEFAULT_SYMBOL in r
    ensures forall s :: s in symbols ==> NormalizeSymbol(s) in r
  {
    (set s | s in symbols :: NormalizeSymbol(s)) + {DEFAULT_SYMBOL}
  }

  /** Every member of the set is a stored-form symbol: normalized by the collector or the default. */
  lemma ActiveSetNormalized(symbols: seq<string>)
    ensures forall a :: a in ActiveSet(symbols) ==> NormalForm(a) && NormalizeSymbol(a) == a
  {
    forall a | a in ActiveSet(symbols)
      ensures NormalForm(a) && NormalizeSymbol(a) == a
    {
      if a == DEFAULT_SYMBOL {
        NormalizeGivesNormalForm([]);
      } else {
        var s :| s in symbols && a == NormalizeSymbol(s);
        NormalizeGivesNormalForm(s);
      }
      NormalFormIsFixed(a);
    }
  }

  /** Asking again with the collector's own set changes nothing. */
  lemma ActiveSetStable(symbols: seq<string>, again: seq<string>)
    requires forall a :: a in again <==> a in ActiveSet(symbols)
    ensures ActiveSet(again) == ActiveSet(symbols)
  {
    ActiveSetNormalized(symbols);
    forall a | a in ActiveSet(again)
      ensures a in ActiveSet(symbols)
    {
      if a != DEFAULT_SYMBOL {
        var s :| s in again && a == NormalizeSymbol(s);
      }
    }
  }

  class DataCollector {
    var activeSymbols: set<string>

    /** Only stored-form symbols, and always the default one. */
    predicate Valid()
      reads this
    {
      DEFAULT_SYMBOL in activeSymbols && forall a :: a in activeSymbols ==> NormalForm(a)
    }

    constructor ()
      ensures activeSymbols == {DEFAULT_SYMBOL}
      ensures Valid()
    {
      activeSymbols := {DEFAULT_SYMBOL};
      NormalizeGivesNormalForm([]);
    }

    /** `update_active_symbols`: the set is replaced when it differs from the normalized request. */
    method UpdateActiveSymbols(symbols: seq<string>)
      modifies this
      ensures activeSymbols == ActiveSet(symbols)
      ensures Valid()
    {
      var normalized: set<string> := {};
      var i := 0;
      while i < |symbols|
        invariant 0 <= i <= |symbols|
        invariant normalized == set s | s in symbols[..i] :: NormalizeSymbol(s)
      {
        assert symbols[..i + 1] == symbols[..i] + [symbols[i]];
        normalized := normalized + {NormalizeSymbol(symbols[i])};
        i := i + 1;
      }
      assert symbols[..i] == symbols;
      normalized := normalized + {DEFAULT_SYMBOL};
      if normalized != activeSymbols {
        activeSymbols := normalized;
      }
      ActiveSetNormalized(symbols);
    }
  }
}
