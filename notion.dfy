/**
 * The Notion side of the bot, without the HTTP client: how an agent page is parsed,
 * the agent cache rebuilt from a query and searched by symbol, and how the analysis
 * pages awaiting verification are extracted and filtered. Query answers are inputs.
 */
module Notion {
  import opened Wrappers
  import opened Config

  // ---------------------------------------------------------------- agent pages

  /** A page property, by its `type`; `Other` is any type the parser does not read. */
  datatype Prop =
    | Title(parts: seq<string>)
    | RichText(parts: seq<string>)
    | MultiSelect(names: seq<string>)
    | Checkbox(checked: bool)
    | Other

  /** An agent page: its id and the five properties read (`None` when absent). */
  datatype AgentPage = AgentPage(
    id: string,
    name: Option<Prop>,
    timeframes: Option<Prop>,
    strategy: Option<Prop>,
    symbol: Option<Prop>,
    active: Option<Prop>)

  datatype Agent = Agent(pageId: string, name: string, symbol: string, timeframes: seq<string>,
                         strategy: string, isActive: bool)

  /** `"".join(...)` of the plain-text parts. */
  function Join(parts: seq<string>): (s: string)
    ensures s == [] <==> forall i :: 0 <= i < |parts| ==> parts[i] == []
  {
    if parts == [] then [] else Join(parts[..|parts| - 1]) + parts[|parts| - 1]
  }

  function TimeframesOf(p: Option<Prop>): seq<string>
  {
    if p.Some? && p.value.MultiSelect? then p.value.names else []
  }

  function StrategyOf(p: Option<Prop>): string
  {
    if p.Some? && p.value.RichText? then Join(p.value.parts) else []
  }

  /** The symbol text, from a rich-text or a title property. */
  function SymbolTextOf(p: Option<Prop>): string
  {
    if p.Some? && (p.value.RichText? || p.value.Title?) then Join(p.value.parts) else []
  }

  /**
   * `_parse_agent_page`: `None` when the name is not a title, or when the name, the
   * strategy or the timeframes come out empty. The symbol is normalized, or the default
   * when empty; the agent is active only for a ticked checkbox.
   */
  function ParseAgentPage(page: AgentPage): (r: Option<Agent>)
    ensures !(page.name.Some? && page.name.value.Title?) ==> r.None?
    ensures r.Some? <==> page.name.Some? && page.name.value.Title? && Join(page.name.value.parts) != []
                         && StrategyOf(page.strategy) != [] && TimeframesOf(page.timeframes) != []
    ensures r.Some? ==> r.value.name == Join(page.name.value.parts) && r.value.pageId == page.id
    ensures r.Some? ==> r.value.symbol == NormalizeSymbol(SymbolTextOf(page.symbol))
    ensures r.Some? ==> (r.value.isActive <==> page.active == Some(Checkbox(true)))
  {
    if !(page.name.Some? && page.name.value.Title?) then None
    else
      var name := Join(page.name.value.parts);
      var timeframes := TimeframesOf(page.timeframes);
      var strategy := StrategyOf(page.strategy);
      var text := SymbolTextOf(page.symbol);
      var symbol := if text != [] then NormalizeSymbol(text) else DEFAULT_SYMBOL;
      var active := if page.active.Some? && page.active.value.Checkbox? then page.active.value.checked else false;
      if name == [] || strategy == [] || timeframes == [] then None
      else Some(Agent(page.id, name, symbol, timeframes, strategy, active))
  }

  /** Every parsed agent carries a symbol in the stored form. */
  lemma ParsedSymbolNormalized(page: AgentPage)
    requires ParseAgentPage(page).Some?
    ensures NormalForm(ParseAgentPage(page).value.symbol)
  {
    NormalizeGivesNormalForm(SymbolTextOf(page.symbol));
  }

  // ---------------------------------------------------------------- the cache

  /** The agents cache, a dictionary keyed by name, as its values in insertion order. */
  predicate UniqueNames(cache: seq<Agent>)
  {
    forall i, j :: 0 <= i < j < |cache| ==> cache[i].name != cache[j].name
  }

  /** `cache[a.name] = a`: an existing entry is replaced in place, a new one appended. */
  function Put(cache: seq<Agent>, a: Agent): (r: seq<Agent>)
    ensures a in r
    ensures forall x :: x in r ==> x == a || x in cache
    ensures forall x :: x in cache && x.name != a.name ==> x in r
    ensures UniqueNames(cache) ==> UniqueNames(r) && forall x :: x in r && x != a ==> x.name != a.name
  {
    if cache == [] then [a]
    else if cache[0].name == a.name then
      ReplaceHead(cache, a);
      [a] + cache[1..]
    else
      var rest := Put(cache[1..], a);
      KeepHead(cache, a, rest);
      [cache[0]] + rest
  }

  /** What `Put` promises of `r`, as one predicate for its two cases. */
  predicate PutOutcome(cache: seq<Agent>, a: Agent, r: seq<Agent>)
  {
    a in r
    && (forall x :: x in r ==> x == a || x in cache)
    && (forall x :: x in cache && x.name != a.name ==> x in r)
    && (UniqueNames(cache) ==> UniqueNames(r) && forall x :: x in r && x != a ==> x.name != a.name)
  }

  lemma ReplaceHead(cache: seq<Agent>, a: Agent)
    requires cache != [] && cache[0].name == a.name
    ensures PutOutcome(cache, a, [a] + cache[1..])
  {
    if UniqueNames(cache) {
      forall k | 0 <= k < |cache[1..]|
        ensures cache[1..][k].name != a.name
      {
        assert cache[1..][k] == cache[k + 1];
      }
    }
  }

  lemma KeepHead(cache: seq<Agent>, a: Agent, rest: seq<Agent>)
    requires cache != [] && cache[0].name != a.name
    requires PutOutcome(cache[1..], a, rest)
    ensures PutOutcome(cache, a, [cache[0]] + rest)
  {
    assert forall x :: x in cache[1..] ==> x in cache;
  }

  /** Each page of a query parsed, in order. */
  function ParseAll(pages: seq<AgentPage>): (parsed: seq<Option<Agent>>)
    ensures |parsed| == |pages|
    ensures forall i :: 0 <= i < |pages| ==> parsed[i] == ParseAgentPage(pages[i])
  {
    seq(|pages|, i requires 0 <= i < |pages| => ParseAgentPage(pages[i]))
  }

  /** The cache built by putting each parsed agent in turn, skipping the pages that did not parse. */
  function CacheFrom(parsed: seq<Option<Agent>>): (cache: seq<Agent>)
    ensures UniqueNames(cache)
    ensures forall a :: a in cache ==> Some(a) in parsed
  {
    if parsed == [] then []
    else
      var prev := CacheFrom(parsed[..|parsed| - 1]);
      var last := parsed[|parsed| - 1];
      assert forall x :: x in parsed[..|parsed| - 1] ==> x in parsed;
      if last.Some? then Put(prev, last.value) else prev
  }

  /** The cache `load_all_agents` builds from the pages of a successful query. */
  function CacheOf(pages: seq<AgentPage>): (cache: seq<Agent>)
    ensures UniqueNames(cache)
    ensures forall a :: a in cache ==> exists i :: 0 <= i < |pages| && ParseAgentPage(pages[i]) == Some(a)
  {
    var parsed := ParseAll(pages);
    var cache := CacheFrom(parsed);
    assert forall a :: a in cache ==> exists i :: 0 <= i < |parsed| && parsed[i] == Some(a);
    cache
  }

  /** Every agent that parsed is cached, unless a later agent of the same name replaced it. */
  lemma {:induction false} LastOfANameWins(parsed: seq<Option<Agent>>, i: nat)
    requires i < |parsed| && parsed[i].Some?
    requires forall j :: i < j < |parsed| && parsed[j].Some? ==> parsed[j].value.name != parsed[i].value.name
    ensures parsed[i].value in CacheFrom(parsed)
  {
    var n := |parsed| - 1;
    var prefix := parsed[..n];
    if i < n {
      assert prefix[i] == parsed[i];
      forall j | i < j < |prefix| && prefix[j].Some?
        ensures prefix[j].value.name != prefix[i].value.name
      {
        assert prefix[j] == parsed[j];
      }
      LastOfANameWins(prefix, i);
    }
  }

  /** The same, stated on the pages of the query. */
  lemma LastPageOfANameWins(pages: seq<AgentPage>, i: nat)
    requires i < |pages| && ParseAgentPage(pages[i]).Some?
    requires forall j :: i < j < |pages| && ParseAgentPage(pages[j]).Some? ==>
               ParseAgentPage(pages[j]).value.name != ParseAgentPage(pages[i]).value.name
    ensures ParseAgentPage(pages[i]).value in CacheOf(pages)
  {
    LastOfANameWins(ParseAll(pages), i);
  }

  /** `[agent for agent in cache.values() if agent['symbol'] == symbol]` */
  function WithSymbol(cache: seq<Agent>, symbol: string): (r: seq<Agent>)
    ensures |r| <= |cache|
    ensures forall a :: a in r <==> a in cache && a.symbol == symbol
  {
    if cache == [] then []
    else
      var prev := WithSymbol(cache[..|cache| - 1], symbol);
      var last := cache[|cache| - 1];
      assert cache == cache[..|cache| - 1] + [last];
      if last.symbol == symbol then prev + [last] else prev
  }

  /** The lookup keeps the cache's order and multiplicity: it distributes over concatenation. */
  lemma {:induction false} WithSymbolConcat(a: seq<Agent>, b: seq<Agent>, symbol: string)
    ensures WithSymbol(a + b, symbol) == WithSymbol(a, symbol) + WithSymbol(b, symbol)
  {
    if b == [] {
      assert a + b == a;
    } else {
      var init := b[..|b| - 1];
      assert (a + b)[..|a + b| - 1] == a + init;
      assert (a + b)[|a + b| - 1] == b[|b| - 1];
      WithSymbolConcat(a, init, symbol);
    }
  }

  function Symbols(cache: seq<Agent>): set<string>
  {
    set a | a in cache :: a.symbol
  }

  /** A symbol is listed by `get_all_symbols` exactly when looking it up finds an agent. */
  lemma SymbolsMatchLookup(cache: seq<Agent>, symbol: string)
    ensures symbol in Symbols(cache) <==> WithSymbol(cache, symbol) != []
  {
    var found := WithSymbol(cache, symbol);
    if symbol in Symbols(cache) {
      var a :| a in cache && a.symbol == symbol;
      assert a in found;
    }
  }

  /** Looking up a stored-form symbol is looking up the symbol itself. */
  lemma LookupOfStoredForm(cache: seq<Agent>, symbol: string)
    requires NormalForm(symbol)
    ensures WithSymbol(cache, NormalizeSymbol(symbol)) == WithSymbol(cache, symbol)
  {
    NormalFormIsFixed(symbol);
  }

  class NotionConfigManager {
    /** Whether the API key and the agents database id are set. */
    const available: bool
    var agentsCache: seq<Agent>

    /** Every cached agent is keyed by a unique name and carries a stored-form symbol. */
    predicate Valid()
      reads this
    {
      UniqueNames(agentsCache) && forall a :: a in agentsCache ==> NormalForm(a.symbol)
    }

    constructor (isAvailable: bool)
      ensures available == isAvailable && agentsCache == []
      ensures Valid()
    {
      available := isAvailable;
      agentsCache := [];
    }

    /**
     * `load_all_agents` with the query's pages as `pages` (`None` when the query
     * fails): the cache is emptied only once the query succeeded, then refilled.
     */
    method LoadAllAgents(pages: Option<seq<AgentPage>>) returns (ok: bool)
      modifies this
      ensures ok <==> available && pages.Some?
      ensures ok ==> agentsCache == CacheOf(pages.value)
      ensures !ok ==> agentsCache == old(agentsCache)
      ensures old(Valid()) ==> Valid()
    {
      if !available || pages.None? {
        return false;
      }
      var ps := pages.value;
      agentsCache := [];
      var i := 0;
      while i < |ps|
        invariant 0 <= i <= |ps|
        invariant agentsCache == CacheFrom(ParseAll(ps)[..i])
      {
        assert ParseAll(ps)[..i + 1][..i] == ParseAll(ps)[..i];
        var agent := ParseAgentPage(ps[i]);
        if agent.Some? {
          agentsCache := Put(agentsCache, agent.value);
        }
        i := i + 1;
      }
      assert ParseAll(ps)[..i] == ParseAll(ps);
      forall a | a in agentsCache
        ensures NormalForm(a.symbol)
      {
        var k :| 0 <= k < |ps| && ParseAgentPage(ps[k]) == Some(a);
        ParsedSymbolNormalized(ps[k]);
      }
      ok := true;
    }

    /** `get_agents_by_symbol`: the cached agents for the normalized symbol, in cache order. */
    method GetAgentsBySymbol(symbol: string) returns (agents: seq<Agent>)
      ensures agents == WithSymbol(agentsCache, NormalizeSymbol(symbol))
    {
      var sym := NormalizeSymbol(symbol);
      agents := [];
      var i := 0;
      while i < |agentsCache|
        invariant 0 <= i <= |agentsCache|
        invariant agents == WithSymbol(agentsCache[..i], sym)
      {
        assert agentsCache[..i + 1][..i] == agentsCache[..i];
        if agentsCache[i].symbol == sym {
          agents := agents + [agentsCache[i]];
        }
        i := i + 1;
      }
      assert agentsCache[..i] == agentsCache;
    }

    /** `get_all_symbols`: each cached symbol once. */
    method GetAllSymbols() returns (symbols: set<string>)
      ensures symbols == Symbols(agentsCache)
    {
      symbols := {};
      var i := 0;
      while i < |agentsCache|
        invariant 0 <= i <= |agentsCache|
        invariant symbols == Symbols(agentsCache[..i])
      {
        assert agentsCache[..i + 1] == agentsCache[..i] + [agentsCache[i]];
        symbols := symbols + {agentsCache[i].symbol};
        i := i + 1;
      }
      assert agentsCache[..i] == agentsCache;
    }
  }

  // ---------------------------------------------------------------- pending verifications

  /** A rich-text property's items: the `text.content` of each, `None` where absent. */
  function RichTextSpec(items: Option<seq<Option<string>>>): (r: Option<string>)
    ensures r.Some? ==> r.value != []
    ensures r.None? <==> items.None? || forall i :: 0 <= i < |items.value| ==> items.value[i].None? || items.value[i].value == []
  {
    if items.None? then None
    else
      var parts := Contents(items.value);
      if parts == [] then None
      else
        assert parts[|parts| - 1] in parts;
        Some(Join(parts))
  }

  /** The non-empty contents, in order. */
  function Contents(items: seq<Option<string>>): (parts: seq<string>)
    ensures forall i :: 0 <= i < |parts| ==> parts[i] != []
    ensures parts == [] <==> forall i :: 0 <= i < |items| ==> items[i].None? || items[i].value == []
  {
    if items == [] then []
    else
      var prev := Contents(items[..|items| - 1]);
      var last := items[|items| - 1];
      assert forall i :: 0 <= i < |items| - 1 ==> items[..|items| - 1][i] == items[i];
      if last.Some? && last.value != [] then prev + [last.value] else prev
  }

  /** `_extract_rich_text`: the non-empty contents joined, `None` when there are none. */
  method ExtractRichText(items: Option<seq<Option<string>>>) returns (r: Option<string>)
    ensures r == RichTextSpec(items)
  {
    if items.None? || items.value == [] {
      return None;
    }
    var xs := items.value;
    var parts: seq<string> := [];
    var i := 0;
    while i < |xs|
      invariant 0 <= i <= |xs|
      invariant parts == Contents(xs[..i])
    {
      assert xs[..i + 1][..i] == xs[..i];
      if xs[i].Some? && xs[i].value != [] {
        parts := parts + [xs[i].value];
      }
      i := i + 1;
    }
    assert xs[..i] == xs;
    if parts == [] {
      return None;
    }
    r := Some(Join(parts));
  }

  /** An analysis page as `get_pending_verifications` extracts it. */
  datatype Analysis = Analysis(
    pageId: string,
    recommendation: Option<string>,
    original: Option<real>,
    target: Option<real>,
    stop: Option<real>,
    symbol: string)

  /** The completeness filter: every field present and truthy (non-empty, non-zero). */
  predicate Complete(a: Analysis)
  {
    a.recommendation.Some? && a.recommendation.value != []
    && a.original.Some? && a.original.value != 0.0
    && a.target.Some? && a.target.value != 0.0
    && a.stop.Some? && a.stop.value != 0.0
  }

  /** The extracted pages the filter keeps, in order. */
  function Pending(pages: seq<Analysis>): (r: seq<Analysis>)
    ensures |r| <= |pages|
    ensures forall a :: a in r <==> a in pages && Complete(a)
  {
    if pages == [] then []
    else
      var prev := Pending(pages[..|pages| - 1]);
      var last := pages[|pages| - 1];
      assert pages == pages[..|pages| - 1] + [last];
      if Complete(last) then prev + [last] else prev
  }

  /** The filter keeps the pages' order and multiplicity: it distributes over concatenation. */
  lemma {:induction false} PendingConcat(a: seq<Analysis>, b: seq<Analysis>)
    ensures Pending(a + b) == Pending(a) + Pending(b)
  {
    if b == [] {
      assert a + b == a;
    } else {
      var init := b[..|b| - 1];
      assert (a + b)[..|a + b| - 1] == a + init;
      assert (a + b)[|a + b| - 1] == b[|b| - 1];
      PendingConcat(a, init);
    }
  }

  /** `get_pending_verifications` with the query's extracted pages (`None` when it fails). */
  method GetPendingVerifications(available: bool, pages: Option<seq<Analysis>>) returns (pending: seq<Analysis>)
    ensures !available || pages.None? ==> pending == []
    ensures available && pages.Some? ==> pending == Pending(pages.value)
  {
    if !available || pages.None? {
      return [];
    }
    var ps := pages.value;
    pending := [];
    var i := 0;
    while i < |ps|
      invariant 0 <= i <= |ps|
      invariant pending == Pending(ps[..i])
    {
      assert ps[..i + 1][..i] == ps[..i];
      if Complete(ps[i]) {
        pending := pending + [ps[i]];
      }
      i := i + 1;
    }
    assert ps[..i] == ps;
  }
}
