/**
 * The tool list handed to the models: the always-free tools that could be
 * built, then the paid search tools whose flag and key are both set, and
 * the reply formatting of the Exa search tool.
 */
module ToolRegistry {
  import opened Wrappers
  import Text

  datatype Tool = Calculator | Wikipedia | Arxiv | WebSearch | StockData | TavilySearch | ExaSearch

  /**
   * Which optional packages could be imported, whether the constructors of
   * the free tools that take one succeed (`WikipediaQueryRun`,
   * `ArxivQueryRun`, `DuckDuckGoSearchRun`; nothing guards them, so an
   * exception there escapes `get_available_tools`), and whether the
   * constructors of the two paid tools succeed (they raise when their
   * package is missing or the client cannot be created, and the caller
   * drops them).
   */
  datatype Environment = Environment(
    langchainCommunity: bool,
    ddgs: bool,
    yfinance: bool,
    wikipediaBuilds: bool,
    arxivBuilds: bool,
    webSearchBuilds: bool,
    tavilyBuilds: bool,
    exaBuilds: bool,
    vars: map<string, string>)

  /** What calling a free tool factory gives: the tool, `None` for a missing package, or an exception. */
  datatype Factory = Built(tool: Tool) | Missing | Raises(failed: Tool)

  /** A factory whose package is present gives its tool, or raises when the constructor does. */
  function Construct(present: bool, builds: bool, t: Tool): Factory {
    if !present then Missing else if builds then Built(t) else Raises(t)
  }

  /** The five free tool factories in their fixed order. */
  function FreeCandidates(env: Environment): (r: seq<Factory>)
    ensures |r| == 5 && r[0] == Built(Calculator) && r[4] != Raises(StockData)
    ensures forall i :: 0 <= i < 5 && r[i].Raises? ==> !r[i].failed.Calculator? && !r[i].failed.StockData?
  {
    [ Built(Calculator),
      Construct(env.langchainCommunity, env.wikipediaBuilds, Wikipedia),
      Construct(env.langchainCommunity, env.arxivBuilds, Arxiv),
      Construct(env.langchainCommunity && env.ddgs, env.webSearchBuilds, WebSearch),
      if env.yfinance then Built(StockData) else Missing ]
  }

  /** The built tools, in order (`[t for t in tools if t is not None]`). */
  function Present(xs: seq<Factory>): seq<Tool> {
    if xs == [] then []
    else Present(xs[..|xs| - 1]) + (if xs[|xs| - 1].Built? then [xs[|xs| - 1].tool] else [])
  }

  /** The tool of the first factory that raises: the list display stops there. */
  function FirstFailure(xs: seq<Factory>): Option<Tool> {
    if xs == [] then None
    else if FirstFailure(xs[..|xs| - 1]).Some? then FirstFailure(xs[..|xs| - 1])
    else if xs[|xs| - 1].Raises? then Some(xs[|xs| - 1].failed)
    else None
  }

  /** `os.getenv(name, "false").lower() == "true"`. */
  predicate Flag(vars: map<string, string>, name: string) {
    Text.Lower(if name in vars then vars[name] else "false") == "true"
  }

  /** A key that is set and not empty. */
  predicate HasKey(vars: map<string, string>, name: string) {
    name in vars && vars[name] != ""
  }

  predicate TavilyEnabled(env: Environment) {
    Flag(env.vars, "ENABLE_TAVILY") && HasKey(env.vars, "TAVILY_API_KEY") && env.tavilyBuilds
  }

  predicate ExaEnabled(env: Environment) {
    Flag(env.vars, "ENABLE_EXA") && HasKey(env.vars, "EXA_API_KEY") && env.exaBuilds
  }

  /**
   * What `get_available_tools` gives: the exception of the first free tool
   * whose constructor raises, or the tool list.
   */
  function AvailableTools(env: Environment): Result<seq<Tool>, Tool> {
    var candidates := FreeCandidates(env);
    if FirstFailure(candidates).Some? then Err(FirstFailure(candidates).value)
    else
      Ok(Present(candidates)
        + (if TavilyEnabled(env) then [TavilySearch] else [])
        + (if ExaEnabled(env) then [ExaSearch] else []))
  }

  /**
   * `get_available_tools()`: the candidate list, whose first raising factory
   * ends the call, then the missing ones dropped and the paid tools appended.
   */
  method GetAvailableTools(env: Environment) returns (r: Result<seq<Tool>, Tool>)
    ensures r == AvailableTools(env)
  {
    var candidates := FreeCandidates(env);
    var i := 0;
    while i < |candidates|
      invariant 0 <= i <= |candidates|
      invariant FirstFailure(candidates[..i]) == None
    {
      assert candidates[..i + 1][..i] == candidates[..i];
      if candidates[i].Raises? {
        assert FirstFailure(candidates[..i + 1]) == Some(candidates[i].failed);
        FirstFailurePrefix(candidates, i + 1);
        return Err(candidates[i].failed);
      }
      i := i + 1;
    }
    assert candidates[..i] == candidates;
    assert FirstFailure(candidates) == None;
    var tools := [];
    i := 0;
    while i < |candidates|
      invariant 0 <= i <= |candidates|
      invariant tools == Present(candidates[..i])
    {
      assert candidates[..i + 1][..i] == candidates[..i];
      if candidates[i].Built? {
        tools := tools + [candidates[i].tool];
      }
      i := i + 1;
    }
    assert candidates[..i] == candidates;
    if Flag(env.vars, "ENABLE_TAVILY") && HasKey(env.vars, "TAVILY_API_KEY") {
      if env.tavilyBuilds {
        tools := tools + [TavilySearch];
      }
    }
    if Flag(env.vars, "ENABLE_EXA") && HasKey(env.vars, "EXA_API_KEY") {
      if env.exaBuilds {
        tools := tools + [ExaSearch];
      }
    }
    assert AvailableTools(env).Ok?;
    assert tools == Present(candidates) + (if TavilyEnabled(env) then [TavilySearch] else []) + (if ExaEnabled(env) then [ExaSearch] else []);
    assert AvailableTools(env) == Ok(tools);
    return Ok(tools);
  }

  lemma {:induction false} PresentSpec(xs: seq<Factory>, t: Tool)
    ensures t in Present(xs) <==> Built(t) in xs
    ensures |Present(xs)| <= |xs|
  {
    if xs != [] {
      PresentSpec(xs[..|xs| - 1], t);
      assert xs == xs[..|xs| - 1] + [xs[|xs| - 1]];
    }
  }

  lemma {:induction false} FirstFailureSpec(xs: seq<Factory>)
    ensures FirstFailure(xs).None? <==> forall i :: 0 <= i < |xs| ==> !xs[i].Raises?
    ensures FirstFailure(xs).Some? ==> exists i :: 0 <= i < |xs| && xs[i] == Raises(FirstFailure(xs).value) &&
                                           (forall j :: 0 <= j < i ==> !xs[j].Raises?)
  {
    if xs != [] {
      var init := xs[..|xs| - 1];
      FirstFailureSpec(init);
      if FirstFailure(init).Some? {
        var i :| 0 <= i < |init| && init[i] == Raises(FirstFailure(init).value) && forall j :: 0 <= j < i ==> !init[j].Raises?;
        assert xs[i] == init[i];
        assert forall j :: 0 <= j < i ==> xs[j] == init[j];
      } else {
        assert forall j :: 0 <= j < |init| ==> xs[j] == init[j];
      }
    }
  }

  /** Once a prefix has raised, the rest of the list is not looked at. */
  lemma {:induction false} FirstFailurePrefix(xs: seq<Factory>, k: nat)
    requires k <= |xs| && FirstFailure(xs[..k]).Some?
    ensures FirstFailure(xs) == FirstFailure(xs[..k])
    decreases |xs|
  {
    if k < |xs| {
      var init := xs[..|xs| - 1];
      assert init[..k] == xs[..k];
      FirstFailurePrefix(init, k);
    } else {
      assert xs[..k] == xs;
    }
  }

  /**
   * `get_available_tools` raises exactly when langchain_community is there
   * and the Wikipedia or arXiv constructor raises, or ddgs is there too and
   * the web search constructor raises; the first of them in list order is
   * the one that escapes.
   */
  lemma AvailableToolsFailure(env: Environment)
    ensures var lc, web := env.langchainCommunity, env.langchainCommunity && env.ddgs;
      && (AvailableTools(env).Err? <==> (lc && !env.wikipediaBuilds) || (lc && !env.arxivBuilds) || (web && !env.webSearchBuilds))
      && (lc && !env.wikipediaBuilds ==> AvailableTools(env) == Err(Wikipedia))
      && (lc && env.wikipediaBuilds && !env.arxivBuilds ==> AvailableTools(env) == Err(Arxiv))
      && (lc && env.wikipediaBuilds && env.arxivBuilds && web && !env.webSearchBuilds ==> AvailableTools(env) == Err(WebSearch))
  {
    var c := FreeCandidates(env);
    assert c[..1] == [Built(Calculator)] && c[..1][..0] == [];
    assert c[..2][..1] == c[..1] && c[..3][..2] == c[..2] && c[..4][..3] == c[..3] && c[..5][..4] == c[..4] && c[..5] == c;
    assert FirstFailure(c[..1]) == None;
    assert FirstFailure(c[..2]) == if c[1].Raises? then Some(Wikipedia) else None;
    assert FirstFailure(c[..3]) == if c[1].Raises? then Some(Wikipedia) else if c[2].Raises? then Some(Arxiv) else None;
    assert FirstFailure(c[..4]) == if c[1].Raises? then Some(Wikipedia) else if c[2].Raises? then Some(Arxiv)
      else if c[3].Raises? then Some(WebSearch) else None;
  }

  /** The free tools that were built, spelled out. */
  lemma FreeToolsExplicit(env: Environment)
    ensures Present(FreeCandidates(env)) ==
      [Calculator]
        + (if env.langchainCommunity && env.wikipediaBuilds then [Wikipedia] else [])
        + (if env.langchainCommunity && env.arxivBuilds then [Arxiv] else [])
        + (if env.langchainCommunity && env.ddgs && env.webSearchBuilds then [WebSearch] else [])
        + (if env.yfinance then [StockData] else [])
  {
    var c := FreeCandidates(env);
    assert c[..1] == [Built(Calculator)] && c[..1][..0] == [];
    assert Present(c[..1]) == [Calculator];
    assert c[..2][..1] == c[..1] && c[..3][..2] == c[..2] && c[..4][..3] == c[..3] && c[..5][..4] == c[..4] && c[..5] == c;
    var w: seq<Tool> := if env.langchainCommunity && env.wikipediaBuilds then [Wikipedia] else [];
    var a: seq<Tool> := if env.langchainCommunity && env.arxivBuilds then [Arxiv] else [];
    var d: seq<Tool> := if env.langchainCommunity && env.ddgs && env.webSearchBuilds then [WebSearch] else [];
    assert Present(c[..2]) == [Calculator] + w;
    assert Present(c[..3]) == [Calculator] + w + a;
    assert Present(c[..4]) == [Calculator] + w + a + d;
  }

  /** The position of each tool in the fixed order of the list. */
  function Rank(t: Tool): nat {
    match t
    case Calculator => 0 case Wikipedia => 1 case Arxiv => 2 case WebSearch => 3
    case StockData => 4 case TavilySearch => 5 case ExaSearch => 6
  }

  /** The tools appear in increasing fixed order, so none appears twice. */
  predicate InFixedOrder(tools: seq<Tool>) {
    forall i, j :: 0 <= i < j < |tools| ==> Rank(tools[i]) < Rank(tools[j])
  }

  /** Two lists in fixed order, the first below the second, make one list in fixed order. */
  lemma OrderedConcat(a: seq<Tool>, b: seq<Tool>, bound: nat)
    requires InFixedOrder(a) && InFixedOrder(b)
    requires forall x :: x in a ==> Rank(x) < bound
    requires forall y :: y in b ==> bound <= Rank(y)
    ensures InFixedOrder(a + b)
  {
    forall i, j | 0 <= i < j < |a + b| ensures Rank((a + b)[i]) < Rank((a + b)[j]) {
      if j < |a| {
      } else if i >= |a| {
        assert (a + b)[i] == b[i - |a|] && (a + b)[j] == b[j - |a|];
      } else {
        assert (a + b)[i] in a && (a + b)[j] in b;
      }
    }
  }

  /** A tool list made of seven consecutive parts, each present or not. */
  function Parts(wiki: bool, arxiv: bool, web: bool, stock: bool, tavily: bool, exa: bool): seq<Tool> {
    [Calculator]
      + (if wiki then [Wikipedia] else [])
      + (if arxiv then [Arxiv] else [])
      + (if web then [WebSearch] else [])
      + (if stock then [StockData] else [])
      + (if tavily then [TavilySearch] else [])
      + (if exa then [ExaSearch] else [])
  }

  lemma AvailableToolsParts(env: Environment)
    ensures AvailableTools(env).Ok? ==>
      (AvailableTools(env).value ==
         Parts(env.langchainCommunity, env.langchainCommunity, env.langchainCommunity && env.ddgs, env.yfinance,
           TavilyEnabled(env), ExaEnabled(env)))
  {
    FreeToolsExplicit(env);
    AvailableToolsFailure(env);
  }

  lemma PartsMembership(wiki: bool, arxiv: bool, web: bool, stock: bool, tavily: bool, exa: bool)
    ensures var tools := Parts(wiki, arxiv, web, stock, tavily, exa);
      && |tools| >= 1 && tools[0] == Calculator
      && (Wikipedia in tools <==> wiki) && (Arxiv in tools <==> arxiv)
      && (WebSearch in tools <==> web) && (StockData in tools <==> stock)
      && (TavilySearch in tools <==> tavily) && (ExaSearch in tools <==> exa)
  {
  }

  lemma PartsOrder(wiki: bool, arxiv: bool, web: bool, stock: bool, tavily: bool, exa: bool)
    ensures InFixedOrder(Parts(wiki, arxiv, web, stock, tavily, exa))
  {
    var w: seq<Tool> := if wiki then [Wikipedia] else [];
    var a: seq<Tool> := if arxiv then [Arxiv] else [];
    var d: seq<Tool> := if web then [WebSearch] else [];
    var y: seq<Tool> := if stock then [StockData] else [];
    var t: seq<Tool> := if tavily then [TavilySearch] else [];
    var x: seq<Tool> := if exa then [ExaSearch] else [];
    OrderedConcat([Calculator], w, 1);
    OrderedConcat([Calculator] + w, a, 2);
    OrderedConcat([Calculator] + w + a, d, 3);
    OrderedConcat([Calculator] + w + a + d, y, 4);
    OrderedConcat([Calculator] + w + a + d + y, t, 5);
    OrderedConcat([Calculator] + w + a + d + y + t, x, 6);
  }

  /**
   * When no constructor raises, the list holds the calculator first, each
   * free tool exactly when its package is there, and each paid tool exactly
   * when its flag lowercases to "true", its key is non-empty and it could
   * be built.
   */
  lemma AvailableToolsMembership(env: Environment)
    ensures AvailableTools(env).Ok? ==> (
      var tools := AvailableTools(env).value;
      && |tools| >= 1 && tools[0] == Calculator
      && (Wikipedia in tools <==> env.langchainCommunity)
      && (Arxiv in tools <==> env.langchainCommunity)
      && (WebSearch in tools <==> env.langchainCommunity && env.ddgs)
      && (StockData in tools <==> env.yfinance)
      && (TavilySearch in tools <==> TavilyEnabled(env))
      && (ExaSearch in tools <==> ExaEnabled(env)))
  {
    AvailableToolsParts(env);
    PartsMembership(env.langchainCommunity, env.langchainCommunity, env.langchainCommunity && env.ddgs, env.yfinance,
      TavilyEnabled(env), ExaEnabled(env));
  }

  /**
   * The tools come in the fixed order calculator, Wikipedia, arXiv, web
   * search, stock data, Tavily, Exa: no tool appears twice and the paid
   * ones come after every free one.
   */
  lemma AvailableToolsOrder(env: Environment)
    ensures AvailableTools(env).Ok? ==> InFixedOrder(AvailableTools(env).value)
  {
    AvailableToolsParts(env);
    PartsOrder(env.langchainCommunity, env.langchainCommunity, env.langchainCommunity && env.ddgs, env.yfinance,
      TavilyEnabled(env), ExaEnabled(env));
  }

  /** With neither paid flag set, only free tools are offered. */
  lemma NoPaidToolsByDefault(env: Environment)
    requires "ENABLE_TAVILY" !in env.vars && "ENABLE_EXA" !in env.vars
    ensures AvailableTools(env).Ok? ==> TavilySearch !in AvailableTools(env).value && ExaSearch !in AvailableTools(env).value
  {
    AvailableToolsMembership(env);
  }

  // ---------------------------------------------------------------------
  // The reply of the Exa search tool
  // ---------------------------------------------------------------------

  /** One search hit; `text` is absent or empty when no page text came back. */
  datatype SearchHit = SearchHit(title: string, url: string, text: Option<string>)

  /** The displayed form of one hit: bold title, URL line, then the page text if any. */
  function FormatHit(h: SearchHit): string {
    "**" + h.title + "**\n" + "URL: " + h.url + "\n"
      + (if h.text.Some? && h.text.value != "" then h.text.value else "")
  }

  function FormatHits(hits: seq<SearchHit>): (r: seq<string>)
    ensures |r| == |hits|
    ensures forall i :: 0 <= i < |hits| ==> r[i] == FormatHit(hits[i])
  {
    if hits == [] then [] else FormatHits(hits[..|hits| - 1]) + [FormatHit(hits[|hits| - 1])]
  }

  const HitSeparator := "\n\n---\n\n"

  /**
   * `exa_search(query)` once the search call has answered: the formatted
   * hits separated by a rule, "No results found." for no hits, and the
   * error text when the call raised.
   */
  method ExaSearchReply(response: Result<seq<SearchHit>, string>) returns (reply: string)
    ensures response.Err? ==> reply == "Exa search error: " + response.error
    ensures response.Ok? && response.value == [] ==> reply == "No results found."
    ensures response.Ok? && response.value != [] ==> reply == Text.Join(FormatHits(response.value), HitSeparator)
  {
    if response.Err? {
      return "Exa search error: " + response.error;
    }
    var hits := response.value;
    var results: seq<string> := [];
    var i := 0;
    while i < |hits|
      invariant 0 <= i <= |hits|
      invariant results == FormatHits(hits[..i])
    {
      assert hits[..i + 1][..i] == hits[..i];
      var text := "**" + hits[i].title + "**\n";
      text := text + "URL: " + hits[i].url + "\n";
      if hits[i].text.Some? && hits[i].text.value != "" {
        text := text + hits[i].text.value;
      } else {
        assert text + "" == text;
      }
      assert text == FormatHit(hits[i]);
      assert FormatHits(hits[..i + 1]) == FormatHits(hits[..i]) + [FormatHit(hits[i])];
      results := results + [text];
      i := i + 1;
    }
    assert hits[..i] == hits;
    if results == [] {
      return "No results found.";
    }
    reply := Text.Join(results, HitSeparator);
  }

  /** A reply with hits starts with the first hit's bolded title and holds one rule between consecutive hits. */
  lemma {:induction false} JoinStartsWithFirst(pieces: seq<string>, sep: string)
    requires pieces != []
    ensures Text.StartsWith(Text.Join(pieces, sep), pieces[0])
    ensures |Text.Join(pieces, sep)| == Text.TotalLength(pieces) + (|pieces| - 1) * |sep|
  {
    if |pieces| > 1 {
      JoinStartsWithFirst(pieces[1..], sep);
      assert Text.TotalLength(pieces) == |pieces[0]| + Text.TotalLength(pieces[1..]);
      var j := Text.Join(pieces, sep);
      assert j == pieces[0] + sep + Text.Join(pieces[1..], sep);
      assert j[..|pieces[0]|] == pieces[0];
    }
  }

  lemma ExaReplyShape(hits: seq<SearchHit>)
    requires hits != []
    ensures Text.StartsWith(Text.Join(FormatHits(hits), HitSeparator), "**" + hits[0].title + "**\n" + "URL: " + hits[0].url + "\n")
  {
    var f := FormatHits(hits);
    JoinStartsWithFirst(f, HitSeparator);
    var head := "**" + hits[0].title + "**\n" + "URL: " + hits[0].url + "\n";
    assert f[0] == head + (if hits[0].text.Some? && hits[0].text.value != "" then hits[0].text.value else "");
    var j := Text.Join(f, HitSeparator);
    assert j[..|f[0]|] == f[0];
    assert j[..|head|] == f[0][..|head|];
  }
}
