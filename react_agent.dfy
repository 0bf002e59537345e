/**
 * The deterministic parts of GeminiAgent, the ReAct (reason and act) loop
 * that researches the text found in an image: reading an
 * `Action: tool(query)` line out of a reply, running the tool, formatting
 * its results, and the bounded conversation loop.
 *
 * The language model and the SerpAPI searches are calls into other
 * services: the model is an oracle from (iteration, prompt) to a reply or
 * an exception, and each search is an oracle from (query, number of
 * results) to the result rows. The search service catches its own errors
 * and answers [] then, so the search oracles are total.
 */
module ReactAgent {
  import opened Wrappers
  import opened Text

  // ------------------------------------------------------------------
  // _parse_action: re.search(r'Action:\s*(\w+)\((.*?)\)', text)

  datatype Action = Action(tool: string, query: string)

  /** The regex class \w, for ASCII text. */
  predicate IsWordChar(c: char) {
    ('a' <= c <= 'z') || ('A' <= c <= 'Z') || ('0' <= c <= '9') || c == '_'
  }

  /** The regex '.': any character but a newline; here also not ')', where the lazy group stops. */
  predicate InGroup(c: char) {
    c != ')' && c != '\n'
  }

  /** The quote characters strip('"\'') removes. */
  predicate IsQuote(c: char) {
    c == '"' || c == '\''
  }

  /** The end of the longest run of characters satisfying keep that starts at i. */
  function SkipWhile(s: string, i: nat, keep: char -> bool): (r: nat)
    requires i <= |s|
    ensures i <= r <= |s|
    ensures forall k :: i <= k < r ==> keep(s[k])
    ensures r < |s| ==> !keep(s[r])
    decreases |s| - i
  {
    if i < |s| && keep(s[i]) then SkipWhile(s, i + 1, keep) else i
  }

  const Marker := "Action:"

  /** The groups of a match at p, as the match attempt there reports them. */
  function Groups(text: string, i: nat, j: nat, k: nat): Action
    requires i <= j < k <= |text|
  {
    Action(text[i..j], Strip(text[j + 1..k], IsQuote))
  }

  /**
   * The match attempt at position p. \s* and \w+ give nothing back on
   * backtracking (a space is not a word character and '(' is neither), and
   * the lazy group ends at the first ')', unless a newline comes first.
   */
  function ParseAt(text: string, p: nat): Option<Action> {
    if !OccursAt(text, Marker, p) then None
    else ParseCall(text, SkipWhile(text, p + |Marker|, IsSpace))
  }

  /** After the whitespace: the tool name and the opening parenthesis. */
  function ParseCall(text: string, i: nat): Option<Action>
    requires i <= |text|
  {
    var j := SkipWhile(text, i, IsWordChar);
    if j == i || j == |text| || text[j] != '(' then None else ParseGroup(text, i, j)
  }

  /** After "(": the lazy group up to the first ')'. */
  function ParseGroup(text: string, i: nat, j: nat): Option<Action>
    requires i < j < |text|
  {
    var k := SkipWhile(text, j + 1, InGroup);
    if k == |text| || text[k] != ')' then None else Some(Groups(text, i, j, k))
  }

  /** re.search: the match attempts from position p on, leftmost first. */
  function ParseFrom(text: string, p: nat): Option<Action>
    requires p <= |text|
    decreases |text| - p
  {
    if ParseAt(text, p).Some? then ParseAt(text, p)
    else if p == |text| then None
    else ParseFrom(text, p + 1)
  }

  function ParseAction(text: string): Option<Action> {
    ParseFrom(text, 0)
  }

  /**
   * The regex matches at p with the tool text[i..j] and the raw group
   * text[j+1..k]: "Action:", whitespace, a non-empty run of word characters,
   * "(", characters none of which is ')' or a newline, ")".
   */
  predicate MatchesAt(text: string, p: nat, i: nat, j: nat, k: nat) {
    && OccursAt(text, Marker, p)
    && p + |Marker| <= i < j < k < |text|
    && (forall c :: p + |Marker| <= c < i ==> IsSpace(text[c]))
    && (forall c :: i <= c < j ==> IsWordChar(text[c]))
    && text[j] == '('
    && (forall c :: j < c < k ==> InGroup(text[c]))
    && text[k] == ')'
  }

  /** A successful match attempt at p is a match of the pattern there. */
  lemma ParseAtSound(text: string, p: nat)
    requires ParseAt(text, p).Some?
    ensures exists i: nat, j: nat, k: nat :: MatchesAt(text, p, i, j, k) && ParseAt(text, p).value == Groups(text, i, j, k)
  {
    var i := SkipWhile(text, p + |Marker|, IsSpace);
    CallSome(text, i);
    var j := SkipWhile(text, i, IsWordChar);
    GroupSome(text, i, j);
    var k := SkipWhile(text, j + 1, InGroup);
    MatchFromRuns(text, p, i, j, k);
  }

  lemma MatchFromRuns(text: string, p: nat, i: nat, j: nat, k: nat)
    requires OccursAt(text, Marker, p)
    requires i == SkipWhile(text, p + |Marker|, IsSpace)
    requires i < j < |text| && j == SkipWhile(text, i, IsWordChar) && text[j] == '('
    requires k < |text| && k == SkipWhile(text, j + 1, InGroup) && text[k] == ')'
    ensures MatchesAt(text, p, i, j, k)
  {
  }

  lemma CallSome(text: string, i: nat)
    requires i <= |text| && ParseCall(text, i).Some?
    ensures var j := SkipWhile(text, i, IsWordChar);
      i < j < |text| && text[j] == '(' && ParseCall(text, i) == ParseGroup(text, i, j)
  {
  }

  lemma GroupSome(text: string, i: nat, j: nat)
    requires i < j < |text| && ParseGroup(text, i, j).Some?
    ensures var k := SkipWhile(text, j + 1, InGroup);
      k < |text| && text[k] == ')' && ParseGroup(text, i, j) == Some(Groups(text, i, j, k))
  {
  }

  /** Wherever the pattern matches, the match attempt succeeds with its groups. */
  lemma ParseAtComplete(text: string, p: nat, i: nat, j: nat, k: nat)
    requires MatchesAt(text, p, i, j, k)
    ensures ParseAt(text, p) == Some(Groups(text, i, j, k))
  {
    MatchIsUnique(text, p, i, j, k);
    GroupAt(text, i, j, k);
    CallAt(text, i, j);
  }

  lemma GroupAt(text: string, i: nat, j: nat, k: nat)
    requires i < j < k < |text| && k == SkipWhile(text, j + 1, InGroup) && text[k] == ')'
    ensures ParseGroup(text, i, j) == Some(Groups(text, i, j, k))
  {
  }

  lemma CallAt(text: string, i: nat, j: nat)
    requires i < j < |text| && j == SkipWhile(text, i, IsWordChar) && text[j] == '('
    ensures ParseCall(text, i) == ParseGroup(text, i, j)
  {
  }

  /** A run that ends where keep first fails is the one SkipWhile finds. */
  lemma {:induction false} SkipWhileUnique(s: string, i: nat, keep: char -> bool, r: nat)
    requires i <= r <= |s|
    requires forall k :: i <= k < r ==> keep(s[k])
    requires r < |s| ==> !keep(s[r])
    ensures SkipWhile(s, i, keep) == r
    decreases r - i
  {
    if i < r {
      SkipWhileUnique(s, i + 1, keep, r);
    }
  }

  /** A match fixes its groups: the ones the attempt at p computes. */
  lemma MatchIsUnique(text: string, p: nat, i: nat, j: nat, k: nat)
    requires MatchesAt(text, p, i, j, k)
    ensures i == SkipWhile(text, p + |Marker|, IsSpace)
    ensures j == SkipWhile(text, i, IsWordChar)
    ensures k == SkipWhile(text, j + 1, InGroup)
  {
    SkipWhileUnique(text, p + |Marker|, IsSpace, i);
    SkipWhileUnique(text, i, IsWordChar, j);
    SkipWhileUnique(text, j + 1, InGroup, k);
  }

  /** No match attempt succeeds from p on. */
  predicate NoMatchFrom(text: string, p: nat) {
    forall q :: p <= q <= |text| ==> ParseAt(text, q).None?
  }

  /** The attempt at p succeeds with a and every attempt before p fails. */
  predicate LeftmostAt(text: string, p: nat, from: nat, a: Action) {
    from <= p <= |text| && ParseAt(text, p) == Some(a)
    && forall q :: from <= q < p ==> ParseAt(text, q).None?
  }

  lemma {:induction false} ParseFromLeftmost(text: string, p: nat)
    requires p <= |text|
    ensures ParseFrom(text, p).None? <==> NoMatchFrom(text, p)
    ensures ParseFrom(text, p).Some? ==> exists q :: LeftmostAt(text, q, p, ParseFrom(text, p).value)
    decreases |text| - p
  {
    if ParseAt(text, p).Some? {
      assert LeftmostAt(text, p, p, ParseFrom(text, p).value);
    } else if p < |text| {
      ParseFromLeftmost(text, p + 1);
      if ParseFrom(text, p).Some? {
        var q :| LeftmostAt(text, q, p + 1, ParseFrom(text, p).value);
        assert LeftmostAt(text, q, p, ParseFrom(text, p).value);
      }
    }
  }

  /**
   * _parse_action returns None exactly when no position matches, and
   * otherwise the groups of the leftmost match.
   */
  lemma ParseActionLeftmost(text: string)
    ensures ParseAction(text).None? <==> NoMatchFrom(text, 0)
    ensures ParseAction(text).Some? ==> exists p :: LeftmostAt(text, p, 0, ParseAction(text).value)
  {
    ParseFromLeftmost(text, 0);
  }

  /** A reply without "Action:" has no action. */
  lemma NoMarkerNoAction(text: string)
    requires !Contains(text, Marker)
    ensures ParseAction(text) == None
  {
    ContainsIff(text, Marker);
    ParseActionLeftmost(text);
  }

  /** The tool is a non-empty run of word characters; the query holds no ')' and no newline. */
  predicate WellShaped(a: Action) {
    && a.tool != []
    && (forall c :: c in a.tool ==> IsWordChar(c))
    && QueryShaped(a.query)
  }

  /** A query as strip leaves it: no ')' or newline, no quote at either end. */
  predicate QueryShaped(q: string) {
    && ')' !in q && '\n' !in q
    && (q != [] ==> !IsQuote(q[0]) && !IsQuote(q[|q| - 1]))
  }

  lemma QueryShape(raw: string)
    requires forall x :: x in raw ==> InGroup(x)
    ensures QueryShaped(Strip(raw, IsQuote))
  {
    StripShape(raw, IsQuote);
  }

  lemma GroupsShape(text: string, i: nat, j: nat, k: nat)
    requires i < j < k <= |text|
    requires forall c :: i <= c < j ==> IsWordChar(text[c])
    requires forall c :: j < c < k ==> InGroup(text[c])
    ensures WellShaped(Groups(text, i, j, k))
  {
    AllInSlice(text, i, j, IsWordChar);
    AllInSlice(text, j + 1, k, InGroup);
    QueryShape(text[j + 1..k]);
  }

  /** What holds at every index of a range holds for every character of the slice. */
  lemma AllInSlice(s: string, lo: nat, hi: nat, P: char -> bool)
    requires lo <= hi <= |s| && forall c :: lo <= c < hi ==> P(s[c])
    ensures forall x :: x in s[lo..hi] ==> P(x)
  {
    forall x | x in s[lo..hi] ensures P(x) {
      var n :| 0 <= n < hi - lo && s[lo..hi][n] == x;
      assert s[lo + n] == x;
    }
  }

  lemma ParsedActionShape(text: string)
    requires ParseAction(text).Some?
    ensures WellShaped(ParseAction(text).value)
  {
    ParseActionLeftmost(text);
    var a := ParseAction(text).value;
    var p :| LeftmostAt(text, p, 0, a);
    ParseAtSound(text, p);
    var i: nat, j: nat, k: nat :| MatchesAt(text, p, i, j, k) && a == Groups(text, i, j, k);
    GroupsShape(text, i, j, k);
  }

  // ------------------------------------------------------------------
  // The result formatters

  datatype SearchResult = SearchResult(title: string, snippet: string, link: string)
  datatype NewsResult = NewsResult(title: string, snippet: string, source: string, date: string, link: string)

  /** The lines of one numbered block, as the formatters append them. */
  function TitleLine(n: nat, title: string): string {
    NatToString(n) + ". " + title + "\n"
  }

  function SnippetLine(snippet: string): string {
    "   " + snippet + "\n"
  }

  function SourceLine(source: string, date: string): string {
    "   Source: " + source + " | Date: " + date + "\n"
  }

  function UrlLine(link: string): string {
    "   URL: " + link + "\n\n"
  }

  function SearchBlock(n: nat, r: SearchResult): string {
    TitleLine(n, r.title) + SnippetLine(r.snippet) + UrlLine(r.link)
  }

  function NewsBlock(n: nat, r: NewsResult): string {
    TitleLine(n, r.title) + SnippetLine(r.snippet) + SourceLine(r.source, r.date) + UrlLine(r.link)
  }

  /** The blocks of all results, numbered from 1 in input order. */
  function SearchBlocks(rs: seq<SearchResult>): string
    decreases |rs|
  {
    if rs == [] then "" else SearchBlocks(rs[..|rs| - 1]) + SearchBlock(|rs|, rs[|rs| - 1])
  }

  function NewsBlocks(rs: seq<NewsResult>): string
    decreases |rs|
  {
    if rs == [] then "" else NewsBlocks(rs[..|rs| - 1]) + NewsBlock(|rs|, rs[|rs| - 1])
  }

  function FormatSearch(rs: seq<SearchResult>): string {
    if rs == [] then "No search results found." else "Search Results:\n" + SearchBlocks(rs)
  }

  function FormatNews(rs: seq<NewsResult>): string {
    if rs == [] then "No news results found." else "News Results:\n" + NewsBlocks(rs)
  }

  method FormatSearchResults(results: seq<SearchResult>) returns (formatted: string)
    ensures formatted == FormatSearch(results)
  {
    if results == [] {
      return "No search results found.";
    }
    formatted := "Search Results:\n";
    for i := 0 to |results|
      invariant formatted == "Search Results:\n" + SearchBlocks(results[..i])
    {
      formatted := AppendSearchBlock(formatted, i + 1, results[i]);
      Assoc("Search Results:\n", SearchBlocks(results[..i]), SearchBlock(i + 1, results[i]));
      assert results[..i + 1][..i] == results[..i];
    }
    assert results[..|results|] == results;
  }

  /** The appends for one search result. */
  method AppendSearchBlock(formatted: string, n: nat, result: SearchResult) returns (r: string)
    ensures r == formatted + SearchBlock(n, result)
  {
    r := formatted + TitleLine(n, result.title);
    r := r + SnippetLine(result.snippet);
    r := r + UrlLine(result.link);
    Regroup3(formatted, TitleLine(n, result.title), SnippetLine(result.snippet), UrlLine(result.link));
  }

  method FormatNewsResults(results: seq<NewsResult>) returns (formatted: string)
    ensures formatted == FormatNews(results)
  {
    if results == [] {
      return "No news results found.";
    }
    formatted := "News Results:\n";
    for i := 0 to |results|
      invariant formatted == "News Results:\n" + NewsBlocks(results[..i])
    {
      formatted := AppendNewsBlock(formatted, i + 1, results[i]);
      Assoc("News Results:\n", NewsBlocks(results[..i]), NewsBlock(i + 1, results[i]));
      assert results[..i + 1][..i] == results[..i];
    }
    assert results[..|results|] == results;
  }

  /** The appends for one news result. */
  method AppendNewsBlock(formatted: string, n: nat, result: NewsResult) returns (r: string)
    ensures r == formatted + NewsBlock(n, result)
  {
    r := formatted + TitleLine(n, result.title);
    r := r + SnippetLine(result.snippet);
    r := r + SourceLine(result.source, result.date);
    r := r + UrlLine(result.link);
    Regroup(formatted, TitleLine(n, result.title), SnippetLine(result.snippet),
            SourceLine(result.source, result.date), UrlLine(result.link));
  }

  lemma Assoc(a: string, b: string, c: string)
    ensures a + b + c == a + (b + c)
  {
  }

  /** Appending a block line by line is appending the block. */
  lemma Regroup(before: string, a: string, b: string, c: string, d: string)
    ensures before + a + b + c + d == before + (a + b + c + d)
  {
  }

  lemma Regroup3(before: string, a: string, b: string, c: string)
    ensures before + a + b + c == before + (a + b + c)
  {
  }

  /** The fixed "nothing found" text comes back exactly for an empty result list. */
  lemma NoSearchResultsIff(rs: seq<SearchResult>)
    ensures FormatSearch(rs) == "No search results found." <==> rs == []
  {
    if rs != [] {
      assert FormatSearch(rs)[0] == 'S';
    }
  }

  lemma NoNewsResultsIff(rs: seq<NewsResult>)
    ensures FormatNews(rs) == "No news results found." <==> rs == []
  {
    if rs != [] {
      assert FormatNews(rs)[1] == 'e';
    }
  }

  /** One more result adds one block at the end, numbered with the new count. */
  lemma SearchAppend(rs: seq<SearchResult>, r: SearchResult)
    requires rs != []
    ensures FormatSearch(rs + [r]) == FormatSearch(rs) + SearchBlock(|rs| + 1, r)
  {
    var rs' := rs + [r];
    assert rs'[..|rs|] == rs;
    assert SearchBlocks(rs') == SearchBlocks(rs) + SearchBlock(|rs| + 1, r);
    Assoc("Search Results:\n", SearchBlocks(rs), SearchBlock(|rs| + 1, r));
  }

  lemma NewsAppend(rs: seq<NewsResult>, r: NewsResult)
    requires rs != []
    ensures FormatNews(rs + [r]) == FormatNews(rs) + NewsBlock(|rs| + 1, r)
  {
    var rs' := rs + [r];
    assert rs'[..|rs|] == rs;
    assert NewsBlocks(rs') == NewsBlocks(rs) + NewsBlock(|rs| + 1, r);
    Assoc("News Results:\n", NewsBlocks(rs), NewsBlock(|rs| + 1, r));
  }

  /** A single result is block 1 under the header. */
  lemma SearchSingle(r: SearchResult)
    ensures FormatSearch([r]) == "Search Results:\n" + SearchBlock(1, r)
  {
    assert [r][..0] == [];
    assert SearchBlocks([r]) == SearchBlocks([]) + SearchBlock(1, r);
    assert SearchBlocks([r]) == SearchBlock(1, r);
  }

  lemma NewsSingle(r: NewsResult)
    ensures FormatNews([r]) == "News Results:\n" + NewsBlock(1, r)
  {
    assert [r][..0] == [];
    assert NewsBlocks([r]) == NewsBlocks([]) + NewsBlock(1, r);
    assert NewsBlocks([r]) == NewsBlock(1, r);
  }

  /** Every block opens with its 1-based number, and the number reads back as the position. */
  lemma BlockNumber(n: nat, r: SearchResult, t: NewsResult)
    ensures IsPrefix(NatToString(n) + ". ", SearchBlock(n, r))
    ensures IsPrefix(NatToString(n) + ". ", NewsBlock(n, t))
    ensures DigitsValue(NatToString(n)) == n
  {
    NatToStringRoundTrip(n);
  }

  // ------------------------------------------------------------------
  // _execute_action

  datatype Tools = Tools(
    search: (string, nat) -> seq<SearchResult>,
    searchNews: (string, nat) -> seq<NewsResult>)

  const ResultsPerSearch := 3

  function ExecuteAction(a: Action, tools: Tools): string {
    if a.tool == "search" then FormatSearch(tools.search(a.query, ResultsPerSearch))
    else if a.tool == "search_news" then FormatNews(tools.searchNews(a.query, ResultsPerSearch))
    else "Unknown tool: " + a.tool
  }

  method Execute(a: Action, tools: Tools) returns (observation: string)
    ensures observation == ExecuteAction(a, tools)
  {
    if a.tool == "search" {
      var results := tools.search(a.query, ResultsPerSearch);
      observation := FormatSearchResults(results);
    } else if a.tool == "search_news" {
      var results := tools.searchNews(a.query, ResultsPerSearch);
      observation := FormatNewsResults(results);
    } else {
      observation := "Unknown tool: " + a.tool;
    }
  }

  /** A search action sees only the three results for its own query. */
  lemma SearchUsesThreeResults(a: Action, t1: Tools, t2: Tools)
    requires a.tool == "search" && t1.search(a.query, 3) == t2.search(a.query, 3)
    ensures ExecuteAction(a, t1) == ExecuteAction(a, t2)
  {
  }

  lemma NewsUsesThreeResults(a: Action, t1: Tools, t2: Tools)
    requires a.tool == "search_news" && t1.searchNews(a.query, 3) == t2.searchNews(a.query, 3)
    ensures ExecuteAction(a, t1) == ExecuteAction(a, t2)
  {
  }

  /** Any other tool name is answered with exactly "Unknown tool: <tool>", without a search. */
  lemma UnknownTool(a: Action, tools: Tools)
    requires a.tool != "search" && a.tool != "search_news"
    ensures ExecuteAction(a, tools) == "Unknown tool: " + a.tool
    ensures !IsPrefix("Observation: ", ExecuteAction(a, tools))
  {
    assert ExecuteAction(a, tools)[0] == 'U';
  }

  // ------------------------------------------------------------------
  // analyze_text: the ReAct loop

  /** What generate_content gave: the reply's text, or an exception. */
  datatype Reply = Text(text: string) | Raised

  /** The model, asked in iteration n (from 1) with the whole conversation so far. */
  type Model = (nat, string) -> Reply

  const MaxIterations := 5
  const FinalMarker := "Final Answer:"
  const ContinuePrompt := "Please continue with your next Thought or provide your Final Answer."

  function SystemPrompt(): string {
    "\n"
    + "You are an intelligent research assistant that uses a ReAct (Reasoning + Acting) approach to analyze text extracted from images.\n"
    + "\n"
    + "TOOLS AVAILABLE:\n"
    + "- search(query): Search the web for information\n"
    + "- search_news(query): Search for recent news articles\n"
    + "\n"
    + "INSTRUCTIONS:\n"
    + "1. Think about what information you need to gather\n"
    + "2. Use available tools to search for relevant information\n"
    + "3. Observe the results and decide if you need more information\n"
    + "4. Continue until you have comprehensive information\n"
    + "5. Provide a final summary with your findings\n"
    + "\n"
    + "FORMAT:\n"
    + "Thought: [Your reasoning about what to do next]\n"
    + "Action: [tool_name(query)]\n"
    + "Observation: [Results from the tool]\n"
    + "... (repeat as needed)\n"
    + "Final Answer: [Comprehensive summary of findings]\n"
    + "\n"
    + "IMPORTANT:\n"
    + "- Always start with a Thought\n"
    + "- Use specific, targeted search queries\n"
    + "- Analyze the extracted text to identify key entities, places, events, or topics\n"
    + "- Search for context, background information, recent developments\n"
    + "- Provide factual, well-researched information\n"
  }

  /**
   * What the agent is built with: its model, its search tools, and the
   * wording of its first prompt (the system prompt and the closing request),
   * which no property depends on.
   */
  datatype Agent = Agent(systemPrompt: string, analysisRequest: string, model: Model, tools: Tools)

  /** GeminiAgent.__init__, with the source's wording of the first prompt. */
  function NewAgent(model: Model, tools: Tools): Agent {
    Agent(SystemPrompt(),
          "Please analyze this text and use the available tools to gather comprehensive information about the content. Start with your first Thought.",
          model, tools)
  }

  /** The first prompt: the system prompt, the extracted text under its heading, the request. */
  function InitialPrompt(agent: Agent, extractedText: string): string {
    "\n" + agent.systemPrompt + "\n\nEXTRACTED TEXT FROM IMAGE:\n" + extractedText
    + "\n\n" + agent.analysisRequest + "\n"
  }

  /** What is appended after a reply without a final answer. */
  function Observe(reply: string, tools: Tools): string {
    match ParseAction(reply)
    case Some(a) => "Observation: " + ExecuteAction(a, tools)
    case None => ContinuePrompt
  }

  /** The loop sees the follow-up step only through this function value. */
  function FollowUp(tools: Tools): string -> string {
    reply => Observe(reply, tools)
  }

  function Prompt(history: seq<string>): string {
    Join("\n\n", history)
  }

  /** The model as the loop sees it: asked in iteration n with the conversation, joined by blank lines. */
  type Ask = (nat, seq<string>) -> Reply

  function Asking(model: Model): Ask {
    (n: nat, history: seq<string>) => model(n, Prompt(history))
  }

  /**
   * The answer a reply gives: when it holds "Final Answer:", the stripped
   * text after the marker's last occurrence.
   */
  function FinalOf(reply: string): Option<string> {
    if Contains(reply, FinalMarker) then Some(StripSpace(AfterLast(reply, FinalMarker))) else None
  }

  /** final_answer, iterations, conversation_history */
  datatype Outcome = Outcome(finalAnswer: string, iterations: nat, history: seq<string>)

  /**
   * The loop from a given conversation after a given number of iterations.
   * It sees the final-answer test only through `answerOf` (FinalOf in the agent).
   */
  function Loop(ask: Ask, follow: string -> string, answerOf: string -> Option<string>, history: seq<string>, iterations: nat): Outcome
    requires iterations <= MaxIterations
    decreases MaxIterations - iterations
  {
    if iterations == MaxIterations then Outcome("", iterations, history)
    else
      var n := iterations + 1;
      match ask(n, history)
      case Raised => Outcome("", n, history)
      case Text(t) =>
        match answerOf(t)
        case Some(answer) => Outcome(answer, n, history + [t])
        case None => Loop(ask, follow, answerOf, history + [t, follow(t)], n)
  }

  function Analysis(agent: Agent, extractedText: string): Outcome {
    Loop(Asking(agent.model), FollowUp(agent.tools), FinalOf, [InitialPrompt(agent, extractedText)], 0)
  }

  method AnalyzeText(agent: Agent, extractedText: string)
    returns (finalAnswer: string, iterations: nat, history: seq<string>)
    ensures Outcome(finalAnswer, iterations, history) == Analysis(agent, extractedText)
  {
    var model, tools := agent.model, agent.tools;
    ghost var ask, follow := Asking(model), FollowUp(tools);
    history := [InitialPrompt(agent, extractedText)];
    iterations := 0;
    finalAnswer := "";
    while iterations < MaxIterations
      invariant iterations <= MaxIterations
      invariant Loop(ask, follow, FinalOf, history, iterations) == Analysis(agent, extractedText)
      invariant finalAnswer == ""
    {
      iterations := iterations + 1;
      var fullPrompt := Join("\n\n", history);
      var response := model(iterations, fullPrompt);
      assert fullPrompt == Prompt(history);
      assert response == ask(iterations, history);
      if response.Raised? {
        break;
      }
      var agentResponse := response.text;
      ghost var previous := history;
      history := history + [agentResponse];
      if Contains(agentResponse, FinalMarker) {
        finalAnswer := StripSpace(AfterLast(agentResponse, FinalMarker));
        assert FinalOf(agentResponse) == Some(finalAnswer);
        break;
      }
      assert FinalOf(agentResponse) == None;
      var action := ParseAction(agentResponse);
      if action.Some? {
        var observation := Execute(action.value, tools);
        history := history + ["Observation: " + observation];
      } else {
        history := history + [ContinuePrompt];
      }
      assert history == previous + [agentResponse, follow(agentResponse)];
    }
  }

  /**
   * A reply gives an answer exactly when it holds "Final Answer:". The answer
   * has no white space at either end and is made of characters of the text
   * after the marker's last occurrence, which holds no further marker.
   */
  lemma FinalOfShape(reply: string)
    ensures FinalOf(reply).Some? <==> Contains(reply, FinalMarker)
    ensures FinalOf(reply).Some? ==>
      var r, a := AfterLast(reply, FinalMarker), FinalOf(reply).value;
      && |r| + |FinalMarker| <= |reply|
      && reply[|reply| - |r| - |FinalMarker|..] == FinalMarker + r
      && !Contains(r, FinalMarker)
      && (forall c :: c in a ==> c in r)
      && (a != [] ==> !IsSpace(a[0]) && !IsSpace(a[|a| - 1]))
  {
    if Contains(reply, FinalMarker) {
      AfterLastShape(reply, FinalMarker);
      StripShape(AfterLast(reply, FinalMarker), IsSpace);
    }
  }

  /** One completed, non-final iteration: the n-th reply to the conversation, and what followed it. */
  predicate Step(ask: Ask, follow: string -> string, answerOf: string -> Option<string>,
                 before: seq<string>, n: nat, reply: string, next: string) {
    ask(n, before) == Text(reply) && answerOf(reply).None? && next == follow(reply)
  }

  /** The conversation after n completed, non-final iterations: one prompt, then reply and follow-up pairs. */
  predicate Trace(ask: Ask, follow: string -> string, answerOf: string -> Option<string>, history: seq<string>, n: nat)
    decreases n
  {
    if n == 0 then |history| == 1
    else
      |history| == 2 * n + 1
      && Trace(ask, follow, answerOf, history[..|history| - 2], n - 1)
      && Step(ask, follow, answerOf, history[..|history| - 2], n, history[|history| - 2], history[|history| - 1])
  }

  /**
   * How the loop ends: after five non-final iterations, with an exception in
   * the last one (its reply is not recorded), or at the first reply that
   * gives an answer, which is then the final answer.
   */
  predicate Ended(ask: Ask, follow: string -> string, answerOf: string -> Option<string>, o: Outcome) {
    1 <= o.iterations <= MaxIterations
    && (Exhausted(ask, follow, answerOf, o) || Interrupted(ask, follow, answerOf, o) || Answered(ask, follow, answerOf, o))
  }

  predicate Exhausted(ask: Ask, follow: string -> string, answerOf: string -> Option<string>, o: Outcome) {
    o.iterations == MaxIterations && Trace(ask, follow, answerOf, o.history, o.iterations) && o.finalAnswer == ""
  }

  predicate Interrupted(ask: Ask, follow: string -> string, answerOf: string -> Option<string>, o: Outcome) {
    var h, n := o.history, o.iterations;
    n >= 1 && Trace(ask, follow, answerOf, h, n - 1) && ask(n, h) == Raised && o.finalAnswer == ""
  }

  predicate Answered(ask: Ask, follow: string -> string, answerOf: string -> Option<string>, o: Outcome) {
    var h := o.history;
    h != [] && AnsweredWith(ask, follow, answerOf, h[..|h| - 1], h[|h| - 1], o.iterations, o.finalAnswer)
  }

  /** The n-th reply, to the conversation before, gives the answer. */
  predicate AnsweredWith(ask: Ask, follow: string -> string, answerOf: string -> Option<string>,
                         before: seq<string>, reply: string, n: nat, answer: string) {
    && n >= 1
    && Trace(ask, follow, answerOf, before, n - 1)
    && ask(n, before) == Text(reply)
    && answerOf(reply) == Some(answer)
  }

  lemma TraceLength(ask: Ask, follow: string -> string, answerOf: string -> Option<string>, history: seq<string>, n: nat)
    requires Trace(ask, follow, answerOf, history, n)
    ensures |history| == 2 * n + 1
  {
  }

  /** A completed, non-final iteration extends the trace by its reply and follow-up. */
  lemma TraceExtend(ask: Ask, follow: string -> string, answerOf: string -> Option<string>, history: seq<string>, n: nat, reply: string)
    requires Trace(ask, follow, answerOf, history, n) && Step(ask, follow, answerOf, history, n + 1, reply, follow(reply))
    ensures Trace(ask, follow, answerOf, history + [reply, follow(reply)], n + 1)
  {
    TraceLength(ask, follow, answerOf, history, n);
    var h := history + [reply, follow(reply)];
    assert h[..|h| - 2] == history;
  }

  lemma EndsExhausted(ask: Ask, follow: string -> string, answerOf: string -> Option<string>, history: seq<string>)
    requires Trace(ask, follow, answerOf, history, MaxIterations)
    ensures Exhausted(ask, follow, answerOf, Outcome("", MaxIterations, history))
  {
  }

  lemma EndsRaised(ask: Ask, follow: string -> string, answerOf: string -> Option<string>, history: seq<string>, n: nat)
    requires n < MaxIterations && Trace(ask, follow, answerOf, history, n) && ask(n + 1, history) == Raised
    ensures Interrupted(ask, follow, answerOf, Outcome("", n + 1, history))
  {
  }

  lemma EndsFinal(ask: Ask, follow: string -> string, answerOf: string -> Option<string>,
                  history: seq<string>, n: nat, reply: string, answer: string)
    requires Trace(ask, follow, answerOf, history, n)
    requires ask(n + 1, history) == Text(reply) && answerOf(reply) == Some(answer)
    ensures Answered(ask, follow, answerOf, Outcome(answer, n + 1, history + [reply]))
  {
    var h := history + [reply];
    assert h[..|h| - 1] == history;
  }

  /** A completed, non-final iteration hands the longer conversation to the next one. */
  lemma LoopStep(ask: Ask, follow: string -> string, answerOf: string -> Option<string>, history: seq<string>, n: nat, reply: string)
    requires n < MaxIterations && ask(n + 1, history) == Text(reply) && answerOf(reply).None?
    ensures Loop(ask, follow, answerOf, history, n) == Loop(ask, follow, answerOf, history + [reply, follow(reply)], n + 1)
  {
  }

  lemma {:induction false} LoopEnds(ask: Ask, follow: string -> string, answerOf: string -> Option<string>, history: seq<string>, n: nat)
    requires n <= MaxIterations && Trace(ask, follow, answerOf, history, n)
    ensures Ended(ask, follow, answerOf, Loop(ask, follow, answerOf, history, n))
    decreases MaxIterations - n
  {
    var o := Loop(ask, follow, answerOf, history, n);
    if n == MaxIterations {
      EndsExhausted(ask, follow, answerOf, history);
    } else {
      match ask(n + 1, history)
      case Raised =>
        EndsRaised(ask, follow, answerOf, history, n);
      case Text(t) =>
        match answerOf(t)
        case Some(answer) =>
          EndsFinal(ask, follow, answerOf, history, n, t, answer);
        case None =>
          TraceExtend(ask, follow, answerOf, history, n, t);
          LoopEnds(ask, follow, answerOf, history + [t, follow(t)], n + 1);
          LoopStep(ask, follow, answerOf, history, n, t);
    }
  }

  /** The loop only appends to the conversation, and never goes back in iterations. */
  lemma {:induction false} LoopKeeps(ask: Ask, follow: string -> string, answerOf: string -> Option<string>, history: seq<string>, n: nat)
    requires n <= MaxIterations
    ensures var o := Loop(ask, follow, answerOf, history, n);
      n <= o.iterations && |history| <= |o.history| && o.history[..|history|] == history
    decreases MaxIterations - n
  {
    if n < MaxIterations {
      match ask(n + 1, history)
      case Raised =>
      case Text(t) =>
        match answerOf(t)
        case Some(_) =>
          assert (history + [t])[..|history|] == history;
        case None =>
          var h' := history + [t, follow(t)];
          LoopKeeps(ask, follow, answerOf, h', n + 1);
          LoopStep(ask, follow, answerOf, history, n, t);
          PrefixOfPrefix(history, h', Loop(ask, follow, answerOf, h', n + 1).history);
    }
  }

  lemma PrefixOfPrefix(a: seq<string>, b: seq<string>, c: seq<string>)
    requires |b| <= |c| && c[..|b|] == b && |a| <= |b| && b[..|a|] == a
    ensures c[..|a|] == a
  {
    assert c[..|a|] == c[..|b|][..|a|];
  }

  /**
   * analyze_text runs at least once and at most five iterations, keeps the
   * initial prompt first, and ends in one of the three ways of Ended.
   */
  lemma AnalysisEnds(agent: Agent, extractedText: string)
    ensures var o := Analysis(agent, extractedText);
      && 1 <= o.iterations <= MaxIterations
      && o.history != [] && o.history[0] == InitialPrompt(agent, extractedText)
      && Ended(Asking(agent.model), FollowUp(agent.tools), FinalOf, o)
  {
    var ask, follow, first := Asking(agent.model), FollowUp(agent.tools), InitialPrompt(agent, extractedText);
    var o := Loop(ask, follow, FinalOf, [first], 0);
    assert Analysis(agent, extractedText) == o;
    LoopEnds(ask, follow, FinalOf, [first], 0);
    LoopKeeps(ask, follow, FinalOf, [first], 0);
    assert o.history[0] == o.history[..1][0];
  }

  /** A model that answers at once ends the loop after one iteration with that answer. */
  lemma ImmediateAnswer(agent: Agent, extractedText: string, reply: string)
    requires var first := InitialPrompt(agent, extractedText);
      agent.model(1, Prompt([first])) == Text(reply) && Contains(reply, FinalMarker)
    ensures var first := InitialPrompt(agent, extractedText);
      Analysis(agent, extractedText) == Outcome(StripSpace(AfterLast(reply, FinalMarker)), 1, [first] + [reply])
  {
  }

  /** A model that never gives a final answer nor raises is asked exactly five times. */
  lemma {:induction false} NeverFinal(ask: Ask, follow: string -> string, answerOf: string -> Option<string>, history: seq<string>, n: nat)
    requires n <= MaxIterations
    requires forall k, h :: ask(k, h).Text? && answerOf(ask(k, h).text).None?
    ensures var o := Loop(ask, follow, answerOf, history, n);
      o.iterations == MaxIterations && o.finalAnswer == "" && |o.history| == |history| + 2 * (MaxIterations - n)
    decreases MaxIterations - n
  {
    if n < MaxIterations {
      var t := ask(n + 1, history).text;
      NeverFinal(ask, follow, answerOf, history + [t, follow(t)], n + 1);
    }
  }
}
