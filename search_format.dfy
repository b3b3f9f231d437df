/**
 * `SearchFormatter`: the text the bot shows for web and news results and the
 * context it gives the chat model. Each formatter is a method that builds the
 * text entry by entry, proved equal to a function that states the text.
 */
module SearchFormat {
  import opened Common
  import opened Strings
  import opened Serper

  /** A search that failed or found nothing; the formatters print their failure text for it. */
  predicate NothingToShow(d: SearchData) {
    d.Failed? || d.results == []
  }

  /** `search_data.get('error', 'No results found')`: a processed search has no error field. */
  function ErrorText(d: SearchData): string {
    if d.Failed? then d.error else "No results found"
  }

  const CrossMark: string := "\U{274C}"

  // ---------------------------------------------------------------------------
  // Numbered listings

  /** The entries `entry` makes for `rs`, numbered from `first` on, in order. */
  function Listing(rs: seq<SearchResult>, first: int, entry: (int, SearchResult) -> string): string {
    if rs == [] then "" else Listing(rs[..|rs| - 1], first, entry) + entry(first + |rs| - 1, rs[|rs| - 1])
  }

  /** Splitting the results splits the listing, and the numbering carries on. */
  lemma {:induction false} ListingAppend(rs: seq<SearchResult>, more: seq<SearchResult>, first: int, entry: (int, SearchResult) -> string)
    ensures Listing(rs + more, first, entry) == Listing(rs, first, entry) + Listing(more, first + |rs|, entry)
  {
    if more == [] {
      assert rs + more == rs;
    } else {
      var init, last := more[..|more| - 1], more[|more| - 1];
      ListingAppend(rs, init, first, entry);
      var all := rs + more;
      assert all[..|all| - 1] == rs + init;
      assert all[|all| - 1] == last;
    }
  }

  /** Growing the prefix of results by one adds that result's entry. */
  lemma ListingStep(rs: seq<SearchResult>, k: nat, first: int, entry: (int, SearchResult) -> string)
    requires k < |rs|
    ensures Listing(rs[..k + 1], first, entry) == Listing(rs[..k], first, entry) + entry(first + k, rs[k])
  {
    assert rs[..k + 1][..k] == rs[..k];
  }

  /** Two entry makers that agree on every numbered result give the same listing. */
  lemma {:induction false} ListingAgree(rs: seq<SearchResult>, first: int, e: (int, SearchResult) -> string, e': (int, SearchResult) -> string)
    requires forall k :: 0 <= k < |rs| ==> e(first + k, rs[k]) == e'(first + k, rs[k])
    ensures Listing(rs, first, e) == Listing(rs, first, e')
  {
    if rs != [] {
      var init := rs[..|rs| - 1];
      assert forall k :: 0 <= k < |init| ==> init[k] == rs[k];
      ListingAgree(init, first, e, e');
    }
  }

  /** Result `k` is entry number `first + k`, between the entries before and after it. */
  lemma ListingNumbered(rs: seq<SearchResult>, first: int, entry: (int, SearchResult) -> string, k: nat)
    requires k < |rs|
    ensures Listing(rs, first, entry)
         == Listing(rs[..k], first, entry) + entry(first + k, rs[k]) + Listing(rs[k + 1..], first + k + 1, entry)
  {
    assert rs == rs[..k] + [rs[k]] + rs[k + 1..];
    ListingAppend(rs[..k] + [rs[k]], rs[k + 1..], first, entry);
    ListingAppend(rs[..k], [rs[k]], first, entry);
    assert [rs[k]][..0] == [];
  }

  // ---------------------------------------------------------------------------
  // Web results

  /** The lines of one result, each the text one f-string of the source appends. */
  function TitleLine(n: int, r: SearchResult): string {
    IntToString(n) + ". **" + Show(r.title) + "**\n"
  }

  function SnippetLine(r: SearchResult): string {
    "   " + Show(r.snippet) + "\n"
  }

  function DateLine(r: SearchResult): string {
    if Truthy(r.date) then "   \U{1F4C5} " + Show(r.date) + "\n" else ""
  }

  function LinkLine(r: SearchResult): string {
    "   \U{1F517} " + Show(r.link) + "\n\n"
  }

  /** Entry `n` of the web listing: number, bold title, snippet, link. */
  function WebEntry(n: int, r: SearchResult): string {
    TitleLine(n, r) + SnippetLine(r) + LinkLine(r)
  }

  /** The web entries for `rs`, numbered from `first` on. */
  function WebEntries(rs: seq<SearchResult>, first: int): string {
    Listing(rs, first, WebEntry)
  }

  /** The knowledge-graph lines of the web listing: bold title and type, then the description. */
  function GraphHeadline(kg: KnowledgeGraph): string {
    "\U{1F4A1} **" + Show(kg.title) + "** (" + Show(kg.graphType) + ")\n"
  }

  function GraphDescription(kg: KnowledgeGraph): string {
    "   " + Show(kg.description) + "\n\n"
  }

  function GraphLines(kg: Option<KnowledgeGraph>): string {
    if kg.Some? then GraphHeadline(kg.value) + GraphDescription(kg.value) else ""
  }

  function WebHeader(query: string): string {
    "\U{1F310} Web search results for: '" + query + "'\n\n"
  }

  /** `format_web_search`. */
  function WebSearchText(d: SearchData): string {
    if NothingToShow(d) then CrossMark + " Web search failed: " + ErrorText(d)
    else WebHeader(d.query) + GraphLines(d.knowledgeGraph) + WebEntries(d.results, 1)
  }

  /** `format_web_search`, building the text as the source does. */
  method FormatWebSearch(d: SearchData) returns (formatted: string)
    ensures formatted == WebSearchText(d)
  {
    if d.Failed? || d.results == [] {
      return CrossMark + " Web search failed: " + ErrorText(d);
    }
    formatted := WebHeader(d.query);
    if d.knowledgeGraph.Some? {
      var kg := d.knowledgeGraph.value;
      formatted := formatted + GraphHeadline(kg);
      formatted := formatted + GraphDescription(kg);
      AppendAssoc(WebHeader(d.query), GraphHeadline(kg), GraphDescription(kg));
    } else {
      assert formatted + "" == formatted;
    }
    ghost var head := formatted;
    assert head == WebHeader(d.query) + GraphLines(d.knowledgeGraph);
    var i := 0;
    while i < |d.results|
      invariant 0 <= i <= |d.results|
      invariant formatted == head + WebEntries(d.results[..i], 1)
    {
      ListingStep(d.results, i, 1, WebEntry);
      assert WebEntries(d.results[..i + 1], 1) == WebEntries(d.results[..i], 1) + WebEntry(i + 1, d.results[i]);
      AppendAssoc(head, WebEntries(d.results[..i], 1), WebEntry(i + 1, d.results[i]));
      formatted := AppendWebEntry(formatted, i + 1, d.results[i]);
      assert formatted == head + WebEntries(d.results[..i + 1], 1);
      i := i + 1;
    }
    assert d.results[..i] == d.results;
  }

  /** The loop body of `format_web_search`: the lines of entry `n`, appended one by one. */
  method AppendWebEntry(formatted: string, n: int, result: SearchResult) returns (extended: string)
    ensures extended == formatted + WebEntry(n, result)
  {
    extended := formatted + TitleLine(n, result);
    extended := extended + SnippetLine(result);
    extended := extended + LinkLine(result);
    AppendAssoc3(formatted, TitleLine(n, result), SnippetLine(result), LinkLine(result));
  }

  /** Result `k` of the web listing is entry number `k + 1`, between the entries before and after it. */
  lemma WebEntriesNumbered(rs: seq<SearchResult>, k: nat)
    requires k < |rs|
    ensures WebEntries(rs, 1) == WebEntries(rs[..k], 1) + WebEntry(k + 1, rs[k]) + WebEntries(rs[k + 1..], k + 2)
  {
    ListingNumbered(rs, 1, WebEntry, k);
  }

  /**
   * The web listing is the failure text exactly when the search failed or
   * found nothing; otherwise it opens with the query.
   */
  lemma WebSearchFailsExactly(d: SearchData)
    ensures StartsWith(WebSearchText(d), CrossMark) <==> NothingToShow(d)
    ensures !NothingToShow(d) ==> StartsWith(WebSearchText(d), WebHeader(d.query))
  {
    var t := WebSearchText(d);
    if NothingToShow(d) {
      assert t[..|CrossMark|] == CrossMark;
    } else {
      var header := WebHeader(d.query);
      assert t[..|header|] == header;
      assert t[0] == header[0] != CrossMark[0];
    }
  }

  // ---------------------------------------------------------------------------
  // News results

  /** Entry `n` of the news listing: as on the web, plus a date line when the date is truthy. */
  function NewsEntry(n: int, r: SearchResult): string {
    TitleLine(n, r) + SnippetLine(r) + DateLine(r) + LinkLine(r)
  }

  function NewsEntries(rs: seq<SearchResult>, first: int): string {
    Listing(rs, first, NewsEntry)
  }

  function NewsHeader(query: string): string {
    "\U{1F4F0} News results for: '" + query + "'\n\n"
  }

  /** `format_news_search`. */
  function NewsSearchText(d: SearchData): string {
    if NothingToShow(d) then CrossMark + " News search failed: " + ErrorText(d)
    else NewsHeader(d.query) + NewsEntries(d.results, 1)
  }

  /** `format_news_search`, building the text as the source does. */
  method FormatNewsSearch(d: SearchData) returns (formatted: string)
    ensures formatted == NewsSearchText(d)
  {
    if d.Failed? || d.results == [] {
      return CrossMark + " News search failed: " + ErrorText(d);
    }
    formatted := NewsHeader(d.query);
    ghost var head := formatted;
    var i := 0;
    while i < |d.results|
      invariant 0 <= i <= |d.results|
      invariant formatted == head + NewsEntries(d.results[..i], 1)
    {
      ListingStep(d.results, i, 1, NewsEntry);
      assert NewsEntries(d.results[..i + 1], 1) == NewsEntries(d.results[..i], 1) + NewsEntry(i + 1, d.results[i]);
      AppendAssoc(head, NewsEntries(d.results[..i], 1), NewsEntry(i + 1, d.results[i]));
      formatted := AppendNewsEntry(formatted, i + 1, d.results[i]);
      assert formatted == head + NewsEntries(d.results[..i + 1], 1);
      i := i + 1;
    }
    assert d.results[..i] == d.results;
  }

  /** The loop body of `format_news_search`: the lines of entry `n`, appended one by one. */
  method AppendNewsEntry(formatted: string, n: int, result: SearchResult) returns (extended: string)
    ensures extended == formatted + NewsEntry(n, result)
  {
    extended := formatted + TitleLine(n, result);
    extended := extended + SnippetLine(result);
    if Truthy(result.date) {
      extended := extended + DateLine(result);
    } else {
      assert extended + DateLine(result) == extended;
    }
    extended := extended + LinkLine(result);
    AppendAssoc4(formatted, TitleLine(n, result), SnippetLine(result), DateLine(result), LinkLine(result));
  }

  /** Without dates, the news entries read exactly like the web entries. */
  lemma UndatedNewsReadsLikeWeb(rs: seq<SearchResult>, first: int)
    requires forall k :: 0 <= k < |rs| ==> !Truthy(rs[k].date)
    ensures NewsEntries(rs, first) == WebEntries(rs, first)
  {
    forall k | 0 <= k < |rs|
      ensures NewsEntry(first + k, rs[k]) == WebEntry(first + k, rs[k])
    {
      var r := rs[k];
      var head := TitleLine(first + k, r) + SnippetLine(r);
      assert head + DateLine(r) == head;
    }
    ListingAgree(rs, first, NewsEntry, WebEntry);
  }

  /** The news listing is the failure text exactly when the search failed or found nothing. */
  lemma NewsSearchFailsExactly(d: SearchData)
    ensures StartsWith(NewsSearchText(d), CrossMark) <==> NothingToShow(d)
  {
    var t := NewsSearchText(d);
    if NothingToShow(d) {
      assert t[..|CrossMark|] == CrossMark;
    } else {
      assert t[0] == NewsHeader(d.query)[0] != CrossMark[0];
    }
  }

  // ---------------------------------------------------------------------------
  // Context for the chat model

  const NoResults: string := "No relevant search results found."
  const ContextLimit: nat := 5

  /** The lines of one result as context: title, snippet, the date when truthy, and the source. */
  function ContextTitle(r: SearchResult): string {
    "- " + Show(r.title) + "\n"
  }

  function ContextSnippet(r: SearchResult): string {
    "  " + Show(r.snippet) + "\n"
  }

  function ContextDate(r: SearchResult): string {
    if Truthy(r.date) then "  Date: " + Show(r.date) + "\n" else ""
  }

  function ContextSource(r: SearchResult): string {
    "  Source: " + Show(r.link) + "\n\n"
  }

  function ContextEntry(r: SearchResult): string {
    ContextTitle(r) + ContextSnippet(r) + ContextDate(r) + ContextSource(r)
  }

  /** The context entries for `rs`, in order; they carry no number. */
  function ContextEntries(rs: seq<SearchResult>): string {
    if rs == [] then "" else ContextEntries(rs[..|rs| - 1]) + ContextEntry(rs[|rs| - 1])
  }

  /** Growing the prefix of results by one adds that result's entry. */
  lemma ContextEntriesStep(rs: seq<SearchResult>, k: nat)
    requires k < |rs|
    ensures ContextEntries(rs[..k + 1]) == ContextEntries(rs[..k]) + ContextEntry(rs[k])
  {
    assert rs[..k + 1][..k] == rs[..k];
  }

  /** The results that make it into the context: the first five. */
  function TopResults(rs: seq<SearchResult>): (top: seq<SearchResult>)
    ensures |top| == if |rs| < ContextLimit then |rs| else ContextLimit
    ensures top == rs[..|top|]
  {
    if |rs| <= ContextLimit then rs else rs[..ContextLimit]
  }

  function ContextHeader(query: string): string {
    "Search results for '" + query + "':\n\n"
  }

  function KeyInformation(kg: KnowledgeGraph): string {
    "Key Information: " + Show(kg.title) + " (" + Show(kg.graphType) + ")\n"
  }

  function KeyDescription(kg: KnowledgeGraph): string {
    Show(kg.description) + "\n\n"
  }

  function ContextGraph(kg: Option<KnowledgeGraph>): string {
    if kg.Some? then KeyInformation(kg.value) + KeyDescription(kg.value) else ""
  }

  /** `format_for_ai_context`. */
  function AiContextText(d: SearchData): string {
    if NothingToShow(d) then NoResults
    else ContextHeader(d.query) + ContextGraph(d.knowledgeGraph) + ContextEntries(TopResults(d.results))
  }

  /** `format_for_ai_context`, building the text as the source does. */
  method FormatForAiContext(d: SearchData) returns (context: string)
    ensures context == AiContextText(d)
  {
    if d.Failed? || d.results == [] {
      return NoResults;
    }
    context := ContextHeader(d.query);
    if d.knowledgeGraph.Some? {
      var kg := d.knowledgeGraph.value;
      context := context + KeyInformation(kg);
      context := context + KeyDescription(kg);
      AppendAssoc(ContextHeader(d.query), KeyInformation(kg), KeyDescription(kg));
    } else {
      assert context + "" == context;
    }
    ghost var head := context;
    assert head == ContextHeader(d.query) + ContextGraph(d.knowledgeGraph);
    var top := TopResults(d.results);
    var i := 0;
    while i < |top|
      invariant 0 <= i <= |top|
      invariant context == head + ContextEntries(top[..i])
    {
      ContextEntriesStep(top, i);
      AppendAssoc(head, ContextEntries(top[..i]), ContextEntry(top[i]));
      context := AppendContextEntry(context, top[i]);
      assert context == head + ContextEntries(top[..i + 1]);
      i := i + 1;
    }
    assert top[..i] == top;
  }

  /** The loop body of `format_for_ai_context`: the lines of one result, appended one by one. */
  method AppendContextEntry(context: string, result: SearchResult) returns (extended: string)
    ensures extended == context + ContextEntry(result)
  {
    extended := context + ContextTitle(result);
    extended := extended + ContextSnippet(result);
    if Truthy(result.date) {
      extended := extended + ContextDate(result);
    } else {
      assert extended + ContextDate(result) == extended;
    }
    extended := extended + ContextSource(result);
    AppendAssoc4(context, ContextTitle(result), ContextSnippet(result), ContextDate(result), ContextSource(result));
  }

  /**
   * Results past the fifth never reach the model: adding more of them leaves
   * the context as it is.
   */
  lemma AiContextUsesTopFive(d: SearchData, more: seq<SearchResult>)
    requires d.Processed? && |d.results| >= ContextLimit
    ensures AiContextText(d.(results := d.results + more)) == AiContextText(d)
  {
    var longer := d.results + more;
    assert longer[..ContextLimit] == d.results[..ContextLimit];
  }

  /** A failed or empty search gives the stock sentence, and only such a search does. */
  lemma AiContextFailsExactly(d: SearchData)
    ensures AiContextText(d) == NoResults <==> NothingToShow(d)
  {
  }

  // ---------------------------------------------------------------------------
  // Regrouping appended text

  lemma AppendAssoc(x: string, a: string, b: string)
    ensures x + a + b == x + (a + b)
  {
  }

  lemma AppendAssoc3(x: string, a: string, b: string, c: string)
    ensures x + a + b + c == x + (a + b + c)
  {
  }

  lemma AppendAssoc4(x: string, a: string, b: string, c: string, e: string)
    ensures x + a + b + c + e == x + (a + b + c + e)
  {
  }
}
