/**
 * The Serper search client's local logic: the request it builds, how a
 * response's items become `SearchResult`s (field by field, with defaults),
 * the knowledge graph, the status-code messages, and the result record a
 * search returns. The HTTP exchange itself is an `HttpOutcome` parameter.
 */
module Serper {
  import opened Common
  import opened Strings

  /** A scalar JSON value as Python holds it after decoding. */
  datatype Json = JNull | JBool(b: bool) | JInt(i: int) | JStr(s: string)

  /** Python's `str(v)`, which f-strings apply. */
  function Show(v: Json): string {
    match v
    case JNull => "None"
    case JBool(b) => if b then "True" else "False"
    case JInt(i) => IntToString(i)
    case JStr(s) => s
  }

  /** Python truthiness. */
  predicate Truthy(v: Json) {
    match v
    case JNull => false
    case JBool(b) => b
    case JInt(i) => i != 0
    case JStr(s) => s != ""
  }

  /** A result item of the response: a JSON object with scalar fields. */
  type Item = map<string, Json>

  /** `item.get(key, default)`. */
  function Get(item: Item, key: string, default: Json): (r: Json)
    ensures key in item ==> r == item[key]
    ensures key !in item ==> r == default
  {
    if key in item then item[key] else default
  }

  /** `SearchResult`; `position` defaults to 0 and `date`, `imageUrl` to None. */
  datatype SearchResult = SearchResult(title: Json, snippet: Json, link: Json, position: Json, date: Json, imageUrl: Json)

  /** `KnowledgeGraph`. */
  datatype KnowledgeGraph = KnowledgeGraph(title: Json, graphType: Json, description: Json, imageUrl: Json)

  /** The fields every kind of result reads the same way: a missing one becomes "". */
  predicate TextFieldsFrom(r: SearchResult, item: Item) {
    r.title == Get(item, "title", JStr("")) && r.link == Get(item, "link", JStr(""))
  }

  /** One organic web result: position defaults to 0, and there is no image. */
  function OrganicResult(item: Item): (r: SearchResult)
    ensures TextFieldsFrom(r, item) && r.snippet == Get(item, "snippet", JStr(""))
    ensures r.position == Get(item, "position", JInt(0)) && r.date == Get(item, "date", JNull)
    ensures r.imageUrl == JNull
  {
    SearchResult(Get(item, "title", JStr("")), Get(item, "snippet", JStr("")), Get(item, "link", JStr("")),
                 Get(item, "position", JInt(0)), Get(item, "date", JNull), JNull)
  }

  /** One news result: a date and an image, no position. */
  function NewsResult(item: Item): (r: SearchResult)
    ensures TextFieldsFrom(r, item) && r.snippet == Get(item, "snippet", JStr(""))
    ensures r.position == JInt(0) && r.date == Get(item, "date", JNull) && r.imageUrl == Get(item, "imageUrl", JNull)
  {
    SearchResult(Get(item, "title", JStr("")), Get(item, "snippet", JStr("")), Get(item, "link", JStr("")),
                 JInt(0), Get(item, "date", JNull), Get(item, "imageUrl", JNull))
  }

  /** One image or video result: an image, no position, no date. */
  function MediaResult(item: Item): (r: SearchResult)
    ensures TextFieldsFrom(r, item) && r.snippet == Get(item, "snippet", JStr(""))
    ensures r.position == JInt(0) && r.date == JNull && r.imageUrl == Get(item, "imageUrl", JNull)
  {
    SearchResult(Get(item, "title", JStr("")), Get(item, "snippet", JStr("")), Get(item, "link", JStr("")),
                 JInt(0), JNull, Get(item, "imageUrl", JNull))
  }

  /** The snippet of a shopping result: `Price: {price or 'N/A'} - {snippet}`. */
  function PriceSnippet(item: Item): string {
    "Price: " + Show(Get(item, "price", JStr("N/A"))) + " - " + Show(Get(item, "snippet", JStr("")))
  }

  /** One shopping result: the snippet carries the price. */
  function ShoppingResult(item: Item): (r: SearchResult)
    ensures TextFieldsFrom(r, item) && r.snippet == JStr(PriceSnippet(item))
    ensures r.position == JInt(0) && r.date == JNull && r.imageUrl == Get(item, "imageUrl", JNull)
  {
    SearchResult(Get(item, "title", JStr("")), JStr(PriceSnippet(item)), Get(item, "link", JStr("")),
                 JInt(0), JNull, Get(item, "imageUrl", JNull))
  }

  /** `_process_organic_results`: one result per item, in order. */
  method ProcessOrganicResults(items: seq<Item>) returns (results: seq<SearchResult>)
    ensures |results| == |items|
    ensures forall i :: 0 <= i < |items| ==> results[i] == OrganicResult(items[i])
  {
    results := [];
    for i := 0 to |items|
      invariant |results| == i
      invariant forall k :: 0 <= k < i ==> results[k] == OrganicResult(items[k])
    {
      results := results + [OrganicResult(items[i])];
    }
  }

  /** `_process_news_results`: one result per item, in order. */
  method ProcessNewsResults(items: seq<Item>) returns (results: seq<SearchResult>)
    ensures |results| == |items|
    ensures forall i :: 0 <= i < |items| ==> results[i] == NewsResult(items[i])
  {
    results := [];
    for i := 0 to |items|
      invariant |results| == i
      invariant forall k :: 0 <= k < i ==> results[k] == NewsResult(items[k])
    {
      results := results + [NewsResult(items[i])];
    }
  }

  /** `_process_image_results`: one result per item, in order. */
  method ProcessImageResults(items: seq<Item>) returns (results: seq<SearchResult>)
    ensures |results| == |items|
    ensures forall i :: 0 <= i < |items| ==> results[i] == MediaResult(items[i])
  {
    results := [];
    for i := 0 to |items|
      invariant |results| == i
      invariant forall k :: 0 <= k < i ==> results[k] == MediaResult(items[k])
    {
      results := results + [MediaResult(items[i])];
    }
  }

  /** `_process_video_results`: one result per item, in order, read as image results are. */
  method ProcessVideoResults(items: seq<Item>) returns (results: seq<SearchResult>)
    ensures |results| == |items|
    ensures forall i :: 0 <= i < |items| ==> results[i] == MediaResult(items[i])
  {
    results := [];
    for i := 0 to |items|
      invariant |results| == i
      invariant forall k :: 0 <= k < i ==> results[k] == MediaResult(items[k])
    {
      results := results + [MediaResult(items[i])];
    }
  }

  /** `_process_shopping_results`: one result per item, in order. */
  method ProcessShoppingResults(items: seq<Item>) returns (results: seq<SearchResult>)
    ensures |results| == |items|
    ensures forall i :: 0 <= i < |items| ==> results[i] == ShoppingResult(items[i])
  {
    results := [];
    for i := 0 to |items|
      invariant |results| == i
      invariant forall k :: 0 <= k < i ==> results[k] == ShoppingResult(items[k])
    {
      results := results + [ShoppingResult(items[i])];
    }
  }

  /**
   * `_process_knowledge_graph`: nothing for a missing or empty object;
   * otherwise its fields, missing ones as "".
   */
  function KnowledgeGraphOf(kg: Option<Item>): (r: Option<KnowledgeGraph>)
    ensures r.None? <==> kg.None? || kg.value == map[]
    ensures r.Some? ==>
      r.value.title == Get(kg.value, "title", JStr("")) && r.value.graphType == Get(kg.value, "type", JStr(""))
      && r.value.description == Get(kg.value, "description", JStr("")) && r.value.imageUrl == Get(kg.value, "imageUrl", JNull)
  {
    if kg.None? || kg.value == map[] then None
    else
      var g := kg.value;
      Some(KnowledgeGraph(Get(g, "title", JStr("")), Get(g, "type", JStr("")), Get(g, "description", JStr("")),
                          Get(g, "imageUrl", JNull)))
  }

  /** A decoded response: its result lists by key (a missing key is an empty list) and its knowledge graph. */
  datatype ResponseData = ResponseData(lists: map<string, seq<Item>>, knowledgeGraph: Option<Item>)

  /** `data.get(key, [])`. */
  function ListOf(data: ResponseData, key: string): seq<Item> {
    if key in data.lists then data.lists[key] else []
  }

  /** What a search returns: the processed response, or the failure and its message. */
  datatype SearchData =
    | Processed(query: string, searchType: string, results: seq<SearchResult>,
                knowledgeGraph: Option<KnowledgeGraph>, totalResults: int, timestamp: string)
    | Failed(error: string, searchType: string)

  /** The results a response yields for a search type; an unknown type yields none. */
  function ResultsFor(data: ResponseData, searchType: string): (r: seq<SearchResult>)
    ensures searchType !in {"search", "news", "images", "videos", "shopping"} ==> r == []
    ensures searchType == "search" ==>
      |r| == |ListOf(data, "organic")| && forall i :: 0 <= i < |r| ==> r[i] == OrganicResult(ListOf(data, "organic")[i])
    ensures searchType == "news" ==>
      |r| == |ListOf(data, "news")| && forall i :: 0 <= i < |r| ==> r[i] == NewsResult(ListOf(data, "news")[i])
    ensures searchType == "images" ==>
      |r| == |ListOf(data, "images")| && forall i :: 0 <= i < |r| ==> r[i] == MediaResult(ListOf(data, "images")[i])
    ensures searchType == "videos" ==>
      |r| == |ListOf(data, "videos")| && forall i :: 0 <= i < |r| ==> r[i] == MediaResult(ListOf(data, "videos")[i])
    ensures searchType == "shopping" ==>
      |r| == |ListOf(data, "shopping")| && forall i :: 0 <= i < |r| ==> r[i] == ShoppingResult(ListOf(data, "shopping")[i])
  {
    if searchType == "search" then
      var items := ListOf(data, "organic"); seq(|items|, i requires 0 <= i < |items| => OrganicResult(items[i]))
    else if searchType == "news" then
      var items := ListOf(data, "news"); seq(|items|, i requires 0 <= i < |items| => NewsResult(items[i]))
    else if searchType == "images" then
      var items := ListOf(data, "images"); seq(|items|, i requires 0 <= i < |items| => MediaResult(items[i]))
    else if searchType == "videos" then
      var items := ListOf(data, "videos"); seq(|items|, i requires 0 <= i < |items| => MediaResult(items[i]))
    else if searchType == "shopping" then
      var items := ListOf(data, "shopping"); seq(|items|, i requires 0 <= i < |items| => ShoppingResult(items[i]))
    else []
  }

  /**
   * `_process_search_response`: always a success whose count is the number of
   * results; the knowledge graph is read only for web searches. `now` is the
   * clock reading.
   */
  method ProcessSearchResponse(data: ResponseData, query: string, searchType: string, now: string)
    returns (r: SearchData)
    ensures r.Processed? && r.query == query && r.searchType == searchType && r.timestamp == now
    ensures r.results == ResultsFor(data, searchType)
    ensures r.totalResults == |r.results|
    ensures r.knowledgeGraph == if searchType == "search" then KnowledgeGraphOf(data.knowledgeGraph) else None
  {
    var results: seq<SearchResult> := [];
    var knowledgeGraph: Option<KnowledgeGraph> := None;
    if searchType == "search" {
      results := ProcessOrganicResults(ListOf(data, "organic"));
      knowledgeGraph := KnowledgeGraphOf(data.knowledgeGraph);
    } else if searchType == "news" {
      results := ProcessNewsResults(ListOf(data, "news"));
    } else if searchType == "images" {
      results := ProcessImageResults(ListOf(data, "images"));
    } else if searchType == "videos" {
      results := ProcessVideoResults(ListOf(data, "videos"));
    } else if searchType == "shopping" {
      results := ProcessShoppingResults(ListOf(data, "shopping"));
    }
    r := Processed(query, searchType, results, knowledgeGraph, |results|, now);
  }

  /** `_get_error_message`: a fixed text for each of five known codes, a generic one otherwise. */
  function ErrorMessage(statusCode: int): (r: string)
    ensures r == "Unknown error occurred" <==> statusCode !in {401, 403, 429, 500, 503}
  {
    if statusCode == 401 then "Invalid API key. Please check your Serper API key."
    else if statusCode == 403 then "Access forbidden. Please check your API permissions."
    else if statusCode == 429 then "Rate limit exceeded. Please wait and try again."
    else if statusCode == 500 then "Serper API server error. Please try again later."
    else if statusCode == 503 then "Serper API service unavailable. Please try again later."
    else "Unknown error occurred"
  }

  /** The five known codes each get a text of their own. */
  lemma ErrorMessagesDistinct(code: int, other: int)
    requires code in {401, 403, 429, 500, 503} && other in {401, 403, 429, 500, 503}
    requires code != other
    ensures ErrorMessage(code) != ErrorMessage(other)
  {
  }

  const BaseUrl: string := "https://google.serper.dev"

  /** The JSON body of a search request; `gl` is the country. */
  datatype Payload = Payload(q: string, num: int, gl: Option<string>)

  /** The request `_search` posts: the country goes only into web and news searches. */
  function SearchRequest(query: string, searchType: string, numResults: int, country: string): (r: (string, Payload))
    ensures r.0 == BaseUrl + "/" + searchType
    ensures r.1.q == query && r.1.num == numResults
    ensures r.1.gl.Some? <==> searchType == "search" || searchType == "news"
    ensures r.1.gl.Some? ==> r.1.gl.value == country
  {
    var payload := Payload(query, numResults, None);
    (BaseUrl + "/" + searchType,
     if searchType in ["search", "news"] then payload.(gl := Some(country)) else payload)
  }

  /** How the request went: a decoded body, an HTTP error status, or another exception's text. */
  datatype HttpOutcome = Ok(data: ResponseData) | HttpError(statusCode: int) | Raised(message: string)

  /**
   * `_search`: a processed response, or a failure whose message names the HTTP
   * status and its meaning, or carries the exception's text.
   */
  method Search(query: string, searchType: string, outcome: HttpOutcome, now: string) returns (r: SearchData)
    ensures r.searchType == searchType
    ensures r.Failed? <==> !outcome.Ok?
    ensures outcome.HttpError? ==>
      r.error == "HTTP " + IntToString(outcome.statusCode) + ": " + ErrorMessage(outcome.statusCode)
    ensures outcome.Raised? ==> r.error == outcome.message
    ensures outcome.Ok? ==>
      r.query == query && r.results == ResultsFor(outcome.data, searchType) && r.totalResults == |r.results|
    ensures outcome.Ok? ==>
      r.knowledgeGraph == (if searchType == "search" then KnowledgeGraphOf(outcome.data.knowledgeGraph) else None)
      && r.timestamp == now
  {
    match outcome {
      case Ok(data) =>
        r := ProcessSearchResponse(data, query, searchType, now);
      case HttpError(code) =>
        r := Failed("HTTP " + IntToString(code) + ": " + ErrorMessage(code), searchType);
      case Raised(message) =>
        r := Failed(message, searchType);
    }
  }
}
