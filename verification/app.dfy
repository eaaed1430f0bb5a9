/**
 * The request path of app.py: the search call of `retrieve` and the POST
 * branch of the `home` route, which wires the classifier, one search and the
 * answer generator together. The search service and the generative model
 * are parameters.
 */
module App {
  import opened Wrappers
  import opened Strings
  import opened Namespaces
  import opened Context
  import opened Answers

  /** `retrieve`'s default result count. */
  const DefaultTopK: nat := 5

  /** One call to the vector-search service. */
  datatype SearchRequest = SearchRequest(namespace: string, text: string, topK: nat)

  /** The service's response; its "result" object and that object's "hits" may be absent. */
  datatype SearchResult = SearchResult(hits: Option<seq<Hit>>)
  datatype SearchResponse = SearchResponse(result: Option<SearchResult>)

  /** The hits of a response; a missing result object or a missing hit list means no hits. */
  function HitsOf(response: SearchResponse): (hits: seq<Hit>)
    ensures response.result.None? ==> hits == []
    ensures response.result.Some? && response.result.value.hits.None? ==> hits == []
    ensures response.result.Some? && response.result.value.hits.Some? ==>
      hits == response.result.value.hits.value
  {
    response.result.GetOr(SearchResult(None)).hits.GetOr([])
  }

  /** What one call of `retrieve` did: the request it sent and the hits it returned. */
  datatype Retrieval = Retrieval(request: SearchRequest, hits: seq<Hit>)

  /**
   * `retrieve`: exactly one search of one namespace with the query text and
   * the result count, returning the hits in the service's order.
   */
  function Retrieve(namespace: string, query: string, topK: nat,
                    search: SearchRequest -> SearchResponse): (r: Retrieval)
    ensures r.request == SearchRequest(namespace, query, topK)
    ensures r.hits == HitsOf(search(r.request))
    ensures var response := search(r.request);
      response.result.Some? && response.result.value.hits.Some? ==>
        r.hits == response.result.value.hits.value
    ensures var response := search(r.request);
      response.result.None? || response.result.value.hits.None? ==> r.hits == []
  {
    var request := SearchRequest(namespace, query, topK);
    Retrieval(request, HitsOf(search(request)))
  }

  datatype Request = Get | Post(query: string)

  /**
   * What serving one request produced: the answer handed to the page
   * template (`None` on GET), and the calls made to the search service and to
   * the generative model, in order.
   */
  datatype Page = Page(answer: Option<string>, searches: seq<SearchRequest>, prompts: seq<string>)

  /** The `home` route, up to rendering the template. */
  function Home(request: Request, search: SearchRequest -> SearchResponse,
                model: string -> string, show: Show): (page: Page)
    ensures request.Get? ==> page == Page(None, [], [])
    ensures request.Post? ==>
      var route := DetectNamespace(request.query);
      && page.answer.Some?
      && page.searches == [SearchRequest(route.namespace, request.query, DefaultTopK)]
      && page.searches[0].namespace in {"exporters", "importers", "global_news"}
      && |page.prompts| <= 1
      && (page.prompts == [] <==> HitsOf(search(page.searches[0])) == [])
      && (page.prompts == [] ==> page.answer == Some(NoRecordsMessage))
      && (page.prompts != [] ==>
            && page.answer == Some(model(page.prompts[0]))
            && page.prompts[0] == Prompt(request.query, route.recordType,
                                         BuildContext(HitsOf(search(page.searches[0])), show))
            && Occurs(page.prompts[0], request.query)
            && Occurs(page.prompts[0], route.recordType))
  {
    match request
    case Get => Page(None, [], [])
    case Post(query) =>
      var route := DetectNamespace(query);
      var retrieval := Retrieve(route.namespace, query, DefaultTopK, search);
      var answer := GenerateAnswer(query, retrieval.hits, route.recordType, show, model);
      Page(Some(answer.text), [retrieval.request], answer.prompts)
  }

  /**
   * A search that finds nothing yields the fixed message without calling the
   * model, whatever the query.
   */
  lemma EmptySearchSkipsModel(query: string, search: SearchRequest -> SearchResponse,
                              model: string -> string, show: Show)
    requires HitsOf(search(SearchRequest(DetectNamespace(query).namespace, query, DefaultTopK))) == []
    ensures Home(Post(query), search, model, show) == Page(
      Some(NoRecordsMessage),
      [SearchRequest(DetectNamespace(query).namespace, query, DefaultTopK)],
      [])
  {
  }
}
