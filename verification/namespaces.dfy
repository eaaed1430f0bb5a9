/**
 * The query classifier of app.py: routes a free-text query to exactly one
 * search namespace and the record-type label shown with it, by
 * case-insensitive keyword containment in a fixed priority order.
 */
module Namespaces {
  import opened Strings

  /** A `(namespace, record_type)` pair as returned by `detect_namespace`. */
  datatype Route = Route(namespace: string, recordType: string)

  const ExportersRoute := Route("exporters", "exporter")
  const ImportersRoute := Route("importers", "importer")
  const NewsRoute := Route("global_news", "news")

  /** The only routes the classifier can produce. */
  const Routes: set<Route> := {ExportersRoute, ImportersRoute, NewsRoute}

  /** The (lower-case) keyword occurs in the lower-cased query. */
  ghost predicate Mentions(query: string, keyword: string) {
    Occurs(Lower(query), keyword)
  }

  /** None of the five routing keywords occurs in the query. */
  ghost predicate MentionsNoKeyword(query: string) {
    && !Mentions(query, "exporter")
    && !Mentions(query, "importer")
    && !Mentions(query, "buyer")
    && !Mentions(query, "news")
    && !Mentions(query, "risk")
  }

  /**
   * `detect_namespace`: "exporter" wins over everything, then "importer" or
   * "buyer", then "news" or "risk"; a query with none of them falls back to
   * the exporters namespace.
   */
  function DetectNamespace(query: string): (r: Route)
    ensures r in Routes
    ensures Mentions(query, "exporter") ==> r == ExportersRoute
    ensures r == ImportersRoute <==>
      !Mentions(query, "exporter") && (Mentions(query, "importer") || Mentions(query, "buyer"))
    ensures r == NewsRoute <==>
      && !Mentions(query, "exporter") && !Mentions(query, "importer") && !Mentions(query, "buyer")
      && (Mentions(query, "news") || Mentions(query, "risk"))
    ensures r == ExportersRoute <==> Mentions(query, "exporter") || MentionsNoKeyword(query)
    ensures MentionsNoKeyword(query) ==> r == ExportersRoute
  {
    var q := Lower(query);
    ContainsIffOccurs(q, "exporter");
    ContainsIffOccurs(q, "importer");
    ContainsIffOccurs(q, "buyer");
    ContainsIffOccurs(q, "news");
    ContainsIffOccurs(q, "risk");
    if Contains(q, "exporter") then
      ExportersRoute
    else if Contains(q, "importer") || Contains(q, "buyer") then
      ImportersRoute
    else if Contains(q, "news") || Contains(q, "risk") then
      NewsRoute
    else
      ExportersRoute
  }

  /** The classifier only looks at the lower-cased query. */
  lemma DetectIgnoresCase(query: string)
    ensures DetectNamespace(Lower(query)) == DetectNamespace(query)
  {
    LowerIdempotent(query);
  }

  /** Two queries that agree up to ASCII case are routed alike. */
  lemma DetectAgreesUpToCase(q1: string, q2: string)
    requires Lower(q1) == Lower(q2)
    ensures DetectNamespace(q1) == DetectNamespace(q2)
  {
  }

  /**
   * The routing rules as data: a namespace is chosen by the first rule one of
   * whose keywords occurs in the lower-cased query.
   */
  datatype Rule = Rule(keywords: seq<string>, route: Route)

  const RoutingRules: seq<Rule> := [
    Rule(["exporter"], ExportersRoute),
    Rule(["importer", "buyer"], ImportersRoute),
    Rule(["news", "risk"], NewsRoute)
  ]

  const FallbackRoute := ExportersRoute

  ghost predicate AnyOccurs(q: string, keywords: seq<string>) {
    exists k :: 0 <= k < |keywords| && Occurs(q, keywords[k])
  }

  /** Route of the first rule that fires on `q`, or `fallback` when none does. */
  ghost function FirstMatch(rules: seq<Rule>, q: string, fallback: Route): Route
    decreases |rules|
  {
    if rules == [] then fallback
    else if AnyOccurs(q, rules[0].keywords) then rules[0].route
    else FirstMatch(rules[1..], q, fallback)
  }

  /** Whether some keyword of a one- or two-keyword rule fires. */
  lemma AnyOccursSmall(q: string, keywords: seq<string>)
    requires 1 <= |keywords| <= 2
    ensures AnyOccurs(q, keywords) <==>
      Occurs(q, keywords[0]) || (|keywords| == 2 && Occurs(q, keywords[1]))
  {
    if Occurs(q, keywords[0]) {
      assert 0 <= 0 < |keywords| && Occurs(q, keywords[0]);
    }
    if |keywords| == 2 && Occurs(q, keywords[1]) {
      assert 0 <= 1 < |keywords| && Occurs(q, keywords[1]);
    }
  }

  /** The hard-coded branches agree with the rule table, on every query. */
  lemma DetectIsFirstMatchingRule(query: string)
    ensures DetectNamespace(query) == FirstMatch(RoutingRules, Lower(query), FallbackRoute)
  {
    var q := Lower(query);
    var rest1 := RoutingRules[1..];
    var rest2 := rest1[1..];
    assert rest2[1..] == [];
    AnyOccursSmall(q, RoutingRules[0].keywords);
    AnyOccursSmall(q, rest1[0].keywords);
    AnyOccursSmall(q, rest2[0].keywords);
    assert FirstMatch(rest2, q, FallbackRoute) ==
      if Occurs(q, "news") || Occurs(q, "risk") then NewsRoute else FallbackRoute;
    assert FirstMatch(rest1, q, FallbackRoute) ==
      if Occurs(q, "importer") || Occurs(q, "buyer") then ImportersRoute
      else FirstMatch(rest2, q, FallbackRoute);
    assert FirstMatch(RoutingRules, q, FallbackRoute) ==
      if Occurs(q, "exporter") then ExportersRoute
      else FirstMatch(rest1, q, FallbackRoute);
  }

  /** A lower-case query naming exporters is routed to the exporters namespace. */
  lemma DetectExampleExporters()
    ensures DetectNamespace("list top exporters in electronics") == ExportersRoute
  {
    assert "list top exporters in electronics" == "list top " + "exporter" + "s in electronics";
    LowerConcat3("list top ", "exporter", "s in electronics");
    assert Lower("exporter") == "exporter";
    OccursInMiddle(Lower("list top "), "exporter", Lower("s in electronics"));
  }

  /** An upper-case "EXPORTERS" still wins over an "importers" that comes first. */
  lemma DetectExampleMixedCase()
    ensures DetectNamespace("Importers and EXPORTERS of rice") == ExportersRoute
  {
    assert "Importers and EXPORTERS of rice" == "Importers and " + "EXPORTER" + "S of rice";
    LowerConcat3("Importers and ", "EXPORTER", "S of rice");
    assert Lower("EXPORTER") == "exporter";
    OccursInMiddle(Lower("Importers and "), "exporter", Lower("S of rice"));
  }

  /** "Buyers" names no exporter or importer, so it goes to the importers namespace. */
  lemma DetectExampleBuyers()
    ensures DetectNamespace("Buyers") == ImportersRoute
  {
    var q := Lower("Buyers");
    assert q == "buyer" + "s" by {
      assert q == ['b', 'u', 'y', 'e', 'r', 's'];
    }
    assert OccursAt(q, "buyer", 0);
  }

  /** "RISK" is too short to hold any earlier keyword, so it goes to the news namespace. */
  lemma DetectExampleRisk()
    ensures DetectNamespace("RISK") == NewsRoute
  {
    var q := Lower("RISK");
    assert q == ['r', 'i', 's', 'k'];
    assert OccursAt(q, "risk", 0);
  }

  /** A query shorter than every keyword falls back to the exporters namespace. */
  lemma DetectExampleFallback()
    ensures DetectNamespace("xyz") == ExportersRoute
    ensures MentionsNoKeyword("xyz")
  {
  }
}
