# RagChatBot query routing and prompt assembly, in Dafny

A model of the logic in `app.py` of a small retrieval-augmented trade-intelligence
front end. A user query is routed to one vector-search namespace by keyword,
the hits of one search in that namespace are serialised into a context block,
and the context is embedded in a prompt for a generative model whose text is
shown to the user. With no hits, a fixed warning is shown and the model is
not called.

The search service and the generative model are function-valued parameters.
Two records make their use observable: `Answers.Answer` and `App.Page` carry
the list of prompts the model was called on and the list of search requests
issued. Python's `str(float)` and the `repr` of the fields dictionary are
taken as given: they are the two rendering functions of `Context.Show`.

Modules, one per component of `app.py`:

- `Wrappers`: `Option`, standing in for `None` and `dict.get` defaults.
- `Strings`: ASCII lower-casing and substring containment. The executable
  `Contains` is proved equal to the declarative `Occurs`.
- `Namespaces`: `detect_namespace`, plus an equivalent rule table.
- `Context`: the hit record and `build_context`, both as a recursive function
  and as the accumulating loop of the source.
- `Answers`: the prompt template and `generate_answer`.
- `App`: `retrieve`'s response unwrapping and the `home` route.

What the code does, and so what the model does:

- Every query goes to exactly one namespace. When no keyword matches, the
  query goes to `exporters`.
- The search service is asked for 5 results (`top_k=5`).
- The hits are not merged or sorted. They are used in the order the service
  returns them.
- Each block of the context shows ID, score and fields only.
- There is no credential rotation, no retry and no refusal heuristic. The
  model's text is returned as is.
- The prompt carries the instructions in `app.py:103-107` and nothing more.

## Model

| member | source | states |
|---|---|---|
| Strings.LowerIdempotent | app.py:40 | lower-casing a lower-cased query changes nothing |
| Strings.ContainsIffOccurs | app.py:41-46 | the `in` test holds exactly when some index of the query starts a copy of the keyword |
| Namespaces.DetectNamespace | app.py:39-48 | the result is one of the three routes; "exporter" forces the exporters route whatever else occurs; the importers route is chosen exactly when "importer" or "buyer" occurs and "exporter" does not; the news route exactly when "news" or "risk" occurs and none of the three earlier keywords; the exporters route exactly when "exporter" occurs or no keyword does |
| Namespaces.DetectIgnoresCase | app.py:40 | classifying a query and classifying its lower-cased form give the same route |
| Namespaces.DetectAgreesUpToCase | app.py:40 | queries equal up to ASCII case get the same route |
| Namespaces.DetectIsFirstMatchingRule | app.py:41-48 | the branch chain equals "first rule in the table (exporter; importer, buyer; news, risk) with a keyword in the lower-cased query, else exporters" |
| Namespaces.DetectExampleExporters | app.py:41-42 | "list top exporters in electronics" goes to the exporters namespace |
| Namespaces.DetectExampleMixedCase | app.py:40-42 | "Importers and EXPORTERS of rice" goes to exporters: upper case still matches, and "exporter" outranks "importer" |
| Namespaces.DetectExampleBuyers | app.py:43-44 | "Buyers" goes to the importers namespace with record type "importer" |
| Namespaces.DetectExampleRisk | app.py:45-46 | "RISK" goes to the global_news namespace with record type "news" |
| Namespaces.DetectExampleFallback | app.py:47-48 | a query with no keyword goes to the exporters namespace |
| Context.BuildContext | app.py:70-80 | the context is empty exactly when there are no hits |
| Context.BuildContextAppend | app.py:70-80 | the context of `a + b` is the context of `a` followed by the context of `b` |
| Context.BuildContextBlockAt | app.py:72-79 | hit `i` contributes exactly its own ID/Score/Details/separator block, after the blocks of the hits before it and before those after it |
| Context.MissingFieldsRenderEmpty | app.py:73-77 | a hit without a "fields" entry is written exactly like one whose fields are the empty dictionary; a "fields" entry that is present but null stays null |
| Context.AccumulateContext | app.py:70-80 | the source's loop, appending one block per hit to an initially empty string, computes the context, and yields "" exactly when there are no hits |
| Answers.TemplateFrame | app.py:93-108 | the prompt starts with the "User Query" section holding the query and ends with the instructions |
| Answers.PromptEmbedsInputs | app.py:93-108 | the prompt starts with the query's section, holds the "Record Type" and "Retrieved Data" sections with their contents, contains the query, record type and context, and ends with the fixed instructions |
| Answers.GenerateAnswer | app.py:86-111 | the model is called iff there are hits, and at most once; with no hits the answer is the fixed warning; otherwise the model is called on the prompt built from the query, the record type and the context, that prompt contains all three, and the answer is the model's text unchanged |
| Answers.AnswerIsModelText | app.py:110-111 | for any model, the answer on non-empty hits is the model's response to the prompt |
| Answers.EmptyResultsIgnoreModel | app.py:88-89 | with no hits the answer is the same for every query, record type and model |
| App.Retrieve | app.py:54-64 | `retrieve` sends exactly one request to the search service, carrying the namespace, the query text and `top_k`; it returns that response's hits in the service's order, or no hits when the response has no "result" or no "hits" |
| App.HitsOf | app.py:64 | a missing "result" or a missing "hits" gives no hits; otherwise the service's hits are returned as they are |
| App.Home | app.py:117-130 | a GET makes no calls and has no answer; a POST issues one search, in the namespace the classifier chose, with the query and top-k 5, then calls the model iff that search found hits; with no hits the answer is the fixed warning; otherwise it is the model's text on the prompt built from the query, the route's record type and the context of the hits that search returned, and that prompt contains the query and the record type |
| App.EmptySearchSkipsModel | app.py:88-89 | when the one search a POST issues returns no hits, the POST gives the fixed warning after that search and no model call |

## Left out

- Loading the environment (`app.py:11-15`) is configuration I/O.
- Setting up the Gemini client (`app.py:20-21`) and the Pinecone client
  (`app.py:32-33`) is left out. These services are the `model` and `search`
  parameters.
- The Flask application object, form reading, `render_template` and
  `app.run` (`app.py:27`, `app.py:123`, `app.py:130`, `app.py:136-137`) are
  web plumbing. `App.Home` takes the query from the request and stops at the
  value handed to the template.
- Context.BuildContext: the text of `str(float)` and of Python's `repr` of the
  fields value is not modelled. `Context.Show` supplies it. The hit keeps
  dictionary entries in insertion order, keeps strings, integers and floats
  apart (`Str("1")`, `Int(1)` and `Num(1.0)` differ), and keeps a "fields"
  entry that is present but null. Floats, both scores and `Num` values, are
  exact reals: there is no `-0.0` apart from `0.0`, no `nan` and no `inf`, and
  two floats that Python prints differently but that stand for the same real
  print alike here. The model promises nothing about how two values print.
- An error raised by `generate_content` or `response.text` (blocked or empty
  candidates) is not modelled. The external services are taken to be total.
- Strings.LowerIdempotent: lower-casing covers ASCII letters only, not the
  full Unicode case mapping of `str.lower`.
- Namespaces.DetectNamespace: because lower-casing is ASCII only, a non-ASCII
  character that Python lower-cases to an ASCII letter is not matched. An
  example is the Kelvin sign, which Python lowers to "k".
