/**
 * `build_context` of app.py: serialises the list of search hits into the
 * text block that is pasted into the generation prompt, one block per hit.
 */
module Context {
  import opened Wrappers

  /**
   * A JSON-like value as the search service returns it. A dictionary keeps
   * its entries in insertion order, since that order shows in its repr;
   * integers (`Int`) and floats (`Num`) are kept apart, since `1` and `1.0`
   * print differently.
   */
  datatype Value =
    | Null
    | Bool(b: bool)
    | Int(i: int)
    | Num(x: real)
    | Str(s: string)
    | List(items: seq<Value>)
    | Dict(entries: seq<(string, Value)>)

  /**
   * One hit as returned by the search service. The identifier and the score
   * may be missing. `fields` is `None` when the hit has no "fields" entry and
   * `Some(v)` when it has one, even when `v` is `Null`.
   */
  datatype Hit = Hit(id: Option<string>, score: Option<real>, fields: Option<Value>)

  /**
   * How a score and a value are written inside an f-string (`str(float)` and
   * Python's repr); taken as given rather than modelled.
   */
  datatype Show = Show(score: real -> string, value: Value -> string)

  const Separator := "------------------------"

  /** How the identifier is written: itself, or "None" when it is missing. */
  function ShowId(id: Option<string>): string {
    match id
    case None => "None"
    case Some(s) => s
  }

  /** How the score is written: the rendered number, or "None" when it is missing. */
  function ShowScore(score: Option<real>, show: Show): string {
    match score
    case None => "None"
    case Some(x) => show.score(x)
  }

  /** The hit's "fields" entry, defaulting to the empty dictionary when there is none. */
  function FieldsOf(h: Hit): Value {
    h.fields.GetOr(Dict([]))
  }

  /** The text one hit contributes to the context. */
  function Block(h: Hit, show: Show): string {
    "\nID: " + ShowId(h.id)
    + "\nScore: " + ShowScore(h.score, show)
    + "\nDetails: " + show.value(FieldsOf(h))
    + "\n" + Separator + "\n"
  }

  /** The context: the blocks of the hits, in input order. */
  function BuildContext(results: seq<Hit>, show: Show): (context: string)
    ensures context == "" <==> results == []
    decreases |results|
  {
    if results == [] then "" else Block(results[0], show) + BuildContext(results[1..], show)
  }

  /** The context of a concatenation is the concatenation of the contexts. */
  lemma {:induction false} BuildContextAppend(a: seq<Hit>, b: seq<Hit>, show: Show)
    ensures BuildContext(a + b, show) == BuildContext(a, show) + BuildContext(b, show)
    decreases |a|
  {
    if a == [] {
      assert a + b == b;
    } else {
      assert (a + b)[0] == a[0];
      assert (a + b)[1..] == a[1..] + b;
      BuildContextAppend(a[1..], b, show);
      assert BuildContext(a + b, show) == Block(a[0], show) + BuildContext(a[1..] + b, show);
    }
  }

  /** Hit `i` contributes exactly its own block, after the blocks of the hits before it. */
  lemma BuildContextBlockAt(results: seq<Hit>, i: int, show: Show)
    requires 0 <= i < |results|
    ensures BuildContext(results, show) ==
      BuildContext(results[..i], show) + Block(results[i], show) + BuildContext(results[i + 1..], show)
  {
    var before, h, after := results[..i], results[i], results[i + 1..];
    assert results == before + [h] + after;
    BuildContextAppend(before + [h], after, show);
    BuildContextAppend(before, [h], show);
    assert [h][1..] == [];
    assert BuildContext([h], show) == Block(h, show);
  }

  /**
   * A hit without a "fields" entry is written exactly as one whose fields are
   * the empty dictionary; an entry that is present but null stays null.
   */
  lemma MissingFieldsRenderEmpty(id: Option<string>, score: Option<real>, show: Show)
    ensures Block(Hit(id, score, None), show) == Block(Hit(id, score, Some(Dict([]))), show)
    ensures FieldsOf(Hit(id, score, None)) == Dict([])
    ensures FieldsOf(Hit(id, score, Some(Null))) == Null
  {
  }

  /**
   * The loop of `build_context` as written: start from the empty string and
   * append one block per hit.
   */
  method AccumulateContext(results: seq<Hit>, show: Show) returns (context: string)
    ensures context == BuildContext(results, show)
    ensures context == "" <==> results == []
  {
    context := "";
    var i := 0;
    while i < |results|
      invariant 0 <= i <= |results|
      invariant context == BuildContext(results[..i], show)
    {
      BuildContextAppend(results[..i], [results[i]], show);
      assert results[..i + 1] == results[..i] + [results[i]];
      context := context + Block(results[i], show);
      i := i + 1;
    }
    assert results[..i] == results;
  }
}
