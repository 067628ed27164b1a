/** The part of a job between its text and its result: chunk, extract from every chunk, merge; and
    what it costs. */
module Pipeline {
  import opened Json
  import opened Router
  import Merge
  import Runes
  import Packing
  import Chunking
  import ChunkInvariants
  import ChunkLimits

  // --- Prices, in units of 10^-8 USD ---

  const FAST_IN := 15
  const FAST_OUT := 60
  const STRONG_IN := 250
  const STRONG_OUT := 1000

  function Price(tier: Tier, tokensIn: nat, tokensOut: nat): nat {
    if tier == Strong then tokensIn * STRONG_IN + tokensOut * STRONG_OUT
    else tokensIn * FAST_IN + tokensOut * FAST_OUT
  }

  // --- What a job adds up over its chunks ---

  /** The responses of the chunks that gave one, in order. */
  function Successes(outcomes: seq<Option<Response>>): seq<Response> {
    if outcomes == [] then []
    else
      var last := outcomes[|outcomes| - 1];
      Successes(outcomes[..|outcomes| - 1]) + (if last.Some? then [last.value] else [])
  }

  function FieldsOf(rs: seq<Response>): seq<Fields> {
    if rs == [] then [] else FieldsOf(rs[..|rs| - 1]) + [rs[|rs| - 1].fields]
  }

  function SumIn(rs: seq<Response>): nat {
    if rs == [] then 0 else SumIn(rs[..|rs| - 1]) + rs[|rs| - 1].tokensIn
  }

  function SumOut(rs: seq<Response>): nat {
    if rs == [] then 0 else SumOut(rs[..|rs| - 1]) + rs[|rs| - 1].tokensOut
  }

  function SumPrice(rs: seq<Response>): nat {
    if rs == [] then 0
    else
      var r := rs[|rs| - 1];
      SumPrice(rs[..|rs| - 1]) + Price(r.modelUsed, r.tokensIn, r.tokensOut)
  }

  function CallCount(calls: seq<seq<Tier>>): nat {
    if calls == [] then 0 else CallCount(calls[..|calls| - 1]) + |calls[|calls| - 1]|
  }

  function FastCount(calls: seq<seq<Tier>>): nat {
    if calls == [] then 0 else FastCount(calls[..|calls| - 1]) + Count(calls[|calls| - 1], Fast)
  }

  /** The job's totals, as processJob accumulates them. */
  datatype Totals = Totals(results: seq<Fields>, tokensIn: nat, tokensOut: nat, cost: nat, modelUsed: Option<Tier>)

  function TotalsOf(rs: seq<Response>): Totals {
    Totals(FieldsOf(rs), SumIn(rs), SumOut(rs), SumPrice(rs),
           if rs == [] then None else Some(rs[|rs| - 1].modelUsed))
  }

  function RequestFor(chunk: Packing.Chunk, schema: Option<Value>): Request {
    Request(|chunk.content|, schema)
  }

  /** One extraction for every chunk, against the model's behaviour for that chunk. */
  ghost predicate Extractions(cfg: RouterConfig, chunks: seq<Packing.Chunk>, schema: Option<Value>,
                              model: nat -> Oracle, calls: seq<seq<Tier>>, outcomes: seq<Option<Response>>) {
    && |calls| == |outcomes| == |chunks|
    && forall i :: 0 <= i < |chunks| ==> Extraction(cfg, RequestFor(chunks[i], schema), model(i), calls[i], outcomes[i])
  }

  /** The totals once one more chunk has been tried. */
  function Add(t: Totals, outcome: Option<Response>): Totals {
    match outcome
    case None => t
    case Some(r) =>
      Totals(t.results + [r.fields], t.tokensIn + r.tokensIn, t.tokensOut + r.tokensOut,
             t.cost + Price(r.modelUsed, r.tokensIn, r.tokensOut), Some(r.modelUsed))
  }

  lemma {:induction false} TotalsAppend(outcomes: seq<Option<Response>>, outcome: Option<Response>)
    ensures TotalsOf(Successes(outcomes + [outcome])) == Add(TotalsOf(Successes(outcomes)), outcome)
  {
    assert (outcomes + [outcome])[..|outcomes|] == outcomes;
    var rs := Successes(outcomes);
    if outcome.None? {
      assert rs + [] == rs;
    } else {
      assert (rs + [outcome.value])[..|rs|] == rs;
    }
  }

  lemma {:induction false} ExtractionsAppend(cfg: RouterConfig, chunks: seq<Packing.Chunk>, schema: Option<Value>,
                                             model: nat -> Oracle, calls: seq<seq<Tier>>,
                                             outcomes: seq<Option<Response>>, i: nat,
                                             made: seq<Tier>, result: Option<Response>)
    requires i < |chunks| && Extractions(cfg, chunks[..i], schema, model, calls, outcomes)
    requires Extraction(cfg, RequestFor(chunks[i], schema), model(i), made, result)
    ensures Extractions(cfg, chunks[..i + 1], schema, model, calls + [made], outcomes + [result])
  {
  }

  /** The totals of no responses, and of one more. */
  lemma {:induction false} SumsExactly(rs: seq<Response>, r: Response)
    ensures TotalsOf([]) == Totals([], 0, 0, 0, None)
    ensures var before, after := TotalsOf(rs), TotalsOf(rs + [r]);
      && after.results == before.results + [r.fields]
      && after.tokensIn == before.tokensIn + r.tokensIn && after.tokensOut == before.tokensOut + r.tokensOut
      && after.cost == before.cost
           + (if r.modelUsed == Strong then 250 * r.tokensIn + 1000 * r.tokensOut
              else 15 * r.tokensIn + 60 * r.tokensOut)
      && after.modelUsed == Some(r.modelUsed)
  {
    assert (rs + [r])[..|rs|] == rs;
  }

  /** The successful responses, in order. */
  lemma {:induction false} SuccessesExactly(outcomes: seq<Option<Response>>, r: Response)
    ensures Successes([]) == [] && Successes(outcomes + [None]) == Successes(outcomes)
    ensures Successes(outcomes + [Some(r)]) == Successes(outcomes) + [r]
  {
    assert (outcomes + [None])[..|outcomes|] == outcomes && (outcomes + [Some(r)])[..|outcomes|] == outcomes;
  }

  method AddResponse(before: Totals, resp: Response) returns (totals: Totals)
    ensures totals == Add(before, Some(resp))
  {
    var allResults := before.results + [resp.fields];
    var totalIn := before.tokensIn + resp.tokensIn;
    var totalOut := before.tokensOut + resp.tokensOut;
    var totalCost := before.cost;
    if resp.modelUsed == Strong {
      totalCost := totalCost + (resp.tokensIn * 250 + resp.tokensOut * 1000);
    } else {
      totalCost := totalCost + (resp.tokensIn * 15 + resp.tokensOut * 60);
    }
    totals := Totals(allResults, totalIn, totalOut, totalCost, Some(resp.modelUsed));
  }

  /** The loop over the chunks: a failed chunk is skipped, a successful one is added to the totals. */
  method ExtractChunks(cfg: RouterConfig, chunks: seq<Packing.Chunk>, schema: Option<Value>, model: nat -> Oracle)
    returns (totals: Totals, calls: seq<seq<Tier>>, outcomes: seq<Option<Response>>)
    ensures Extractions(cfg, chunks, schema, model, calls, outcomes)
    ensures totals == TotalsOf(Successes(outcomes))
    ensures |calls| == |outcomes| == |chunks|
    ensures forall i :: 0 <= i < |chunks| ==>
      Extracted(cfg, Request(|chunks[i].content|, schema), model(i), calls[i], outcomes[i])
  {
    calls, outcomes := [], [];
    totals := Totals([], 0, 0, 0, None);
    for i := 0 to |chunks|
      invariant Extractions(cfg, chunks[..i], schema, model, calls, outcomes)
      invariant totals == TotalsOf(Successes(outcomes))
    {
      var result, made := Extract(cfg, RequestFor(chunks[i], schema), model(i));
      ExtractionsAppend(cfg, chunks, schema, model, calls, outcomes, i, made, result);
      TotalsAppend(outcomes, result);
      calls, outcomes := calls + [made], outcomes + [result];
      if result.None? {
        continue;
      }
      totals := AddResponse(totals, result.value);
    }
    assert chunks[..|chunks|] == chunks;
    forall i | 0 <= i < |chunks|
      ensures Extracted(cfg, Request(|chunks[i].content|, schema), model(i), calls[i], outcomes[i])
    {
      ExtractionMeans(cfg, RequestFor(chunks[i], schema), model(i), calls[i], outcomes[i]);
    }
  }

  // --- Bounds on calls and cost ---

  /** What the two counts count. */
  lemma {:induction false} CountsExactly(calls: seq<seq<Tier>>, made: seq<Tier>)
    ensures CallCount([]) == 0 && CallCount(calls + [made]) == CallCount(calls) + |made|
    ensures FastCount([]) == 0
    ensures FastCount(calls + [made]) == FastCount(calls) + |set i | 0 <= i < |made| && made[i] == Fast|
  {
    assert (calls + [made])[..|calls|] == calls;
    CountIsSize(made, Fast);
  }

  /** A job makes at most `maxRetries + 1` calls a chunk, and at most one of them to the fast model. */
  lemma {:induction false} CallBound(cfg: RouterConfig, chunks: seq<Packing.Chunk>, schema: Option<Value>,
                                     model: nat -> Oracle, calls: seq<seq<Tier>>, outcomes: seq<Option<Response>>)
    requires Extractions(cfg, chunks, schema, model, calls, outcomes)
    ensures CallCount(calls) <= |chunks| * Attempts(cfg)
    ensures FastCount(calls) <= |chunks|
  {
    if chunks != [] {
      var n := |chunks| - 1;
      CallBound(cfg, chunks[..n], schema, model, calls[..n], outcomes[..n]);
      FastAtMostOnce(cfg, RequestFor(chunks[n], schema), model(n), calls[n], outcomes[n]);
      OneMore(n, Attempts(cfg));
    }
  }

  lemma {:induction false} OneMore(n: nat, a: nat)
    ensures (n + 1) * a == n * a + a
  {
  }

  /** What the strong model's share of the tokens adds to the price of the fast one. */
  function StrongIn(rs: seq<Response>): nat {
    if rs == [] then 0
    else StrongIn(rs[..|rs| - 1]) + (if rs[|rs| - 1].modelUsed == Strong then rs[|rs| - 1].tokensIn else 0)
  }

  function StrongOut(rs: seq<Response>): nat {
    if rs == [] then 0
    else StrongOut(rs[..|rs| - 1]) + (if rs[|rs| - 1].modelUsed == Strong then rs[|rs| - 1].tokensOut else 0)
  }

  /** The cost in closed form; it lies between pricing all tokens fast and all tokens strong, and these
      two are in the ratio 3 to 50. */
  lemma {:induction false} CostBounds(rs: seq<Response>)
    ensures SumPrice(rs) == Price(Fast, SumIn(rs), SumOut(rs)) + 235 * StrongIn(rs) + 940 * StrongOut(rs)
    ensures StrongIn(rs) <= SumIn(rs) && StrongOut(rs) <= SumOut(rs)
    ensures Price(Fast, SumIn(rs), SumOut(rs)) <= SumPrice(rs) <= Price(Strong, SumIn(rs), SumOut(rs))
    ensures 3 * Price(Strong, SumIn(rs), SumOut(rs)) == 50 * Price(Fast, SumIn(rs), SumOut(rs))
  {
    if rs != [] {
      CostBounds(rs[..|rs| - 1]);
    }
  }

  /** The most chunks a text can give. */
  function ChunkAllowance(chunking: Packing.ChunkConfig, text: Runes.Text): nat {
    ChunkInvariants.Cap(chunking) + ChunkLimits.Excess(chunking, text)
  }

  /** So the number of calls is bounded by the text and the configuration alone. */
  lemma {:induction false} TextCallBound(chunking: Packing.ChunkConfig, cfg: RouterConfig, text: Runes.Text,
                                         schema: Option<Value>, model: nat -> Oracle,
                                         calls: seq<seq<Tier>>, outcomes: seq<Option<Response>>)
    requires Extractions(cfg, Chunking.Chunks(chunking, text), schema, model, calls, outcomes)
    ensures CallCount(calls) <= ChunkAllowance(chunking, text) * Attempts(cfg)
  {
    var chunks := Chunking.Chunks(chunking, text);
    CallBound(cfg, chunks, schema, model, calls, outcomes);
    ChunkLimits.CountBound(chunking, text);
    ProductMonotone(|chunks|, ChunkAllowance(chunking, text), Attempts(cfg));
  }

  lemma {:induction false} ProductMonotone(a: nat, b: nat, c: nat)
    requires a <= b
    ensures a * c <= b * c
  {
  }

  lemma {:induction false} FieldsLength(rs: seq<Response>)
    ensures |FieldsOf(rs)| == |rs|
  {
    if rs != [] {
      FieldsLength(rs[..|rs| - 1]);
    }
  }

  // --- The whole way from text to result ---

  datatype JobResult =
    | Failed(reason: string)
    | Done(fields: Fields, confidence: map<string, real>, modelUsed: Tier, cost: nat)

  /** What a successful job records. */
  ghost predicate Records(result: JobResult, schema: Option<Value>, rs: seq<Response>) {
    && rs != []
    && result == Done(Merge.Merged(FieldsOf(rs), Properties(schema)),
                      Merge.Confidence(FieldsOf(rs), Properties(schema)),
                      rs[|rs| - 1].modelUsed, SumPrice(rs))
  }

  /** From the extracted text on: chunk it, extract from every chunk, merge what came back. The number of
      calls is bounded by the text and the configuration alone. */
  method ProcessText(chunking: Packing.ChunkConfig, cfg: RouterConfig, text: Runes.Text, schema: Option<Value>,
                     model: nat -> Oracle)
    returns (result: JobResult, calls: seq<seq<Tier>>, outcomes: seq<Option<Response>>)
    ensures text == [] ==> result.Failed? && calls == []
    ensures text != [] ==>
      && Extractions(cfg, Chunking.Chunks(chunking, text), schema, model, calls, outcomes)
      && (if Successes(outcomes) == [] then result.Failed? else Records(result, schema, Successes(outcomes)))
    ensures CallCount(calls) <= ChunkAllowance(chunking, text) * Attempts(cfg)
  {
    if text == [] {
      return Failed("no text extracted from document"), [], [];
    }
    var chunks := Chunking.ChunkText(chunking, text);
    var totals;
    totals, calls, outcomes := ExtractChunks(cfg, chunks, schema, model);
    TextCallBound(chunking, cfg, text, schema, model, calls, outcomes);
    FieldsLength(Successes(outcomes));
    if |totals.results| == 0 {
      return Failed("no chunks produced results"), calls, outcomes;
    }
    var merged, confidence := Merge.MergeResults(totals.results, schema);
    result := Done(merged, confidence, totals.modelUsed.value, totals.cost);
  }
}
