/** Model routing: one fast attempt at most, then the strong model until the retries run out. */
module Router {
  import opened Json

  datatype Tier = Fast | Strong

  datatype RouterConfig = RouterConfig(maxRetries: int, complexityThreshold: int)

  datatype Request = Request(chunkLength: nat, schema: Option<Value>)

  /** What one call to the model comes to: an error (of the API, an empty answer, or one that is not a
      JSON object), or an object. */
  datatype Outcome = CallFailed | Answered(fields: Fields, tokensIn: nat, tokensOut: nat)

  datatype Response = Response(fields: Fields, modelUsed: Tier, tokensIn: nat, tokensOut: nat)

  /** The model: what the attempt with a given number comes to if made with a given tier. */
  type Oracle = (nat, Tier) -> Outcome

  // --- Choosing the first tier ---

  predicate Nested(prop: Value) {
    TypeOf(prop) == "array" || TypeOf(prop) == "object"
  }

  /** The properties are looked at in any order. */
  method HasNestedStructures(schema: Option<Value>) returns (nested: bool)
    ensures nested <==> exists key :: key in Properties(schema) && Nested(Properties(schema)[key])
  {
    var props := Properties(schema);
    var rest := props.Keys;
    while rest != {}
      invariant rest <= props.Keys
      invariant forall key :: key in props && key !in rest ==> !Nested(props[key])
      decreases rest
    {
      var key :| key in rest;
      if Nested(props[key]) {
        return true;
      }
      rest := rest - {key};
    }
    return false;
  }

  ghost predicate NeedsStrong(cfg: RouterConfig, req: Request) {
    || |Properties(req.schema)| > cfg.complexityThreshold
    || req.chunkLength > 3000
    || exists key :: key in Properties(req.schema) && Nested(Properties(req.schema)[key])
  }

  /** The same, on the schema itself: more declared properties than the threshold, a chunk longer than 3000,
      or a property declared an array or an object. */
  ghost predicate Complex(cfg: RouterConfig, req: Request) {
    || (if HasProperties(req.schema) then |req.schema.value.fields["properties"].fields| else 0)
         > cfg.complexityThreshold
    || req.chunkLength > 3000
    || exists key :: IsDeclaredAs(req.schema, key, "array") || IsDeclaredAs(req.schema, key, "object")
  }

  lemma {:induction false} ComplexExactly(cfg: RouterConfig, req: Request)
    ensures NeedsStrong(cfg, req) <==> Complex(cfg, req)
  {
    var props := Properties(req.schema);
    DeclaredExactly(req.schema, "", "array");
    if key :| key in props && Nested(props[key]) {
      DeclaredExactly(req.schema, key, "array");
      DeclaredExactly(req.schema, key, "object");
    }
    if key :| IsDeclaredAs(req.schema, key, "array") || IsDeclaredAs(req.schema, key, "object") {
      DeclaredExactly(req.schema, key, "array");
      DeclaredExactly(req.schema, key, "object");
      assert key in props && Nested(props[key]);
    }
  }

  method SelectTier(cfg: RouterConfig, req: Request) returns (tier: Tier)
    ensures tier == Strong <==> NeedsStrong(cfg, req)
    ensures tier == Strong <==> Complex(cfg, req)
  {
    ComplexExactly(cfg, req);
    if |Properties(req.schema)| > cfg.complexityThreshold {
      return Strong;
    }
    if req.chunkLength > 3000 {
      return Strong;
    }
    var nested := HasNestedStructures(req.schema);
    if nested {
      return Strong;
    }
    return Fast;
  }

  // --- Validating an answer ---

  function Required(schema: Option<Value>): seq<Value> {
    var def := Definition(schema);
    if "required" in def && def["required"].Arr? then def["required"].items else []
  }

  /** Every required name is a key of the answer; entries that are not strings ask for nothing, and null
      is a value like any other. */
  predicate Accepts(schema: Option<Value>, fields: Fields) {
    forall i :: 0 <= i < |Required(schema)| && Required(schema)[i].Str? ==> Required(schema)[i].s in fields
  }

  /** An answer is complete if every name that the schema itself requires is a key of it. */
  ghost predicate Complete(schema: Option<Value>, fields: Fields) {
    forall key :: IsRequired(schema, key) ==> key in fields
  }

  lemma {:induction false} CompleteExactly(schema: Option<Value>, fields: Fields)
    ensures Accepts(schema, fields) <==> Complete(schema, fields)
  {
    var required := Required(schema);
    if Accepts(schema, fields) {
      forall key | IsRequired(schema, key)
        ensures key in fields
      {
        var i :| 0 <= i < |required| && required[i] == Str(key);
      }
    }
    if Complete(schema, fields) {
      forall i | 0 <= i < |required| && required[i].Str?
        ensures required[i].s in fields
      {
        assert Str(required[i].s) in required;
        assert IsRequired(schema, required[i].s);
      }
    }
  }

  method ValidateResponse(fields: Fields, schema: Option<Value>) returns (ok: bool)
    ensures ok <==> Accepts(schema, fields)
    ensures ok <==> Complete(schema, fields)
  {
    CompleteExactly(schema, fields);
    var required := Required(schema);
    for i := 0 to |required|
      invariant forall j :: 0 <= j < i && required[j].Str? ==> required[j].s in fields
    {
      if !required[i].Str? {
        continue;
      }
      if required[i].s !in fields {
        return false;
      }
    }
    return true;
  }

  // --- Extraction with retries and escalation ---

  function Attempts(cfg: RouterConfig): nat {
    if cfg.maxRetries < 0 then 0 else cfg.maxRetries + 1
  }

  predicate Good(schema: Option<Value>, outcome: Outcome) {
    outcome.Answered? && Accepts(schema, outcome.fields)
  }

  /** Everything there is to know about one extraction: who was asked, in which order, and with what
      result. Only the first call can go to the fast model, and only if the request is simple; every
      call but the last was no good; a result is the good last answer, reported under the tier that gave
      it; and without one all attempts were used up. */
  ghost predicate Extraction(cfg: RouterConfig, req: Request, model: Oracle, calls: seq<Tier>,
                             result: Option<Response>) {
    && |calls| <= Attempts(cfg)
    && (forall k :: 0 <= k < |calls| ==> (calls[k] == Strong <==> k > 0 || NeedsStrong(cfg, req)))
    && (forall k :: 0 <= k < |calls| - 1 ==> !Good(req.schema, model(k, calls[k])))
    && match result
       case Some(resp) =>
         && calls != []
         && var last := |calls| - 1;
            && Good(req.schema, model(last, calls[last]))
            && var a := model(last, calls[last]); resp == Response(a.fields, calls[last], a.tokensIn, a.tokensOut)
       case None =>
         && |calls| == Attempts(cfg)
         && (calls != [] ==> !Good(req.schema, model(|calls| - 1, calls[|calls| - 1])))
  }

  /** An answer that is no use: none at all, or an incomplete one. */
  ghost predicate Useless(schema: Option<Value>, outcome: Outcome) {
    outcome.CallFailed? || !Complete(schema, outcome.fields)
  }

  /** What an extraction means, call by call. */
  ghost predicate Extracted(cfg: RouterConfig, req: Request, model: Oracle, calls: seq<Tier>,
                            result: Option<Response>) {
    && (if cfg.maxRetries < 0 then calls == [] && result == None else 1 <= |calls| <= cfg.maxRetries + 1)
    && (calls != [] ==> (calls[0] == Strong <==> Complex(cfg, req)))
    && (forall k :: 0 < k < |calls| ==> calls[k] == Strong)
    && (forall k :: 0 <= k < |calls| - 1 ==> Useless(req.schema, model(k, calls[k])))
    && (calls != [] ==>
          var n := |calls| - 1;
          var last := model(n, calls[n]);
          if Useless(req.schema, last) then result == None && n == cfg.maxRetries
          else result == Some(Response(last.fields, calls[n], last.tokensIn, last.tokensOut)))
  }

  lemma {:induction false} ExtractionMeans(cfg: RouterConfig, req: Request, model: Oracle, calls: seq<Tier>,
                                           result: Option<Response>)
    requires Extraction(cfg, req, model, calls, result)
    ensures Extracted(cfg, req, model, calls, result)
  {
    ComplexExactly(cfg, req);
    forall k | 0 <= k < |calls|
      ensures Good(req.schema, model(k, calls[k])) <==> !Useless(req.schema, model(k, calls[k]))
    {
      if model(k, calls[k]).Answered? {
        CompleteExactly(req.schema, model(k, calls[k]).fields);
      }
    }
  }

  method Extract(cfg: RouterConfig, req: Request, model: Oracle) returns (result: Option<Response>, calls: seq<Tier>)
    ensures Extraction(cfg, req, model, calls, result)
    ensures Extracted(cfg, req, model, calls, result)
  {
    var tier := SelectTier(cfg, req);
    calls := [];
    var attempt := 0;
    while attempt <= cfg.maxRetries
      invariant 0 <= attempt <= Attempts(cfg) && attempt == |calls|
      invariant tier == Strong <==> attempt > 0 || NeedsStrong(cfg, req)
      invariant forall k :: 0 <= k < |calls| ==> (calls[k] == Strong <==> k > 0 || NeedsStrong(cfg, req))
      invariant forall k :: 0 <= k < |calls| ==> !Good(req.schema, model(k, calls[k]))
    {
      var answer := model(attempt, tier);
      calls := calls + [tier];
      if answer.CallFailed? {
        if tier == Fast {
          tier := Strong;
        }
        attempt := attempt + 1;
        continue;
      }
      var ok := ValidateResponse(answer.fields, req.schema);
      if !ok {
        if tier == Fast {
          tier := Strong;
        }
        attempt := attempt + 1;
        continue;
      }
      result := Some(Response(answer.fields, tier, answer.tokensIn, answer.tokensOut));
      ExtractionMeans(cfg, req, model, calls, result);
      return;
    }
    result := None;
    ExtractionMeans(cfg, req, model, calls, result);
  }

  /** The description is complete: it leaves one outcome only. */
  lemma {:induction false} ExtractionUnique(cfg: RouterConfig, req: Request, model: Oracle, c1: seq<Tier>,
                                            r1: Option<Response>, c2: seq<Tier>, r2: Option<Response>)
    requires Extraction(cfg, req, model, c1, r1) && Extraction(cfg, req, model, c2, r2)
    ensures c1 == c2 && r1 == r2
  {
    assert forall k :: 0 <= k < |c1| && k < |c2| ==> c1[k] == c2[k];
    if c1 != [] && |c1| <= |c2| {
      assert c2[|c1| - 1] == c1[|c1| - 1];
    }
    if c2 != [] && |c2| <= |c1| {
      assert c1[|c2| - 1] == c2[|c2| - 1];
    }
  }

  function Count(calls: seq<Tier>, tier: Tier): nat {
    if calls == [] then 0 else Count(calls[..|calls| - 1], tier) + (if calls[|calls| - 1] == tier then 1 else 0)
  }

  lemma {:induction false} CountIsSize(calls: seq<Tier>, tier: Tier)
    ensures Count(calls, tier) == |set i | 0 <= i < |calls| && calls[i] == tier|
  {
    if calls != [] {
      var n := |calls| - 1;
      var init := calls[..n];
      CountIsSize(init, tier);
      var before, after := set i | 0 <= i < n && init[i] == tier, set i | 0 <= i < |calls| && calls[i] == tier;
      assert after == before + (if calls[n] == tier then {n} else {});
    }
  }

  lemma {:induction false} CountFast(calls: seq<Tier>)
    requires forall k :: 0 < k < |calls| ==> calls[k] == Strong
    ensures Count(calls, Fast) + Count(calls, Strong) == |calls|
    ensures Count(calls, Fast) == if calls != [] && calls[0] == Fast then 1 else 0
  {
    if calls != [] {
      CountFast(calls[..|calls| - 1]);
    }
  }

  /** In every extraction the fast model is asked at most once, and only as the first: exactly if the
      request is simple and anyone is asked at all. From the strong model there is no way back, and the
      response names the tier that was asked last. */
  lemma {:induction false} FastAtMostOnce(cfg: RouterConfig, req: Request, model: Oracle, calls: seq<Tier>,
                                          result: Option<Response>)
    requires Extraction(cfg, req, model, calls, result)
    ensures Count(calls, Fast) == (if calls != [] && !NeedsStrong(cfg, req) then 1 else 0)
    ensures Count(calls, Fast) + Count(calls, Strong) == |calls| <= Attempts(cfg)
    ensures forall i, j :: 0 <= i < j < |calls| && calls[i] == Strong ==> calls[j] == Strong
    ensures result.Some? ==> calls != [] && result.value.modelUsed == calls[|calls| - 1]
  {
    CountFast(calls);
  }
}
