/** The engine behind the two endpoints: the allow-listed functions, the vector index built
    from their names, the per-session prompt histories, and the resolve-then-dispatch flow. */
module Api {
  import opened Types
  import opened Sessions
  import opened Similarity
  import opened Dispatch
  import opened CodeGenerator

  const NoMatchingFunction := "No matching function found"

  /** One entry of a batch response. */
  datatype BatchItem = BatchItem(functionName: Option<string>, output: Value, code: Option<string>)

  const NoMatchItem := BatchItem(None, Str(NoMatchingFunction), None)

  /** Response of the single-prompt endpoint; NotFound stands for the 404 answer. */
  datatype Response =
    | NotFound
    | Found(functionName: string, output: Value, code: string, sessionHistory: seq<string>)

  /** The record a batch produces for one prompt: a resolved (truthy) name is dispatched
      without parameters and its script generated; anything else gives the fixed no-match record. */
  function BatchItemOf(allowed: map<string, Handler>, name: Option<string>): (item: BatchItem)
    ensures item.functionName.Some? <==> name.Some? && name.value != ""
    ensures item.functionName.Some? ==>
      item.functionName == name &&
      item.output == ExecuteFunction(allowed, name.value, None).output &&
      item.code == Some(GenerateCode(name.value))
    ensures item.functionName.None? ==> item == NoMatchItem
  {
    if name.Some? && name.value != "" then
      BatchItem(name, ExecuteFunction(allowed, name.value, None).output, Some(GenerateCode(name.value)))
    else
      NoMatchItem
  }

  class Engine {
    /** The allow-list: function name to handler. */
    const allowed: map<string, Handler>
    /** The sentence-embedding model, used for function names and prompts alike. */
    const embed: string -> Vector
    /** The distance the collection ranks query results by. */
    const dist: Metric
    /** The vector collection: id to stored embedding. */
    var index: Index
    /** session id to the prompts submitted in that session. */
    var sessions: map<string, seq<string>>

    /** No history holds a prompt twice. */
    ghost predicate Valid()
      reads this`sessions
    {
      forall sid :: sid in sessions ==> NoDuplicates(sessions[sid])
    }

    /** The index holds exactly one entry per allowed name: the embedding of that name. */
    ghost predicate Synced()
      reads this`index
    {
      index.Keys == allowed.Keys && forall n :: n in index ==> index[n] == embed(n)
    }

    /** Start-up: the collection comes back with whatever it held before (`stored`), it is
        rebuilt from the allow-list, and the session memory starts empty. */
    constructor (allowed: map<string, Handler>, embed: string -> Vector, dist: Metric, stored: Index)
      ensures this.allowed == allowed && this.embed == embed && this.dist == dist
      ensures Valid() && Synced()
      ensures sessions == map[]
    {
      this.allowed := allowed;
      this.embed := embed;
      this.dist := dist;
      index := stored;
      sessions := map[];
      new;
      ClearAndStoreFunctions();
    }

    /** Delete every stored id, then add one entry per allowed name. */
    method ClearAndStoreFunctions()
      modifies this`index
      ensures Synced()
    {
      var existing := index.Keys;
      if existing != {} {
        index := index - existing;
      }
      var names := allowed.Keys;
      index := index + map n | n in names :: embed(n);
    }

    /** The top-1 query: no ids for an empty collection, otherwise some entry of minimum
        distance (which one, among equally near entries, is left open). */
    method QueryNearest(q: Vector) returns (res: QueryResult)
      ensures res.NoIds? <==> index == map[]
      ensures res.Nearest? ==> IsNearest(index, dist, q, res.id) && res.distance == dist(q, index[res.id])
    {
      if index == map[] {
        res := NoIds;
      } else {
        NearestExists(index, dist, q);
        var id :| IsNearest(index, dist, q, id);
        res := Nearest(id, dist(q, index[id]));
      }
    }

    /** retrieve_best_function: record the prompt in the session (once), then query and apply
        the threshold. */
    method RetrieveBestFunction(prompt: string, sid: string) returns (name: Option<string>)
      requires Valid()
      modifies this`sessions
      ensures Valid()
      ensures sessions == old(sessions)[sid := Record(History(old(sessions), sid), prompt)]
      ensures Resolves(index, dist, embed(prompt), name)
    {
      var embedding := embed(prompt);
      if sid !in sessions {
        sessions := sessions[sid := []];
      }
      if prompt !in sessions[sid] {
        sessions := sessions[sid := sessions[sid] + [prompt]];
      }
      var results := QueryNearest(embedding);
      AcceptResolves(index, dist, embedding, results);
      name := Accept(results);
    }

    /** The single-prompt endpoint, minus HTTP. */
    method Execute(prompt: string, sid: string, params: Option<Params>) returns (resp: Response)
      requires Valid()
      modifies this`sessions
      ensures Valid()
      ensures sessions == old(sessions)[sid := Record(History(old(sessions), sid), prompt)]
      ensures resp.NotFound? ==>
        Resolves(index, dist, embed(prompt), None) || Resolves(index, dist, embed(prompt), Some(""))
      ensures resp.Found? ==>
        resp.functionName != "" && Resolves(index, dist, embed(prompt), Some(resp.functionName)) &&
        resp.output == ExecuteFunction(allowed, resp.functionName, params).output &&
        resp.code == GenerateCode(resp.functionName) &&
        resp.sessionHistory == sessions[sid]
    {
      var name := RetrieveBestFunction(prompt, sid);
      if name.None? || name.value == "" {
        resp := NotFound;
      } else {
        var output := ExecuteFunction(allowed, name.value, params).output;
        var code := GenerateCode(name.value);
        resp := Found(name.value, output, code, History(sessions, sid));
      }
    }

    /** The batch endpoint, minus HTTP: one result per prompt, in input order, each the
        record for what the resolver answered for that prompt. */
    method ExecuteMultiple(prompts: seq<string>, sid: string)
      returns (history: seq<string>, results: seq<BatchItem>, ghost answers: seq<Option<string>>)
      requires Valid()
      modifies this`sessions
      ensures Valid()
      ensures sessions == AfterBatch(old(sessions), sid, prompts)
      ensures history == History(sessions, sid)
      ensures |results| == |prompts| == |answers|
      ensures forall i :: 0 <= i < |prompts| ==> Resolves(index, dist, embed(prompts[i]), answers[i])
      ensures forall i :: 0 <= i < |prompts| ==> results[i] == BatchItemOf(allowed, answers[i])
    {
      ghost var others := sessions;
      results, answers := [], [];
      var i := 0;
      while i < |prompts|
        invariant 0 <= i <= |prompts|
        invariant Valid()
        invariant sessions == AfterBatch(others, sid, prompts[..i])
        invariant |results| == |answers| == i
        invariant forall j :: 0 <= j < i ==> Resolves(index, dist, embed(prompts[j]), answers[j])
        invariant forall j :: 0 <= j < i ==> results[j] == BatchItemOf(allowed, answers[j])
      {
        BatchStep(others, sid, prompts, i);
        var functionName := RetrieveBestFunction(prompts[i], sid);
        AnswersGrow(index, dist, embed, prompts, i, answers, functionName);
        ItemsGrow(allowed, results, answers, functionName);
        results := results + [BatchItemOf(allowed, functionName)];
        answers := answers + [functionName];
        i := i + 1;
      }
      assert prompts[..|prompts|] == prompts;
      history := History(sessions, sid);
    }
  }

  /** The session map after a batch: untouched when the batch is empty (no prompt is
      recorded, so the session is not even created), otherwise the session's history with
      every prompt of the batch recorded in order. */
  ghost function AfterBatch(sessions: map<string, seq<string>>, sid: string, ps: seq<string>): map<string, seq<string>>
  {
    if ps == [] then sessions else sessions[sid := RecordAll(History(sessions, sid), ps)]
  }

  /** The batch loop's append step for the resolver answers. */
  lemma AnswersGrow(idx: Index, dist: Metric, embed: string -> Vector, ps: seq<string>, i: nat,
                    answers: seq<Option<string>>, r: Option<string>)
    requires i < |ps| && |answers| == i
    requires forall j :: 0 <= j < i ==> Resolves(idx, dist, embed(ps[j]), answers[j])
    requires Resolves(idx, dist, embed(ps[i]), r)
    ensures forall j :: 0 <= j < i + 1 ==> Resolves(idx, dist, embed(ps[j]), (answers + [r])[j])
  {
  }

  /** The batch loop's append step for the result records. */
  lemma ItemsGrow(allowed: map<string, Handler>, results: seq<BatchItem>, answers: seq<Option<string>>, r: Option<string>)
    requires |results| == |answers|
    requires forall j :: 0 <= j < |answers| ==> results[j] == BatchItemOf(allowed, answers[j])
    ensures forall j :: 0 <= j < |answers| + 1 ==>
      (results + [BatchItemOf(allowed, r)])[j] == BatchItemOf(allowed, (answers + [r])[j])
  {
  }

  /** AfterBatch grows one recorded prompt at a time, as the batch loop does. */
  lemma BatchStep(sessions: map<string, seq<string>>, sid: string, ps: seq<string>, i: nat)
    requires i < |ps|
    ensures var prev := AfterBatch(sessions, sid, ps[..i]);
            AfterBatch(sessions, sid, ps[..i + 1]) == prev[sid := Record(History(prev, sid), ps[i])]
  {
    RecordAllStep(History(sessions, sid), ps, i);
  }

  /** After a rebuild, a name the resolver returns is on the allow-list, so dispatching it
      calls that name's handler. */
  lemma ResolvedNameIsAllowed(allowed: map<string, Handler>, idx: Index, dist: Metric, q: Vector,
                              f: string, params: Option<Params>)
    requires idx.Keys == allowed.Keys
    requires Resolves(idx, dist, q, Some(f))
    ensures f in allowed
    ensures ExecuteFunction(allowed, f, params).invoked == Some(Invocation(f, BindParams(params)))
  {
  }

  /** After a rebuild, submitting an allowed name itself as the prompt finds a match at
      distance zero, for any metric that puts a vector at distance zero from itself and
      never below zero. */
  lemma OwnNameMatches(allowed: map<string, Handler>, embed: string -> Vector, idx: Index,
                       dist: Metric, n: string, r: Option<string>)
    requires idx.Keys == allowed.Keys && forall m :: m in idx ==> idx[m] == embed(m)
    requires forall v :: dist(v, v) == 0.0
    requires forall u, v :: dist(u, v) >= 0.0
    requires n in allowed
    requires Resolves(idx, dist, embed(n), r)
    ensures r.Some? && r.value in allowed && dist(embed(n), embed(r.value)) == 0.0
  {
  }
}
