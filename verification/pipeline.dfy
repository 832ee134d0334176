/**
 * `CrawlPrimePipeline`, the orchestrator: it builds the graph handles (whose
 * failure only disables graph retrieval), the vector handles and the
 * ingestion, retrieval and agentic sub-pipelines (whose failure propagates),
 * delegates `ingest` and `query`, and tears everything down with a
 * best-effort `close()`.
 *
 * The collaborators are foreign code. Each is an object with the references
 * the orchestrator gives it; what they do when called is passed in as a
 * function, and whether a construction or a close raises is an input.
 */
module Pipeline {
  import opened Wrappers

  /** A value returned, or an exception raised with its message. */
  datatype Outcome<+T> = Returned(value: T) | Raised(message: string)

  /** What `ingest` reports: chunks stored and the URLs that failed. */
  datatype IngestionReport = IngestionReport(chunksIngested: nat, failedDocuments: seq<string>)

  /** What `query` returns: the synthesised answer and the evidence used. */
  datatype AgenticResult = AgenticResult(answer: string, results: seq<string>)

  /** The connection managers the orchestrator creates. */
  datatype Role = QueryNeo4j | IngestorNeo4j | IngestionQdrant | RetrievalQdrant

  /** A `Neo4jManager` or `QdrantManager`: one connection, one `close()`. */
  class Handle {
    const role: Role
    constructor (role: Role)
      ensures this.role == role
    {
      this.role := role;
    }
  }

  /** `GraphQueryInterface`, reading through the retrieval-side Neo4j manager. */
  class GraphQueries {
    const neo4j: Handle
    constructor (neo4j: Handle)
      ensures this.neo4j == neo4j
    {
      this.neo4j := neo4j;
    }
  }

  /** `GraphIngestionManager`, holding its own Neo4j manager. */
  class GraphIngestor {
    const neo4jManager: Handle
    constructor (neo4jManager: Handle)
      ensures this.neo4jManager == neo4jManager
    {
      this.neo4jManager := neo4jManager;
    }
  }

  /** `DocumentIngestionPipeline`: its `close()` releases its own Qdrant
      manager and leaves the graph ingestor open. */
  class DocumentIngestion {
    const qdrant: Handle
    const graphIngestor: Option<GraphIngestor>
    constructor (qdrant: Handle, graphIngestor: Option<GraphIngestor>)
      ensures this.qdrant == qdrant && this.graphIngestor == graphIngestor
    {
      this.qdrant := qdrant;
      this.graphIngestor := graphIngestor;
    }
  }

  /** `WebIngestionPipeline`; `ingestUrl` is what its `ingest_url` does. */
  class WebIngestion {
    const storage: DocumentIngestion
    const ingestUrl: string -> Outcome<IngestionReport>
    constructor (storage: DocumentIngestion, ingestUrl: string -> Outcome<IngestionReport>)
      ensures this.storage == storage && this.ingestUrl == ingestUrl
    {
      this.storage := storage;
      this.ingestUrl := ingestUrl;
    }
  }

  /** The lexical (BM25) settings of a retriever. */
  datatype LexicalSettings = LexicalSettings(enabled: bool, weight: real)

  /** `HybridRetriever`. Its lexical settings start at the retriever's own
      defaults and are the one thing the orchestrator changes after
      construction. */
  class Retriever {
    const qdrant: Handle
    const neo4j: Option<Handle>
    const vectorWeight: real
    const graphWeight: real
    var lexicalEnabled: bool
    var lexicalWeight: real
    constructor (qdrant: Handle, neo4j: Option<Handle>, vectorWeight: real, graphWeight: real, defaults: LexicalSettings)
      ensures this.qdrant == qdrant && this.neo4j == neo4j
      ensures this.vectorWeight == vectorWeight && this.graphWeight == graphWeight
      ensures lexicalEnabled == defaults.enabled && lexicalWeight == defaults.weight
    {
      this.qdrant := qdrant;
      this.neo4j := neo4j;
      this.vectorWeight := vectorWeight;
      this.graphWeight := graphWeight;
      lexicalEnabled := defaults.enabled;
      lexicalWeight := defaults.weight;
    }
  }

  /** `AgenticPipeline`; `processQuery` is what its `process_query` does. */
  class Agentic {
    const retriever: Retriever
    const graphQueries: Option<GraphQueries>
    const raptor: Option<object>
    const community: Option<object>
    const enableSynthesis: bool
    const storagePath: string
    const processQuery: (string, int, real) -> Outcome<AgenticResult>
    constructor (retriever: Retriever, graphQueries: Option<GraphQueries>, raptor: Option<object>,
                 community: Option<object>, enableSynthesis: bool, storagePath: string,
                 processQuery: (string, int, real) -> Outcome<AgenticResult>)
      ensures this.retriever == retriever && this.graphQueries == graphQueries
      ensures this.raptor == raptor && this.community == community
      ensures this.enableSynthesis == enableSynthesis && this.storagePath == storagePath
      ensures this.processQuery == processQuery
    {
      this.retriever := retriever;
      this.graphQueries := graphQueries;
      this.raptor := raptor;
      this.community := community;
      this.enableSynthesis := enableSynthesis;
      this.storagePath := storagePath;
      this.processQuery := processQuery;
    }
  }

  /** The constructor's arguments that reach the model. */
  datatype Config = Config(
    collection: string,
    vectorWeight: real,
    graphWeight: real,
    lexicalWeight: real,
    enableSynthesis: bool,
    storagePath: Option<string>,
    raptor: Option<object>,
    community: Option<object>)

  /** The constructor's keyword defaults: collection `crawlprime_default`,
      weights 0.6, 0.3 and 0.1 (so lexical retrieval is on by default),
      synthesis on, the default storage path, no RAPTOR or community
      pipeline. */
  const DefaultConfig: Config := Config("crawlprime_default", 0.6, 0.3, 0.1, true, None, None, None)

  /** The statement of the guarded graph block that raises, if any. */
  datatype GraphFailure =
    | GraphOk
    | FailsAtNeo4jConfig      // Neo4jConfig(...)
    | FailsAtNeo4jManager     // Neo4jManager(config=...) for retrieval
    | FailsAtGraphQueries     // GraphQueryInterface(...)
    | FailsAtIngestorNeo4j    // the inline Neo4jManager(config=...) for ingestion
    | FailsAtGraphIngestor    // GraphIngestionManager(...)

  /** The unguarded statement that raises, in the order they run. */
  datatype FatalStage =
    | AtQdrantConfig | AtIngestionConfig | AtIngestionQdrant | AtIngestionStorage
    | AtWebIngestion | AtRetrievalQdrant | AtRetriever | AtAgentic

  /** What the foreign code does during and after construction. */
  datatype Environment = Environment(
    graphFailure: GraphFailure,
    fatal: Option<FatalStage>,
    retrieverLexicalDefaults: LexicalSettings,
    ingestUrl: string -> Outcome<IngestionReport>,
    processQuery: (string, int, real) -> Outcome<AgenticResult>)

  datatype Construction = Constructed(pipeline: CrawlPrimePipeline) | Failed(stage: FatalStage)

  /** One attempt of `close()` on a resource, and whether that call raised. */
  datatype CloseAttempt = CloseAttempt(target: object, raised: bool)

  function Targets(log: seq<CloseAttempt>): (r: seq<object>)
    ensures |r| == |log| && forall k :: 0 <= k < |log| ==> r[k] == log[k].target
  {
    seq(|log|, k requires 0 <= k < |log| => log[k].target)
  }

  /** The handles of a tuple that are not `None`, in order. */
  function Present(hs: seq<Option<Handle>>): (r: seq<object>)
    ensures |r| <= |hs|
  {
    if hs == [] then []
    else Present(hs[..|hs| - 1]) + (if hs[|hs| - 1].Some? then [hs[|hs| - 1].value as object] else [])
  }

  function Roles(hs: seq<Handle>): (r: seq<Role>)
    ensures |r| == |hs| && forall k :: 0 <= k < |hs| ==> r[k] == hs[k].role
  {
    seq(|hs|, k requires 0 <= k < |hs| => hs[k].role)
  }

  lemma RolesOfConcat(a: seq<Handle>, b: seq<Handle>)
    ensures Roles(a + b) == Roles(a) + Roles(b)
  {
    assert forall k :: 0 <= k < |a + b| ==> (a + b)[k].role == (Roles(a) + Roles(b))[k];
  }

  /** The graph weight handed to the retriever: the configured one only when
      the whole graph block completed. */
  function EffectiveGraphWeight(g: GraphFailure, graphWeight: real): (w: real)
    ensures w == graphWeight || w == 0.0
    ensures g.GraphOk? ==> w == graphWeight
    ensures !g.GraphOk? ==> w == 0.0
  {
    if g.GraphOk? then graphWeight else 0.0
  }

  /** The connection managers the graph block opens before it stops. */
  function GraphConnections(g: GraphFailure): seq<Role>
  {
    match g
    case FailsAtNeo4jConfig => []
    case FailsAtNeo4jManager => []
    case FailsAtGraphQueries => [QueryNeo4j]
    case FailsAtIngestorNeo4j => [QueryNeo4j]
    case FailsAtGraphIngestor => [QueryNeo4j, IngestorNeo4j]
    case GraphOk => [QueryNeo4j, IngestorNeo4j]
  }

  /** How many unguarded statements run before the one that raises; 8 when
      none raises. */
  function StageIndex(fatal: Option<FatalStage>): (i: nat)
    ensures i <= 8 && (i == 8 <==> fatal.None?)
  {
    match fatal
    case Some(AtQdrantConfig) => 0
    case Some(AtIngestionConfig) => 1
    case Some(AtIngestionQdrant) => 2
    case Some(AtIngestionStorage) => 3
    case Some(AtWebIngestion) => 4
    case Some(AtRetrievalQdrant) => 5
    case Some(AtRetriever) => 6
    case Some(AtAgentic) => 7
    case None => 8
  }

  /** The Qdrant managers opened before the unguarded statement `fatal`. */
  function QdrantConnectionsBefore(fatal: Option<FatalStage>): seq<Role>
  {
    var i := StageIndex(fatal);
    if i <= 2 then [] else if i <= 5 then [IngestionQdrant] else [IngestionQdrant, RetrievalQdrant]
  }

  class CrawlPrimePipeline {
    const collection: string
    const storagePath: string
    const neo4j: Option<Handle>
    const graphQueries: Option<GraphQueries>
    const graphIngestor: Option<GraphIngestor>
    const storage: DocumentIngestion
    const webIngestion: WebIngestion
    const retrievalQdrant: Handle
    const retriever: Retriever
    const agentic: Agentic
    /** Every connection manager construction opened, in order. */
    ghost const managers: seq<Handle>
    /** Every `close()` call made on a resource, in order. */
    ghost var closeLog: seq<CloseAttempt>

    constructor Assemble(collection: string, storagePath: string, neo4j: Option<Handle>,
                         graphQueries: Option<GraphQueries>, graphIngestor: Option<GraphIngestor>,
                         storage: DocumentIngestion, webIngestion: WebIngestion, retrievalQdrant: Handle,
                         retriever: Retriever, agentic: Agentic, ghost managers: seq<Handle>)
      ensures this.collection == collection && this.storagePath == storagePath
      ensures this.neo4j == neo4j && this.graphQueries == graphQueries && this.graphIngestor == graphIngestor
      ensures this.storage == storage && this.webIngestion == webIngestion
      ensures this.retrievalQdrant == retrievalQdrant && this.retriever == retriever && this.agentic == agentic
      ensures this.managers == managers && closeLog == []
    {
      this.collection := collection;
      this.storagePath := storagePath;
      this.neo4j := neo4j;
      this.graphQueries := graphQueries;
      this.graphIngestor := graphIngestor;
      this.storage := storage;
      this.webIngestion := webIngestion;
      this.retrievalQdrant := retrievalQdrant;
      this.retriever := retriever;
      this.agentic := agentic;
      this.managers := managers;
      closeLog := [];
    }

    /** The graph ingestor's own Neo4j manager, `None` when there is no graph ingestor. */
    function IngestorManager(): Option<Handle>
    {
      if graphIngestor.Some? then Some(graphIngestor.value.neo4jManager) else None
    }

    /** The resources `close()` calls `close()` on, in order: the ingestion
        pipeline, the retrieval Qdrant manager, then each Neo4j manager that
        exists. */
    function CloseOrder(): seq<object>
    {
      [storage as object, retrievalQdrant as object] + Present([neo4j, IngestorManager()])
    }

    /** The connection managers a `close()` releases, directly or through the
        ingestion pipeline's own `close()`. */
    ghost function Released(): set<Handle>
    {
      {storage.qdrant, retrievalQdrant}
      + (if neo4j.Some? then {neo4j.value} else {})
      + (if graphIngestor.Some? then {graphIngestor.value.neo4jManager} else {})
    }

    /** The connection managers `close()` reaches are distinct objects. */
    ghost predicate CloseTargetsDistinct()
    {
      && (neo4j.Some? ==> neo4j.value != retrievalQdrant)
      && (IngestorManager().Some? ==> IngestorManager().value != retrievalQdrant)
      && (neo4j.Some? && IngestorManager().Some? ==> neo4j.value != IngestorManager().value)
    }

    /** With distinct managers, one `close()` attempts each resource once. */
    lemma CloseOrderAttemptsEachOnce()
      requires CloseTargetsDistinct()
      ensures forall i, j :: 0 <= i < j < |CloseOrder()| ==> CloseOrder()[i] != CloseOrder()[j]
    {
      var hs := [neo4j, IngestorManager()];
      assert Present([neo4j]) == (if neo4j.Some? then [neo4j.value as object] else []) by {
        assert [neo4j][..0] == [];
      }
      assert hs[..1] == [neo4j];
      assert Present(hs) == Present([neo4j])
                          + (if IngestorManager().Some? then [IngestorManager().value as object] else []);
    }

    /** The guarded graph block of the constructor: each statement either
        completes or raises, and a raise ends the block and is swallowed, so
        the handles assigned before it keep their values and the later ones
        stay `None`. The graph weight is kept only if the block completes. */
    static method ConnectGraph(g: GraphFailure, graphWeight: real)
      returns (neo4j: Option<Handle>, graphQueries: Option<GraphQueries>, graphIngestor: Option<GraphIngestor>,
               effectiveWeight: real, ghost managers: seq<Handle>)
      ensures neo4j.Some? <==> g !in {FailsAtNeo4jConfig, FailsAtNeo4jManager}
      ensures graphQueries.Some? <==> g !in {FailsAtNeo4jConfig, FailsAtNeo4jManager, FailsAtGraphQueries}
      ensures graphIngestor.Some? <==> g.GraphOk?
      ensures effectiveWeight == EffectiveGraphWeight(g, graphWeight)
      ensures Roles(managers) == GraphConnections(g)
      ensures forall h :: h in managers ==> fresh(h)
      ensures |managers| == 2 ==> managers[0] != managers[1]
      ensures neo4j.Some? ==> neo4j.value == managers[0]
      ensures graphQueries.Some? ==> Some(graphQueries.value.neo4j) == neo4j
      ensures graphIngestor.Some? ==> graphIngestor.value.neo4jManager == managers[1]
    {
      neo4j, graphQueries, graphIngestor := None, None, None;
      effectiveWeight := 0.0;
      managers := [];
      label graph: {
        if g.FailsAtNeo4jConfig? || g.FailsAtNeo4jManager? { break graph; }
        var queryManager := new Handle(QueryNeo4j);
        managers := managers + [queryManager];
        neo4j := Some(queryManager);
        if g.FailsAtGraphQueries? { break graph; }
        var queries := new GraphQueries(queryManager);
        graphQueries := Some(queries);
        if g.FailsAtIngestorNeo4j? { break graph; }
        var ingestorManager := new Handle(IngestorNeo4j);
        managers := managers + [ingestorManager];
        if g.FailsAtGraphIngestor? { break graph; }
        var ingestor := new GraphIngestor(ingestorManager);
        graphIngestor := Some(ingestor);
        effectiveWeight := graphWeight;
      }
    }

    /** `CrawlPrimePipeline(...)`: runs the constructor's statements in order.
        A failure in the graph block is caught; a failure anywhere else
        propagates, and the managers opened before it are left open. */
    static method Create(cfg: Config, env: Environment) returns (r: Construction, ghost managers: seq<Handle>)
      ensures r.Failed? <==> env.fatal.Some?
      ensures r.Failed? ==> r.stage == env.fatal.value
      ensures Roles(managers) ==
        if env.fatal == Some(AtQdrantConfig) then []
        else GraphConnections(env.graphFailure) + QdrantConnectionsBefore(env.fatal)
      ensures r.Constructed? ==> fresh(r.pipeline) && fresh(r.pipeline.retriever)
      ensures r.Constructed? ==> var p := r.pipeline;
        && p.managers == managers
        && p.closeLog == []
        && p.collection == cfg.collection
        && p.storagePath == (if cfg.storagePath.Some? then cfg.storagePath.value else "data/crawlprime")
        // which graph handles exist
        && (p.neo4j.Some? <==> env.graphFailure !in {FailsAtNeo4jConfig, FailsAtNeo4jManager})
        && (p.graphQueries.Some? <==> env.graphFailure !in {FailsAtNeo4jConfig, FailsAtNeo4jManager, FailsAtGraphQueries})
        && (p.graphIngestor.Some? <==> env.graphFailure.GraphOk?)
        && (p.graphQueries.Some? ==> Some(p.graphQueries.value.neo4j) == p.neo4j)
        // wiring
        && p.storage.graphIngestor == p.graphIngestor
        && p.storage.qdrant != p.retrievalQdrant
        && p.webIngestion.storage == p.storage
        && p.webIngestion.ingestUrl == env.ingestUrl
        && p.retriever.qdrant == p.retrievalQdrant
        && p.retriever.neo4j == p.neo4j
        && p.retriever.vectorWeight == cfg.vectorWeight
        && p.retriever.graphWeight == EffectiveGraphWeight(env.graphFailure, cfg.graphWeight)
        && p.agentic.retriever == p.retriever
        && p.agentic.graphQueries == p.graphQueries
        && p.agentic.raptor == cfg.raptor && p.agentic.community == cfg.community
        && p.agentic.enableSynthesis == cfg.enableSynthesis
        && p.agentic.storagePath == p.storagePath
        && p.agentic.processQuery == env.processQuery
      // the lexical rule
      ensures r.Constructed? && cfg.lexicalWeight > 0.0 ==>
        r.pipeline.retriever.lexicalEnabled && r.pipeline.retriever.lexicalWeight == cfg.lexicalWeight
      ensures r.Constructed? && cfg.lexicalWeight <= 0.0 ==>
        r.pipeline.retriever.lexicalEnabled == env.retrieverLexicalDefaults.enabled &&
        r.pipeline.retriever.lexicalWeight == env.retrieverLexicalDefaults.weight
      // ownership: close() releases every manager opened, except the inline
      // ingestion-side Neo4j manager when GraphIngestionManager(...) raised
      ensures r.Constructed? && !env.graphFailure.FailsAtGraphIngestor? ==>
        forall h :: h in managers ==> h in r.pipeline.Released()
      ensures r.Constructed? && env.graphFailure.FailsAtGraphIngestor? ==>
        exists h :: h in managers && h.role == IngestorNeo4j && h !in r.pipeline.Released()
      ensures r.Constructed? ==> r.pipeline.CloseTargetsDistinct()
    {
      var storagePath := if cfg.storagePath.Some? then cfg.storagePath.value else "data/crawlprime";
      if env.fatal == Some(AtQdrantConfig) {
        return Failed(AtQdrantConfig), [];
      }
      var neo4j, graphQueries, graphIngestor, graphWeight, graphManagers := ConnectGraph(env.graphFailure, cfg.graphWeight);
      ghost var stores;
      r, stores := RunUnguarded(cfg, env, storagePath, neo4j, graphQueries, graphIngestor, graphWeight, graphManagers);
      managers := graphManagers + stores;
      RolesOfConcat(graphManagers, stores);
      if r.Constructed? {
        assert r.pipeline.storage.qdrant == stores[0] && r.pipeline.retrievalQdrant == stores[1];
        forall h | h in managers && !(env.graphFailure.FailsAtGraphIngestor? && h == graphManagers[1])
          ensures h in r.pipeline.Released()
        {
          if h in graphManagers {
            assert h == graphManagers[0] || h == graphManagers[1];
          }
        }
        if env.graphFailure.FailsAtGraphIngestor? {
          var h := graphManagers[1];
          assert h.role == IngestorNeo4j && h in managers;
          assert h != r.pipeline.storage.qdrant && h != r.pipeline.retrievalQdrant;
        }
      }
    }

    /** The statements of the constructor after the graph block, none of them
        guarded: the ingestion Qdrant manager and pipeline, the web ingestion
        pipeline, the retrieval Qdrant manager, the retriever with the lexical
        rule applied, and the agentic pipeline. The first that raises ends
        construction, and the managers it opened stay open. */
    static method RunUnguarded(cfg: Config, env: Environment, storagePath: string, neo4j: Option<Handle>,
                               graphQueries: Option<GraphQueries>, graphIngestor: Option<GraphIngestor>,
                               graphWeight: real, ghost graphManagers: seq<Handle>)
      returns (r: Construction, ghost stores: seq<Handle>)
      requires env.fatal != Some(AtQdrantConfig)
      ensures r.Failed? <==> env.fatal.Some?
      ensures r.Failed? ==> r.stage == env.fatal.value
      ensures Roles(stores) == QdrantConnectionsBefore(env.fatal)
      ensures forall h :: h in stores ==> fresh(h)
      ensures r.Constructed? ==> fresh(r.pipeline) && fresh(r.pipeline.retriever)
      ensures r.Constructed? ==> var p := r.pipeline;
        && p.managers == graphManagers + stores
        && p.closeLog == []
        && p.collection == cfg.collection && p.storagePath == storagePath
        && p.neo4j == neo4j && p.graphQueries == graphQueries && p.graphIngestor == graphIngestor
        && p.storage.qdrant == stores[0] && p.retrievalQdrant == stores[1]
        && p.storage.graphIngestor == graphIngestor
        && p.webIngestion.storage == p.storage
        && p.webIngestion.ingestUrl == env.ingestUrl
        && p.retriever.qdrant == p.retrievalQdrant
        && p.retriever.neo4j == neo4j
        && p.retriever.vectorWeight == cfg.vectorWeight
        && p.retriever.graphWeight == graphWeight
        && p.agentic.retriever == p.retriever
        && p.agentic.graphQueries == graphQueries
        && p.agentic.raptor == cfg.raptor && p.agentic.community == cfg.community
        && p.agentic.enableSynthesis == cfg.enableSynthesis
        && p.agentic.storagePath == storagePath
        && p.agentic.processQuery == env.processQuery
      ensures r.Constructed? && cfg.lexicalWeight > 0.0 ==>
        r.pipeline.retriever.lexicalEnabled && r.pipeline.retriever.lexicalWeight == cfg.lexicalWeight
      ensures r.Constructed? && cfg.lexicalWeight <= 0.0 ==>
        r.pipeline.retriever.lexicalEnabled == env.retrieverLexicalDefaults.enabled &&
        r.pipeline.retriever.lexicalWeight == env.retrieverLexicalDefaults.weight
    {
      var failAt := StageIndex(env.fatal);
      stores := [];
      if failAt <= 2 {
        return Failed(env.fatal.value), stores;
      }
      var ingestionQdrant := new Handle(IngestionQdrant);
      stores := [ingestionQdrant];
      if failAt == 3 {
        return Failed(env.fatal.value), stores;
      }
      var storage := new DocumentIngestion(ingestionQdrant, graphIngestor);
      if failAt == 4 {
        return Failed(env.fatal.value), stores;
      }
      var webIngestion := new WebIngestion(storage, env.ingestUrl);
      if failAt == 5 {
        return Failed(env.fatal.value), stores;
      }
      var retrievalQdrant := new Handle(RetrievalQdrant);
      stores := [ingestionQdrant, retrievalQdrant];
      if failAt == 6 {
        return Failed(env.fatal.value), stores;
      }
      var retriever := NewRetriever(retrievalQdrant, neo4j, cfg.vectorWeight, graphWeight, cfg.lexicalWeight,
                                    env.retrieverLexicalDefaults);
      if failAt == 7 {
        return Failed(env.fatal.value), stores;
      }
      var agentic := new Agentic(retriever, graphQueries, cfg.raptor, cfg.community, cfg.enableSynthesis,
                                 storagePath, env.processQuery);
      var p := new CrawlPrimePipeline.Assemble(cfg.collection, storagePath, neo4j, graphQueries, graphIngestor,
                                               storage, webIngestion, retrievalQdrant, retriever, agentic,
                                               graphManagers + stores);
      r := Constructed(p);
    }

    /** The retriever over the retrieval Qdrant manager and the retrieval
        Neo4j manager, with BM25 lexical retrieval switched on at the given
        weight when that weight is positive; otherwise the retriever keeps its
        own lexical settings. */
    static method NewRetriever(qdrant: Handle, neo4j: Option<Handle>, vectorWeight: real, graphWeight: real,
                               lexicalWeight: real, defaults: LexicalSettings)
      returns (retriever: Retriever)
      ensures fresh(retriever)
      ensures retriever.qdrant == qdrant && retriever.neo4j == neo4j
      ensures retriever.vectorWeight == vectorWeight && retriever.graphWeight == graphWeight
      ensures lexicalWeight > 0.0 ==> retriever.lexicalEnabled && retriever.lexicalWeight == lexicalWeight
      ensures lexicalWeight <= 0.0 ==>
        retriever.lexicalEnabled == defaults.enabled && retriever.lexicalWeight == defaults.weight
    {
      retriever := new Retriever(qdrant, neo4j, vectorWeight, graphWeight, defaults);
      if lexicalWeight > 0.0 {
        retriever.lexicalEnabled := true;
        retriever.lexicalWeight := lexicalWeight;
      }
    }

    /** `ingest(url)`: the ingestion sub-pipeline's report (or exception),
        unchanged. */
    method Ingest(url: string) returns (report: Outcome<IngestionReport>)
      ensures report == webIngestion.ingestUrl(url)
    {
      report := webIngestion.ingestUrl(url);
    }

    /** `query(text, max_iterations, min_quality_threshold)`: the arguments
        go to the agentic sub-pipeline as given; its result (or exception)
        comes back unchanged. */
    method Query(text: string, maxIterations: int, minQualityThreshold: real) returns (result: Outcome<AgenticResult>)
      ensures result == agentic.processQuery(text, maxIterations, minQualityThreshold)
    {
      result := agentic.processQuery(text, maxIterations, minQualityThreshold);
    }

    /** `query(text)` with the default bounds: two iterations and a quality
        threshold of 0.5. */
    method QueryWithDefaults(text: string) returns (result: Outcome<AgenticResult>)
      ensures result == agentic.processQuery(text, 2, 0.5)
    {
      result := Query(text, 2, 0.5);
    }

    /** One guarded `close()` whose exception is swallowed. Whether the call raises
        is not up to the orchestrator; either way the attempt is made and the
        caller goes on. */
    method TryClose(target: object)
      modifies this`closeLog
      ensures |closeLog| == |old(closeLog)| + 1 && closeLog[..|old(closeLog)|] == old(closeLog)
      ensures closeLog[|old(closeLog)|].target == target
    {
      var raised: bool :| true;
      closeLog := closeLog + [CloseAttempt(target, raised)];
    }

    /** A guarded `close()` on each handle of a tuple that is not `None`, in order. */
    method CloseEach(handles: seq<Option<Handle>>)
      modifies this`closeLog
      ensures Targets(closeLog) == Targets(old(closeLog)) + Present(handles)
    {
      var i := 0;
      while i < |handles|
        invariant 0 <= i <= |handles|
        invariant Targets(closeLog) == Targets(old(closeLog)) + Present(handles[..i])
      {
        assert handles[..i + 1][..i] == handles[..i];
        if handles[i].Some? {
          TryClose(handles[i].value);
          assert Targets(closeLog) == Targets(old(closeLog)) + Present(handles[..i]) + [handles[i].value];
        }
        i := i + 1;
      }
      assert handles[..i] == handles;
    }

    /** `close()`: attempts every resource in `CloseOrder()`, skipping absent
        ones, whatever each call does; it never raises. It has no guard, so a
        second call attempts them all again. */
    method Close()
      modifies this`closeLog
      ensures Targets(closeLog) == Targets(old(closeLog)) + CloseOrder()
    {
      TryClose(storage);
      CloseEach([Some(retrievalQdrant)]);
      CloseEach([neo4j, IngestorManager()]);
    }

    /** `__enter__` returns the pipeline itself. */
    method Enter() returns (self: CrawlPrimePipeline)
      ensures self == this
    {
      self := this;
    }

    /** `__exit__`: leaving the `with` block, on any path, runs `close()`. */
    method Exit()
      modifies this`closeLog
      ensures Targets(closeLog) == Targets(old(closeLog)) + CloseOrder()
    {
      Close();
    }
  }

  /** `close()` has no guard against a second call: a `with` block whose body
      already closed the pipeline closes every resource again on exit. */
  method CloseInsideWithBlock(p: CrawlPrimePipeline)
    modifies p`closeLog
    ensures Targets(p.closeLog) == Targets(old(p.closeLog)) + p.CloseOrder() + p.CloseOrder()
  {
    p.Close();
    p.Exit();
  }
}
