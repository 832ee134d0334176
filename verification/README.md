# CrawlPrime core, modelled in Dafny

CrawlPrime ingests crawled web pages into a vector store and a graph store and
answers questions over them. This project models the three parts of it that
carry logic of their own:

- **The URL-aware planner** (`src/crawl_prime/planner.py`): `prepend_web_ingestion_step`
  looks for the first `https?://\S+` match in a query, strips trailing
  punctuation from it, puts a WEB_INGESTION step numbered `step_counter_start`
  in front of the plan, renumbers every step id and every dependency by one,
  and makes RETRIEVAL steps without dependencies wait for the new step.
  Modules `UrlDetection` (the two regular expressions), `StepIds` (the
  `step_<n>` id strings) and `Planner` (the rewrite and its graph properties).
- **The orchestrator** `CrawlPrimePipeline` (`src/crawl_prime/pipeline.py`):
  staged construction in which a graph-store failure only disables graph
  retrieval while any other failure propagates; the effective graph weight;
  the lexical-enable rule; delegation of `ingest` and `query`; and the
  ordered, best-effort `close()` run on leaving a `with` block. Module
  `Pipeline`, with a class per collaborator object and a ghost log of every
  `close()` call.
- **The CLI's output file name** (`src/crawl_prime/main.py`, lines 43-44):
  keep the title's alphanumeric and `._- ` characters, fall back to `doc`,
  cut to 50 characters, append `.json`. Module `OutputName`.

Step ids are modelled by their number: `step_7` is the `nat` 7, and
`StepIds.StepName` renders it back; that rendering is proved injective, so
statements about distinct numbers are statements about distinct id strings.
The other fields of a step are values that the rewrite copies through.

The URL pattern is the source's heuristic, not URI parsing: only lower-case
`http://` and `https://` are recognised, and `\S` is "not a character for
which Python's `str.isspace()` holds", listed code point by code point in
`UrlDetection.IsSpace`. A match never contains whitespace, so the `$` of the
trailing-punctuation pattern can only match at the very end.

What the code does not guard against, and the model therefore keeps:

- A graph-store failure leaves the graph handles assigned before the failing
  statement in place (for example `_neo4j` and `_graph_queries` stay set when
  `GraphIngestionManager(...)` raises); only the graph weight is reset to 0.
- A failure in an unguarded construction step leaves the connection managers
  opened so far open; nothing closes them.
- When `GraphIngestionManager(...)` raises, the Neo4j manager created inline
  for it is never closed.
- `close()` has no guard: a second call closes every resource again.

## Model

| member | source | states |
|---|---|---|
| `UrlDetection.MatchAt` | src/crawl_prime/planner.py:32 | the pattern matches at a position exactly when a scheme starts there and is followed by at least one non-space character; the end returned makes the run maximal (greedy `\S+`) |
| `UrlDetection.SearchFrom` | src/crawl_prime/planner.py:62 | scanning from a position, the span returned is a match and no match starts between that position and it; `None` only if no match starts at or after the position |
| `UrlDetection.FindUrl` | src/crawl_prime/planner.py:62-63 | the span found is a match and the leftmost one; there is none exactly when the query contains no `http://`/`https://` followed by a non-space character |
| `UrlDetection.FindUrlAtFirstH` | src/crawl_prime/planner.py:32 | a match with no `h` before it is the span `search` finds |
| `UrlDetection.TrimTrailing` | src/crawl_prime/planner.py:37 | the result is a prefix of the input, everything removed is from `. , ; : ! ? ) ] ' " < >`, and the result is empty or does not end in one of them |
| `UrlDetection.TrimTrailingIsMaximalStrip` | src/crawl_prime/planner.py:33-37 | any prefix with those three properties is the trim result, so exactly the maximal trailing run is removed |
| `UrlDetection.TrimTrailingKeepsPrefix` | src/crawl_prime/planner.py:33-36 | a prefix ending in a non-punctuation character survives the trim, so inner dots and slashes are never touched |
| `UrlDetection.DetectUrl` | src/crawl_prime/planner.py:62-67 | a URL is detected exactly when the query contains a match, and the detected URL still starts with `http://` or `https://` |
| `UrlDetection.DetectUrlIsTrimmedLeftmostMatch` | src/crawl_prime/planner.py:62-67 | the detected URL is the leftmost match with its maximal trailing punctuation run removed |
| `UrlDetection.DetectUrlBeforePunct` | src/crawl_prime/planner.py:31-37 | a URL written in prose (no `h` before it, one punctuation character and then whitespace or the end after it) is detected exactly, without the punctuation |
| `StepIds.ParseDecimalOfDecimal` | src/crawl_prime/planner.py:82 | reading the decimal suffix of a rendered id gives back its number |
| `StepIds.StepNameInjective` | src/crawl_prime/planner.py:69 | two step numbers render to the same `step_<n>` string exactly when they are equal |
| `Planner.BumpAll` | src/crawl_prime/planner.py:94 | the remapped dependency list has the same length and each entry is the original plus one |
| `Planner.PrependWebIngestionStep` | src/crawl_prime/planner.py:45-109 | the loop that builds `renumbered` returns exactly the plan and step id of the rewrite `Prepended` |
| `Planner.NoUrlLeavesPlanUnchanged` | src/crawl_prime/planner.py:62-64 | no step id is returned exactly when the query has no URL, and then the plan is returned as it was; otherwise the id is `step_counter_start` |
| `Planner.WebStepComesFirst` | src/crawl_prime/planner.py:69-78 | with a URL the plan grows by one and its first step has id `step_counter_start`, kind WEB_INGESTION, no dependencies, SEQUENTIAL mode and parameters `{"url": <detected URL>}` |
| `Planner.InputStepsFollowRenumbered` | src/crawl_prime/planner.py:87-107 | input step `i` becomes output step `i+1` with id plus one, every other field copied, and dependencies `[web id]` for a RETRIEVAL step without dependencies, else each original dependency plus one |
| `Planner.PrependedIsExtended` | src/crawl_prime/planner.py:62-109 | with a URL in the query, the rewrite's plan is the web step followed by the renumbered input |
| `Planner.PrependedIsWellFormed` | src/crawl_prime/planner.py:45-109 | whether or not the query holds a URL, the rewrite of a plan with unique ids at least `step_counter_start`, resolving dependencies and no cycle has unique ids, resolving dependencies and no cycle |
| `Planner.EdgesArePreserved` | src/crawl_prime/planner.py:84-94 | every dependency edge `a -> b` of the input appears as `a+1 -> b+1` in the output |
| `Planner.RootsWaitForWebStep` | src/crawl_prime/planner.py:90-91 | every RETRIEVAL step that had no dependencies depends on the web step afterwards |
| `Planner.EdgesOfExtended` | src/crawl_prime/planner.py:88-94 | every output edge is an input edge moved up by one or an edge from a former RETRIEVAL root to the web step; no other edges appear |
| `Planner.ExtendedIsWellFormed` | src/crawl_prime/planner.py:84-109 | if the input's ids are unique and at least `step_counter_start`, its dependencies resolve and it is acyclic, the output's ids are unique, its dependencies resolve and it is acyclic |
| `Planner.UniqueIdsAreUniqueNames` | src/crawl_prime/planner.py:69-82 | unique step numbers give unique `step_<n>` id strings |
| `Planner.WebIdCollidesWithoutIdsFrom` | src/crawl_prime/planner.py:69-89 | without ids at least `step_counter_start`, a renumbered step can take the web step's id |
| `Planner.SummarizeQueryUrl` | src/crawl_prime/planner.py:62-67 | in `Summarize https://site.example/page, please` the match ends at the comma and the detected URL is `https://site.example/page` |
| `Planner.SummarizeQueryExample` | src/crawl_prime/planner.py:45-109 | a one-step RETRIEVAL plan `step_0` with that query becomes `[web step_0, retrieval step_1 depending on step_0]`, returning `step_0` |
| `OutputName.KeptChars` | src/crawl_prime/main.py:43 | the kept characters are all alphanumeric or `._- `, form a subsequence of the title, and are empty exactly when no title character qualifies |
| `OutputName.KeptCharsOfConcat` | src/crawl_prime/main.py:43 | filtering splits over concatenation, so every qualifying character is kept, in order |
| `OutputName.KeptCharsOfSafeString` | src/crawl_prime/main.py:43 | a string made only of allowed characters is kept whole |
| `OutputName.SafeTitle` | src/crawl_prime/main.py:43 | `safe` is the kept characters whenever some title character qualifies, and `doc` otherwise; it is non-empty and made of allowed characters |
| `OutputName.SafeTitleIdempotent` | src/crawl_prime/main.py:43 | sanitising `safe` again gives `safe` |
| `OutputName.FileStem` | src/crawl_prime/main.py:44 | the stem is the prefix of `safe` of length `min(len(safe), 50)`: all of `safe` when that is at most 50 long, its first 50 characters otherwise |
| `OutputName.OutputFileName` | src/crawl_prime/main.py:44 | the file name is the stem followed by `.json` |
| `Pipeline.EffectiveGraphWeight` | src/crawl_prime/pipeline.py:116-128 | the retriever's graph weight is the configured one when the whole graph block completed and 0.0 otherwise |
| `Pipeline.CrawlPrimePipeline.ConnectGraph` | src/crawl_prime/pipeline.py:113-130 | a failure at any graph statement is swallowed; the handles assigned before it exist, the later ones are `None`, the graph ingestor exists only if all succeed, and the managers opened are listed |
| `Pipeline.CrawlPrimePipeline.Create` | src/crawl_prime/pipeline.py:93-170 | construction fails exactly when an unguarded step raises, with that step; the managers opened before it stay open; on success the wiring, the effective graph weight, the lexical rule and which managers `close()` releases are as the constructor sets them, and the managers `close()` reaches are distinct |
| `Pipeline.CrawlPrimePipeline.RunUnguarded` | src/crawl_prime/pipeline.py:132-170 | after the graph block, construction fails exactly when a statement raises, with that statement; the Qdrant managers opened before it are listed; on success every collaborator is wired to the handles the constructor passes it |
| `Pipeline.CrawlPrimePipeline.NewRetriever` | src/crawl_prime/pipeline.py:150-160 | the retriever gets the retrieval handles and both weights; a positive lexical weight switches lexical retrieval on at that weight, and otherwise the retriever's own lexical settings stay |
| `Pipeline.CrawlPrimePipeline.Ingest` | src/crawl_prime/pipeline.py:181-198 | returns the ingestion sub-pipeline's report (or exception) for the URL unchanged |
| `Pipeline.CrawlPrimePipeline.Query` | src/crawl_prime/pipeline.py:200-221 | passes text, iteration bound and quality threshold through unchanged and returns the agentic result (or exception) unchanged |
| `Pipeline.CrawlPrimePipeline.QueryWithDefaults` | src/crawl_prime/pipeline.py:200-221 | `query(text)` asks the agentic pipeline with at most 2 iterations and a quality threshold of 0.5 |
| `Pipeline.CrawlPrimePipeline.TryClose` | src/crawl_prime/pipeline.py:233-236 | one close attempt is logged whether or not it raises, and nothing propagates |
| `Pipeline.CrawlPrimePipeline.CloseEach` | src/crawl_prime/pipeline.py:239-251 | the loop attempts each handle of the tuple that is not `None`, in order |
| `Pipeline.CrawlPrimePipeline.Close` | src/crawl_prime/pipeline.py:229-251 | attempts ingestion storage, retrieval Qdrant, retrieval Neo4j, then the graph ingestor's Neo4j manager, skipping absent ones, whatever each attempt does |
| `Pipeline.CrawlPrimePipeline.CloseOrderAttemptsEachOnce` | src/crawl_prime/pipeline.py:229-251 | when the managers are distinct objects, which construction guarantees, one `close()` attempts no resource twice |
| `Pipeline.CrawlPrimePipeline.Enter` | src/crawl_prime/pipeline.py:223-224 | entering the `with` block yields the pipeline itself |
| `Pipeline.CrawlPrimePipeline.Exit` | src/crawl_prime/pipeline.py:226-227 | leaving the `with` block makes exactly the attempts of one `close()` |
| `Pipeline.CloseInsideWithBlock` | src/crawl_prime/pipeline.py:223-251 | closing inside a `with` block and then leaving it attempts every resource twice |

## Left out

- `src/crawl_prime/api.py` (HTTP routing, a module-level job table and background tasks) is not part of this model.
- The rest of `src/crawl_prime/main.py` is I/O: argument parsing, directory creation, crawling, JSON output and the file write.
- `mkdir` of the storage path, logging, and the `sys.path` fallback at the top of each module are side effects that are not modelled.
- Hosts, ports and credentials only reach the foreign configuration objects and the `bolt://host:port` URI; the model does not carry them.
- The collaborators (`Neo4jManager`, `QdrantManager`, `GraphQueryInterface`, `GraphIngestionManager`, `DocumentIngestionPipeline`, `WebIngestionPipeline`, `HybridRetriever`, `AgenticPipeline`) are foreign code: each is an object holding the references it is given, what `ingest_url` and `process_query` return is a function passed in, and whether a constructor or a `close()` raises is an input.
- `ingest` and `query` are `async`; only the delegation is modelled, not suspension or concurrency.
- `except Exception` does not catch `BaseException` subclasses such as `KeyboardInterrupt`; the model treats every failure of a constructor or of `close()` as an `Exception`.
- Weights are Python floats and are modelled as reals; a NaN `lexical_weight` (which also leaves the retriever untouched) has no counterpart.
- `Planner.Prepended`: `step_counter_start` is a natural number; Python also accepts a negative counter (giving ids such as `step_-1`), which the model does not cover.
- `Pipeline.CrawlPrimePipeline.Create`: takes an explicit `Config`; the keyword defaults of the constructor are recorded as `Pipeline.DefaultConfig`, and hosts, ports and credentials are not carried.
- `Pipeline.CrawlPrimePipeline.IngestorManager`: `close()` reads the graph ingestor's Neo4j manager through `getattr(..., "_neo4j_manager", None)`; the model assumes `GraphIngestionManager` stores the manager it is given under that name, so `close()` always finds it.
- `Pipeline.CrawlPrimePipeline.Released`: counts the ingestion-side Qdrant manager as released by the ingestion pipeline's own `close()`; that ownership belongs to foreign code and is assumed, not modelled.
- `Planner.RenumberStep`: the renumbered steps share the input steps' `parameters` and `metadata` dictionaries; the model copies values, so that aliasing (a later mutation seen through both plans) is not captured.
- `Planner.Bump`: step ids are numbers, so `_bump` on a malformed id (a non-numeric suffix raises `ValueError`) and on leading zeros (`step_007` becomes `step_8`) is not modelled.
- `Planner.WebStep`: the scheduling fields of the new step come from the step constructor's own defaults, which are foreign; they are a parameter.
- `Planner.Step`: the step kinds other than RETRIEVAL and WEB_INGESTION are opaque, and parameter and metadata values are strings rather than arbitrary Python values.
- `OutputName.KeptChars`: `str.isalnum` is approximated by the ASCII letters and digits, so non-ASCII letters and digits that Python keeps are dropped by the model.
