# JD Validator: a verified model of the extraction and retrieval core

JD Validator reads a careers page, asks a language model to extract the job postings as
JSON, looks up each posting's skills in a small vector index of portfolio entries
(`Techstack` text with `Links`), and asks the model to compose an evaluation, CV suggestions
and a cover letter per posting. This project models the logic of that pipeline in Dafny:

- `Portfolios` (app/portfolio.py). The class `Portfolio` holds the table, the Chroma client
  and its `portfolio` collection, and a counter that stands in for `uuid4`.
  `ClearCollection` deletes every stored id and fetches the same-named collection again.
  `LoadPortfolio(force)` optionally clears. Then, only when the collection is empty and a
  table is present, its loop adds one entry per row. A row without `Techstack` or `Links`
  raises `KeyError` at that row. `QueryLinks` asks for two neighbours per skill. The loop
  is proved against `IngestRows` and `LoadEffect`, and the lemmas about those state the
  clear/reload/idempotency properties.
- `Chroma` is the store as the portfolio uses it. A `Collection` class offers count, get,
  delete by ids, add, and a query whose ranking is an abstract function. A `Client`
  class hands out collections by name.
- `Chains` (app/chains.py) is pure. The model is an oracle: `sample(k, prompt)` is the reply
  to the k-th call, and `calls` records every prompt. `ExtractJobs` makes one call, parses
  the reply, fails closed with the fixed `OutputParserException` message, and normalises
  the result to a list. `WriteMail` makes one call and returns the content as it came.
- `App` (app/main.py) holds the page's decisions:
  - the required-column check;
  - the upload, clear and reload branches;
  - the submit path: a non-forced load, extraction, then the job loop under one `try`.
  What the page shows is a sequence of `Notice` values.
- `Outcomes`, `JsonValues` and `Tables` are the shared vocabulary. `Tables` models a data
  frame whose rows are keyed by exactly its columns.

The code does not check extracted jobs for the `role`/`experience`/`skills`/`description`
keys (`ExtractJobsKeepsUncheckedItems`). One `try` wraps the whole submit path, so a failing
job ends the loop and there is no per-job isolation (`ProcessJobsAppend`). What the store
does with an empty `query_texts` list is left open (see Left out).

In the code the constructor always sets `data`. So the "Please upload a CSV file first!"
branch is never taken for a `Portfolio` built by the constructor. The model keeps the
branch, with `data` as an `Option`.

## Model

| member | source | states |
|---|---|---|
| Chroma.Without | app/portfolio.py:39 | deleting ids keeps exactly the entries whose id is not deleted, and never grows the collection |
| Chroma.DeleteAllIds | app/portfolio.py:36-39 | deleting every id that `get()` reports leaves the collection empty |
| Chroma.DeleteKeepsDistinct | app/portfolio.py:39 | deletion keeps stored ids unique |
| Chroma.TextsOf | app/portfolio.py:59 | a JSON list yields its strings exactly when every item is a string, item for item |
| Chroma.TextsOfStrings | app/portfolio.py:59 | a list of skill strings is read back as exactly those strings |
| Chroma.Coerce | app/portfolio.py:59 | a non-empty list of strings is queried item by item; other `query_texts` values are left to the store |
| Chroma.Nearest | app/portfolio.py:59 | a group has at most `n_results` entries and no more than the ranking offers; every one is stored; an empty store gives an empty group |
| Chroma.Collection.Count | app/portfolio.py:34 | `count()` is the number of stored entries |
| Chroma.Collection.Get | app/portfolio.py:36 | `get()['ids']` lists every stored id, in order |
| Chroma.Collection.Delete | app/portfolio.py:39 | the collection afterwards is the old one without the given ids; ids stay unique |
| Chroma.Collection.Add | app/portfolio.py:52-56 | a new id appends one entry with that document and metadata; an existing id changes nothing |
| Chroma.Collection.Query | app/portfolio.py:59 | accepted exactly when the texts are; one group per text, each of at most `n` stored metadata records, all empty for an empty store |
| Chroma.Client.GetOrCreateCollection | app/portfolio.py:29 | the existing collection of that name is returned unchanged; otherwise a fresh empty one is registered |
| Chains.Invoke | app/chains.py:26-27 | one model call appends exactly its prompt to the call record |
| Chains.AsJobList | app/chains.py:33 | a parsed list is returned as it is; any other parsed value becomes the one element of a list |
| Chains.AsJobListShape | app/chains.py:33 | a parsed list is returned unchanged, including `[]`; any other value becomes a one-element list; empty only for `[]` |
| Chains.ExtractJobs | app/chains.py:14-33 | exactly one model call with the page text; transport failure propagates; an unparsable reply raises the fixed "Context too big" exception; otherwise the normalised parse |
| Chains.ExtractJobsFailClosed | app/chains.py:28-33 | jobs are returned exactly when the reply parses, and then they are all the parsed jobs; no partial list on failure |
| Chains.ExtractJobsKeepsUncheckedItems | app/chains.py:29-33 | parsed list items are returned as they are, with no schema check |
| Chains.WriteMail | app/chains.py:70-72 | exactly one model call carrying the job and the links as given; the reply content is returned as it came, with no section check |
| Portfolios.IngestRows | app/portfolio.py:50-56 | the loop adds at most one entry per row; when it completes, exactly one per row; ids run from the first fresh id upwards |
| Portfolios.RowEntry | app/portfolio.py:52-55 | a row becomes an entry with the given id, the `Techstack` cell as document and `{links: Links}` as metadata |
| Portfolios.IngestComplete | app/portfolio.py:50-56 | with both columns in every row, each row adds one entry in row order, with document `Techstack` and metadata `{links: Links}` |
| Portfolios.IngestNext | app/portfolio.py:50-56 | the next row either raises `KeyError` (for `Techstack` first) or appends its entry |
| Portfolios.IngestStops | app/portfolio.py:50-56 | after a `KeyError`, later rows change nothing |
| Portfolios.IngestTable | app/portfolio.py:49-56 | a table with both columns is ingested completely; a non-empty table missing one raises `KeyError` on its first row and adds nothing |
| Portfolios.LoadEffect | app/portfolio.py:43-56 | a non-forced load of a non-empty collection is a no-op; without data nothing is added; after a forced load every entry has a new id |
| Portfolios.ForcedLoadReplaces | app/portfolio.py:45-56 | a forced load with a complete table leaves exactly one entry per row, in row order; no stale entry survives |
| Portfolios.IngestEmptyAnyIds | app/portfolio.py:49-56 | whether the loop adds anything, and how it ends, does not depend on the ids it hands out |
| Portfolios.LoadTwiceIsLoadOnce | app/portfolio.py:49 | a second non-forced load leaves the collection as the first left it |
| Portfolios.AddFresh | app/portfolio.py:51 | an id above every stored id is not already stored |
| Portfolios.IdBound | app/portfolio.py:29 | a counter value above every id already in the persistent collection |
| Portfolios.MetadatasOrEmpty | app/portfolio.py:59 | the query's metadata groups when the result has them, otherwise no groups |
| Portfolios.Portfolio.constructor | app/portfolio.py:28-29 | the `portfolio` collection of the client is obtained, and the table is present |
| Portfolios.Portfolio.ClearCollection | app/portfolio.py:31-41 | afterwards the same collection is empty, whether it was empty or not; table and id counter unchanged |
| Portfolios.Portfolio.LoadPortfolio | app/portfolio.py:43-56 | the collection and outcome are those of `LoadEffect`; ids stay unique and below the counter, which never decreases |
| Portfolios.Portfolio.QueryLinks | app/portfolio.py:58-59 | one group per query text, each of at most 2 stored metadata records; refused exactly when the store refuses the skills; changes nothing |
| Portfolios.QueryLinksPerSkill | app/portfolio.py:59 | for a non-empty list of skills: one group per skill, in input order, each the metadata of at most two stored entries, the first the ranking lists for that skill |
| App.Absent | app/main.py:36 | a column is reported exactly when it is required and not in the upload |
| App.MissingColumns | app/main.py:35-36 | the missing columns are those of `Techstack`, `Links` absent from the upload, in that order; none iff both are present |
| App.HandleUpload | app/main.py:27-57 | missing columns: an error, and table and collection untouched; otherwise the table is replaced, a forced load runs, and the count equals the upload's row count |
| App.ClearDatabase | app/main.py:64-70 | the collection is emptied and success is shown |
| App.ReloadDatabase | app/main.py:73-82 | without a table: an error and nothing changes; with one: the effect of a forced load |
| App.JobSkills | app/main.py:104 | a job object gives its `skills`, or `[]` when absent; a job that is not an object raises |
| App.JobLinks | app/main.py:104-105 | a job that is not an object raises `AttributeError`; otherwise its `skills` (or `[]`) are queried, giving groups of at most 2 stored metadata records |
| App.ProcessJobs | app/main.py:103-107 | the job loop never shows more answers than there are jobs and keeps the model oracle; when nothing raises, it makes exactly one model call per job |
| App.ProcessJobsProgress | app/main.py:103-109 | every job is processed when nothing raises; otherwise processing stops at the first failure; one model call per job shown, and at most one more for the job that raised |
| App.ProcessJobsComposes | app/main.py:103-107 | each answer shown comes from one compose call, in job order, made after the job's query and carrying that job and its retrieved links |
| App.ProcessJobsAppend | app/main.py:98-109 | jobs after a failing one are never reached; otherwise the loop just goes on with the next jobs |
| App.RunJobs | app/main.py:103-107 | the loop computes exactly the run `ProcessJobs` specifies |
| App.RunNotices | app/main.py:107-109 | one answer shown per processed job, in order, then the error if the loop raised |
| App.Submit | app/main.py:97-109 | a page fetch failure is shown as the error and changes nothing; otherwise a non-forced load, then one extraction call, then the job loop; the first exception ends everything |
| App.CreateStreamlitApp | app/main.py:11-109 | with no upload and no button pressed the index is unchanged and only the count is shown; without submit the model is never called; a clear leaves count 0 |

## Left out

- Reading the CSV file and the encoding fallback in the `Portfolio` constructor (app/portfolio.py:8-26): this is file I/O and library decoding. The constructor receives the table they produce.
- Cell values are text. Missing cells (NaN) and numeric cells are not modelled.
- Chroma persistence, embeddings and similarity: the ranking is an abstract function of the collection, and nothing constrains it. So the model promises at most 2 neighbours per skill, all of them stored, but not that a non-empty store returns any neighbour (Chroma would return min(2, count)). Store failures (an unreachable store) are not modelled.
- The store's add with an id it already holds is modelled as ignored. The portfolio never does this, because its ids are fresh.
- `uuid4` is a counter that only grows. Random-collision behaviour is not modelled.
- Portfolios.Portfolio.QueryLinks: the result for a `skills` value that is not a non-empty list of strings is left to the store's abstract coercion. This covers `[]` (the default when a job has no `skills`), a bare string and `null`. Whether the store accepts these is library behaviour that the code does not show.
- The number of `query_links` calls per job is not observable in the model, because the query only reads. `ProcessJobs` evaluates it once per job, before the compose call.
- The JSON parser's internals: the parser is an abstract partial function. JSON numbers are `real`.
- Prompt wording, `str(job)` rendering, the model name and the sampling temperature. A prompt records only the values filled into it. Sampling is the oracle `sample`.
- Fetching and cleaning the page (`WebBaseLoader`, `clean_text`): the page text, or its failure, is an input of `Submit`.
- Streamlit rendering, spinners, the data preview and script reruns. Message wording becomes `Notice` values.
- App.HandleUpload: the `except Exception` after a validated upload cannot fire in the model. A table with both columns always loads, and store failures are not modelled.
- The `__main__` blocks of app/main.py and app/chains.py, and environment loading.
