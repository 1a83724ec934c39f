# Pair survey: a Dafny model of its store, request core, chunk builder and ingestion

This project models the core of a blind image-comparison survey. Participants
start a session and fetch pairs of images generated for the same prompt by
two models. They vote for one image or for a tie. Around this request core
sit three offline jobs:

- a migration that shuffles the prompts into ten fixed chunks;
- a script that checks that every prompt lands in exactly one chunk;
- an ingestion script that loads the prompts and registers one image per
  prompt and dataset.

Modules, one per source file, except that ingest_r2.py is split into
`Ingest` (the pure URL and spreadsheet logic) and `IngestDb` (the database
writes), plus three shared helpers:

- `Models` (models.dfy) covers app/models.py:
  - the closed enumerations and their lookup by value;
  - one datatype per row kind;
  - the unique and foreign-key constraints as store invariants;
  - the insert of a vote, with its three ways to fail;
  - the cascade that deletes a session's votes with the session.
- `PairApi` (pair_api.dfy) covers app/main.py. Class `Survey` holds the five
  tables. Its methods `StartSession`, `NextPair` and `CastVote` are the three
  handlers, and each returns a `Result` whose error is the HTTP status.
- `ChunkMigration` (chunk_migration.dfy) covers migration 7eb89d369ccc.
  Class `ChunkTables` holds `chunks` and `chunk_prompts`. `Upgrade` keeps the
  source's two nested loops; `Downgrade` empties both tables. Lemmas prove
  what the slicing produces.
- `PromptDistribution` (prompt_distribution.dfy) covers
  verify_prompt_distribution.py:
  - the per-prompt counts and the three classes (duplicates, unique,
    missing);
  - the verdict, proved to be an exact test;
  - the chunk-size listing;
  - what the verdict says about the migration's output.
- `Ingest` (ingest.dfy) covers the pure half of ingest_r2.py: `str(i)`,
  zero padding, the `DATASETS` stems, `build_url`, and `load_prompts_xlsx`
  as a method with two loops.
- `IngestDb` (ingest_db.dfy) covers the database half of ingest_r2.py:
  `upsert_prompt`, `upsert_image`, and the nested loop of `main`.
  - Class `IngestDatabase` runs the statements one at a time. Each loop
    method is proved equal to a function over the tables (`StoreFrom`,
    `IngestFrom`).
  - Lemmas prove what that function guarantees: the constraints still
    hold, every prompt carries its loaded text, exactly one image per
    (prompt, model) carries its URL, and with fresh ids the transaction
    commits.
- `Uuids`, `Sequences` and `Wrappers` are shared helpers:
  - `Uuids`: `str(uuid)` and `uuid.UUID(text)`, with the round trip between
    them;
  - `Sequences`: lists without repeats;
  - `Wrappers`: `Option` and `Result`.

Randomness is a parameter or a nondeterministic choice:

- `uuid4()` and `gen_random_uuid()` values are method parameters;
- `random.choice` becomes a `:|` choice;
- `random.shuffle` becomes a `:|` choice of a permutation.

The clock is a `Time` parameter.

The handlers in app/main.py assign no chunks, and never complete or abandon
a session. The model follows that code. None of those behaviours is modelled.

## Model

| member | source | states |
|---|---|---|
| Uuids.ParseFormat | app/main.py:40-49 | the id string `str(sid)` that start_session returns parses back with `uuid.UUID` to the same id |
| Models.ParseModelName | app/models.py:18-20 | lookup by value succeeds exactly for "gpt5" and "gemini25", and returns the member with that value |
| Models.ParseWinner | app/models.py:23-26 | lookup by value succeeds exactly for the values of Winner, and returns the member with that value |
| Models.ParseStatus | app/models.py:29-32 | lookup by value succeeds exactly for "active", "completed" and "abandoned" |
| Models.WinnerExtendsModelName | app/models.py:18-26 | Winner's values are ModelName's plus "tie"; a model value means the same member in both; "tie" is no model |
| Models.NewSession | app/models.py:75-83 | a session inserted with only its id is active, has no completed_at, and has created_at = last_activity = now |
| Models.InsertVote | app/models.py:87-105 | the insert succeeds iff reaction_time_ms fits the 32-bit column, the row id is new, the session has not voted on the pair, and session and pair exist; it then adds exactly that row and keeps uq_votes_session_pair. An in-range value with a taken row id or (session, pair) key is a unique violation, and an out-of-range value is refused first |
| Models.InsertVoteKeepsConsistent | app/models.py:57-105 | a successful vote insert keeps every unique and foreign-key constraint |
| Models.InsertVoteAddsPair | app/models.py:103-105 | after an insert the voting session has voted on exactly one more pair, the new one; other sessions are unaffected |
| Models.VotedPairsCount | app/models.py:103-105 | under uq_votes_session_pair a session has voted on as many distinct pairs as it has vote rows |
| Models.DeleteSession | app/models.py:84-93 | deleting a session removes it and exactly its votes; every other session and every other vote stays unchanged |
| Models.DeleteSessionKeepsConsistent | app/models.py:84-93 | the cascade keeps every constraint, and afterwards the deleted session has voted on nothing |
| PairApi.ParseVote | app/main.py:121-142 | the request yields a vote row iff both ids are UUIDs and both enum values are members; the row carries the parsed values |
| PairApi.VoteShrinksUnvoted | app/main.py:61-69 | a vote removes exactly the voted pair from its session's unvoted set and leaves other sessions' sets as they were |
| PairApi.CompletedCountsVotedPairs | app/main.py:71-74 | in a consistent store, pairs_completed = total - remaining equals the number of distinct pairs the session voted on, and so its number of vote rows |
| PairApi.Survey.UnpresentableIffNull | app/main.py:88-112 | in a consistent store both images of a pair exist, and the pair cannot be shown exactly when its prompt_id is NULL or one of its images has a NULL model |
| PairApi.Survey.StartSession | app/main.py:38-43 | a fresh id adds exactly one active session and returns an id string that parses back to it; a taken id is a 500 and changes nothing |
| PairApi.Survey.NextPair | app/main.py:46-116 | 400 iff the id is malformed; 404 iff the session is unknown; done iff no pair is unvoted; otherwise the pair shown is unvoted and shows its prompt and both images in one of the two orders; counters add up to the total; 500 only when some unvoted pair cannot be shown, which in a consistent store means a NULL prompt_id or image model; nothing is written |
| PairApi.Survey.CastVote | app/main.py:119-156 | 400 iff the request does not parse, before any write; otherwise ok iff the insert succeeds, adding exactly that row; 409 iff the insert hits a unique constraint; 500 for any other refusal; a refused vote leaves the votes unchanged. A first vote for an existing session and pair with a fresh row id and an in-range reaction time is accepted; a repeat vote is always refused, with 409 when its reaction time is in range |
| ChunkMigration.ChunkSlice | migrations/versions/7eb89d369ccc_create_fixed_10_chunks_for_all_prompts.py:66-69 | chunk i's slice is ids[min(30i, n) .. min(30i + 30, n)], at most 30 ids |
| ChunkMigration.Partition | migrations/versions/7eb89d369ccc_create_fixed_10_chunks_for_all_prompts.py:55-86 | the rows inserted number min(300, n) |
| ChunkMigration.PartitionPrompts | migrations/versions/7eb89d369ccc_create_fixed_10_chunks_for_all_prompts.py:58-86 | read in insertion order, the rows' prompt ids are the first min(300, n) shuffled ids |
| ChunkMigration.PartitionMembers | migrations/versions/7eb89d369ccc_create_fixed_10_chunks_for_all_prompts.py:66-86 | with distinct chunk ids, chunk i holds exactly its slice, in order |
| ChunkMigration.PartitionMembersOther | migrations/versions/7eb89d369ccc_create_fixed_10_chunks_for_all_prompts.py:58-86 | an id that is not one of the ten chunk ids holds no prompt |
| ChunkMigration.PartitionDistinct | migrations/versions/7eb89d369ccc_create_fixed_10_chunks_for_all_prompts.py:41-86 | no prompt id is inserted twice, so uq_chunk_prompts_chunk_prompt never fires |
| ChunkMigration.ChunkTables.Upgrade | migrations/versions/7eb89d369ccc_create_fixed_10_chunks_for_all_prompts.py:26-98 | zero prompts leave both tables empty; a chunk id drawn twice rolls back to the old tables; otherwise the ten chunk ids are stored and the rows are the partition of a permutation of the prompt ids, none repeated |
| ChunkMigration.ChunkTables.InsertSlice | migrations/versions/7eb89d369ccc_create_fixed_10_chunks_for_all_prompts.py:72-86 | the inner loop extends the rows by chunk i's slice, so the table grows from chunk i's start to chunk i + 1's |
| ChunkMigration.ChunkTables.Downgrade | migrations/versions/7eb89d369ccc_create_fixed_10_chunks_for_all_prompts.py:101-118 | both tables end up empty |
| PromptDistribution.Classification | verify_prompt_distribution.py:34-42 | duplicates, unique and missing prompts are pairwise disjoint; duplicates and unique together are the prompts that occur |
| PromptDistribution.PassesIff | verify_prompt_distribution.py:78-84 | the verdict passes iff no prompt id occurs twice and the ids that occur are exactly the prompts |
| PromptDistribution.BuilderPassesIff | verify_prompt_distribution.py:76-84 | the migration's output for n distinct prompts passes iff n <= 300; with more, some prompt is missing |
| PromptDistribution.BuilderChunkSizes | verify_prompt_distribution.py:66-74 | for the migration's output, chunk i is listed iff 30i < n, with min(30, n - 30i) rows |
| Ingest.DecimalRoundTrip | ingest_r2.py:132 | `str(i)` reads back as i |
| Ingest.DecimalInjective | ingest_r2.py:131-132 | different prompt numbers get different prompt ids |
| Ingest.ZeroPad2 | ingest_r2.py:19 | `f"{i:02d}"` is `str(i)` with one "0" in front when that has one digit, and `str(i)` itself otherwise |
| Ingest.ZeroPad2Value | ingest_r2.py:19-35 | the padded digits read back as i |
| Ingest.Stem | ingest_r2.py:16-37 | a stem is the dataset's prefix followed by `f"{i:02d}"`; the digits after the prefix read back as i |
| Ingest.Root | ingest_r2.py:74 | the base is kept when it ends in "/", and gets one "/" appended otherwise |
| Ingest.Relative | ingest_r2.py:75 | the relative path is the folder with trailing slashes removed, then "/" + stem + ".png" |
| Ingest.BuildUrl | ingest_r2.py:73-76 | the URL is the root (the base with its slash) followed by the relative path; for an http(s) base with no empty, "." or ".." path segment, it starts with the base and ends in "/" + stem + ".png" |
| Ingest.ImageUrlsDistinct | ingest_r2.py:145-149 | two image URLs from one base are equal iff they are for the same dataset and the same prompt |
| Ingest.TextColumn | ingest_r2.py:50-56 | the chosen column is the first whose lower-cased name contains "natural"; none exists iff no name does |
| Ingest.LoadPrompts | ingest_r2.py:42-70 | an error iff no such column; otherwise the keys are exactly str(k + 1) for the data rows, each mapped to row k's stripped cell text |
| IngestDb.UpsertPromptRow | ingest_r2.py:79-90 | afterwards the prompt exists with the new text; an existing prompt keeps its category, a new one has none; other prompts are unchanged |
| IngestDb.UpsertPromptIdempotent | ingest_r2.py:79-90 | running upsert_prompt twice with the same text is the same as running it once |
| IngestDb.UpsertPromptConsistent | ingest_r2.py:79-90 | a prompt upsert keeps the images' unique key and foreign key |
| IngestDb.UpsertImageEffect | ingest_r2.py:93-104 | fails iff the key is new and the drawn id is taken or the prompt is missing; otherwise a row holds the url, rows keep their keys, other keys are untouched, and a new row appears only under the drawn id |
| IngestDb.UpsertImageIdempotent | ingest_r2.py:93-104 | repeating a successful image upsert changes nothing, whatever id is drawn the second time |
| IngestDb.UpsertImageConsistent | ingest_r2.py:93-104 | a successful image upsert keeps uq_images_prompt_model and the foreign key to prompts |
| IngestDb.StoredOnly | ingest_r2.py:93-104 | under uq_images_prompt_model a stored image is the only row with its (prompt, model) key |
| IngestDb.StoreFromKeeps | ingest_r2.py:145-149 | the inner loop keeps the images' constraints |
| IngestDb.StoreFromDone | ingest_r2.py:145-149 | the inner loop stores prompt i's image from every dataset; it cannot fail with fresh ids and an existing prompt |
| IngestDb.IngestFromKeeps | ingest_r2.py:130-149 | the whole loop keeps the images' constraints |
| IngestDb.IngestFromDone | ingest_r2.py:130-149 | the whole loop reaches its end state, and cannot fail when the drawn ids are fresh and distinct |
| IngestDb.IngestEffect | ingest_r2.py:130-149 | with fresh, distinct ids the transaction commits. A commit keeps the constraints. Prompts "1".."300" carry their loaded texts, or "" when absent, and other prompts are untouched. Each prompt has an image per dataset with its URL, old rows keep id and key, and each new row carries a drawn id and the key of some prompt and dataset |
| IngestDb.IngestOneImagePerKey | ingest_r2.py:130-155 | after a commit each prompt "1".."300" has exactly one image row per dataset model, holding the URL built for it |
| IngestDb.IngestCountFromEmpty | ingest_r2.py:151-154 | a committed run on an empty images table leaves exactly 300 * 5 = 1500 image rows |
| IngestDb.ImagesCount | ingest_r2.py:145-154 | a table with unique (prompt, model) keys, each the key of some prompt 1..300 and dataset, that stores an image for every such key has 1500 rows |
| IngestDb.IngestDatabase.UpsertPrompt | ingest_r2.py:79-90 | the prompts table becomes the upserted one, and the constraints are kept |
| IngestDb.IngestDatabase.UpsertImage | ingest_r2.py:93-104 | the images table becomes the upserted one, or stays as it was when the statement fails; the constraints are kept |
| IngestDb.IngestDatabase.StoreImages | ingest_r2.py:145-149 | the statement-by-statement inner loop ends in the images table StoreFrom specifies, or reports the failure |
| IngestDb.IngestDatabase.IngestPrompts | ingest_r2.py:131-149 | the statement-by-statement outer loop ends in the tables IngestFrom specifies, or reports the failure |
| IngestDb.IngestDatabase.Ingest | ingest_r2.py:130-149 | the transaction commits the tables IngestResult specifies, or rolls back to the old tables; the constraints hold afterwards; with fresh, distinct ids it commits |

## Left out

- HTTP and database wiring: the FastAPI app, CORS, `get_db`, the health
  endpoint, the engine and connection setup, and every `print`. They are
  plumbing with nothing to prove.
- Concurrency between requests. Each handler is one atomic step on the
  store. Vote uniqueness rests on the constraint, as in the source.
- Parse: the model accepts what remains after dropping "urn:", "uuid:",
  the surrounding braces and every hyphen only when it is 32 hexadecimal
  digits. CPython hands those 32 characters to `int(hex, 16)`, which also
  accepts surrounding whitespace, a leading "+", a "0x" prefix, "_" between
  digits and non-ASCII digits. Such ids are answered with 400 by the model
  and accepted by the service.
- CastVote: the 409/500 split in the source matches the words "unique
  constraint" or "duplicate" in the error text. The model classifies the
  database's refusal instead: unique violations (including a row-id clash)
  against foreign-key violations and a 32-bit overflow of reaction_time_ms.
- CastVote does not check that left_model is one of the pair's models; the
  source does not either.
- Timestamps are opaque `Time` values. `onupdate` of last_activity never
  fires, because no handler updates a session.
- Models: the enum labels stored in PostgreSQL are taken to be the Python
  values. Migration dbd30e4a87bf is not part of this model.
- Models.Image: `model` stays a ModelName as in app/models.py. The ingestion
  writes dataset labels such as "flux1_dev" into the same column. So
  `IngestDb` keeps its own `StoredImage` row with the label as a string.
- ChunkMigration: the chunk tables follow the migration's SQL. The
  `Chunk` and `ChunkPrompt` classes that verify_prompt_distribution.py
  imports are not part of this model. The surrogate `id` of a chunk_prompts
  row is left out. verify_prompt_distribution.py counts `ChunkPrompt.id`;
  the model counts rows instead, which is the same number because `id` is
  a non-null primary key.
- ChunkMigration.ChunkTables.Upgrade: with zero prompts the two deletes are
  kept, since the session belongs to the migration's transaction. A failure
  rolls back to the tables before upgrade.
- ChunkMigration.ChunkTables.Upgrade: only a clash among the ten chunk ids
  is modelled as a failure. A clash among the `uuid4()` ids of the
  chunk_prompts rows is not, since those ids are left out.
- ChunkMigration.ChunkTables.Downgrade: the two deletes cannot fail in the
  model, so the except branch that rolls back and re-raises is left out.
- PromptDistribution: the counts are computed from the rows themselves,
  not by SQL. The order in which the chunk sizes are printed is not
  modelled.
- Ingest.BuildUrl: `urljoin` is modelled only where it appends the
  relative path to the base, and R2_URL comes from the environment, so
  nothing in the script enforces this domain:
  - the base's scheme is one that `urljoin` resolves against (http or
    https); for another scheme, such as "s3:", it returns the relative part
    alone;
  - the base's path has no empty, "." or ".." segment, which `urljoin`
    would drop or resolve;
  - the base has no query or fragment;
  - the relative part has no scheme, leading slash or ".." segment.
  The BuildUrl row's "starts with the base" holds on this domain only.
- Ingest.LoadPrompts: pandas is not modelled, and nor is a failed load
  turning into SystemExit.
  - The sheet is a header row plus rows of cells, and a cell is text or
    empty ("nan").
  - `strip()` removes the 29 characters for which `str.isspace()` holds.
    `lower()` is modelled on ASCII letters only. No other character lowers
    to a letter of "natural", so the column choice is unaffected.
  - The row-count sanity message is printing.
- Ingest: the environment checks on DATABASE_URL and R2_URL are left out.
  The base URL is a parameter.
- IngestDb.UpsertImageRows: `ON CONFLICT (prompt_id, model) DO UPDATE`
  updates every row holding the key. Under uq_images_prompt_model that is
  at most one row.
- IngestDb.IngestDatabase.Ingest: `gen_random_uuid()` is the sequence of
  1500 ids drawn in statement order. A statement that fails leaves its
  partial updates in place until Ingest rolls back the whole transaction.
- The reporting scripts, the pure DDL migrations and app/schemas.py beyond
  the shape of `VoteCreate` are left out. They add no behaviour to the core.
