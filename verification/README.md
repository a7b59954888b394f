# MeldStore verification model

A Dafny model of MeldStore, which keeps object bytes in storage and their records in a SQL catalog, two places that no
single commit covers. `dafny verify dfyconfig.toml` checks all of it.

The catalog is one value, `Tables.Tables`, with a map per SQL table. Each library call has a specification that gives the
tables it commits (`Lifecycle`, `Migrations`), and a method that does it statement by statement on a `Databases.Database`
whose methods refuse what the keys, foreign keys and triggers refuse (`Stores`, `Migrators`, `Maintenance`). `Tables.Inv` is
what every committed catalog satisfies, and `Tables.Extends` what history may never undo.

| file | about |
|---|---|
| `Tables`, `Lifecycle`, `LifecycleProofs`, `History` | the catalog, its invariant, each operation and what later catalogs keep |
| `Results`, `Answers`, `Lives`, `Importing` | what each result means, exactly when each call succeeds and what it is refused for, that every outcome is reached, and import_file from end to end |
| `Operations`, `Imports` | histories of whole transactions, and agreement of repeated imports |
| `Protocol`, `ProtocolProofs`, `Runs`, `Exclusion`, `Storages` | storage and catalog together, with failing storage calls and processes that stop anywhere |
| `Databases`, `Stores`, `Maintenance`, `Reconciliation` | the operations in place, cleanup and the reconciliation report |
| `Migrations`, `MigrationProofs`, `Batching`, `Interleaving`, `Migrators`, `Layout` | resumable metadata migration and mixed-version tables |
| `Query`, `Pages`, `Searches`, `Ordering` | the keyset query compiler over three-valued logic, pagination, and find over the catalog |
| `Schemas`, `Declarations`, `Guards` | field values, declarations, their canonical form and stored definition, and row guards against the physical table |
| `Connections`, `Catalogs` | the transaction and quarantine machine over a connection that may fail at every call |
| `S3Identity`, `Backups`, `Enrolment` | the S3 identity race, backup and restore, and which schemas a backup accepts |

Assumptions: object promotion is create-only, a commit is atomic, generated keys and tokens are never repeated, migration
transforms are pure functions, calls that name one migration carry one transform (which `transform_id` is for), the digest is
any function of the bytes, and only the library writes its tables. A storage request may take effect after its process has
stopped; only the claims about finished cleanup (`Exclusion`) take such requests as settled. Clocks, generated names, driver faults and the orders in which SQLite and the store list things are parameters.

Findings, each stated as a theorem:

- A failing library call dooms the open transaction exactly when it reaches the catalog before it raises
  (`Catalogs.Catalog.Perform`). Calls that raise earlier do not, so a caller that catches their errors can still commit:
  `transaction(write=...)` with a flag that is not a boolean (src/meldstore/catalog.py:281-284), and `stat`,
  `migration_status` and `deletion_status` with an invalid identifier (src/meldstore/store.py:349-351, 420-422 and 446-448).
  `Catalogs.CaughtBadNestingCommits`, `Catalogs.CaughtBadLookupCommits` and `Catalogs.UnnoticedFailuresCommit` show it.
- A schema that a migration or a plain `Catalog.install_schema` brought into the catalog is not enrolled for lifecycle
  operations (src/meldstore/migrations.py:239-241), and a backup then fails with an integrity error
  (src/meldstore/backup.py:151-155) although nothing is damaged. `Backups.SnapshotIsSound` gives the exact condition,
  `Enrolment.MigratedThenRefused` the example, and `Enrolment.PerformEnrolled` the histories in which it cannot happen.
- docs/lifecycle.md:124 says that `discarded` means a token explicitly revoked for cleanup. The code also reports it for a
  token whose blob was retired under another id (src/meldstore/lifecycle.py:204-207). The model follows the code;
  `History.RevokedMeans` gives the exact condition and `History.DiscardedWithoutDiscard` reaches it.
- The error for an object that reappeared after completed cleanup (src/meldstore/maintenance.py:88-91) is, in this model,
  reachable only through a request that lands after its process stopped: `Exclusion.DoneIsGone` and `Exclusion.LateRequestReappears`.

## Model

| member | source | states |
|---|---|---|
| `Runs.RunIsSafe` | src/meldstore/store.py:145-237 | After any interleaving of uploads, journalling, transactions, deletions and stops, with storage calls that fail before or after taking effect, the whole invariant of storage and catalog holds and no committed fact is undone |
| `Runs.ReachableBytes` | src/meldstore/store.py:145-184 | From a new catalog over any storage root, every journaled object whose key is not queued for cleanup holds bytes of exactly the journaled size and digest |
| `Protocol.BlobsMaterialize` | src/meldstore/storage.py:159-185 | In every reachable world each blob, publishing or ready, reads back: its object holds the bytes its upload was given, of the recorded size and digest |
| `Protocol.MaterializeMeans` | src/meldstore/storage.py:159-185 | Reading an object back yields its bytes exactly when it exists and has the recorded size and the recorded digest |
| `ProtocolProofs.PromoteSafe` | src/meldstore/storage.py:99-115 | Create-only promotion of a private stage keeps the invariant whether or not it took effect or was acknowledged, by rename or by copy |
| `ProtocolProofs.PutEmptySafe` | src/meldstore/s3.py:222-239 | The direct creation of an empty S3 object keeps it too |
| `ProtocolProofs.RemoveSafe` | src/meldstore/maintenance.py:150-162 | Deleting a queued object keeps it, at any time and any number of times |
| `Runs.ResolveAlongRuns` | src/meldstore/lifecycle.py:176-210 | Along any such run the outcomes of resolve for one id and token only move forward |
| `Exclusion.RunIsClean` | src/meldstore/maintenance.py:132-170 | When maintenance holds its exclusive lease and requests of stopped processes have settled, a finished job's object stays gone and no unfinished upload writes to a queued key |
| `Exclusion.DoneIsGone` | src/meldstore/maintenance.py:86-92 | From a new catalog, along such runs a key whose job is done never holds an object again |
| `Exclusion.LateRequestReappears` | src/meldstore/maintenance.py:86-92 | Without settled requests it can: a stage is queued, deleted and recorded done, and then its delayed upload lands |
| `Storages.LocalStorage.Upload` | src/meldstore/storage.py:99-115 | upload in place, however it ends, is one or two steps of the protocol; it succeeds exactly when both calls do and the key is new, leaves the whole payload then, never replaces an object, and touches nothing but the key and its stage |
| `Storages.LocalStorage.UploadToS3` | src/meldstore/s3.py:222-241 | So is S3Storage.upload, which creates an empty payload at once and stages, copies and deletes any other |
| `Storages.HashFile` | src/meldstore/storage.py:23-30 | The streamed size and digest are those of the whole file |
| `Storages.Receive` | src/meldstore/storage.py:165-185 | The download loop yields exactly the streamed bytes, and only when the reported size, the received size and the digest all agree |
| `Storages.MaterializeObject` | src/meldstore/storage.py:159-185 | In whatever chunks the stored bytes arrive, materialize returns them exactly when the object exists with the recorded size and digest, and is otherwise an integrity error |
| `Tables.RecordSucceeds` | src/meldstore/store.py:239-280 | Under the invariant, mid-migration included, _record succeeds for every row of ms_blobs, and its ready form exactly for the ready ones |
| `Tables.LiveIsNotQueued` | src/meldstore/lifecycle.py:40-46 | No live association's key or token is in the cleanup queue |
| `Tables.RetiredStatusIsTheJoin` | src/meldstore/lifecycle.py:112-117 | The join of ms_retired and ms_gc has exactly one row for a retired id and none for any other |
| `Tables.ExtendsTransitive` | src/meldstore/lifecycle.py:27-56 | What one commit keeps of the one before it, it keeps of all earlier ones |
| `LifecycleProofs.InstallKeeps` | src/meldstore/installation.py:116-157 | Declaring a schema keeps the invariant and every committed fact |
| `LifecycleProofs.AdoptKeeps` | src/meldstore/payload_catalog.py:58-90 | Enrolling a declared schema for payloads never refuses, and keeps them |
| `LifecycleProofs.InstallSchemaKeeps` | src/meldstore/store.py:73-80 | Store.install_schema succeeds exactly when the declaration installs, enrols it for payloads and lifecycle, and keeps everything |
| `LifecycleProofs.JournalKeeps` | src/meldstore/store.py:161-184 | Journalling keeps them |
| `LifecycleProofs.FinalizeKeeps` | src/meldstore/store.py:186-226 | Finalizing keeps them, and the record it returns is the one that reads back |
| `LifecycleProofs.PublishKeeps` | src/meldstore/store.py:228-237 | Publishing keeps them, and the record it returns reads back as ready |
| `LifecycleProofs.UpdateKeeps` | src/meldstore/store.py:373-413 | A guarded edit keeps them; the edited row still conforms to its declaration |
| `LifecycleProofs.UpdateReadsBack` | src/meldstore/store.py:405-413 | The record an edit returns is the one that reads back |
| `LifecycleProofs.DeleteKeeps` | src/meldstore/lifecycle.py:120-154 | Retiring keeps them, and the status it returns is the one later lookups find |
| `LifecycleProofs.DiscardKeeps` | src/meldstore/lifecycle.py:157-173 | Discarding keeps them, and the job it returns is the token's own |
| `LifecycleProofs.QueueOrphansKeeps` | src/meldstore/maintenance.py:104-129 | Queueing orphans keeps them |
| `LifecycleProofs.RecordCleanupKeeps` | src/meldstore/maintenance.py:157-162 | Recording a deletion keeps them, and never reopens a finished job |
| `LifecycleProofs.ImportKeeps` | src/meldstore/store.py:500-506 | The final transaction of import_file and put keeps them, and its record reads back as ready |
| `Operations.ReplayKeeps` | src/meldstore/catalog.py:278-291 | Any history of committed, failed and rolled-back transactions of any calls keeps the invariant and undoes nothing |
| `Operations.ApplyFrame` | src/meldstore/lifecycle.py:43-56 | Only journalling writes the journal, only four calls write the queue, only migrations write jobs, only four calls change declarations and enrolments |
| `History.QueuedIsNotLive` | src/meldstore/maintenance.py:141-149 | cleanup's live-reference conflict cannot occur |
| `History.QueuedIsNeverBoundAgain` | src/meldstore/lifecycle.py:40-42 | A token once queued is never bound in any later catalog |
| `History.RetiredStaysRetired` | src/meldstore/lifecycle.py:31-33 | A retired id is never live again and its retirement record never changes |
| `History.ResolveMovesForward` | src/meldstore/lifecycle.py:176-210 | unknown, prepared, publishing, ready, retired, or discarded from the first two: never backwards, and the file and the retirement stay the same |
| `History.RevokedMeans` | src/meldstore/lifecycle.py:204-207 | resolve reports discarded exactly when the id is neither live nor retired and the token was discarded or was retired under another id |
| `History.DiscardedWithoutDiscard` | src/meldstore/lifecycle.py:206-207 | That happens: import a free token under one id, delete that id, and resolve of any unused id reports discarded |
| `History.ImportThenRetry` | src/meldstore/store.py:508-545 | Right after an import commits, asking again with the same arguments returns exactly its record |
| `Imports.ImportsAgree` | src/meldstore/store.py:487-506 | Two successful calls with one id, declaration, metadata and payload, with any transactions between them: the second commits nothing and returns the same record, up to edits of that id |
| `Results.FinalizeMeans` | src/meldstore/store.py:186-226 | A finalized record is the one in the tables and holds exactly the given token and schema and, field by field, the given values normalized and null for what was omitted; an existing one changes nothing |
| `Results.ImportMeans` | src/meldstore/store.py:487-545 | An imported record is ready and holds exactly the requested payload size, digest, encoding and schema and, field by field, the given values normalized and null for what was omitted |
| `Results.UpdateMeans` | src/meldstore/store.py:383-413 | An edit changes exactly the named mutable fields of one ready row at the expected version, which it raises by one |
| `Results.DeleteMeans` | src/meldstore/lifecycle.py:120-154 | A retirement moves the blob's id, token and version to the history and queues exactly its object; repeating it changes nothing |
| `Results.ResolveMeans` | src/meldstore/lifecycle.py:189-210 | Each outcome of resolve holds exactly when the catalog says so; a live one carries the state, object and fields of the blob |
| `Answers.RecordAnswer` | src/meldstore/store.py:239-280 | In any catalog a record reads back exactly when its rows are present and consistent; only a missing or unready blob is an ordinary failure |
| `Answers.SchemaAnswer` | src/meldstore/store.py:108-121 | A declaration is accepted exactly when it is an installed one, for writing the newest, with its publication guard |
| `Answers.InstallAnswer` | src/meldstore/store.py:73-80 | install_schema accepts exactly an installed declaration or a new name at version 1, and what it commits |
| `Answers.JournalAnswer` | src/meldstore/store.py:161-184 | When the journal row is refused, and that otherwise it is all that is added |
| `Answers.FinalizeAnswer` | src/meldstore/store.py:186-226 | Exactly when finalize succeeds and with which error it refuses; no integrity error is left, and a success adds the three rows of the blob and nothing else |
| `Answers.PublishAnswer` | src/meldstore/store.py:228-237 | publish refuses exactly a missing blob or one of another root, and otherwise only sets the state |
| `Answers.UpdateAnswer` | src/meldstore/store.py:373-413 | Exactly when update_metadata succeeds: a valid nonempty change of mutable declared fields of a ready blob at the expected version below the largest int64; and its error otherwise |
| `Answers.DeleteAnswer` | src/meldstore/lifecycle.py:120-154 | Exactly when delete succeeds, for a live and for a retired id, the error otherwise, and the whole of what it commits and returns |
| `Answers.DiscardAnswer` | src/meldstore/lifecycle.py:157-173 | Exactly when discard succeeds, the error otherwise, and the one job it adds or finds |
| `Answers.QueueAnswer` | src/meldstore/maintenance.py:104-129 | Exactly which lists of keys are queued; each new key gets an orphan job, and keys already queued keep theirs |
| `Answers.CleanupAnswer` | src/meldstore/maintenance.py:157-162 | Recording a deletion makes that pending job done, or keeps it pending with its error, and changes no other job |
| `Answers.RetryAnswer` | src/meldstore/store.py:508-545 | A retry refuses a retired id and any blob that is not exactly the requested and published one, returns that one, and finds nothing otherwise |
| `Answers.ImportAnswer` | src/meldstore/store.py:500-506 | Exactly when the last transaction of import_file and put succeeds, the error otherwise, and that it adds one ready blob or nothing |
| `Answers.ResolveAnswer` | src/meldstore/lifecycle.py:176-210 | The outcome or error of resolve for every catalog, case by case |
| `Answers.ContinueAnswer` | src/meldstore/migrations.py:239-303 | Exactly when a migration starts or resumes, the error otherwise, and the declaration, enrolment and job a new one commits |
| `Answers.InitializeAnswer` | src/meldstore/migrations.py:236-241 | Only a conflicting source declaration stops _initialize before that |
| `Lives.TokenOutcomes` | src/meldstore/lifecycle.py:176-210 | From any catalog a request with unused id and token is accepted by the journal and by discard, and resolve reports unknown, prepared and discarded along the way |
| `Lives.BlobOutcomes` | src/meldstore/lifecycle.py:176-210 | It is accepted by finalize, publish, import, update and delete as well, and resolve reports publishing, ready and retired along the way |
| `Lives.UploadIsImported` | src/meldstore/store.py:487-506 | In the protocol a finished upload may be journaled and imported, and the blob then reads back ready with exactly the uploaded bytes |
| `Importing.ImportFile` | src/meldstore/store.py:487-506 | import_file end to end is a run of the protocol; it succeeds exactly when the declaration is in force, the metadata is valid, the id is free or already holds this request, and a needed upload goes through; then the id holds a ready blob whose object has the given size and digest, and for a new one the very bytes; a failure leaves the catalog as it was |
| `Lives.MigrationRuns` | src/meldstore/migrations.py:383-390 | A migration that can start, with a total transform and no unpublished blob, is begun and completed by its batches |
| `Lives.DeclarationsAreMade` | src/meldstore/store.py:73-80 | A new name can be declared either way, but only Store.install_schema makes its schema usable for payloads |
| `Stores.Store.InstallSchema` | src/meldstore/store.py:73-80 | Declaration and enrolments, statement by statement, agree with the specification or change nothing |
| `Stores.Store.InstallLifecycle` | src/meldstore/store.py:82-88 | The loop over declared schemas enrols exactly those that were missing |
| `Stores.Store.Journal` | src/meldstore/store.py:161-184 | The journal transaction, statement by statement, commits exactly the specified tables or raises the specified error and changes nothing |
| `Stores.Store.Finalize` | src/meldstore/store.py:186-226 | The three inserts pass every key, reference and trigger except those whose error the specification names |
| `Stores.Store.Publish` | src/meldstore/store.py:228-237 | The publication guard never refuses a blob that reads back |
| `Stores.Store.UpdateMetadata` | src/meldstore/store.py:373-413 | The guarded update always matches its row, and the edit trigger never refuses it |
| `Stores.Store.Delete` | src/meldstore/lifecycle.py:120-154 | The statements of a retirement all pass their triggers; the result agrees with the specification |
| `Stores.RetirementIsAllowed` | src/meldstore/lifecycle.py:140-153 | No key of ms_retired or ms_gc clashes when a live blob is retired and no migration of its schema is running |
| `Stores.Store.Discard` | src/meldstore/lifecycle.py:157-173 | The job is found after INSERT OR IGNORE |
| `Stores.QueuedByKey` | src/meldstore/lifecycle.py:169-173 | A journaled token is queued exactly when its key is, under its own token, so the final SELECT is never empty |
| `Stores.Store.QueueOrphans` | src/meldstore/maintenance.py:104-129 | The loop queues all the keys, or none when one of them is journaled |
| `Stores.Store.Import` | src/meldstore/store.py:500-506 | Retry, finalize and publish in one transaction, all or nothing |
| `MigrationProofs.InitializeKeeps` | src/meldstore/migrations.py:236-303 | Declaring the next version and recording its job keeps the invariant: every source row awaits the new job |
| `MigrationProofs.InitializeReady` | src/meldstore/migrations.py:236-303 | After it both declarations are installed and the job it returns identifies the plan |
| `MigrationProofs.NeverBehindCheckpoint` | src/meldstore/migrations.py:345-349 | The behind-the-checkpoint error cannot occur |
| `MigrationProofs.BatchKeeps` | src/meldstore/migrations.py:306-354 | A batch keeps the invariant and every committed fact |
| `MigrationProofs.BatchProgress` | src/meldstore/migrations.py:344-354 | A batch shrinks the backlog by its size and is complete exactly when nothing remains, with every row counted |
| `MigrationProofs.BatchSucceeds` | src/meldstore/migrations.py:310-313 | With every blob published and a transform that accepts every row no batch is refused |
| `Migrations.TransformMeans` | src/meldstore/migrations.py:327-328 | A row is transformed exactly when the transform, given the one mapping whose normalized values are the row, returns declared fields with values the target accepts and leaves out only optional ones; the new row holds those values normalized, field by field, and null elsewhere |
| `MigrationProofs.BatchMeans` | src/meldstore/migrations.py:306-354 | A batch rewrites by the transform exactly the first source rows in id order, with their blobs, count and checkpoint; it is refused, and nothing changes, exactly when some blob is unpublished or the transform fails on a chosen row |
| `Batching.AnyBatchingIsOneShot` | src/meldstore/migrations.py:383-390 | For any batch sizes, rollbacks, stops and resumptions, a completed migration is the one-pass migration, checkpoint and counts included: every source row rewritten once by the transform, every other row as it was |
| `Batching.OneShotRows` | src/meldstore/migrations.py:326-343 | The one-pass result, row by row: each source row holds what the transform makes of it with its version raised by one, every other row untouched |
| `Interleaving.ApplyRow` | src/meldstore/migrations.py:126-145 | Any call keeps a row, edits it at the newest version, retires it while no migration runs, or rewrites it once by the transform of its migration |
| `Interleaving.CompleteMigration` | src/meldstore/migrations.py:306-354 | With any other transactions between its batches, when a migration is complete each row of the initial backlog was transformed at exactly one call of the history: untouched until then, rewritten there to what this plan's transform makes of it, and never moved by it again; and the counts agree |
| `Interleaving.BacklogShrinks` | src/meldstore/migrations.py:140-145 | No call of any writer adds to a migration's backlog |
| `Interleaving.EnoughBatches` | src/meldstore/migrations.py:344-354 | With any other transactions between them, as many successful batches as there are rows (one if there are none) complete the migration with migrated_rows equal to total_rows |
| `Interleaving.RunningCounts` | src/meldstore/migrations.py:317-354 | At every moment migrated_rows plus the remaining source rows is total_rows, and every remaining source row is after last_id |
| `Interleaving.CompleteMeansNone` | src/meldstore/migrations.py:345-353 | A completed migration leaves no source row |
| `Interleaving.InitializedStays` | src/meldstore/migrations.py:245-259 | Once initialized, a plan finds its job and its declarations in every later catalog |
| `Migrators.Initialize` | src/meldstore/migrations.py:236-303 | _initialize in its own transaction agrees with its specification, or changes nothing |
| `Migrators.MoveRow` | src/meldstore/migrations.py:326-343 | One row's step, update, blob update and step removal all pass their guards; they succeed exactly when the transform accepts the row, and leave what it makes of it |
| `Migrators.MoveRows` | src/meldstore/migrations.py:326-343 | The row loop succeeds exactly when the transform accepts every selected row, and rewrites exactly those |
| `Migrators.Batch` | src/meldstore/migrations.py:306-354 | _batch in its own transaction rewrites the chosen rows by the transform and advances the job, or changes nothing and says why |
| `Migrators.Run` | src/meldstore/migrations.py:362-390 | run ends; unlimited success means complete with every row counted, and when this run declared the target every source row is rewritten once by the transform and no other row changes; unhindered it succeeds; and its result is the one of initializing and batching to the end |
| `Migrators.DryRun` | src/meldstore/migrations.py:372-382 | A dry run reports exactly the job or the error that a real run would, and leaves the catalog as it was |
| `Layout.BuildColumns` | src/meldstore/migrations.py:102-107 | Columns can be built exactly when each field name keeps one kind in all versions |
| `Layout.Build` | src/meldstore/migrations.py:99-125 | The mixed-version table accepts exactly the null-padded rows that conform to the declaration of their own version |
| `Layout.OldRowsAreAdmitted` | src/meldstore/migrations.py:203-208 | Every row of the previous layout, padded with nulls, is accepted by the new one |
| `Layout.FirstRowsAreAdmitted` | src/meldstore/installation.py:53-92 | Every row of a version-1 table, padded with nulls, is accepted by its first layout |
| `Layout.MigratedRowsAreAdmitted` | src/meldstore/migrations.py:325-339 | Every conforming row of the target version, as a batch writes it, is accepted |
| `Layout.GuardRefinesFirst` | src/meldstore/migrations.py:126-139 | On rows of the newest version the layout's update guard is the version-1 guard |
| `Layout.OldRowsAreFrozen` | src/meldstore/migrations.py:129-139 | Without a migration step a row of an older version cannot change at all |
| `Guards.EditGuard` | src/meldstore/migrations.py:126-139 | A guarded edit of a newest-version row succeeds exactly when the physical table's checks and update trigger allow it |
| `Guards.MoveGuard` | src/meldstore/migrations.py:130-139 | The rewrite of an older row succeeds exactly when they do, the trigger's step being a matching row of ms_migration_steps |
| `Guards.OldGuard` | src/meldstore/migrations.py:129-139 | An edit of a row that is not of the newest version is refused by both |
| `Query.CompileTerm` | src/meldstore/query.py:79-108 | One predicate compiles exactly when it is valid, and its clause is true in three-valued logic exactly for the rows that satisfy it |
| `Query.NormalizeOrder` | src/meldstore/query.py:44-56 | Orders are accepted exactly when valid, and get an ascending id tie-breaker unless id is already last |
| `Query.CompileCursor` | src/meldstore/query.py:128-139 | The cursor clause is true exactly for the rows strictly after the cursor in the null-aware order |
| `Query.CheckCursor` | src/meldstore/query.py:110-127 | Cursors are accepted exactly when they belong to the query and hold storable values |
| `Query.CompileQuery` | src/meldstore/query.py:67-144 | Exactly the valid requests compile; with parameters bound left to right, WHERE is true exactly for the ready rows of the schema version that satisfy every predicate and follow the cursor |
| `Pages.RowOrderIsTotal` | src/meldstore/query.py:141-144 | The emitted ORDER BY is a strict total order on the rows in scope |
| `Pages.Find` | src/meldstore/store.py:354-367 | find returns the first rows, up to the limit, of the selected set in that order; rows that the named fields do not tell apart come in ascending id |
| `Pages.CursorIsAccepted` | src/meldstore/query.py:59-64 | The cursor of a returned record is accepted by the same query |
| `Pages.PageSplits` | src/meldstore/query.py:109-144 | The cursor of a page's last row leaves exactly the rows not yet returned, and strictly fewer |
| `Pages.PagesCompose` | src/meldstore/query.py:44-64 | For any limit, page after page ends and lists the whole sorted result, no row missed or repeated |
| `Searches.JoinedIsValid` | src/meldstore/query.py:141-142 | Under the invariant the joined rows have distinct ids and values their declaration allows, which pagination needs |
| `Searches.FindRecords` | src/meldstore/store.py:354-367 | find succeeds exactly for an installed schema and a valid request, and returns published records of the version that meet every condition and lie beyond the starting point, in the requested order; another such record is left out only when the page is full, and comes later |
| `Searches.RequestMeans` | src/meldstore/query.py:67-127 | Exactly which requests find accepts: the bounds, the conditions of where and predicates, the order and the starting point |
| `Searches.PrecedesMeans` | src/meldstore/query.py:141-144 | The emitted ORDER BY sorts two rows as the request says: by the first named field that differs, in its direction, and then by ascending id |
| `Searches.DefaultOrder` | src/meldstore/query.py:47 | Without an order, records come in ascending order of their ids |
| `Searches.FirstFieldDecides` | src/meldstore/query.py:128-139 | Ascending, null comes before every value and smaller values before larger ones; descending is the reverse |
| `Searches.EqualFieldsById` | src/meldstore/query.py:56 | Records equal in every named field come in ascending order of their ids |
| `Searches.CursorMeans` | src/meldstore/query.py:59-64 | A cursor is refused exactly for a record of another version or an invalid order, and what lies beyond it is what its record precedes |
| `Schemas.FromSqlRoundTrip` | src/meldstore/schema.py:44-92 | from_sql succeeds exactly on the values a field can hold, and normalize and from_sql undo each other |
| `Schemas.NormalizeMeans` | src/meldstore/schema.py:44-73 | Which Python values each kind accepts, with the exact 64-bit and datetime ranges, and the one value each is stored as |
| `Schemas.MetadataMeans` | src/meldstore/schema.py:214-217 | Metadata is accepted exactly when every given name is declared, every given value normalizes and every omitted field is optional; omitted fields are stored as null |
| `Declarations.Declare` | src/meldstore/schema.py:139-184 | __post_init__ accepts exactly the valid declarations and stores their canonical form |
| `Declarations.ValidMeans` | src/meldstore/schema.py:139-182 | Exactly which declarations are accepted: name lengths in UTF-8 bytes, field names other than the reserved and ms_ ones in any case and distinct in any case, indexes of distinct declared fields, distinct indexes and handlers |
| `Declarations.CanonicalMeans` | src/meldstore/schema.py:180-184 | The stored form keeps every index and handler, handlers in text order and indexes by their names, plain before unique |
| `Layout.FoldMeans` | src/meldstore/schema.py:153-159 | Names count as equal exactly when they differ in nothing but the case of ASCII letters |
| `Declarations.ReorderingIsIrrelevant` | src/meldstore/schema.py:180-184 | Reordering indexes or handlers does not change the stored form |
| `Declarations.SameDefinition` | src/meldstore/schema.py:190-212 | Two stored forms have the same definition exactly when they are equal |
| `Declarations.DecodeRebuilds` | src/meldstore/migrations.py:64-70 | Decoding a definition gives a valid declaration with that same stored form |
| `Reconciliation.Reconcile` | src/meldstore/maintenance.py:19-101 | The report's lists are exactly the classification of journal, queue and inventory, or the bound is exceeded |
| `Reconciliation.NothingWrong` | src/meldstore/maintenance.py:58-92 | In every reachable world nothing is missing or corrupt and there is no catalog error |
| `Reconciliation.DamageIsReported` | src/meldstore/maintenance.py:35-82 | In any catalog and any store an object is reported missing exactly when a journal row that should have it finds none, and corrupt exactly when its size, or with verify its digest, differs; and blobs that do not read back are reported |
| `Reconciliation.RowsAreListed` | src/meldstore/maintenance.py:58-72 | A journal row is listed as ready, publishing, prepared or in an unexpected state exactly by the blob it is bound to |
| `Reconciliation.KeysAreListed` | src/meldstore/maintenance.py:83-100 | An inventory key is listed as orphan, stage or unrecognized exactly when the catalog does not know it, as reappeared when its job is done, and pending jobs are listed |
| `Reconciliation.AccountedOnce` | src/meldstore/maintenance.py:86-100 | Every inventory key is accounted for exactly once, and the orphans are exactly the object keys neither journaled nor queued |
| `Reconciliation.OrphansAreAccepted` | src/meldstore/maintenance.py:104-129 | queue_orphans accepts any choice of reported orphans and stages |
| `Maintenance.Cleanup` | src/meldstore/maintenance.py:132-170 | cleanup never finds a live reference and deletes only selected objects; each selected job becomes done, with its object gone, or stays pending with its error, as its deletion went; no other job changes; and all of it is a run of the protocol under the lease |
| `Maintenance.ReferencedMeans` | src/meldstore/maintenance.py:141-149 | In any catalog the check before cleanup finds exactly an association with the queued object or a live blob of the job |
| `Maintenance.SelectedAreFirst` | src/meldstore/maintenance.py:137-140 | One call takes the first pending keys of its root in text order, as many as the limit allows |
| `Catalogs.Catalog.Start` | src/meldstore/catalog.py:308-332 | A start that fails leaves no transaction and restores query_only, or quarantines |
| `Catalogs.Catalog.RequireTransaction` | src/meldstore/catalog.py:259-269 | Only the open, unfailed transaction of this catalog passes; any other handle dooms the open one |
| `Catalogs.Catalog.Perform` | src/meldstore/catalog.py:103-124 | An action inside a transaction dooms it exactly when it raises after it has reached the catalog, and on a working connection it raises exactly when it should |
| `Catalogs.Catalog.Finish` | src/meldstore/catalog.py:343-396 | Commit or rollback and restoration; an outcome error names the call that raised, the phase, and the result as far as it is known |
| `Catalogs.Catalog.Transact` | src/meldstore/catalog.py:278-396 | For every pattern of driver failures: a normal return is durable; an ordinary error changes nothing; an outcome error quarantines, names the phase that failed, and is true; a doomed transaction cannot commit; a quarantined catalog never reaches its connection; and on a working connection it commits exactly when every action succeeds or fails unnoticed and is caught |
| `Catalogs.UnnoticedFailuresCommit` | src/meldstore/catalog.py:278-291 | A block of failing calls that never reach the catalog, all caught, commits on a working connection |
| `Catalogs.CaughtBadNestingCommits` | src/meldstore/catalog.py:279-285 | A nested begin with a flag that is not a boolean is one such call |
| `Catalogs.CaughtBadLookupCommits` | src/meldstore/store.py:349-352 | stat with an invalid identifier is another |
| `Catalogs.CaughtLookupCannotCommit` | src/meldstore/store.py:349-352 | stat with a valid identifier begins a nested transaction, and the open one cannot commit though the error is caught |
| `Catalogs.Catalog.Close` | src/meldstore/catalog.py:564-593 | An idle catalog attempts to close every resource and is closed in any case, and reports success exactly when all of them closed; an active one refuses |
| `S3Identity.OneIdentity` | src/meldstore/s3.py:158-211 | However many coordinators race, stop, retry or copy markers, all successful opens name one coordinator and one storage id |
| `S3Identity.WinnerReopens` | src/meldstore/s3.py:168-184 | The coordinator whose marker landed, acknowledged or not, can always open again, and no other can |
| `S3Identity.WinnerCanReopen` | src/meldstore/s3.py:168-184 | Running its constructor again opens the prefix under the same identity |
| `S3Identity.LoneCoordinatorOpens` | src/meldstore/s3.py:186-208 | An undisturbed coordinator of an empty prefix opens it under the id it generated |
| `S3Identity.OccupiedIsNeverAdopted` | src/meldstore/s3.py:186-190 | A prefix that already holds other objects is never adopted: nothing is written there and no constructor opens it |
| `Backups.SnapshotIsSound` | src/meldstore/backup.py:115-183 | Under the invariant a missing enrolment is the only integrity error of _entries; a snapshot is accepted exactly when its work is finished, its root is the one named, every declaration is enrolled and the bounds hold |
| `Backups.EntriesAnswer` | src/meldstore/backup.py:115-183 | Which error a snapshot is refused with, in the order of the checks, in terms of its rows |
| `Enrolment.MigratedThenRefused` | src/meldstore/migrations.py:236-241 | In any finished catalog, a migration of a schema that was never installed through a store, completed, leaves a finished catalog that backup refuses for the enrolment alone |
| `Enrolment.MigratedIsRefused` | src/meldstore/backup.py:151-155 | In any catalog, initializing such a migration makes every backup fail |
| `Enrolment.PerformEnrolled` | src/meldstore/store.py:73-80 | Along any history in which new names come only through Store.install_schema every declaration stays enrolled |
| `Enrolment.EnrolRepairs` | src/meldstore/store.py:82-88 | Store.install_lifecycle enrols every schema that has its publication guard |
| `Backups.EntriesAreIntact` | src/meldstore/backup.py:169-184 | In every reachable world each listed payload is in the store with its recorded size and digest, under distinct keys |
| `Backups.EntriesAreBlobs` | src/meldstore/backup.py:169-184 | The entries are the blobs, each once, in id order, with their own objects' keys, sizes and digests |
| `Backups.CopyPayloads` | src/meldstore/backup.py:261-269 | Success means that source and target both hold an object of the recorded size and digest for every entry, whatever the target did with what it was given |
| `Backups.BackUp` | src/meldstore/backup.py:272-302 | A manifest file exists only after the target holds every listed payload with its recorded size and digest |
| `Backups.Restore` | src/meldstore/backup.py:388-435 | Wherever it stops, a published catalog is the described one and its manifest lists its own entries, each of which is in the destination with its recorded size and digest |
| `Backups.BackUpAndRestore` | src/meldstore/backup.py:272-302 | Backing up a reachable world whose work is finished and whose declarations are enrolled, and restoring it, reproduces the catalog and the bytes of every live payload |

## Left out

- Layout.Build: the SQL text, defaults and unique indexes of the table; only its column, NOT NULL and CHECK conditions.
- Query.CompileQuery: the SQL text and quoting; the emitted clauses are an expression tree, and argument types are those of the model.
- Declarations.SameDefinition: JSON text; a definition is a JSON value, and writing it with sorted keys and reading it back are taken as inverse.
- Schemas.FromSqlRoundTrip: the text form of timestamps, which are kept as instants; floats are reals, so rounding, infinities and negative zero do not appear.
- Reconciliation.Reconcile: the result of SQLite's own foreign key check, which the invariant makes empty.
- Maintenance.Cleanup: the same check, and a stop between two jobs, which `Runs` covers.
- Migrators.Run: application hooks, the physical table rebuild, preserved application indexes and triggers, and refusals by unique indexes.
- Catalogs.Catalog.Close: which of several errors is raised and how cleanup errors are attached to it.
- Catalogs.Catalog.Transact: interrupts delivered between two driver calls, and calls from another thread.
- S3Identity.OneIdentity: the constructor is a sequence of steps of many processes rather than one method, since the claim is about their interleavings; the local lease is taken as exclusive.
- Backups.Restore: manifest field checks, the SQL export file and path checks.
- Application constraints and foreign keys that may refuse a statement; every such refusal rolls the transaction back.
- `ms_encodings` is part of the journal row, and the per-schema metadata tables are one map by id; rows of every version hold only the fields of their version, and `Layout` relates them to padded rows.
- The format rows and shared DDL of the payload, encoding, lifecycle and migration extensions are taken as installed (enrolment per schema is modelled); comparison of stored DDL and drift refusal.
- The MeldDB adapter, file handlers, payload validators, temporary files, export, and SQLite locking behind the leases.
- `get`, `stat`, `deletion_status` and `migration_status`, which read one row.
