# Prisma engines: MongoDB query arguments, join planning, schema field lists and the migrations directory

This Dafny project models four pieces of the Prisma query and migration engines:

- **Query arguments of the MongoDB connector** (`QueryArgs`, `query_arguments.dfy`).
  `MongoQueryArgs` gathers a pre-join filter, joins, post-join filters, `$group`
  stages, "having" filters, a deferred ordering builder, skip, limit and a
  projection. `Finalize` resolves the ordering exactly once. `FindDocuments`
  then picks a plain `find` when there are no joins and no aggregations, and
  the aggregation pipeline otherwise. `PipelineStages` assembles that pipeline.
  Group-by queries place the aggregation stages before `$sort`, `$skip`,
  `$limit` and `$project`; plain aggregations place them after.
- **Join planning** (`Join`, `join.dfy`). A `JoinStage` is a tree of relations
  to follow. `Build` renders it as one `$lookup` whose sub-pipeline binds the
  left keys as `left_i`, normalises array keys for many-to-many relations,
  correlates each right key with `$$left_i`, and then runs the nested joins.
- **Field lists of the schema lowering** (`Lower`, `lower.dfy`). `field_array`,
  `pk_field_array` and `index_field_array` turn `@@id` / `@@index` fields back
  into schema syntax, either as bare names or as `name(length: n, sort: Desc)`.
- **The migrations directory** (`MigrationsDirectory`, `migrations_directory.dfy`).
  This covers the `migration_lock.toml` content and how the provider is read
  back from it, the provider-switch check, `{timestamp}_{name}` directory
  creation, and the listing rule of `list_migrations`.

Shared foundations: `Wrappers` (`Option`, `Result`, `Unit`), `Strings`
(decimal rendering, `starts_with`, the code-point order of `str::cmp`), and
`Bson` (a BSON value tree). In `Bson`, a `Document` is an ordered list of
key/value pairs. `Insert` replaces a present key in place and appends a new one,
as `bson::Document::insert` does. `Extend` inserts a list of pairs one after another.

Collaborators that are not part of this model are inputs:

- the result of `convert_filter(..).render()` is a `Filter` carrying the rendered document and joins, or an error;
- the result of `ModelProjection::into_bson` is a `ModelProjection`;
- a relation field is a `RelationField` record (relation name, many-to-many flag, related collection, left and right key fields);
- the file system is the lock file's content (absent when unreadable), the names already present, the result of creating the directory, and the result of `read_dir`;
- the clock is the formatted timestamp.

The `expect` panic in `finalize` is the error `Panic("Mongo args already finalized.")`.

Joins in the pipeline: `query_arguments.rs:85` extends the stage list with what
each `build()` returns. The model flattens each `(lookup, unwind)` pair the same
way `join.rs:62-67` does for nested joins. The unwind part is always absent
(`join.rs:151`), so each join contributes exactly its `$lookup`.

Having filters and the plain `find`: `find_documents` looks only at the joins
and the aggregation stages when it chooses a plain `find` (`query_arguments.rs:57`).
A having filter added without any grouping is therefore not applied. Once
`with_groupings` has run there is always a `$group` stage, so the pipeline runs
and applies the having filter.

## Model

| member | source | states |
|---|---|---|
| `Bson.Insert` | query-engine/connectors/mongodb-query-connector/src/join.rs:118-129 | After inserting, the key maps to the new value and every other key keeps its value. A present key keeps its position; a new key is appended. Distinct keys stay distinct. |
| `Bson.Extend` | query-engine/connectors/mongodb-query-connector/src/query_arguments.rs:210-211 | Each key maps to the value its last pair gives, else to its old value. |
| `Bson.ExtendAppends` | query-engine/connectors/mongodb-query-connector/src/query_arguments.rs:210-211 | When no key repeats, extending appends the pairs in order. |
| `Bson.ExtendConcat` | query-engine/connectors/mongodb-query-connector/src/query_arguments.rs:202-230 | Extending twice equals extending once with the concatenated pairs. |
| `Join.New` | query-engine/connectors/mongodb-query-connector/src/join.rs:28-34 | A new join has the given source, no alias and no nested joins. |
| `Join.SetAlias` | query-engine/connectors/mongodb-query-connector/src/join.rs:36-38 | Sets the alias and changes nothing else. |
| `Join.PushNested` | query-engine/connectors/mongodb-query-connector/src/join.rs:40-42 | Appends one nested join at the end, keeps the earlier ones in order, and changes nothing else. |
| `Join.ExtendNested` | query-engine/connectors/mongodb-query-connector/src/join.rs:44-46 | Appends the given joins at the end in order and changes nothing else. |
| `Join.LeftVarInjective` | query-engine/connectors/mongodb-query-connector/src/join.rs:159 | Different indices give different `left_i` variable names. |
| `Join.LetVars` | query-engine/connectors/mongodb-query-connector/src/join.rs:157-162 | `let` binds `left_i` to `"$" + db_name` of the i-th left key, for every left key, in order, and binds no name twice. |
| `Join.InsertedLetVars` | query-engine/connectors/mongodb-query-connector/src/join.rs:157-162 | Inserting the `left_i` entries one by one overwrites nothing, so the result is exactly the ordered binding list. |
| `Join.AddFields` | query-engine/connectors/mongodb-query-connector/src/join.rs:108-135 | The `$addFields` stage maps every right key to the conditional that turns a non-array into `[]`, and holds no other key. It binds no key twice. When no right name repeats, it has exactly one entry per right field, in the right fields' order. |
| `Join.EmptyUnlessArrayNormalizes` | query-engine/connectors/mongodb-query-connector/src/join.rs:118-128 | Evaluated on a document, the `$cond` entry gives the field's value when it is an array and `[]` when it is anything else or missing. |
| `Join.KeyPredicates` | query-engine/connectors/mongodb-query-connector/src/join.rs:89-106 | There is one predicate per right key. |
| `Join.KeyPredicateComputes` | query-engine/connectors/mongodb-query-connector/src/join.rs:92-104 | Evaluated on a related document with the `let` variables, the i-th predicate compares the right key with `$$left_i`. A plain relation tests equality. A many-to-many relation tests membership of the scalar side in the list side: `left_i` in the key when the key is a list, the key in `left_i` otherwise. The test fails when the list side is not an array. |
| `Join.MatchStageCorrelates` | query-engine/connectors/mongodb-query-connector/src/join.rs:89-139 | The `$match` reads back as one predicate per right key. The i-th predicate relates the right key to `$$left_i`: `$eq [right, left]` for plain relations; `$in [left, right]` for a list-valued key of a many-to-many relation; `$in [right, left]` otherwise. |
| `Join.SubPipeline` | query-engine/connectors/mongodb-query-connector/src/join.rs:108-140 | The sub-pipeline is the `$addFields` stage (many-to-many only), then the correlating `$match`, then exactly the nested stages. |
| `Join.ParseLookupStage` | query-engine/connectors/mongodb-query-connector/src/join.rs:165-172 | A rendered `$lookup` reads back as its four parts. |
| `Join.Build` | query-engine/connectors/mongodb-query-connector/src/join.rs:142-151 | The unwind document is always absent. |
| `Join.BuildParses` | query-engine/connectors/mongodb-query-connector/src/join.rs:165-174 | The built join document reads back as a `$lookup` with the planned parts. |
| `Join.BuildShape` | query-engine/connectors/mongodb-query-connector/src/join.rs:57-174 | `from` is the related collection. `as` is the alias, else the relation name. `let` binds the left keys. The pipeline is the optional `$addFields`, the correlating `$match`, then the nested joins' stages in list order. |
| `Join.BuildAll` | query-engine/connectors/mongodb-query-connector/src/join.rs:58-69 | Each join contributes exactly one stage. |
| `Join.BuildAllElements` | query-engine/connectors/mongodb-query-connector/src/join.rs:58-69 | The i-th stage is the i-th join's `$lookup`. |
| `Join.BuildAllAppend` | query-engine/connectors/mongodb-query-connector/src/join.rs:58-69 | Building a concatenation of join lists concatenates their stages. |
| `Join.BuildAllLookupNames` | query-engine/connectors/mongodb-query-connector/src/join.rs:57-175 | The `$lookup` names in the built stages, read depth-first, are the alias-or-relation names of the join tree in pre-order. |
| `Join.LookupCount` | query-engine/connectors/mongodb-query-connector/src/join.rs:57-175 | The number of `$lookup` documents equals the number of join nodes. |
| `Join.ExtendNestedPipeline` | query-engine/connectors/mongodb-query-connector/src/join.rs:44-46 | Extending the nested joins appends their stages to the end of the sub-pipeline and keeps the existing stages. |
| `Join.PushNestedPipeline` | query-engine/connectors/mongodb-query-connector/src/join.rs:40-42 | Pushing one nested join appends exactly its `$lookup` to the sub-pipeline. |
| `QueryArgs.Skip` | query-engine/connectors/mongodb-query-connector/src/query_arguments.rs:317-323 | An ignored skip is dropped; otherwise it is kept as given. |
| `QueryArgs.Take` | query-engine/connectors/mongodb-query-connector/src/query_arguments.rs:325-331 | The limit is absent exactly when take is ignored or absent. Otherwise it is the magnitude of take, never negative. |
| `QueryArgs.Direction` | query-engine/connectors/mongodb-query-connector/src/query_arguments.rs:289-295 | The direction is 1 or -1. It is 1 exactly when ascending and reversal disagree. |
| `QueryArgs.BuildOrder` | query-engine/connectors/mongodb-query-connector/src/query_arguments.rs:272-300 | No sort document exactly when nothing is ordered, and never any joins. Each requested key is present (under `_id.` for a group-by) with the direction requested last for it. With no key repeated, the document is the request list in order. |
| `QueryArgs.New` | query-engine/connectors/mongodb-query-connector/src/query_arguments.rs:144-175 | Fails exactly when the filter conversion fails, with that error. A filter without joins is the pre-join query. A filter with joins becomes a post-join filter and adds its joins. The ordering is reversed exactly when take is negative. Skip and limit follow `Skip` and `Take`; everything else is empty. The result is consistent: post-join filters only come with joins, group-by mode only with an aggregation stage. |
| `QueryArgs.BuildersKeepConsistent` | query-engine/connectors/mongodb-query-connector/src/query_arguments.rs:178-252 | `with_model_projection`, `with_groupings`, `with_having` and `finalize` keep the arguments consistent, so without joins there is never a post-join filter. |
| `QueryArgs.WithModelProjection` | query-engine/connectors/mongodb-query-connector/src/query_arguments.rs:178-183 | Succeeds exactly when the projection renders to a document, and sets only the projection. |
| `QueryArgs.IntoDocument` | query-engine/connectors/mongodb-query-connector/src/query_arguments.rs:179 | A value converts exactly when it is a document, and the result is that document's fields. |
| `QueryArgs.AggregationPairs` | query-engine/connectors/mongodb-query-connector/src/query_arguments.rs:305-315 | One pair `<op>_<db_name>: { $<op>: "$<db_name>" }` per field, in field order. |
| `QueryArgs.SelectionPairsMembership` | query-engine/connectors/mongodb-query-connector/src/query_arguments.rs:202-229 | A selection requests exactly its `count_all` (counts with `all`) and its operator's accumulator on each of its fields; plain fields request nothing. |
| `QueryArgs.AccumulatorsMembership` | query-engine/connectors/mongodb-query-connector/src/query_arguments.rs:202-230 | An accumulator is requested exactly when some selection requests it. |
| `QueryArgs.CountAllRequested` | query-engine/connectors/mongodb-query-connector/src/query_arguments.rs:205-208 | `count_all` is requested exactly when some count selection sets `all`. |
| `QueryArgs.NoAccumulatorIsId` | query-engine/connectors/mongodb-query-connector/src/query_arguments.rs:200-230 | No accumulator is named `_id`, so the group key is never overwritten. |
| `QueryArgs.GroupKey` | query-engine/connectors/mongodb-query-connector/src/query_arguments.rs:187-198 | The key is `null` exactly for no grouping fields. Otherwise it is a document binding each grouping field to `"$" + db_name`, with no other keys; with no name repeated, it is those bindings in field order. |
| `QueryArgs.AddSelection` | query-engine/connectors/mongodb-query-connector/src/query_arguments.rs:203-229 | The inserts of one selection (`count_all` first, then the per-field accumulators) amount to extending the body by the pairs that selection requests. |
| `QueryArgs.AddSelections` | query-engine/connectors/mongodb-query-connector/src/query_arguments.rs:202-230 | Inserting each selection's accumulators in turn equals extending by all requested accumulators at once. |
| `QueryArgs.GroupBodyShape` | query-engine/connectors/mongodb-query-connector/src/query_arguments.rs:200-232 | The `$group` body starts with `_id` bound to the group key. Every other key maps to the accumulator requested last under that name. Without repeated names, it is `_id` followed by the accumulators in request order. |
| `QueryArgs.CountAllShadowed` | query-engine/connectors/mongodb-query-connector/src/query_arguments.rs:205-211 | Counting all rows together with a field named `all` leaves only that field's count under `count_all`. |
| `QueryArgs.WithGroupings` | query-engine/connectors/mongodb-query-connector/src/query_arguments.rs:186-234 | Appends exactly one `$group` stage of that shape. Switches to group-by mode exactly when grouping fields are given. Changes nothing else. |
| `QueryArgs.WithHaving` | query-engine/connectors/mongodb-query-connector/src/query_arguments.rs:237-244 | No filter leaves the arguments unchanged. A rendered filter is appended as a post-aggregation filter and its joins are dropped. A render error propagates. |
| `QueryArgs.Finalize` | query-engine/connectors/mongodb-query-connector/src/query_arguments.rs:246-252 | Panics exactly when the builder is already taken. Otherwise it takes the builder, sets the order to the sort document the builder produces for the current mode (present exactly when something is ordered), keeps the joins, and changes nothing else. |
| `QueryArgs.FinalizeTwicePanics` | query-engine/connectors/mongodb-query-connector/src/query_arguments.rs:247 | A second finalisation panics. |
| `QueryArgs.FinalizedSortKeys` | query-engine/connectors/mongodb-query-connector/src/query_arguments.rs:246-251 | After grouping and finalising, every requested field is a sort key (under `_id.` when grouping fields were given) and every sort key is such a field. |
| `QueryArgs.MatchStages` | query-engine/connectors/mongodb-query-connector/src/query_arguments.rs:88 | One `$match` per filter, in order. |
| `QueryArgs.JoinStages` | query-engine/connectors/mongodb-query-connector/src/query_arguments.rs:85 | The join stages are each join's build, in list order. |
| `QueryArgs.WindowPushes` | query-engine/connectors/mongodb-query-connector/src/query_arguments.rs:107-125 | The pushes produce `$sort`, `$skip`, `$limit` and `$project`, each exactly when present, in that order. |
| `QueryArgs.PipelineStages` | query-engine/connectors/mongodb-query-connector/src/query_arguments.rs:75-142 | The pushes of `execute_pipeline_query` produce exactly the canonical stage list. |
| `QueryArgs.FindDocuments` | query-engine/connectors/mongodb-query-connector/src/query_arguments.rs:54-73 | Panics exactly when already finalised. Runs a plain `find` exactly when there are no joins and no aggregations, passing query, projection, limit, skip and the sort document the builder produces. Otherwise runs the pipeline of the finalised arguments with disk use allowed. |
| `QueryArgs.FindModeMatchesPipeline` | query-engine/connectors/mongodb-query-connector/src/query_arguments.rs:57-137 | For consistent arguments without joins or aggregation stages, the pipeline is the plain `find` followed by the having `$match`es, so the `find` runs everything except the having filters. |
| `QueryArgs.HavingWithoutGroupingIgnored` | query-engine/connectors/mongodb-query-connector/src/query_arguments.rs:57-72 | A having filter added without grouping leaves no join and no aggregation, so the plain `find` runs, and the one stage the pipeline would add, the having `$match`, is not applied. |
| `QueryArgs.CanonicalStages` | query-engine/connectors/mongodb-query-connector/src/query_arguments.rs:79-137 | The leading stages come first. In group-by mode the aggregation block follows them and the window closes the pipeline; otherwise the window follows them and the aggregation block closes it. |
| `QueryArgs.ModesArePermutations` | query-engine/connectors/mongodb-query-connector/src/query_arguments.rs:94-137 | Both modes run the same stages, only in a different order. |
| `QueryArgs.PipelineJoinLookups` | query-engine/connectors/mongodb-query-connector/src/query_arguments.rs:85 | The join part holds one `$lookup` per join node, in pre-order. |
| `Lower.FieldExpression` | libs/datamodel/core/src/transform/dml_to_ast/lower.rs:150-170 | A bare name exactly when there are no arguments. Otherwise a function form named after the field, with one argument for the length when present and one for the sort when shown. The length comes first and the sort last. |
| `Lower.FieldArray` | libs/datamodel/core/src/transform/dml_to_ast/lower.rs:141-146 | One bare constant per name, same length and order. |
| `Lower.PkFieldExpression` | libs/datamodel/core/src/transform/dml_to_ast/lower.rs:150-170 | A primary-key field is a bare name exactly when it has no length and its order is not `Desc`. |
| `Lower.PkFieldArray` | libs/datamodel/core/src/transform/dml_to_ast/lower.rs:148-172 | One expression per field, in order. |
| `Lower.IndexFieldExpression` | libs/datamodel/core/src/transform/dml_to_ast/lower.rs:177-211 | Rendering every order: a bare name exactly without length and order. Rendering only `Desc`: a bare name exactly without length and without `Desc`. |
| `Lower.IndexFieldArray` | libs/datamodel/core/src/transform/dml_to_ast/lower.rs:175-213 | One expression per field, in order. |
| `Lower.IndexFieldRoundTrip` | libs/datamodel/core/src/transform/dml_to_ast/lower.rs:181-189 | Rendering every order loses nothing: the syntax reads back as the field, `Asc` → `"Asc"` and `Desc` → `"Desc"`. |
| `Lower.IndexFieldDescOnlyRoundTrip` | libs/datamodel/core/src/transform/dml_to_ast/lower.rs:190-196 | Rendering only `Desc`, the syntax reads back as the field with an `Asc` order dropped. |
| `Lower.PkFieldRoundTrip` | libs/datamodel/core/src/transform/dml_to_ast/lower.rs:151-157 | A primary-key field reads back with its name and length, and with its order only when `Desc`. |
| `Lower.IndexFieldArrayRoundTrip` | libs/datamodel/core/src/transform/dml_to_ast/lower.rs:175-213 | A whole index field list rendered with every order reads back as itself. |
| `Lower.FieldArrayRoundTrip` | libs/datamodel/core/src/transform/dml_to_ast/lower.rs:141-146 | The names of `field_array` read back in order as plain fields. |
| `Lower.IndexMatchesPk` | libs/datamodel/core/src/transform/dml_to_ast/lower.rs:148-213 | Rendering only `Desc`, an index field list renders exactly like a primary key with the same names, orders and lengths. |
| `MigrationsDirectory.LinesOfJoined` | migration-engine/connectors/migration-connector/src/migrations_directory.rs:97 | Lines joined by `\n` split back into the same lines (no line holds a break, none ends in `\r`, the last is not empty). |
| `MigrationsDirectory.Lines` | migration-engine/connectors/migration-connector/src/migrations_directory.rs:97 | No lines exactly for an empty text; no line holds a line break; there are never more lines than characters. |
| `MigrationsDirectory.LinesCons` | migration-engine/connectors/migration-connector/src/migrations_directory.rs:97 | A line without a break, followed by a break, splits off as the first line with one trailing `\r` removed; the lines after it are those of the rest. |
| `MigrationsDirectory.CrlfLine` | migration-engine/connectors/migration-connector/src/migrations_directory.rs:97 | A line ended by `\r\n` reads as the line itself, with the `\r` gone, whatever the line holds. |
| `MigrationsDirectory.LastLineDropsCr` | migration-engine/connectors/migration-connector/src/migrations_directory.rs:97 | A final line ending in `\r` with no `\n` after it loses the `\r`, as `str::lines` does in Rust before 1.77. |
| `MigrationsDirectory.FindLine` | migration-engine/connectors/migration-connector/src/migrations_directory.rs:98 | Nothing is found exactly when no line starts with the prefix. Otherwise the first such line is found. |
| `MigrationsDirectory.TrimStartMatches` | migration-engine/connectors/migration-connector/src/migrations_directory.rs:99 | The input is some copies of the pattern followed by the result, and the result no longer starts with the pattern. |
| `MigrationsDirectory.TrimMatches` | migration-engine/connectors/migration-connector/src/migrations_directory.rs:99 | The input is some copies of the character, the result, then some more copies. The result neither starts nor ends with the character. A string already free of it at both ends is unchanged. |
| `MigrationsDirectory.TrimMatchesQuoted` | migration-engine/connectors/migration-connector/src/migrations_directory.rs:99 | Quoting a string that is not already quoted and then trimming the quotes gives it back. |
| `MigrationsDirectory.LockFileContent` | migration-engine/connectors/migration-connector/src/migrations_directory.rs:64-69 | For a provider without a line break, the content has exactly three lines: the two comment lines and `provider = "<p>"`. The content always ends with the closing quote, with no line break after the provider line. |
| `MigrationsDirectory.FoundProvider` | migration-engine/connectors/migration-connector/src/migrations_directory.rs:96-100 | Without a line starting with `provider`, the value is `<PROVIDER NOT FOUND>`. Otherwise the first such line is some copies of `provider = `, then some quotes, the value, and some quotes. The value neither starts nor ends with a quote, and what follows the prefixes does not start with another prefix. |
| `MigrationsDirectory.MatchProviderInLockFile` | migration-engine/connectors/migration-connector/src/migrations_directory.rs:91-108 | Nothing exactly when the lock file cannot be read. Otherwise a match exactly when the found provider equals the given one, else the found provider. |
| `MigrationsDirectory.ErrorOnChangedProvider` | migration-engine/connectors/migration-connector/src/migrations_directory.rs:78-87 | Succeeds exactly when the lock file is unreadable or matches. Otherwise the error carries the given provider and, as expected provider, the found one. |
| `MigrationsDirectory.LockFileProviderLine` | migration-engine/connectors/migration-connector/src/migrations_directory.rs:95-98 | In a written lock file, the provider line is the first line starting with `provider`. |
| `MigrationsDirectory.ProviderLineValue` | migration-engine/connectors/migration-connector/src/migrations_directory.rs:99 | The provider line yields back the unquoted provider. |
| `MigrationsDirectory.LockFileRoundTrip` | migration-engine/connectors/migration-connector/src/migrations_directory.rs:64-107 | A provider written to the lock file is found again, matches, and raises no switch error, provided it has no line break and is not itself quoted. |
| `MigrationsDirectory.CrlfLockFileRoundTrip` | migration-engine/connectors/migration-connector/src/migrations_directory.rs:94-99 | A lock file whose line breaks were all turned into `\r\n` still yields the provider written, and raises no switch error. |
| `MigrationsDirectory.LockFileSwitch` | migration-engine/connectors/migration-connector/src/migrations_directory.rs:78-107 | Checking a different provider against a written lock file reports a switch away from the written one. |
| `MigrationsDirectory.CreateMigrationDirectory` | migration-engine/connectors/migration-connector/src/migrations_directory.rs:26-51 | Fails with `AlreadyExists` exactly when `{timestamp}_{name}` is already present. Otherwise it fails exactly as creating the directory fails, and the new directory is named `{timestamp}_{name}`. |
| `MigrationsDirectory.NamesFollowTimestamps` | migration-engine/connectors/migration-connector/src/migrations_directory.rs:30-35 | With timestamps of one width, an earlier timestamp gives a smaller directory name, whatever the migration names. |
| `MigrationsDirectory.InsertByName` | migration-engine/connectors/migration-connector/src/migrations_directory.rs:152 | Inserting into a name-sorted list keeps it sorted and adds exactly the one element. |
| `MigrationsDirectory.SortByName` | migration-engine/connectors/migration-connector/src/migrations_directory.rs:152 | The result is sorted by name and is a permutation of the input. |
| `MigrationsDirectory.ListMigrations` | migration-engine/connectors/migration-connector/src/migrations_directory.rs:135-155 | A directory that is not found lists nothing. Any other read failure is an error. An error on an entry or its type is the error met first. Otherwise the result is the directory entries, sorted by name, as a permutation. |
| `MigrationsDirectory.DirectoriesErrorStays` | migration-engine/connectors/migration-connector/src/migrations_directory.rs:144-145 | Once reading an entry fails, later entries do not change the outcome. |
| `MigrationsDirectory.DirectoriesFirstError` | migration-engine/connectors/migration-connector/src/migrations_directory.rs:144-147 | Reading the entries fails exactly when some entry or its type cannot be read, and then with the error of the first such entry. |
| `MigrationsDirectory.CollectDirectories` | migration-engine/connectors/migration-connector/src/migrations_directory.rs:144-150 | The loop over the entries gives the same outcome as the entry-by-entry definition. |
| `MigrationsDirectory.DirectoriesAreDirectories` | migration-engine/connectors/migration-connector/src/migrations_directory.rs:144-150 | A migration is listed exactly when a directory entry of that name was read; other file types are skipped. |

## Left out

- MongoDB driver calls (`find`, `aggregate`, cursors, async execution): I/O. The model returns the `find` descriptor or the stage list that would be sent.
- `dbg!(&stages)`: a debug print with no effect on the result.
- `convert_filter(..).render()` and `ModelProjection::into_bson`: their code is not part of this model. Their results are inputs.
- The error message of `into_document` for a non-document value: `into_document` comes from the connector's own `BsonTransform` trait (imported at `query_arguments.rs:1`), whose code is not part of this model, so the model uses a fixed message.
- `QueryArgs.Take`: does not model the `i64` overflow of negating `i64::MIN`, because integers are unbounded here.
- The commented-out `$unwind` block of `join.rs`: disabled code. The unwind document is always absent.
- The rest of `lower.rs` (`lower`, `lower_model`, `lower_enum`, `lower_field`, `lower_composite_type`): depends on schema types and helpers that are not part of this model. Source spans are dropped.
- `libs/datamodel/parser-database/src/walkers/model/primary_key.rs`: thin accessors into parser internals that are not part of this model.
- File system effects of the migrations directory: creating directories and files, writing the lock file, reading the lock file and the directory, checksums, `read_migration_script`, and the `Display`/`Error` implementations. Their outcomes are inputs.
- The clock: `chrono::Utc::now()` is replaced by the formatted timestamp string.
- Path handling in `create_migration_directory` (a name holding a path separator, `to_string_lossy`): directories are known by their file name only.
- `MigrationsDirectory.SortByName`: states sortedness and permutation but not the stability of `sort_by`. Names read from one directory are distinct, so the two determine the result.
- `MigrationsDirectory.LockFileRoundTrip`: only covers providers without a line break that are not wrapped in quotes. Other providers do not read back, because the parser splits lines and trims every quote.
- `MigrationsDirectory.ListMigrations`: does not model the panic of `migration_name()` (`migrations_directory.rs:195-201`) on a directory name that is not valid UTF-8, which the `sort_by` comparator calls at `migrations_directory.rs:152`. Names are modelled as strings, so every name is valid.
