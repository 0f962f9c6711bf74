# A Dafny model of three core classes of the Java driver for Cassandra and Scylla

This project models three classes of the driver (package `com.datastax.driver.core`) and
proves properties of those models.

- **`querybuilder.Select`**, in `select.dfy`, module `QueryBuilderSelect`. This is the
  query builder's SELECT statement.
  - The statement is a class whose fields the mutators update in place: `orderBy`,
    `groupBy`, both `limit` overloads, both `perPartitionLimit` overloads,
    `allowFiltering`, `bypassCache`, `where` and `using`.
  - Every mutator is proved against a step function on the value `SelectState`. The step
    function either fails with the exception the Java code throws, or returns the new state.
    A throwing mutator leaves the statement unchanged. Every step keeps `WellFormed`, the facts
    the guards establish: an ORDER BY list is non-empty, an integer LIMIT or PER PARTITION
    LIMIT is positive, and a DISTINCT statement has no PER PARTITION LIMIT. No other contract
    depends on it.
  - `buildQueryString` is modelled as one method that appends pieces to the StringBuilder
    in turn. The query it builds has one fixed order,
    `SELECT [JSON] [DISTINCT] cols|* FROM [ks.]table [WHERE …] [GROUP BY …] [ORDER BY …]
    [PER PARTITION LIMIT …] [LIMIT …] [ALLOW FILTERING] [BYPASS CACHE] [USING …]`.
    It is proved that each keyword appears exactly when the statement's fields call for it,
    at most once, and in that order.
  - The two builders that collect the selection before `from` are classes too: `Builder`,
    and `SelectionOrAlias` with its pending selection that may still receive an alias.
    Chained selections are proved to reach the column list in the order they were made.
- **`Host`**, in `host.dfy`, module `Hosts`. This is a cluster node as the driver sees it.
  - It is a class with the Java fields and their setters.
  - A ghost history records the `setUp`/`setDown` calls. From it the model proves that the
    state is ADDED exactly until the first such call, and after that it is the state the most
    recent call set.
  - `equals` and `hashCode` depend only on the endpoint.
- **`TableOptionsMetadata`**, in `table_options.dfy`, module `TableOptions`. This is a
  table's options as decoded from one schema-table row.
  - The decoding is a function that returns the options or the exception the constructor
    would throw.
  - Each field is one small decoder. Its contract gives, for every version and every state of
    the column (missing, null, a cell of the right type, a cell of another type), the value or
    the exception. `Decode` succeeds exactly when every decoder does, and then each field is
    its decoder's result.
  - The loop over the known Scylla extensions is a method proved against a function.
  - `equals` gets Java's `==` on primitive doubles (NaN, and the two zeros) and
    `Double.equals` on the boxed one.

`base.dfy` (module `Base`) holds what the three share: an `Option` for nullable
references, a `Result` for "value or exception", a Java `int`, and a server
`VersionNumber`.

Two modelling choices carry through the Select model:

- **StringBuilder.** It is the sequence of `Piece`s appended to it, and the query text is
  `Flatten` of that sequence. A piece is a fixed keyword, or text that a `Renderer`
  produces. The renderer stands for `Utils`' name and value rendering, which is not part of
  this model.
- **`buildQueryString`.** It is written as one method calling five helper methods, one per
  group of appends. Each helper states what it appends.

## Model

| member | source | states |
|---|---|---|
| QueryBuilderSelect.Initial | driver-core/src/main/java/com/datastax/driver/core/querybuilder/Select.java:49-81 | a new statement has no clause, option, ordering, grouping or limit, and satisfies the mutators' invariant |
| QueryBuilderSelect.SetOrderBy | driver-core/src/main/java/com/datastax/driver/core/querybuilder/Select.java:179-190 | a second ORDER BY is rejected first (IllegalStateException), then an empty one (IllegalArgumentException); it succeeds iff neither applies, stores exactly the orderings and keeps the invariant |
| QueryBuilderSelect.SetGroupBy | driver-core/src/main/java/com/datastax/driver/core/querybuilder/Select.java:201-207 | fails iff a GROUP BY is already set; otherwise stores the columns and changes nothing else |
| QueryBuilderSelect.SetLimit | driver-core/src/main/java/com/datastax/driver/core/querybuilder/Select.java:217-227 | a non-positive limit is rejected before a duplicate one; succeeds iff positive and unset, storing that int |
| QueryBuilderSelect.SetLimitMarker | driver-core/src/main/java/com/datastax/driver/core/querybuilder/Select.java:236-243 | fails iff a limit is already set; otherwise stores the bind marker |
| QueryBuilderSelect.SetPerPartitionLimit | driver-core/src/main/java/com/datastax/driver/core/querybuilder/Select.java:258-272 | checks in order: non-positive, already set, DISTINCT statement; succeeds iff none applies |
| QueryBuilderSelect.SetPerPartitionLimitMarker | driver-core/src/main/java/com/datastax/driver/core/querybuilder/Select.java:286-296 | already set, then DISTINCT, are rejected; succeeds iff neither applies |
| QueryBuilderSelect.SetAllowFiltering | driver-core/src/main/java/com/datastax/driver/core/querybuilder/Select.java:303-306 | raises the flag and changes no other field |
| QueryBuilderSelect.SetBypassCache | driver-core/src/main/java/com/datastax/driver/core/querybuilder/Select.java:313-316 | raises the flag and changes no other field |
| QueryBuilderSelect.FlagSettersAreIdempotent | driver-core/src/main/java/com/datastax/driver/core/querybuilder/Select.java:303-316 | repeating either flag setter changes nothing, and the two commute |
| QueryBuilderSelect.LimitIsSetOnce | driver-core/src/main/java/com/datastax/driver/core/querybuilder/Select.java:217-243 | once either overload set a LIMIT, both overloads throw, IllegalArgumentException for a non-positive int and IllegalStateException otherwise |
| QueryBuilderSelect.PerPartitionLimitIsSetOnce | driver-core/src/main/java/com/datastax/driver/core/querybuilder/Select.java:258-296 | once set, or on a DISTINCT statement, both PER PARTITION LIMIT overloads throw; the marker overload throws IllegalStateException |
| QueryBuilderSelect.SectionKeywords | driver-core/src/main/java/com/datastax/driver/core/querybuilder/Select.java:87-136 | each part of the query contains its keyword exactly when the fields call for it, and no other keyword |
| QueryBuilderSelect.QueryFollowsFixedOrder | driver-core/src/main/java/com/datastax/driver/core/querybuilder/Select.java:84-139 | the query's keywords appear in strictly ascending SELECT…USING order (so each at most once), and a keyword appears iff the statement's fields call for it |
| QueryBuilderSelect.QueryPiecesBySection | driver-core/src/main/java/com/datastax/driver/core/querybuilder/Select.java:84-139 | the fixed-order layout is the parts of the query one after the other, SELECT first and USING last |
| QueryBuilderSelect.WhereAppendsInOrder | driver-core/src/main/java/com/datastax/driver/core/querybuilder/Select.java:102-105 | a clause added last is rendered last, after " AND " when there were other clauses |
| QueryBuilderSelect.Where.And | driver-core/src/main/java/com/datastax/driver/core/querybuilder/Select.java:333-338 | appends the clause at the end of the WHERE clauses |
| QueryBuilderSelect.Options.And | driver-core/src/main/java/com/datastax/driver/core/querybuilder/Select.java:469-473 | appends the option at the end of the USING options |
| QueryBuilderSelect.Select.constructor | driver-core/src/main/java/com/datastax/driver/core/querybuilder/Select.java:49-81 | the new statement is `Initial` of its arguments, with fresh WHERE and USING holders |
| QueryBuilderSelect.Select.AddWhere | driver-core/src/main/java/com/datastax/driver/core/querybuilder/Select.java:149-151 | the statement's clauses gain the clause at the end; nothing else changes |
| QueryBuilderSelect.Select.AddUsing | driver-core/src/main/java/com/datastax/driver/core/querybuilder/Select.java:168-170 | the statement's options gain the option at the end; nothing else changes |
| QueryBuilderSelect.Select.OrderBy | driver-core/src/main/java/com/datastax/driver/core/querybuilder/Select.java:179-190 | new state and outcome are those of `SetOrderBy`; a throw leaves the state unchanged |
| QueryBuilderSelect.Select.GroupBy | driver-core/src/main/java/com/datastax/driver/core/querybuilder/Select.java:201-207 | new state and outcome are those of `SetGroupBy` |
| QueryBuilderSelect.Select.Limit | driver-core/src/main/java/com/datastax/driver/core/querybuilder/Select.java:217-227 | new state and outcome are those of `SetLimit` |
| QueryBuilderSelect.Select.LimitMarker | driver-core/src/main/java/com/datastax/driver/core/querybuilder/Select.java:236-243 | new state and outcome are those of `SetLimitMarker` |
| QueryBuilderSelect.Select.PerPartitionLimit | driver-core/src/main/java/com/datastax/driver/core/querybuilder/Select.java:258-272 | new state and outcome are those of `SetPerPartitionLimit` |
| QueryBuilderSelect.Select.PerPartitionLimitMarker | driver-core/src/main/java/com/datastax/driver/core/querybuilder/Select.java:286-296 | new state and outcome are those of `SetPerPartitionLimitMarker` |
| QueryBuilderSelect.Select.AllowFiltering | driver-core/src/main/java/com/datastax/driver/core/querybuilder/Select.java:303-306 | new state is `SetAllowFiltering` of the old one |
| QueryBuilderSelect.Select.BypassCache | driver-core/src/main/java/com/datastax/driver/core/querybuilder/Select.java:313-316 | new state is `SetBypassCache` of the old one |
| QueryBuilderSelect.Select.AppendSelection | driver-core/src/main/java/com/datastax/driver/core/querybuilder/Select.java:89-97 | appends the JSON, DISTINCT and column-list parts of the current statement |
| QueryBuilderSelect.Select.AppendTable | driver-core/src/main/java/com/datastax/driver/core/querybuilder/Select.java:99-100 | appends the table, qualified by the keyspace when there is one |
| QueryBuilderSelect.Select.AppendClauses | driver-core/src/main/java/com/datastax/driver/core/querybuilder/Select.java:102-115 | appends the WHERE, GROUP BY and ORDER BY parts of the current statement |
| QueryBuilderSelect.Select.AppendLimits | driver-core/src/main/java/com/datastax/driver/core/querybuilder/Select.java:117-123 | appends the PER PARTITION LIMIT part, then the LIMIT part |
| QueryBuilderSelect.Select.AppendOptions | driver-core/src/main/java/com/datastax/driver/core/querybuilder/Select.java:125-136 | appends the ALLOW FILTERING, BYPASS CACHE and USING parts |
| QueryBuilderSelect.Select.BuildQueryString | driver-core/src/main/java/com/datastax/driver/core/querybuilder/Select.java:84-139 | the query is the text of the fixed-order layout of the current statement, whose keyword order `QueryFollowsFixedOrder` proves |
| QueryBuilderSelect.Builder.constructor | driver-core/src/main/java/com/datastax/driver/core/querybuilder/Select.java:477-487 | a builder holds the given column list and neither flag |
| QueryBuilderSelect.Builder.Distinct | driver-core/src/main/java/com/datastax/driver/core/querybuilder/Select.java:494-497 | raises DISTINCT and changes nothing else |
| QueryBuilderSelect.Builder.Json | driver-core/src/main/java/com/datastax/driver/core/querybuilder/Select.java:513-516 | raises JSON and changes nothing else |
| QueryBuilderSelect.Builder.From | driver-core/src/main/java/com/datastax/driver/core/querybuilder/Select.java:524-537 | a fresh statement over the builder's selection and flags (no keyspace for the one-argument overload) |
| QueryBuilderSelect.AddedName | driver-core/src/main/java/com/datastax/driver/core/querybuilder/Select.java:829-834 | appends to the column list, creating it; fails iff the list is the immutable `count(*)` one; keeps the selection invariant |
| QueryBuilderSelect.QueuedName | driver-core/src/main/java/com/datastax/driver/core/querybuilder/Select.java:836-841 | everything selected so far gains `name` at the end, and `name` becomes the pending selection |
| QueryBuilderSelect.Aliased | driver-core/src/main/java/com/datastax/driver/core/querybuilder/Select.java:821-826 | the pending selection is replaced, in place, by itself under the alias, and moves to the column list |
| QueryBuilderSelect.AllSelected | driver-core/src/main/java/com/datastax/driver/core/querybuilder/Select.java:843-853 | throws iff a column list exists or a selection is pending; otherwise changes nothing |
| QueryBuilderSelect.CountedAll | driver-core/src/main/java/com/datastax/driver/core/querybuilder/Select.java:855-866 | the same guard; then the selection is exactly `count(*)`, and that list is immutable |
| QueryBuilderSelect.Flushed | driver-core/src/main/java/com/datastax/driver/core/querybuilder/Select.java:933-938 | the column list becomes everything selected, the pending one last, and nothing stays pending |
| QueryBuilderSelect.SelectAllRejectsAnySelection | driver-core/src/main/java/com/datastax/driver/core/querybuilder/Select.java:843-866 | under the invariant, `all()` and `countAll()` throw exactly when something was selected |
| QueryBuilderSelect.QueuedInOrder | driver-core/src/main/java/com/datastax/driver/core/querybuilder/Select.java:836-841 | chained selections all succeed and, after `from`, the column list holds them in call order |
| QueryBuilderSelect.SelectionOrAlias.constructor | driver-core/src/main/java/com/datastax/driver/core/querybuilder/Select.java:811-813 | nothing selected, nothing pending, neither flag |
| QueryBuilderSelect.SelectionOrAlias.Distinct | driver-core/src/main/java/com/datastax/driver/core/querybuilder/Select.java:568-572 | raises DISTINCT and leaves the selection unchanged |
| QueryBuilderSelect.SelectionOrAlias.Json | driver-core/src/main/java/com/datastax/driver/core/querybuilder/Select.java:588-592 | raises JSON and leaves the selection unchanged |
| QueryBuilderSelect.SelectionOrAlias.AddName | driver-core/src/main/java/com/datastax/driver/core/querybuilder/Select.java:829-834 | new selection and outcome are those of `AddedName` |
| QueryBuilderSelect.SelectionOrAlias.QueueName | driver-core/src/main/java/com/datastax/driver/core/querybuilder/Select.java:836-841 | new selection and outcome are those of `QueuedName` |
| QueryBuilderSelect.SelectionOrAlias.Column | driver-core/src/main/java/com/datastax/driver/core/querybuilder/Select.java:868-871 | queues the plain column name |
| QueryBuilderSelect.SelectionOrAlias.WriteTime | driver-core/src/main/java/com/datastax/driver/core/querybuilder/Select.java:873-876 | queues `writetime(name)` |
| QueryBuilderSelect.SelectionOrAlias.Ttl | driver-core/src/main/java/com/datastax/driver/core/querybuilder/Select.java:878-881 | queues `ttl(name)` |
| QueryBuilderSelect.SelectionOrAlias.FunctionCall | driver-core/src/main/java/com/datastax/driver/core/querybuilder/Select.java:883-886 | queues the call of `name` on `parameters` |
| QueryBuilderSelect.SelectionOrAlias.As | driver-core/src/main/java/com/datastax/driver/core/querybuilder/Select.java:821-826 | new selection and outcome are those of `Aliased`, except that a throw still leaves nothing pending |
| QueryBuilderSelect.SelectionOrAlias.All | driver-core/src/main/java/com/datastax/driver/core/querybuilder/Select.java:843-853 | the outcome of `AllSelected`; the builder is not changed |
| QueryBuilderSelect.SelectionOrAlias.CountAll | driver-core/src/main/java/com/datastax/driver/core/querybuilder/Select.java:855-866 | new selection and outcome are those of `CountedAll` |
| QueryBuilderSelect.SelectionOrAlias.From | driver-core/src/main/java/com/datastax/driver/core/querybuilder/Select.java:933-938 | flushes the pending selection as `Flushed` does; a statement is returned iff that did not throw, and it is `Initial` of the flushed selection |
| Hosts.RunReflectsLast | driver-core/src/main/java/com/datastax/driver/core/Host.java:539-545 | after at least one call, the state is the one the latest `setUp` or `setDown` set |
| Hosts.RunNeverReturnsToAdded | driver-core/src/main/java/com/datastax/driver/core/Host.java:539-545 | the state is ADDED iff no `setUp`/`setDown` call has been made |
| Hosts.ParseOrNull | driver-core/src/main/java/com/datastax/driver/core/Host.java:120-131 | a version is stored iff the text is non-null and parses, and it is the parsed one |
| Hosts.Host.constructor | driver-core/src/main/java/com/datastax/driver/core/Host.java:102-113 | a new host is ADDED with an empty history, the given endpoint and manager, the conviction policy the factory builds, and every optional field null |
| Hosts.Host.Create | driver-core/src/main/java/com/datastax/driver/core/Host.java:102-113 | throws NullPointerException iff the endpoint, the factory or the manager is null; otherwise a fresh ADDED host |
| Hosts.Host.SetLocationInfo | driver-core/src/main/java/com/datastax/driver/core/Host.java:115-118 | stores datacenter and rack |
| Hosts.Host.SetVersion | driver-core/src/main/java/com/datastax/driver/core/Host.java:120-131 | stores `ParseOrNull` of the text |
| Hosts.Host.SetBroadcastRpcAddress | driver-core/src/main/java/com/datastax/driver/core/Host.java:133-135 | stores the address |
| Hosts.Host.SetBroadcastSocketAddress | driver-core/src/main/java/com/datastax/driver/core/Host.java:137-139 | stores the address |
| Hosts.Host.SetListenSocketAddress | driver-core/src/main/java/com/datastax/driver/core/Host.java:141-143 | stores the address |
| Hosts.Host.SetDseVersion | driver-core/src/main/java/com/datastax/driver/core/Host.java:145-155 | stores `ParseOrNull` of the text |
| Hosts.Host.SetDseWorkload | driver-core/src/main/java/com/datastax/driver/core/Host.java:157-159 | stores the workload |
| Hosts.Host.SetDseGraphEnabled | driver-core/src/main/java/com/datastax/driver/core/Host.java:161-163 | stores the flag |
| Hosts.Host.SetHostId | driver-core/src/main/java/com/datastax/driver/core/Host.java:165-167 | stores the id |
| Hosts.Host.SetSchemaVersion | driver-core/src/main/java/com/datastax/driver/core/Host.java:169-171 | stores the schema version |
| Hosts.Host.SetEndPoint | driver-core/src/main/java/com/datastax/driver/core/Host.java:183-185 | stores the endpoint |
| Hosts.Host.SetTokens | driver-core/src/main/java/com/datastax/driver/core/Host.java:433-435 | stores the tokens |
| Hosts.Host.SetShardingInfo | driver-core/src/main/java/com/datastax/driver/core/Host.java:441-443 | stores the sharding info |
| Hosts.Host.SetLwtInfo | driver-core/src/main/java/com/datastax/driver/core/Host.java:449-451 | stores the LWT info |
| Hosts.Host.Supports | driver-core/src/main/java/com/datastax/driver/core/Host.java:173-176 | every protocol version is supported while the server version is unknown; otherwise iff its minimum server version is at most the next stable version |
| Hosts.Host.BroadcastAddress | driver-core/src/main/java/com/datastax/driver/core/Host.java:245-247 | null iff the broadcast socket address is null, else its address part |
| Hosts.Host.ListenAddress | driver-core/src/main/java/com/datastax/driver/core/Host.java:286-288 | null iff the listen socket address is null, else its address part |
| Hosts.Host.IsUp | driver-core/src/main/java/com/datastax/driver/core/Host.java:465-467 | true iff the latest state call was `setUp` |
| Hosts.Host.GetState | driver-core/src/main/java/com/datastax/driver/core/Host.java:477-479 | "ADDED" iff no state call yet; "UP" iff up; "DOWN" iff the latest call was `setDown` |
| Hosts.Host.WasJustAdded | driver-core/src/main/java/com/datastax/driver/core/Host.java:530-532 | true iff no `setUp`/`setDown` call has been made |
| Hosts.Host.SetDown | driver-core/src/main/java/com/datastax/driver/core/Host.java:539-541 | the host is DOWN, the call is recorded, and the state invariant is kept |
| Hosts.Host.SetUp | driver-core/src/main/java/com/datastax/driver/core/Host.java:543-545 | the host is UP, the call is recorded, and the state invariant is kept |
| Hosts.Host.Equals | driver-core/src/main/java/com/datastax/driver/core/Host.java:516-523 | true iff the other object is a host with an equal endpoint |
| Hosts.Host.HashCode | driver-core/src/main/java/com/datastax/driver/core/Host.java:525-528 | the endpoint's hash code, whatever the other fields hold |
| Hosts.EqualHostsHashAlike | driver-core/src/main/java/com/datastax/driver/core/Host.java:516-528 | `equals` on hosts is symmetric, and equal hosts have equal hash codes |
| TableOptions.FlagsOf | driver-core/src/main/java/com/datastax/driver/core/TableOptionsMetadata.java:106-112 | each version flag is a range of the version order; 1.2, 2.0 and 2.1-or-later partition all versions |
| TableOptions.IsNullOrAbsent | driver-core/src/main/java/com/datastax/driver/core/TableOptionsMetadata.java:219-221 | a column the row does not have, or a null cell (no contract; the decoders' contracts use it) |
| TableOptions.CommentOf | driver-core/src/main/java/com/datastax/driver/core/TableOptionsMetadata.java:115 | empty for a null or absent column, else the column's text; a non-text cell is a type error |
| TableOptions.ReadRepairChanceOf | driver-core/src/main/java/com/datastax/driver/core/TableOptionsMetadata.java:116 | the column is required: missing is an error, null reads 0.0, a double cell is the value, any other cell a type error |
| TableOptions.ReadRepairOf | driver-core/src/main/java/com/datastax/driver/core/TableOptionsMetadata.java:118-119 | "BLOCKING" before 4.0; from 4.0 the column is required, null when null, else exactly the text cell, a type error for any other cell |
| TableOptions.LocalReadRepairChanceOf | driver-core/src/main/java/com/datastax/driver/core/TableOptionsMetadata.java:121-122 | reads `dclocal_read_repair_chance` from 3.0 and `local_read_repair_chance` before, as a required double: missing is an error, null reads 0.0, else the cell's value or a type error |
| TableOptions.ReplicateOnWriteOf | driver-core/src/main/java/com/datastax/driver/core/TableOptionsMetadata.java:124-127 | true from 2.1 or for a null or absent column; else the column's boolean |
| TableOptions.GcGraceOf | driver-core/src/main/java/com/datastax/driver/core/TableOptionsMetadata.java:128 | the column is required: missing is an error, null reads 0, an int cell is the value, any other cell a type error |
| TableOptions.BfFpChanceOf | driver-core/src/main/java/com/datastax/driver/core/TableOptionsMetadata.java:129-130 | 0.01 for a null or absent column, else the double cell's value, a type error for any other cell |
| TableOptions.PopulateCacheOnFlushOf | driver-core/src/main/java/com/datastax/driver/core/TableOptionsMetadata.java:132-135 | false for a null or absent column, else the boolean cell's value, a type error for any other cell |
| TableOptions.MemtableFlushPeriodMsOf | driver-core/src/main/java/com/datastax/driver/core/TableOptionsMetadata.java:136-139 | 0 on 1.2 or for a null or absent column; otherwise the int cell's value, or a type error |
| TableOptions.DefaultTTLOf | driver-core/src/main/java/com/datastax/driver/core/TableOptionsMetadata.java:140-141 | 0 on 1.2 or for a null or absent column; otherwise the int cell's value, or a type error |
| TableOptions.SpeculativeRetryOf | driver-core/src/main/java/com/datastax/driver/core/TableOptionsMetadata.java:142-145 | "NONE" on 1.2 or for a null or absent column; otherwise the text cell's value, or a type error |
| TableOptions.IndexIntervalOf | driver-core/src/main/java/com/datastax/driver/core/TableOptionsMetadata.java:147-150 | null outside 2.0; on 2.0 128 for a null or absent column, else the int cell's value, or a type error |
| TableOptions.MinIndexIntervalOf | driver-core/src/main/java/com/datastax/driver/core/TableOptionsMetadata.java:152-164 | null before 2.1; from 2.1 128 for a null or absent column, else the int cell's value, or a type error |
| TableOptions.MaxIndexIntervalOf | driver-core/src/main/java/com/datastax/driver/core/TableOptionsMetadata.java:152-164 | null before 2.1; from 2.1 2048 for a null or absent column, else the int cell's value, or a type error |
| TableOptions.CachingOf | driver-core/src/main/java/com/datastax/driver/core/TableOptionsMetadata.java:166-172 | from 3.0 the required map column (empty when null); on 2.1 the parsed text column; before 2.1 `keys` mapped to the text, and a null cell is the NullPointerException of the immutable map |
| TableOptions.CompactionOf | driver-core/src/main/java/com/datastax/driver/core/TableOptionsMetadata.java:174-182 | from 3.0 the required map column; before 3.0 the class (missing, null or non-text is the error), then the options' read error, then a `class` key among the options is a duplicate-key error, else the options with `class` added |
| TableOptions.CompressionOf | driver-core/src/main/java/com/datastax/driver/core/TableOptionsMetadata.java:184-188 | from 3.0 the required map column (empty when null); before 3.0 the parsed text of `compression_parameters`, with its read errors |
| TableOptions.CrcCheckChanceOf | driver-core/src/main/java/com/datastax/driver/core/TableOptionsMetadata.java:190-195 | null before 3.0; from 3.0 1.0 for a null or absent column, else the double cell's value, or a type error |
| TableOptions.ExtensionsOf | driver-core/src/main/java/com/datastax/driver/core/TableOptionsMetadata.java:197-199 | empty before 3.0; from 3.0 the required blob-map column, empty when null, else the cell's map or a type error |
| TableOptions.CdcOf | driver-core/src/main/java/com/datastax/driver/core/TableOptionsMetadata.java:212-213 | false before 3.8 or for a null or absent column; otherwise the boolean cell's value, or a type error |
| TableOptions.AdditionalWritePolicyOf | driver-core/src/main/java/com/datastax/driver/core/TableOptionsMetadata.java:215-216 | "99p" before 4.0; from 4.0 the column is required, null when null, else exactly the text cell, a type error for any other cell |
| TableOptions.DecodeColumns | driver-core/src/main/java/com/datastax/driver/core/TableOptionsMetadata.java:104-199 | succeeds iff every column decoder succeeds, and then every field is what its own decoder yields for this row and version; no extension is decoded yet |
| TableOptions.MapExtensionsOf | driver-core/src/main/java/com/datastax/driver/core/TableOptionsMetadata.java:201-210 | exactly the known extensions that are present, each parsed from its bytes |
| TableOptions.Decode | driver-core/src/main/java/com/datastax/driver/core/TableOptionsMetadata.java:104-217 | succeeds iff every column decoder succeeds; every field is its decoder's result, and the decoded extensions are exactly the known ones present, each parsed |
| TableOptions.DecodedDefaultsFollowVersion | driver-core/src/main/java/com/datastax/driver/core/TableOptionsMetadata.java:104-217 | on success `read_repair_chance` and `gc_grace_seconds` are present, and each version-gated field shows its version's default or presence |
| TableOptions.DecodedFlagsFollowTheRow | driver-core/src/main/java/com/datastax/driver/core/TableOptionsMetadata.java:197-213 | from 3.8 a non-null `cdc` cell is a boolean and decodes to itself; from 3.0 a non-null extensions cell makes the table Scylla CDC iff it holds `cdc` |
| TableOptions.CollectMapExtensions | driver-core/src/main/java/com/datastax/driver/core/TableOptionsMetadata.java:201-209 | the map holds exactly the known extensions that are present, each parsed from its bytes |
| TableOptions.New | driver-core/src/main/java/com/datastax/driver/core/TableOptionsMetadata.java:104-217 | the constructor's loop computes what `Decode` specifies |
| TableOptions.IsScyllaCDC | driver-core/src/main/java/com/datastax/driver/core/TableOptionsMetadata.java:466-468 | the `cdc` extension was decoded (no contract; ScyllaCDCFollowsExtensions states it against the row) |
| TableOptions.ScyllaCDCOptions | driver-core/src/main/java/com/datastax/driver/core/TableOptionsMetadata.java:479-481 | non-null iff the table is a Scylla CDC table, and then the decoded `cdc` extension |
| TableOptions.ScyllaEncryptionOptions | driver-core/src/main/java/com/datastax/driver/core/TableOptionsMetadata.java:492-494 | non-null iff the encryption extension was decoded, and then its options |
| TableOptions.ScyllaAlternatorTags | driver-core/src/main/java/com/datastax/driver/core/TableOptionsMetadata.java:507-509 | non-null iff the tags extension was decoded, and then the tags |
| TableOptions.ScyllaCDCFollowsExtensions | driver-core/src/main/java/com/datastax/driver/core/TableOptionsMetadata.java:466-468 | a decoded table is a Scylla CDC table iff its raw extensions contain `cdc`, which needs 3.0 |
| TableOptions.Equals | driver-core/src/main/java/com/datastax/driver/core/TableOptionsMetadata.java:523-551 | `equals` of two distinct objects (no contract; EqualsComparesAllButDoubles states it field by field) |
| TableOptions.EqualsComparesAllButDoubles | driver-core/src/main/java/com/datastax/driver/core/TableOptionsMetadata.java:523-551 | `equals` holds iff every non-double field is equal, the primitive doubles are `==` and the boxed one is `Double.equals` |
| TableOptions.EqualsIsReflexiveWithoutNaN | driver-core/src/main/java/com/datastax/driver/core/TableOptionsMetadata.java:523-551 | two equal values compare equal unless a primitive double is NaN |
| TableOptions.NaNChanceIsNeverEqual | driver-core/src/main/java/com/datastax/driver/core/TableOptionsMetadata.java:523-551 | a NaN in a primitive double makes two distinct objects unequal, even when their contents are identical |
| TableOptions.EqualsIsSymmetric | driver-core/src/main/java/com/datastax/driver/core/TableOptionsMetadata.java:523-551 | `equals` is symmetric |

## Left out

- `Utils` (name quoting, `joinAndAppendNames`, rendering a clause, ordering, option or value with its bound variables) is not part of this model. It is the uninterpreted `Renderer`, so the proved query text is exact up to those renderings.
- `buildQueryString`'s `variables` and `codecRegistry` parameters appear only through `Renderer`. Collecting bound values into `variables` is not modelled.
- `Where.and` and `Options.and` also maintain routing keys (`maybeAddRoutingKey`), mark the statement dirty, and check for bind markers. Those belong to `BuiltStatement`, which is not part of this model.
- The forwarding methods of `Where` and `Options` (`orderBy`, `limit`, … forwarded to the statement) are not modelled separately. They call the `Select` methods modelled above.
- The statement's constructors and `from` overloads that take `TableMetadata` or `MaterializedViewMetadata` are left out. They differ only in quoting the names and in the routing-key set-up.
- `SelectionOrAlias.cast`, `raw`, `path`, `toJson`, `count`, `max`, `min`, `sum` and `avg` are left out. Each queues an object that `QueryBuilder` builds, and `QueryBuilder` is not part of this model. `QueueName` of such a selector is the model of each.
- The base class `Selection` has abstract methods, and its default methods throw or forward. They are left out; `SelectionOrAlias` is the only concrete subclass.
- The `columnNames` list is shared by reference between a builder and the statements it builds, so a later `queueName` on the builder can change an already built statement. The model copies the list as a value, so that aliasing is not captured.
- QueryBuilderSelect.Aliased: requires a pending selection, which is what the Java method asserts. The requirement can be broken: a second `as` on the same object finds the slot already cleared by the first. With assertions enabled that is an AssertionError; without them, the default, an alias of null is appended to the column list. Neither outcome is modelled.
- QueryBuilderSelect.SelectionOrAlias.As: carries the same requirement as Aliased, so a second `as` on one object is not modelled, for the reason given on the line above.
- `Host`: the `volatile` fields, the notification lock, the reconnection-attempt future, `tryReconnectOnce`, `getReconnectionAttemptFuture`, the default execution info and the state listeners are left out. They concern concurrency or other classes.
- `Host.getAddress` and `getSocketAddress` resolve the endpoint, which is I/O, and are left out. `toString` and the plain getters are field reads.
- Hosts.Host.BroadcastAddress and Hosts.Host.ListenAddress: an unresolved socket address has no address part, and Java then returns null from `getAddress()`. The model always has one.
- Hosts.Host.Supports: `VersionNumber.compareTo` and `nextStable` are parameters, since `VersionNumber` is not part of this model.
- Hosts.Host.SetVersion and Hosts.Host.SetDseVersion: `VersionNumber.parse` is a parameter; a parse failure (IllegalArgumentException) is its `None`. The log message is left out.
- Hosts.Host.HashCode: the endpoint's hash function is a parameter.
- `TableOptionsMetadata.hashCode` is left out. It hashes the same fields `equals` compares.
- TableOptions.Decode: the row accessors of `Row` are not part of this model. An absent column is taken as IllegalArgumentException, a wrongly typed cell as InvalidTypeException, and a null cell as the type's default (0, false, 0.0, an empty map, a null string).
- TableOptions.Decode: `SimpleJSONParser.parseStringMap` and `MapExtensionReader.parse` are total function parameters. Their own exceptions are not modelled.
- TableOptions.Decode: when several columns would fail, the Java constructor throws for the first in its own order, and the model's chain of decoders keeps that order; the contract states only that some decoder failed, not which error is reported.
- TableOptions.Decode: the order of entries in the `ImmutableMap`s is not modelled; maps are compared by content.
- Doubles are kept as IEEE 754 bit patterns. Only equality, NaN and the two zeros are modelled; no arithmetic is needed.
- TableOptions.Equals: `equals` first returns true for `other == this`, which values cannot express. The model compares two distinct objects. The `instanceof` check is implied by the types.
