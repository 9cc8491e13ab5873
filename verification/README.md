# Verified model of the account store and the release gates

A Dafny model of four pieces of the repository, with the properties that callers rely on proved over all inputs,
all databases and all runs:

* **The eager loader** of accounts. A query is a tree of builders. A run fetches the root's rows, builds hash
  indexes over their keys, sends one batched query per requested edge and hands the neighbours out to the nodes in
  place, recursively. The builders, the driver and the nodes are heap objects; the loaders are loops over them.
  `EagerSpec` says what a batched run returns (`Batched`) and, independently, what loading a single row edge by edge
  returns (`Naive`). The methods of `LeafLoaders`, `GroupLoader` and `EagerLoad` are proved to do the first, and
  `EagerRefinement` proves that the first refines the second.
* **Creating accounts**: defaults, check and the insert specification of one builder, the row codec, and the bulk
  save, a chain of mutators wrapped in hooks in which each builder's core calls the next builder's chain.
  `BulkRun.Run` is the run as a function; the class `BulkSave.Chains` does it on the heap.
* **The audit gate**: a line parser, an index of accepted findings, a scan of the report, a verdict.
* **The release gate**: a manifest validator, repository checks, release tests and the manifest that is written.

The modules follow the source. `AccountEntity` is `backend/ent/account.go`; `QueryModel`, `Builders`, `LeafLoaders`,
`GroupLoader` and `EagerLoad` are `backend/ent/account_query.go`; `AccountCreation`, `BulkRun` and `BulkSave` are
`backend/ent/account_create.go`; `DecodedJson`, `AuditFindings`, `ExceptionParser` and `AuditGate` are
`tools/check_pnpm_audit_exceptions.py`; `ReleaseManifest` and `ReleaseGuard` are `tools/pro_release_guard.py`. The
other modules hold specifications and theorems.

## What the model takes as given

* **The database** is a sequence of rows per table and an exact filter: a query returns the matching rows, sorted by
  its order options, cut to its window. Rows that tie may come in any sequence, and in a different one each time: the
  `Engine` is a parameter that is only known to arrange its answer properly (`Engines` has one). The groups query is a
  join that yields one pair per join row, repeated ones included.
* **Consistent tables** have cells of their columns' types, unique primary keys, and account ids in every usage log
  and join row. Dangling foreign keys and cyclic parents are allowed.
* **The JSON codec** is a parameter; the create-then-read theorem needs it to round-trip the documents that are
  created.
* **Modifiers** are locks without options. They wait and do not change what a query returns; `SKIP LOCKED` and
  `NOWAIT` would.
* **Generated validators and defaults** are parameters (`Runtime`), one set per builder.
* **Library functions of the scripts**: `str.lower`, `str` of a value that is not a string, `date.fromisoformat`, the
  current day, git, subprocesses, the file system and the clock are parameters. `str.strip`, `str.splitlines`,
  universal newlines, truth values, `or`, and what can be iterated or hashed are modelled. An exception that the
  script does not catch is the outcome `Crashed` (or `None` inside a phase).

## Where the code does not do what one would expect

* A nested `Limit` or `Offset` cuts the whole batch and not each parent's share. `NestedLimits` has a database, a query
  and a run on which a parent loses its child, and the exact condition under which every parent gets what its own query
  would return; `EdgeLimits` and `GroupWindows` have those of the other edges, `BothWindows` those of a limit and an
  offset at once.
* A query that is run again keeps the restrictions of its earlier runs. A row that an earlier run did not return, which
  takes a limit or an offset at the root, then comes back without neighbours, and nothing reports it.
  `RerunEdges.LimitedRerunLosesChild` has two accounts with a child each and a root limit of one;
  `RerunEdges.EdgeExactly` says for every edge when it survives.
* A query whose groups edge has returned a group cannot be run again on the same accounts: each run adds another join,
  so that a row starts with two account ids, and the row handler takes the second for the id of the group and panics.
  `Rejoins.SecondRunExactly` is the exact condition, `Rejoins.SecondRunPanics` one account in one group. (That a second
  join puts its column in front of the first one's is how `backend/ent/account_query.go:640-647` read; the SQL builder
  itself is not in the repository.)
* `Clone` drops modifiers: a clone is the same query if and only if no query of the tree has one.
* A bulk save is not all-or-nothing for every hook. A hook that fails after the insert, that reports success without
  calling on, or that hides an error leaves mutations marked done. `BulkGuarantees.GuaranteeExactly` is the exact
  condition on the hooks. A hook that passes on another mutation gets changes inserted that no check has seen. A hook
  that calls on again has the whole batch inserted again (`RepeatedCalls.OnceExactly`,
  `RepeatedCalls.RetryStoresTwice`).
* The error of `defaults` is dropped in a bulk save; the check that follows finds what it left unset
  (`AccountCreation.CheckFindsUnset`).
* The audit scan compares severities only for the first finding with a given key, so its verdict depends on the order
  of the findings: `AuditGuarantees.OrderMatters` has a report that passes, and its reordering that does not.
  `AuditGuarantees.EveryOrderExactly` says when the order is irrelevant.
* The audit gate's normalizers accept a numeric `source`, as the comment there says, but the join of titles before
  them stops on one that has no title, URL or advisory.

## Model

| member | source | states |
|---|---|---|
| EagerRefinement.BatchedIsNaive | backend/ent/account_query.go:550-844 | For every consistent database and every query tree whose nested queries set no limit or offset, each node of a batched run is one that loading its row alone, edge by edge and recursively, may give. |
| Agreement.NaiveIsUnique | backend/ent/account_query.go:550-844 | Loading one row alone is determined: to-one edges exactly, to-many edges up to order, and everything exactly when the nested queries are totally ordered. |
| Agreement.BatchedAgreesWithNaive | backend/ent/account_query.go:550-844 | So a batched run and per-row loads of the same rows agree: equal neighbour multisets, and equal sequences under total nested orders. |
| EagerLoad.All | backend/ent/account_query.go:307-314 | A run on the heap stands for a batched run, issues exactly the queries of that run, touches no builder outside the tree, and leaves the builders as the run's restrictions say. With known columns it fails only in the panic of a second join, and only if a run of the tree may end so. |
| EagerLoad.SqlAll | backend/ent/account_query.go:550-625 | The same for the part after the field check: nodes, then six loaders in sequence. |
| EagerLoad.QueryNodes | backend/ent/account_query.go:858-902 | The root query returns new nodes for the rows of one exact answer, each the scan of its row over the selected columns, with the requested edges marked loaded. |
| EagerLoad.DistributeParents | backend/ent/account_query.go:739-750 | The loop gives every node filed under a key its parent and no other node anything; it fails exactly if a neighbour was not asked for, on the first such. |
| EagerLoad.DistributeChildren | backend/ent/account_query.go:770-784 | Each child goes to the end of the list of the one node with its foreign key; the loop fails exactly on a nil or unasked key, the first such. |
| EagerLoad.ParentEdge | backend/ent/account_query.go:720-751 | The parent edge of all nodes, through one nested run restricted to the distinct parent ids; it panics only if that nested run may. |
| EagerLoad.ChildrenEdge | backend/ent/account_query.go:752-784 | The children edge of all nodes, through one nested run that also selects the foreign key; it panics only if that nested run may. |
| LeafLoaders.IndexByKey | backend/ent/account_query.go:689-701 | The key list is the distinct non-nil keys in first-seen order and the index files every node under its key. |
| LeafLoaders.LoadProxy | backend/ent/account_query.go:688-719 | One query for the distinct keys, none if there are none; every node gets the proxy whose id is its key, and no other edge changes. |
| LeafLoaders.DistributeProxies | backend/ent/account_query.go:709-717 | It fails exactly if a neighbour was not asked for, on the first such, and otherwise gives every node its own. |
| LeafLoaders.LoadOwned | backend/ent/account_query.go:785-844 | Usage logs and join rows: each node's list is the part of the answer with its id, in order. |
| LeafLoaders.Distribute | backend/ent/account_query.go:804-812 | It fails exactly if a neighbour was not asked for, on the first such, and otherwise fills each list with its own neighbours in order. |
| GroupLoader.LoadGroups | backend/ent/account_query.go:627-687 | Each node ends with its linked groups in the order the join first mentions them. The loader fails exactly if a column is unknown, or if the query has been joined before and its joins return a row. |
| GroupLoader.HandOut | backend/ent/account_query.go:677-685 | It fails exactly on a neighbour that no node is filed under, the first such, and otherwise gives every node its groups. |
| Rejoins.SecondJoinFails | backend/ent/account_query.go:633-674 | A second run of a groups query for the same accounts, in whatever sequence, cannot be read if and only if the first one returned a row. |
| Rejoins.HaltDecides | backend/ent/account_query.go:550-844 | For a tree without nested windows whose root returns the same rows every time: if a run may end in the panic, no run is completed. |
| Rejoins.FreshNeverHalts | backend/ent/account_query.go:633-674 | While no groups query of the tree has run, no run ends in the panic. |
| Rejoins.SecondRunExactly | backend/ent/account_query.go:44-47 | After a completed run of such a tree the next one ends in the panic if and only if some groups query, at any level, returned a row. |
| Rejoins.SecondRunPanics | backend/ent/account_query.go:633-674 | One account in one group: the first run returns the group, and no second run is completed. |
| Rejoins.RepeatedWithoutGroups | backend/ent/account_query.go:44-47 | So in a sequence of completed runs of such a tree none but the last returned a group. |
| GroupLoader.GiveGroup | backend/ent/account_query.go:682-684 | Walking the inner Go map in any order adds the group once to exactly the nodes in it. |
| GroupsRefinement.LinkedGroupsArrange | backend/ent/account_query.go:627-687 | Whatever the join rows, repeated or not, an account gets exactly the groups a query for that account alone gives. |
| RunFacts.GroupsOnce | backend/ent/account_query.go:663-686 | For any join answer an account is given exactly the groups linked to it, each once, as a subsequence of first mentions. |
| RunFacts.Partition | backend/ent/account_query.go:770-783 | Neighbours with asked-for keys are shared out without loss or repetition: the list lengths sum to their number. |
| RunFacts.ChildrenShared | backend/ent/account_query.go:752-784 | Every child a run fetched is in exactly one parent's list, the one whose id is its foreign key, in the run's order. |
| EagerRefinement.DistinctKeysExact | backend/ent/account_query.go:689-701 | The batched id list has no repetition and equals the set of non-nil keys. |
| EagerRefinement.ColumnsCover | backend/ent/account_query.go:858-880 | Whatever fields were selected, the id comes first and only once, and every foreign key that the requested edges or the loader above need is there. |
| ReadFields.SpecColumnsExact | backend/ent/account_query.go:858-880 | The projected columns are every column if no field was selected, and otherwise the id, the selected fields, and the foreign keys of the requested edges to one. |
| ReadFields.RunReads | backend/ent/account_query.go:858-880 | So every node of a run is the projection of its row to exactly these columns, and to no others. |
| ReadFields.RunReadsCells | backend/ent/account_query.go:550-625 | Field by field: each of the 32 comes from the cell of its own column if that was read, and is zero or nil otherwise. |
| ReadFields.PlainQueryReadsAll | backend/ent/account_query.go:858-880 | A query without selected fields returns nodes that hold their whole rows. |
| ReadFields.EdgesHoldCells | backend/ent/account_query.go:626-844 | The proxies, groups, usage logs and join rows on a node's edges hold every non-NULL cell of their rows that their query reads, with its value, and nothing else. |
| EagerRefinement.ChildKeys | backend/ent/account_query.go:762-781 | So every child read back holds a foreign key that was asked for: the two key errors cannot occur over a consistent database. |
| RunFacts.QueriesBounded | backend/ent/account_query.go:550-625 | One run issues at most one database query per query of the tree, whatever the data; recursion goes down the tree, so cyclic parents are no problem. |
| RunFacts.ProxyAccessor | backend/ent/account.go:120-128 | The accessor returns the proxy exactly if the key is set and the nested query matches it, NotFound exactly if it was requested in vain, NotLoaded exactly if it was not requested. |
| RunFacts.ParentAccessor | backend/ent/account.go:131-139 | The same for the parent. |
| RunFacts.ManyAccessors | backend/ent/account.go:111-165 | To-many accessors fail exactly if the edge was not requested. |
| NestedLimits.LimitMatchesExactly | backend/ent/account_query.go:888-890 | A limit on a batch equals a limit per parent if and only if the batch fits the limit or has one parent. |
| NestedLimits.OffsetMatchesExactly | backend/ent/account_query.go:891-893 | The same for an offset. |
| Selection.WindowTakes | backend/ent/account_query.go:888-893 | A window skips the offset and then takes as many rows as the limit says, or all of them. |
| Selection.FirstOptionDecides | backend/ent/account_query.go:894-900 | Of several order options the first that tells two rows apart decides. |
| NestedLimits.ChildWindowExact | backend/ent/account_query.go:752-784 | Under a nested limit or offset every node of every run gets the children that its own query may return if and only if all matching children fit the window or share one parent. |
| EdgeLimits.OwnedWindowExact | backend/ent/account_query.go:785-844 | The same for usage logs and join rows: if and only if the batch fits the window or belongs to one account. |
| GroupWindows.GroupsWindowExact | backend/ent/account_query.go:626-687 | The same for groups, where the window counts the rows of the join; no join row is there twice, as its composite primary key says. |
| BothWindows.ChildBothExact | backend/ent/account_query.go:752-784 | Under a limit and an offset at once every node gets the children that its own query may return if the sorted batch ends before the offset, has one parent, or starts with one parent's children up to the end of the window while no other parent has more than the offset; under a total order, only then. |
| BothWindows.OwnedBothExact | backend/ent/account_query.go:785-844 | The same for usage logs and join rows. |
| EdgeLimits.ProxyWindowExact | backend/ent/account_query.go:688-719 | Under a nested limit, an offset or both every node gets the proxy that its own query may return if and only if there are no more matching proxies than the limit, or, if an offset is set, than the offset. |
| EdgeLimits.ParentWindowExact | backend/ent/account_query.go:720-751 | The same for parents. |
| NestedLimits.LimitCounterexample | backend/ent/account_query.go:888-890 | A database with two parents of one child each, a query with a nested limit of one and a run of it: the second parent gets no child, which its own query cannot return. |
| Reruns.RerunsAgree | backend/ent/account_query.go:44-47 | However often a query without nested windows has run before, and though each run appends restrictions, the node of a row that every earlier run returned is one that the query as it first stood gives. |
| Reruns.SteadyRerunsAgree | backend/ent/account_query.go:44-47 | If the root has no window or is totally ordered, that is every node of every completed run, and all runs return the same rows. |
| Reruns.RerunsReturnTheSame | backend/ent/account_query.go:44-47 | So on unchanged data two completed runs give a row that every run before them returned the same node, up to the order of to-many edges, and exactly under total nested orders. |
| Reruns.SteadyRerunsReturnTheSame | backend/ent/account_query.go:44-47 | If the root has no window or is totally ordered, two completed runs return the same rows and such nodes for all of them. |
| RerunEdges.EdgeExactly | backend/ent/account_query.go:626-844 | Whatever rows the runs return: an edge of a node is what the query as it first stood gives if and only if each earlier run that issued the edge's query asked for that node, or the node's own query matches nothing. |
| RerunEdges.RerunExactly | backend/ent/account_query.go:550-844 | So a node of a later run is one that the query as it first stood gives if and only if that holds of its six edges. |
| RerunEdges.UnreturnedExactly | backend/ent/account_query.go:752-767 | For a row that an earlier, non-empty run did not return, a to-many edge comes back empty, and rightly so if and only if the row's own query matches nothing. |
| RerunEdges.NoGroupsAgain | backend/ent/account_query.go:640-647 | After a run that returned rows no completed run gives any node a group. |
| RerunEdges.LimitedRerunLosesChild | backend/ent/account_query.go:765-767 | Two accounts with a child each and a root limit of one: the first run returns account 1 with its child, the second account 2 without its own. |
| Reruns.WiderIsRedundant | backend/ent/account_query.go:762-767 | An earlier restriction that a later, narrower one implies takes nothing away. |
| QueryReuse.RunTwice | backend/ent/account_query.go:550-625 | Running one builder twice on the heap leaves two runs of a repeated query; where the root returns the same rows every time, the second ends in the panic if and only if a groups query of the first returned a row. |
| Builders.AccountQuery.Clone | backend/ent/account_query.go:388-408 | A clone has the original's tree without modifiers, is valid, and consists of new builders at every level. |
| Builders.LeafQuery.Clone | backend/ent/account_query.go:388-408 | The same for a query without nested ones. |
| RunFacts.CloneMeansTheSame | backend/ent/account_query.go:388-408 | A clone has exactly the runs of the original. |
| RunFacts.CloneIsSame | backend/ent/account_query.go:392-407 | It is the same query, modifiers included, if and only if no query of the tree has a modifier. |
| QueryReuse.RunExtendedClone | backend/ent/account_query.go:388-408 | Extending a clone and running it leaves the original's tree as it was at every level. |
| AccountEntity.ScanValues | backend/ent/account.go:168-189 | One empty buffer per column, of the column's type. |
| AccountEntity.ArmMatchesBuffer | backend/ent/account.go:168-417 | For every column the buffer made is of the type that the assignment asserts. |
| AccountEntity.Account.AssignValues | backend/ent/account.go:193-417 | The loop assigns column by column, stops at the first error, and fails at once if there are too few values. |
| AccountEntity.ScanProjects | backend/ent/account.go:168-417 | For every column list, in any order and with repetitions, a well-typed row is read without an error and the node holds exactly the projection of the row. |
| AccountCreation.AccountMutation.Defaults | backend/ent/account_create.go:527-585 | The mutation afterwards holds the defaulted changes, also when a nil default function stops it half-way. |
| AccountCreation.DefaultsFill | backend/ent/account_create.go:527-585 | Defaults overwrite nothing, touch only columns that have one, fill all of them on success, and fail exactly if a default function is nil and its field unset. |
| CreateContents.DefaultsExactly | backend/ent/account_create.go:527-585 | Every defaulted column takes its own default unless it is set, in the source's sequence, up to the first default function that is needed and nil, which is the error; nothing else changes. |
| AccountCreation.AccountMutation.Check | backend/ent/account_create.go:588-660 | The check reports the first failing requirement. |
| AccountCreation.CheckPasses | backend/ent/account_create.go:588-660 | It passes exactly if every required field is set and every validated value valid. |
| CreateContents.CheckReports | backend/ent/account_create.go:588-660 | The error is that of the first of the twenty requirements, in their sequence, that is not met. |
| AccountCreation.CheckAfterDefaults | backend/ent/account_create.go:527-660 | After defaults a caller can only have left out name, platform and type. |
| AccountCreation.CheckFindsUnset | backend/ent/account_create.go:2105-2113 | Whenever defaults stopped with an error, the check fails too. |
| AccountCreation.AccountMutation.CreateSpec | backend/ent/account_create.go:682-891 | The node and the specification hold the same set fields, and the specification the set edges. |
| CreateRoundTrip.CreateThenRead | backend/ent/account_create.go:682-891 | If the documents that were set survive encoding, reading the created row over all columns yields the node that the insert returned, with its id. |
| CreateRoundTrip.CreatedCell | backend/ent/account_create.go:682-891 | Every column of the new row holds the encoded value that the mutation has for it, keys set through edges included, or NULL. |
| CreateContents.RowHoldsChanges | backend/ent/account_create.go:682-891 | Column by column: each of the 31 cells beside the id holds the mutation's member of that name, or NULL if it is not set. |
| CreateContents.NodeTakesChanges | backend/ent/account_create.go:682-891 | Field by field: the returned node has the mutation's members, zero where a required one is not set. |
| CreateContents.EdgesExact | backend/ent/account_create.go:804-890 | The specification has exactly the edges that the mutation asks for, each once, with their ids; join rows to groups carry their default time. |
| CreateRoundTrip.RequiredNotNull | backend/ent/account_create.go:588-660 | A mutation that passes the check becomes a row without NULL in any required column. |
| BulkSave.AccountCreateBulk.Save | backend/ent/account_create.go:2095-2152 | A bulk save on the heap does what the run function says: error, trace, specifications, nodes, inserted batches, done flags and ids of all mutations. |
| BulkSave.AccountCreateBulk.BuildMutators | backend/ent/account_create.go:2102-2143 | Every builder gets its defaults and its chain, hooks wrapped last to first; no other mutation changes. |
| BulkSave.Chains.Invoke | backend/ent/account_create.go:2106-2138 | Calling one chain from any point leaves what the run from there leaves. |
| BulkSave.Chains.AllOrNothing | backend/ent/account_create.go:2095-2152 | With hooks that forward the mutation, edited or not, an error leaves every done flag and id as it was, and a success means one insert, every mutation done, and node i holding builder i's changes as its hooks edited them and the id of row i. |
| BulkRun.InsertReached | backend/ent/account_create.go:2111-2122 | The insert is reached if and only if every hook calls on and every builder's check passes on the changes its mutation holds by then. |
| BulkRun.InsertedOnce | backend/ent/account_create.go:2117-2122 | Where no hook calls on again it fires at most once, and then every builder has filled its slot. |
| BulkRun.ProperlyNested | backend/ent/account_create.go:2139-2142 | Whichever of the seven modelled things the hooks do, the trace of a run is properly nested. |
| BulkGuarantees.ForwardRun | backend/ent/account_create.go:2102-2150 | With hooks that forward, editing or not, the trace is all entries, then the insert or the first refusal, then the exits in reverse; the checks and the insert see the edited changes. |
| BulkGuarantees.EntriesExact | backend/ent/account_create.go:2139-2142 | The entries are each hook once, in (builder, hook) order. |
| BulkGuarantees.AllOrNothing | backend/ent/account_create.go:2117-2138 | For all modelled hooks: success with every mutation committed if and only if the batch is stored and no builder's first acting hook fails afterwards; failure with none committed if and only if it is not stored and no first acting hook that is reached hides that. |
| BulkGuarantees.GuaranteeExactly | backend/ent/account_create.go:2095-2152 | So the guarantee holds if and only if no builder's first hook that does more than call on has the wrong last word: a failure when the batch is stored, a success when it is not. |
| BulkGuarantees.SwallowBreaksGuarantee | backend/ent/account_create.go:2102-2150 | A reached hook that reports success without calling on breaks it, behind any hooks of its builder that only call on. |
| BulkGuarantees.InsertedMutations | backend/ent/account_create.go:2111-2116 | What is inserted for a builder is the mutation it was handed, as it stood then, while the check looked at its own. |
| BulkGuarantees.SwapSkipsCheck | backend/ent/account_create.go:2111-2114 | So a hook that swaps the mutation gets changes inserted that fail the check. |
| RepeatedCalls.SingleCalls | backend/ent/account_create.go:2102-2142 | The run with hooks that may call on again, in which a core checks what an earlier call left in its builder, is the run above while every hook calls on once. |
| RepeatedCalls.StillNested | backend/ent/account_create.go:2139-2142 | Its trace is properly nested however often hooks call on. |
| RepeatedCalls.InsertsBounded | backend/ent/account_create.go:2117-2122 | The insert fires at most once for every way through the hooks, two for each that may call on twice. |
| RepeatedCalls.OnceExactly | backend/ent/account_create.go:2106-2126 | With hooks that pass the mutation on unchanged, once or twice, it fires at most once if and only if none calls on twice or some check fails. |
| RepeatedCalls.RetryStoresTwice | backend/ent/account_create.go:2117-2142 | A hook that tries again after a failure that came after the insert stores the batch twice. |
| ExceptionParser.ParseExceptions | tools/check_pnpm_audit_exceptions.py:23-48 | The loop computes the parse of the lines, or the error of an item without a colon. |
| ExceptionParser.ParseAppend | tools/check_pnpm_audit_exceptions.py:23-48 | Parsing two lists one after the other is parsing them together, errors included, whenever the second opens with an item. |
| ExceptionParser.ItemHasContent | tools/check_pnpm_audit_exceptions.py:35-42 | An item line always has content after its dash. |
| ExceptionParser.CurrentNeverEmpty | tools/check_pnpm_audit_exceptions.py:36-47 | So no record is ever dropped for being empty. |
| ExceptionPrinter.PrintThenParse | tools/check_pnpm_audit_exceptions.py:12-48 | Printing any list of non-empty records, each value bare or in either kind of quotation marks, and parsing the text returns the list, values with colons, hashes and quotation marks included. |
| ExceptionPrinter.FieldSplits | tools/check_pnpm_audit_exceptions.py:12-20 | A printed field splits back into its key and value in each of the three styles. |
| ExceptionPrinter.PlainSplits | tools/check_pnpm_audit_exceptions.py:12-20 | A trimmed value without matching quotation marks at its ends is read as it stands. |
| ExceptionPrinter.QuotedSplits | tools/check_pnpm_audit_exceptions.py:12-20 | Of a value in matching quotation marks of either kind the inside is read. |
| ExceptionParser.NoiseIgnored | tools/check_pnpm_audit_exceptions.py:29-47 | Blank lines, comments, the two opening words and lines that are neither item nor field can be left out anywhere. |
| ExceptionParser.PreambleIgnored | tools/check_pnpm_audit_exceptions.py:27-47 | Whatever stands before the first item belongs to no record and is no error. |
| AuditFindings.IterVulns | tools/check_pnpm_audit_exceptions.py:64-111 | The two loops yield the findings of both layouts, or stop. |
| AuditFindings.FindingsExact | tools/check_pnpm_audit_exceptions.py:64-111 | A finding is yielded if and only if it is an advisory's, or that of a cause of a vulnerability that has an identifier, under the title joined from all its causes; names, severities, identifiers and titles are those of the report. |
| AuditFindings.PicksFirst | tools/check_pnpm_audit_exceptions.py:51-61 | For an advisory the first identifier with content is picked, from the seven in their order, and the last without any; there is none exactly if a list of CVEs that is looked at has no first element. |
| AuditFindings.CausePicksFirst | tools/check_pnpm_audit_exceptions.py:88-104 | For a cause the first of five identifiers and the first of four titles is picked; a string is both. |
| AuditFindings.FindingsListed | tools/check_pnpm_audit_exceptions.py:64-111 | The findings come in sequence: one for each advisory, then vulnerability by vulnerability one for each cause that has an identifier, none left out or repeated. |
| AuditFindings.ReadExactly | tools/check_pnpm_audit_exceptions.py:64-111 | The report is read to its end if and only if every entry is an object, a list of CVEs that is looked at has a first element, and every title to be joined is a string. |
| AuditFindings.NumericSourceUnreadable | tools/check_pnpm_audit_exceptions.py:90-109 | A cause with nothing but a numeric source stops the scan. |
| AuditGate.IndexExceptions | tools/check_pnpm_audit_exceptions.py:156-185 | The loop computes the index and the first-phase errors. |
| AuditGate.ScanFindings | tools/check_pnpm_audit_exceptions.py:191-219 | The loop computes the scan, or stops exactly if a severity has content and is no string. |
| AuditGate.Run | tools/check_pnpm_audit_exceptions.py:142-243 | The whole run ends with the verdict, error lines included. |
| AuditReports.GateReports | tools/check_pnpm_audit_exceptions.py:142-243 | The output, line by line: what is printed for each exception, each finding, each missing and each expired one is read off the exceptions and findings alone; exit 1 exactly if there is a line, a crash exactly if an input cannot be read. |
| AuditReports.OthersIgnored | tools/check_pnpm_audit_exceptions.py:191-196 | Where the severities can be read, a finding that has no name or is neither high nor critical changes nothing of what the scan reports. |
| AuditGuarantees.IndexBalance | tools/check_pnpm_audit_exceptions.py:156-185 | Every exception enters the index or is reported once: index size plus errors is the number of exceptions. |
| AuditGuarantees.IndexContents | tools/check_pnpm_audit_exceptions.py:156-185 | The index maps each key to the first acceptable exception that has it, and has no other keys. |
| AuditGuarantees.IndexClean | tools/check_pnpm_audit_exceptions.py:156-185 | No exception is reported if and only if all are acceptable and their keys differ. |
| AuditGuarantees.ReportedOnce | tools/check_pnpm_audit_exceptions.py:191-219 | Missing and expired keys are reported once each and are determined by the set of high and critical keys. |
| AuditGuarantees.SameKeysSameReports | tools/check_pnpm_audit_exceptions.py:191-219 | So order and repetition of findings do not change which keys are reported. |
| AuditGuarantees.ScanClean | tools/check_pnpm_audit_exceptions.py:191-219 | The scan is clean if and only if every named high or critical finding is identified and each first one with its key is covered. |
| AuditGuarantees.GateExact | tools/check_pnpm_audit_exceptions.py:151-243 | The gate exits 0 if and only if the inputs can be read and the three conditions on exceptions and findings hold. |
| AuditGuarantees.EveryOrderExactly | tools/check_pnpm_audit_exceptions.py:203-212 | The scan is clean in every order of the findings if and only if every finding, and not only the first with its key, is covered. |
| AuditGuarantees.OrderMatters | tools/check_pnpm_audit_exceptions.py:203-212 | A report with one finding at two severities and a list with one exception: the gate exits 0, and 1 when the two are exchanged. |
| ReleaseManifest.ValidateManifest | tools/pro_release_guard.py:47-82 | The loops report the first defect, or stop where a list of test ids cannot be a set. |
| ReleaseManifest.ValidationExact | tools/pro_release_guard.py:47-82 | The validator lets through exactly the valid manifests: distinct ids, commands, known references, a test or a runtime path for every customization. |
| ManifestDefects.ValidIsGood | tools/pro_release_guard.py:47-82 | Those are the manifests whose every test and every customization is good, in the manifest's own keys. |
| ManifestDefects.FirstDefectReported | tools/pro_release_guard.py:47-82 | The others are refused for the first fault in the sequence of the checks, test by test and then item by item. |
| ManifestDefects.TestFault | tools/pro_release_guard.py:62-70 | Which of three faults of a test is reported. |
| ManifestDefects.ItemFault | tools/pro_release_guard.py:73-82 | Which of four faults of a customization is reported, and when its references stop the script. |
| ReleaseGuard.VerifyRepository | tools/pro_release_guard.py:122-164 | The repository checks end with the source record or the first failure. |
| RepositoryFaults.FirstFaultReported | tools/pro_release_guard.py:122-164 | They end as the first of the listed checks that is not met says: questions to git, origin, state, ancestors one by one, files one by one. |
| ReleaseGuard.RunReleaseTests | tools/pro_release_guard.py:167-179 | On a validated manifest the loop ends with all results or the first failing test. |
| ReleaseGuard.Run | tools/pro_release_guard.py:219-244 | The gate's order of phases, its outcome, and what it writes. |
| ReleaseGuarantees.TestsExact | tools/pro_release_guard.py:167-179 | There are results if and only if every test passed, run with its own words in its own directory, and they are those of the tests in order. |
| ReleaseGuarantees.FirstFailureReported | tools/pro_release_guard.py:167-179 | Otherwise the first test that does not pass is reported with its exit code. |
| ReleaseGuarantees.RepositoryExact | tools/pro_release_guard.py:122-164 | The repository passes if and only if origin, state, history and required files are in order, and then the source record says what git and the manifest say, a missing branch as "detached". |
| ChangedPaths.ChangedExactly | tools/pro_release_guard.py:99-119 | On the reply to each of the two git commands, written out: the migrations are exactly its lines that end in ".sql", the database paths exactly its non-empty lines, in order; without a reply the command is the failure. |
| ReleaseGuarantees.PassesExactly | tools/pro_release_guard.py:219-244 | The gate passes if and only if the manifest is valid, the repository in order, a given base in its history, and all tests pass or are skipped; a release manifest is written exactly if one is asked for and the gate passes. |
| ReleaseGuarantees.WrittenExactly | tools/pro_release_guard.py:219-241 | A release manifest is written if and only if the manifest is valid, the repository in order, the base in its history, all tests pass, and neither development mode nor skipping was asked for. |
| ReleaseGuarantees.WrittenGuarantees | tools/pro_release_guard.py:47-241 | In every written manifest the tests are those of the manifest in order, passed, with distinct ids; every test a customization refers to is among them; each customization has one or a runtime path; the source is the clean tree at the origin's commit; and the changes are those that git reports since the base, a rollback being allowed if and only if it reports no database file. |

## Left out

- Reruns.RerunsAgree: does not model data that changes between runs, because nothing is promised for them.
- BothWindows.ChildBothExact: where rows tie, the condition is sufficient only, because what a parent gets then depends on how the database breaks the ties.
- GroupWindows.GroupsWindowExact: covers a limit or an offset; under both at once the pairs of one group tie in every order.
- RunFacts.CloneMeansTheSame: does not model lock options such as SKIP LOCKED, whose effect depends on other transactions.
- CreateRoundTrip.CreateThenRead: assumes that the database stores values unchanged; the scale of its decimal columns is not modelled.
- BulkSave.AccountCreateBulk.Save: hooks forward, edit the mutation's fields, refuse, swallow, fail afterwards, hide an error or swap the mutation; hooks that call on again are in `RepeatedCalls`, with errors, traces and inserts but without the slots, done flags and ids. Builders and their mutations are distinct objects.
- ExceptionPrinter.PrintThenParse: the printer is the inverse that the parser is proved against, and not part of the scripts.
- The nested loads of proxies, groups, usage logs and join rows: those entities are rows without edges here.
- Interceptors, traversers and chained traversal through `path`, `Unique` and DISTINCT.
- The `With*` methods: the nested builders of a query are fixed when it is made.
- Nil and empty slices are not told apart, nor is a limit of 0 from none.
- Widths of machine integers, floating-point rounding (floats are reals) and NaN.
- SQL text, drivers, transactions and locks, and driver errors in mid-query.
- The single save with hooks (`withHooks`), upserts, updates, deletes, per-field setters, group-by, select, scan and count paths.
- The other generated entities: the same templates.
- Hash randomization: the list of missing fields in an audit error line is a set here.
- JSON decoding, argument parsing, printing, and the git and test subprocesses: their results are parameters; git answers the same question the same way during one run.
- Front-end configuration and build files.
