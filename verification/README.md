# sub2api: eager loading, account creation, query builders and the audit gate

A Dafny model of four parts of the repository, with proofs about them. `dafny verify dfyconfig.toml`
checks all of it.

**Eager loading** (`backend/ent/account_query.go`, `backend/ent/accountgroup_query.go`,
`backend/ent/authidentity_query.go`). An account query returns nodes, then runs one query for each
requested edge and shares its rows out over the nodes through hash indexes. The nodes are objects
that the loaders write to. A neighbour query is any function from the requested ids to rows, so its
predicates, order and limit, and the tables, are arbitrary. What a node should hold is stated on the
rows alone: for groups, the rows of the nested-loop join without repetition (`GroupJoin`); for to-one
edges, the returned row with the node's key (`ToOneLoading`); for to-many edges, the node's own rows
(`ToManyLoading`, `AuthIdentityLoading`). The nondeterministic choice `kn :| kn in todo` is Go's
unspecified map order. `AccountLoading` runs the whole of sqlAll, from rows through the row codec and
the projection to the edges: `NodeOf` is all that a node should then show, its decoded row and its
five edges. `EdgeTheorems` says what that means to a caller.

**Creating accounts** (`backend/ent/account_create.go`). `BulkChain` is the chain of closures of a
bulk Save as a function of its state: links, hooks around each link, the one batch insert, and the
unwinding. A hook is any function that decides, on the way in, to refuse, skip, edit and call next, or
call next with another mutation, and any function of the outcome on the way out. `Honest` is the
hypothesis that the theorems name: it never skips, and never turns an error into success.
`BulkOutcomes` says which failure a Save returns, whatever its hooks are. `BulkCreate`
runs the chain on builder and mutation objects. `SingleSave` is the other way to create an account.
`CreateCheck` is defaults and check, column by column, `CreateSpec` and `RowCodec` are createSpec,
scanValues and assignValues, and `CreateRead` is what a query reads back of a created account.

**Query builders** (`QueryBuilder`, `CloneTheorems`, `QuerySpecs`, `QueryCalls`). Builders are trees of
objects; an account query may hold an account-group query that holds an account query, to any depth. A
With call carries the calls that its options make on the new edge query. `QueryCalls` says what any list
of calls comes to, part by part: in the builder, in the query it asks, and in the edges that a run loads.

**Running a builder** (`EagerRuns`, `RunFailures`, `GroupScan`, `BuilderRuns`, `QueryRuns`). A run
answers each query of the tree from a `Database`, any function from queries to rows or an error, and
changes the tree: each loader adds a predicate to its edge query. `EagerRuns.RunAccounts` says on values
what a run returns and leaves behind, through every level of the tree; a panic is one of its outcomes.
`GroupScan` is the column list of the join query of loadGroups and what its callbacks read from it.
`RunFailures` says when a run fails; `BuilderRuns` is the run on the objects; `QueryRuns` is any sequence
of First, Only, All and Limit calls, each from the builder that those before it left.

**Running a builder again** (`NarrowedEdges`, `LaterEdges`, `LaterLinkEdges`, `RepeatedGroups`).
`NarrowedEdges` says what any calls leave in the edge queries, and the other three which edges a later
call still loads, and when it panics; `NarrowingExample` and `RepeatExample` are inputs.

**The audit gate** (`tools/check_pnpm_audit_exceptions.py`). `ExceptionsParser` is the line parser with
a printer, for every way to write a value and every kind of line break. `AuditFindings` is what
iter_vulns computes and `AuditContents` what that means in the report's own terms, `AuditVerdict` states
the verdict by quantifiers and proves the index and `seen` loops against it, and `AuditProgram` runs the
program. `AuditGate` says from the report and the file alone when it exits with 0, and `AuditOrder` when
the order of the inputs matters. A `Host` stands for Python's lower, date.fromisoformat and today.

## What the proofs found

- The groups of an account come in the order in which the groups first appear in the whole result,
  not among the account's own rows (`GroupJoin.OrderIsOfTheWholeResult`).
- Of several nodes with one id, only the last receives to-many edges; the others stay empty.
- A join row of an account that was not asked for makes `loadGroups` dereference a nil pointer; it
  does not report an error (`EagerLoading.LoadGroups`).
- A bulk Save checks the builder's own mutation and then inserts the one its hooks passed on, which
  need not be the same (`BulkChain.ReplacedMutationUnchecked`). `BulkChain.SaveCheckedIff` says exactly
  when a batch holds only checked fields, and `BulkChain.CheckedForEveryCheckIff` when it does so
  whatever the check is. A single Save checks what it inserts; `SingleSave.SingleIsBulkIff` says exactly
  when the two agree.
- A clone forgets row locks and every other modifier, at every level (`CloneTheorems.CloneIsEqualIff`).
- Running a query with edges changes its edge queries for good: each loader adds its predicate to the
  builder itself, so a later run loads an edge only for ids that every earlier run asked for too.
  `First` on two accounts with proxies 1 and 2, and then `All` with the limit lifted, finds no proxy for
  the second account (`NarrowingExample.FirstLosesProxy`). `LaterEdges.LaterProxy`, `LaterOwner`,
  `LaterUsageLogs` and `LaterLinks`, and `LaterLinkEdges.LaterLinkGroup` and `LaterLinkAccount`, say
  exactly when a later call loads an edge.
- For groups it is worse: each run puts one more join, and one more column, in front of the columns that
  the callbacks of loadGroups read, so that the second run panics on the first row it gets
  (`RepeatExample.SecondAllPanics`: All twice, one account, one group). `RepeatedGroups.LaterPanicsIff`
  says exactly when a later call does.
- Running each call on a clone of its own avoids both (`NarrowingExample.CallClones`,
  `RepeatedGroups.FreshCloneFinds`), but only if the cloned query has not been run itself: a clone
  keeps the predicates and joins of earlier runs (`RepeatedGroups.ClonePanicsIff`).
- `First`, `Only`, `IDs`, `FirstID`, `OnlyID` and `Exist` change the builder that they are called on. A
  later `All` sees the limit that `First` or `Only` set. After `IDs` on a query that had selected no
  fields, a later query scans the id and the keys of its to-one edges alone
  (`QuerySpecs.IDsLeaveOnlyKeys`); after `IDs` on any other query, a later query is unchanged
  (`QuerySpecs.IDsNarrowLaterQueries`). `FirstID`, `OnlyID` and `Exist` leave their limit behind as
  well, so that a later query is unchanged only if it had that limit already
  (`QuerySpecs.LimitedIDsNarrowLaterQueries`).
- The audit's exit code can depend on the order of the findings (`AuditOrder.OrderMatters`);
  `AuditOrder.FindingOrderIrrelevantIff` says exactly when it does not.
- A vulnerability whose `via` items offer no id is passed over silently, whatever its severity
  (`AuditProgram.PassedOver`).

## Model

| member | source | states |
|---|---|---|
| GroupJoin.EdgeIsNestedLoop | backend/ent/account_query.go:585-645 | a node's groups, as rows, are those of the nested-loop join, no id twice, when rows of one id agree; otherwise each id shows its first row in the result |
| GroupJoin.EdgeUnique | backend/ent/account_query.go:585-645 | the returned rows determine the list of groups and its order |
| GroupJoin.OrderIsOfTheWholeResult | backend/ent/account_query.go:613-643 | the order is by first appearance in the whole result; an input where an account's own rows come in another order |
| EagerLoading.IndexByID | backend/ent/account_query.go:586-595 | the index holds the requested ids, each with the last node that has it |
| EagerLoading.ScanGroups | backend/ent/account_query.go:605-626 | after the scan, each group is filed under exactly the nodes of its rows, and one neighbour is kept for each group, from its first row |
| EagerLoading.AssignGroup | backend/ent/account_query.go:639-641 | in whatever order the map is visited, each filed node gains the group once, and it fails exactly on the nil node |
| EagerLoading.Distribute | backend/ent/account_query.go:634-643 | each node ends with the neighbours filed under it, in neighbour order |
| EagerLoading.PickedIsEdge | backend/ent/account_query.go:585-645 | what distribution leaves in a node is the edge that the rows determine |
| EagerLoading.LoadGroups | backend/ent/account_query.go:585-645 | succeeds exactly when every row belongs to a requested account, and then every indexed node holds its nested-loop edge, row for row; never reports an unexpected node |
| EagerLoading.HandoutMeans | backend/ent/account_query.go:667-675 | handing out rows stops at the first one whose key was not asked for, and reports that key; it succeeds exactly when there is none |
| EagerLoading.DistinctAllIndexed | backend/ent/account_query.go:586-595 | with distinct ids no node loses its edge to another |
| ToOneLoading.IndexByKey | backend/ent/account_query.go:647-659 | the ids are the set keys without repetition, and each is filed with exactly the nodes that hold it; nil keys are skipped |
| ToOneLoading.LoadProxy | backend/ent/account_query.go:646-677 | reports the first returned row that was not asked for; without one, each node gets the row its key names, and is left alone when the key is nil or unmatched |
| ToOneLoading.LoadOwner | backend/ent/account_query.go:678-709 | the same for the owner |
| ToOneLoading.LoadLinkAccount | backend/ent/accountgroup_query.go:379-407 | the same for the account of an account_groups row |
| ToOneLoading.LoadLinkGroup | backend/ent/accountgroup_query.go:408-436 | the same for its group |
| ToOneLoading.LastMatchFound | backend/ent/account_query.go:667-675 | a node is given a neighbour exactly when its key is set and some returned row has that id, and then the last such row |
| ToManyLoading.LoadUsageLogs | backend/ent/account_query.go:710-739 | fails exactly when a returned row belongs to no requested account, whatever fields the query selects; otherwise each node holds its own rows in order |
| ToManyLoading.LogsOfContents | backend/ent/account_query.go:728-737 | a node's own rows are exactly the returned rows with its id, once each and in order |
| ToManyLoading.AllLinks | backend/ent/accountgroup_query.go:334-377 | the rows of an account-group query, each with the account and the group its keys name when they were requested; when it fails |
| ToManyLoading.LoadAccountGroups | backend/ent/account_query.go:740-769 | each node holds its own account_groups rows in order, with their accounts and groups; exactly when it fails |
| ToManyLoading.LinksOfContents | backend/ent/account_query.go:758-767 | a node's own links are exactly the returned links with its id, once each and in order |
| AuthIdentityLoading.LoadAdoptionDecisions | backend/ent/authidentity_query.go:559-591 | succeeds exactly when every returned row has a requested key, whatever fields are selected; each node then holds its own rows in order; otherwise it reports the first row with a nil or unexpected key |
| AuthIdentityLoading.DecisionsOfContents | backend/ent/authidentity_query.go:578-589 | an identity's own rows are exactly the returned rows with its id, once each and in order |
| AuthIdentityLoading.RowsAreSharedOut | backend/ent/authidentity_query.go:559-591 | with distinct ids, every returned row ends up at exactly one node |
| Projection.QueryAccountColumns | backend/ent/account_query.go:783-805 | the columns of an account query, with the loop that puts the id first; all columns of accounts when no field is selected |
| Projection.AccountColumnsSound | backend/ent/account_query.go:791-805 | the id comes first and once, the keys of the loaded to-one edges are selected, and nothing else that was not asked for |
| Projection.AllAreListed | backend/ent/account/account.go:129-164 | account.Columns lists every column, and nothing else |
| Projection.LinkColumnsSound | backend/ent/accountgroup_query.go:450-472 | the same for account-group queries: all columns without a selection, and otherwise what is selected and the keys of the edges to load |
| Projection.KeySelected | backend/ent/account_query.go:720-722 | a one-to-many loader always has its key column scanned |
| AccountLoading.DecodedKeys | backend/ent/account_query.go:516-583 | after decoding under any projection, a node has the id of its row and the keys of its loaded to-one edges |
| AccountLoading.LoadEdges | backend/ent/account_query.go:547-581 | on success each node shows its decoded row, its requested edges row for row, and empty edges where none was requested; it fails exactly when some edge query answered wrongly |
| AccountLoading.SqlAll | backend/ent/account_query.go:516-583 | succeeds exactly when every row is readable and, unless there are none, every edge query returned only what was asked for; node i then shows the decoded row i and its edges, and nothing else |
| EdgeTheorems.ToOneOutcome | backend/ent/account.go:121-139 | a to-one edge has a value, is NotFound or NotLoaded exactly when requested and matched, requested and unmatched or nil, not requested; the value is a returned row with the key |
| EdgeTheorems.ProxyAccessor | backend/ent/account.go:121-128 | after sqlAll, that is what ProxyOrErr returns |
| EdgeTheorems.OwnerAccessor | backend/ent/account.go:132-139 | the same for OwnerOrErr |
| EdgeTheorems.HonestPlansNeverFail | backend/ent/account_query.go:585-769 | if edge queries return only rows that satisfy the added predicates, no loader reaches its error |
| EdgeTheorems.ProjectionKeepsEdges | backend/ent/account_query.go:783-805 | two runs that differ only in their selected fields give every node the same edges, row for row, and the same value in each field that both select |
| EdgeTheorems.SameLinkedGroups | backend/ent/account_query.go:585-645 | over tables with valid keys, the join query and the link query link an account to the same groups |
| EdgeTheorems.BothWaysAgree | backend/ent/account_query.go:740-769 | the groups loaded directly are the groups reached through account_groups and each row's group: the same ids, and the same rows when the id is a key |
| Entities.Account.AssignValues | backend/ent/account.go:185-415 | the entity ends as the columns assigned one by one, up to the first error; each unknown column is kept aside with its value |
| Entities.UnknownsKeepTheLast | backend/ent/account.go:411-412 | of several unknown columns with one name, the last value is kept |
| Entities.UnknownsKeepOthers | backend/ent/account.go:411-412 | names that no column has are left alone |
| RowCodec.ScanValues | backend/ent/account.go:160-181 | whatever the driver scans into the destinations, assignValues trips no type assertion; left empty, they assign nothing but a zero id |
| RowCodec.NoTypeMismatch | backend/ent/account.go:185-415 | no column list makes assignValues trip over a destination of scanValues |
| RowCodec.SpecMatchesNode | backend/ent/account_create.go:694-891 | column by column, the spec stores what the returned node holds, with a type it has; a column left out is zero in the node |
| RowCodec.AssignScanned | backend/ent/account.go:185-415 | a value written to a cell and read back is the value assigned |
| RowCodec.AssignFrame | backend/ent/account.go:185-415 | assigning a column leaves all other fields alone |
| RowCodec.AssignNull | backend/ent/account.go:185-415 | NULL assigns nothing, except that it sets the id to zero |
| RowCodec.RoundTrip | backend/ent/account_create.go:694-891 | decoding any columns of the inserted row gives the node that createSpec returned, under the assigned id |
| RowCodec.NilExactlyForNull | backend/ent/account.go:185-415 | a pointer field is nil exactly when its column is NULL |
| RowCodec.ProjectionIndependent | backend/ent/account.go:185-415 | a decoded field depends on its own column only |
| CreateRead.FieldsDetermine | backend/ent/account.go:185-415 | two accounts that agree on every column are the same, field by field |
| CreateRead.CreatedDecodes | backend/ent/account_query.go:783-790 | with no field selected, the inserted row decodes to the node that createSpec returned, under its id |
| CreateRead.CreatedIsReadable | backend/ent/account_create.go:694-891 | the row of a created account can be read under any projection |
| CreateRead.CreatedIsReadBack | backend/ent/account_query.go:516-583 | sqlAll with no field selected shows, for the row of a created account, what the mutation set in every field, and nil in every pointer field it did not set |
| CreateSpec.CreateSpecOf | backend/ent/account_create.go:694-891 | the field-by-field code yields the specified node, and a spec with exactly the mutation's columns, each once, in order, with its value, and the edges to groups, with the default fields of their new rows, proxy, owner and usage logs that it sets |
| CreateSpec.EdgesMean | backend/ent/account_create.go:820-891 | the spec has an edge to groups exactly when the mutation sets some, to exactly these, whose new rows get the default priority and time of creation; a foreign key for exactly the proxy and the owner that it sets; and an edge from usage logs exactly when it sets some, from exactly these |
| CreateCheck.AccountCreate.Defaults | backend/ent/account_create.go:527-589 | each column that was unset gets its own default, column by column, up to the first whose default is not initialized, which is the error; every other column and the edges stay as they were |
| CreateCheck.CheckPasses | backend/ent/account_create.go:592-674 | check passes exactly the mutations that set every required field to a valid value |
| CreateCheck.CheckReportsFirst | backend/ent/account_create.go:592-674 | check reports the first column, in the order of the source, that is required and unset, or set to an invalid value |
| CreateCheck.CheckPassesAll | backend/ent/account_create.go:592-674 | it reports nothing exactly when no column has such a problem |
| CreateCheck.FailedDefaultsFailCheck | backend/ent/account_create.go:527-674 | whenever defaults fails, check fails on the mutation it left |
| CreateCheck.DefaultsThenCheck | backend/ent/account_create.go:527-674 | when defaults succeeds, check passes exactly when the fields without default are set and all values are valid |
| CreateCheck.DefaultsKeepSetFields | backend/ent/account_create.go:527-589 | defaults never overwrites a field that was set |
| CreateCheck.LackingNeverReady | backend/ent/account_create.go:2131-2139 | a builder that lacks a default is never inserted, unless a hook fills it in |
| CreateCheck.DroppedDefaultsErrorIsHarmless | backend/ent/account_create.go:2130-2139 | a bulk Save with a builder whose defaults failed inserts nothing and returns an error, though it drops the error of defaults |
| BulkChain.CallLemma | backend/ent/account_create.go:2132-2165 | one call of a mutator inserts at most once, exactly when all later builders are ready; it succeeds exactly when the insert is accepted and the hooks let that through, and marks exactly the builders done whose success came back |
| BulkChain.SaveAllOrNothing | backend/ent/account_create.go:2121-2178 | one batch insert exactly when every builder alone is refused by no hook and passes its check, each slot holding its builder's own spec; success exactly when it is accepted and every hook lets it through; builder j done exactly when the hooks of all later builders do |
| BulkChain.SaveResult | backend/ent/account_create.go:2155-2177 | on success slot j returns the node of builder j's fields under the id given to slot j, and the builder's mutation holds both |
| BulkOutcomes.SaveOutcome | backend/ent/account_create.go:2121-2178 | with any hooks, Save returns the refusal or check failure of the first builder that is not ready, as its own hooks and those of all earlier builders pass it out, and otherwise what the insert comes to, as all hooks pass it out |
| BulkChain.SaveTrace | backend/ent/account_create.go:2128-2175 | on success the events are the hooks in declaration order, check and spec, builder after builder, one insert, and the way back in reverse |
| BulkChain.SaveStops | backend/ent/account_create.go:2132-2150 | when a builder is refused or fails its check, no hook, check or spec of a later builder runs, and nothing is inserted |
| BulkChain.ChainTrace | backend/ent/account_create.go:2143-2169 | the same for the chain from any builder on |
| BulkChain.CheckedIff | backend/ent/account_create.go:2137-2142 | what a builder inserts has passed its check exactly when no mutation reaches its link, the one it keeps fails, or the one sent passes |
| BulkChain.SaveCheckedIff | backend/ent/account_create.go:2132-2165 | a batch holds only checked fields exactly when some builder is stopped, so that there is no batch, or the fields sent by every builder pass |
| BulkChain.CheckedForEveryCheckIff | backend/ent/account_create.go:2132-2165 | it does so for every check exactly when the hooks refuse some builder, or every builder sends fields that some builder keeps |
| BulkChain.ReplacedMutationUnchecked | backend/ent/account_create.go:2137-2142 | an input on which a mutation that fails the check is inserted |
| BulkCreate.AccountCreateBulk.BuildMutator | backend/ent/account_create.go:2166-2169 | the hooks are wrapped so that the first is outermost |
| BulkCreate.AccountCreateBulk.CallLink | backend/ent/account_create.go:2132-2165 | a link on builder and mutation objects does what the chain's function says |
| BulkCreate.AccountCreateBulk.CallHook | backend/ent/account_create.go:2166-2168 | a hooked call on the objects does what the chain's function says |
| BulkCreate.AccountCreateBulk.CompleteLink | backend/ent/account_create.go:2158-2163 | the mutation takes the node's id and is marked done |
| BulkCreate.AccountCreateBulk.Prepare | backend/ent/account_create.go:2125-2171 | defaults are filled in, the slots are empty, and mutator j is builder j's link inside its hooks |
| BulkCreate.AccountCreateBulk.Save | backend/ent/account_create.go:2121-2178 | Save on the objects reaches the state and outcome of the chain |
| SingleSave.OneCreate.Save | backend/ent/account_create.go:497-502 | a failing default ends the call with its error; otherwise a single Save on the objects does what its function says, with and without hooks |
| SingleSave.OneCreate.ExecuteOn | backend/ent/account_create.go:676-692 | the mutation passed on is copied into the builder's own, then checked, inserted and marked done |
| SingleSave.OneAllOrNothing | backend/ent/ent.go:558-589 | one insert exactly when no hook refuses and the fields passed on pass the check; the done mark exactly when it is accepted, and success exactly when the hooks let that through |
| SingleSave.OneOutcome | backend/ent/ent.go:558-589 | with any hooks, a single Save inserts nothing and returns what the first hook that does not call the next comes to, as it and all hooks before it pass it out; otherwise the failure of the check on the fields passed on, or what the insert comes to, as all hooks pass it out |
| SingleSave.SingleAndBulk | backend/ent/account_create.go:2137-2142 | both ways insert the fields passed on; a single Save checks those, a bulk Save the builder's own |
| SingleSave.SingleIsBulkIff | backend/ent/account_create.go:676-679 | they agree exactly when the check does not tell the two apart |
| BulkChain.EditingHooksPassTheirOwn | backend/ent/ent.go:565-579 | hooks that only refuse or edit in place send the fields that the builder keeps |
| QueryBuilder.Builder.Apply | backend/ent/account_query.go:44-72 | each builder call changes its own part of the builder and no other |
| QueryBuilder.AccountQuery.Apply | backend/ent/account_query.go:389-442 | a With call makes the query of its own edge anew, with the calls of its options alone, and leaves all other edges and the base as they were; the tree stays unshared |
| QueryBuilder.AccountGroupQuery.Apply | backend/ent/accountgroup_query.go:240-259 | the same for account-group queries |
| QueryCalls.StepsComeTo | backend/ent/account_query.go:44-72 | after any calls on one builder, predicates, orders and modifiers are those of the calls in order, and limit, offset, uniqueness and selector are each the last given |
| QueryCalls.SelectionComesTo | backend/ent/account_query.go:477-483 | the selected fields are those of all Select calls, in order |
| QueryCalls.GroupingComesTo | backend/ent/account_query.go:456-463 | GroupBy replaces what was selected before it |
| QueryCalls.CallsComeTo | backend/ent/account_query.go:389-442 | after any calls, each edge query is the one of the last With call for that edge and has seen the calls that came with it alone; an edge without a With call is as before |
| QueryCalls.PresentIff | backend/ent/account_query.go:389-442 | a new query has an edge query for exactly the edges whose With calls were made |
| QueryCalls.LinkCallsComeTo | backend/ent/accountgroup_query.go:240-259 | the same for account-group queries |
| QueryCalls.LinkPresentIff | backend/ent/accountgroup_query.go:240-259 | the same for account-group queries |
| QueryCalls.SpecOfCalls | backend/ent/account_query.go:783-827 | after any calls, the query asks for all predicates, in the order of the Order calls, under the last limit and offset; for distinct rows as the last Unique call or lock says and, without one, if it has a traversal path; with all modifiers; and from the last selector |
| QueryCalls.ColumnsOfCalls | backend/ent/account_query.go:791-805 | a new query scans every column of accounts if nothing was selected, and otherwise the id, what was selected, and the keys of the to-one edges whose With calls were made |
| QueryCalls.LoadedExactly | backend/ent/account_query.go:547-581 | after a run of a new query, each node has loaded exactly the edges whose With calls were made, its accessors answer NotLoaded for exactly the others, and the lists of the others are empty |
| QueryCalls.LinksLoadedExactly | backend/ent/accountgroup_query.go:334-377 | the same for the rows below it and the With calls that came with the last WithAccountGroups call |
| QueryBuilder.AccountQuery.Clone | backend/ent/account_query.go:366-385 | terminates with a tree of new builders and contexts, the same query at every level but for the modifiers |
| QueryBuilder.AccountGroupQuery.Clone | backend/ent/accountgroup_query.go:220-236 | the same for account-group queries |
| CloneTheorems.CloneThenCalls | backend/ent/account_query.go:364-385 | calls on the original and the clone, interleaved in any way, leave each as if only its own had been made |
| CloneTheorems.CloneIsEqualIff | backend/ent/account_query.go:366-385 | the clone is the same query exactly when no builder of the tree has a modifier |
| CloneTheorems.LinkCloneIsEqualIff | backend/ent/accountgroup_query.go:220-236 | the same for account-group queries |
| CloneTheorems.CloneThenCallsIsCallsThenClone | backend/ent/account_query.go:366-385 | cloning before a run of calls or after it differs in the modifiers alone |
| QuerySpecs.BuildSpec | backend/ent/account_query.go:783-827 | the spec of a builder: columns, uniqueness, predicates, order, limit, offset, and the selector it starts from |
| QuerySpecs.CloneSpec | backend/ent/account_query.go:783-827 | a clone runs the same spec, but for its modifiers |
| QuerySpecs.FirstInvalid | backend/ent/account_query.go:501-505 | the first selected field that is no column of accounts, which ends a run; none exactly when all are columns |
| QuerySpecs.PrepareIDs | backend/ent/account_query.go:304-313 | what IDs leaves in the builder |
| QuerySpecs.IDsFixUniqueness | backend/ent/account_query.go:304-313 | IDs fixes the uniqueness that the query had already, exactly if a caller or a traversal path gave it one |
| QuerySpecs.PrepareLimitedIDs | backend/ent/account_query.go:210-213 | what FirstID, OnlyID and Exist leave: a limit, and what IDs leaves |
| QuerySpecs.IDsNarrowLaterQueries | backend/ent/account_query.go:304-313 | IDs leaves a later query unchanged exactly when the query had selected some field |
| QuerySpecs.LimitedIDsNarrowLaterQueries | backend/ent/account_query.go:259-273 | FirstID, OnlyID and Exist do exactly when it had, and had their limit as well |
| QuerySpecs.IDsLeaveOnlyKeys | backend/ent/account_query.go:304-313 | otherwise the later query scans the id and the keys of its to-one edges, and decodes to an account that is zero elsewhere |
| EagerRuns.RunKeepsMain | backend/ent/account_query.go:490-583 | a run leaves the query of its own as it was, but that with a traversal path it then starts from the selector the path leads to; a successful one has the rows that the database returned for its spec from there, all readable |
| GroupScan.SelectColumns | backend/ent/account_query.go:596-604 | the columns of the group query once its predicates have run in order: each join puts the account's column in front |
| GroupScan.ScanJoin | backend/ent/account_query.go:608-623 | the callbacks get through the rows exactly when there are none or their first two columns are integers |
| GroupScan.AlignedIffOneJoin | backend/ent/account_query.go:600-621 | with at least one join, the callbacks find what they expect exactly when there is just one |
| RunFailures.RunFailsIff | backend/ent/account_query.go:490-583 | with queries that honour the last predicate, a run fails exactly on an invalid field, a failing path or main query, an unreadable row, a group query that already carries a join and still returns a row, or, in the same sense, on the account query below its links |
| RunFailures.ShiftPanicsIff | backend/ent/account_query.go:585-645 | on any database, a run panics over shifted columns exactly when it gets to its edges, its group query already carries a join, and with the new one it returns a row |
| BuilderRuns.RunAll | backend/ent/account_query.go:285-292 | All on the objects ends as the run on values ends, panics included, leaves the builders that it leaves, and its nodes show the decoded rows and their edges |
| BuilderRuns.RunLinkQuery | backend/ent/accountgroup_query.go:334-377 | the same for the account-group query below it |
| BuilderRuns.RunLinkAccount | backend/ent/accountgroup_query.go:379-407 | the same for the account query below that, and so for every level of the tree |
| QueryRuns.First | backend/ent/account_query.go:186-195 | sets limit 1, runs, and ends with the first node, NotFound, the error or the panic |
| QueryRuns.Only | backend/ent/account_query.go:232-245 | sets limit 2, runs, and tells none, one and many apart |
| QueryRuns.Run | backend/ent/account_query.go:186-292 | over any sequence of First, Only, All and Limit calls, each shows what its run shows on the builder, edges included, that the calls before it left |
| QueryRuns.MainRows | backend/ent/account_query.go:186-292 | after any calls, a First or Only that does not fail tells of the main rows as if no limit had been set, and an All lists the decoded rows under the limit in force |
| QueryRuns.AfterMain | backend/ent/account_query.go:490-514 | no sequence of calls changes the main query but for its limit and the selector that its path leads to |
| QueryRuns.LimitIsTheLastSet | backend/ent/account_query.go:50-53 | the limit in force is that of the last call that set one |
| NarrowedEdges.RunAdds | backend/ent/account_query.go:596-754 | what one run leaves in the edge queries: each loader that it reaches adds one predicate, and a one-to-many loader its key to a selection |
| NarrowedEdges.RunAddsLinks | backend/ent/accountgroup_query.go:379-436 | what it leaves in the account-group query and in the account and group queries below that |
| NarrowedEdges.AfterIsNarrowed | backend/ent/account_query.go:596-754 | after any calls, each edge query is the one configured with the predicates of all of them, in order |
| NarrowedEdges.LinksAreNarrowed | backend/ent/accountgroup_query.go:379-436 | the same for the account-group query and those below it |
| LaterEdges.LaterQueries | backend/ent/account_query.go:585-769 | the edges that a later call shows, if it ends well, are the answers to the configured edge queries with every predicate up to this call |
| LaterEdges.LaterProxy | backend/ent/account_query.go:646-677 | over tables, a later call finds a proxy exactly when the key is set, the configured query has its row, and every earlier run asked for that key |
| LaterEdges.LaterOwner | backend/ent/account_query.go:678-709 | the same for the owner |
| RepeatedGroups.LaterPanicsIff | backend/ent/account_query.go:585-645 | a later call panics exactly when it gets to loadGroups, an earlier call got there too, and the group query with the joins of all of them returns a row |
| RepeatedGroups.LaterGroups | backend/ent/account_query.go:585-645 | a later call that ends well shows the nested-loop edge of the join rows, and these are none once an earlier call got to loadGroups |
| RepeatedGroups.ClonePanicsIff | backend/ent/group_query.go:438-462 | a clone of a query that was run before panics under the same condition, for it keeps the joins |
| RepeatedGroups.FreshCloneFinds | backend/ent/account_query.go:366-385 | a call on a clone of a query without joins never panics over its columns |
| RepeatExample.SecondAllPanics | backend/ent/account_query.go:596-621 | an input on which a second All panics, and an All on a clone made in between |
| LaterEdges.LaterUsageLogs | backend/ent/account_query.go:710-739 | over tables, a later call shows exactly the account's own logs if every earlier run asked for the account, and none otherwise |
| LaterEdges.LaterLinks | backend/ent/account_query.go:740-769 | the same for account_groups rows |
| LaterLinkEdges.LaterLinkGroup | backend/ent/accountgroup_query.go:408-436 | over a table, a later call shows the group of a link exactly when the configured query has it and every earlier run asked for it |
| LaterLinkEdges.LaterLinkAccount | backend/ent/accountgroup_query.go:379-407 | the same for its account |
| NarrowingExample.FirstLosesProxy | backend/ent/account_query.go:646-677 | an input on which a First makes a later All lose a proxy that it finds without it |
| NarrowingExample.CallClones | backend/ent/account_query.go:366-385 | calls made on clones leave the query as it was, and each answers as it would first, on what the query has come to by then |
| PyText.StripOuter | tools/check_pnpm_audit_exceptions.py:12-20 | stripping removes exactly the outer white space |
| ExceptionsParser.ParseExceptions | tools/check_pnpm_audit_exceptions.py:23-48 | the loop computes the fold of one step over the lines, or raises on an item without a colon |
| ExceptionsParser.GuardsLoseNothing | tools/check_pnpm_audit_exceptions.py:35-47 | once a record is started it is never empty, so the guards drop none |
| ExceptionsParser.OneRecordPerItem | tools/check_pnpm_audit_exceptions.py:34-42 | a successful parse has one record for each item line |
| ExceptionsParser.Compositional | tools/check_pnpm_audit_exceptions.py:25-48 | if the second part starts with an item line, parsing the whole is parsing the parts |
| ExceptionsParser.SkippedLineAnywhere | tools/check_pnpm_audit_exceptions.py:30-33 | blank, comment, version and exceptions lines change nothing wherever they stand |
| ExceptionsParser.NoContentAnywhere | tools/check_pnpm_audit_exceptions.py:29-33 | a line of white space only, or one that begins, after any white space, with #, version: or exceptions:, changes nothing wherever it stands |
| ExceptionsParser.NoColonAnywhere | tools/check_pnpm_audit_exceptions.py:43-45 | nor does a line without a colon that is no item |
| ExceptionsParser.BeforeFirstItem | tools/check_pnpm_audit_exceptions.py:43-45 | lines before the first item are ignored, whatever they are |
| ExceptionsParser.ItemWithoutColon | tools/check_pnpm_audit_exceptions.py:34-42 | an item without a colon makes the parser raise, wherever it stands |
| ExceptionsParser.RecordRoundTrip | tools/check_pnpm_audit_exceptions.py:12-48 | a printed record is read back, for every mix of bare, single-quoted, double-quoted and lone-quote values and of white space around the colons |
| ExceptionsParser.ToRecordFields | tools/check_pnpm_audit_exceptions.py:33-45 | the record read back holds exactly the printed keys, each with the last value it was given |
| ExceptionsParser.RoundTrip | tools/check_pnpm_audit_exceptions.py:12-48 | a printed list of records is read back, in every such mix, whatever colons, quotes and outer spaces its values hold |
| ExceptionsParser.WrittenLinesRead | tools/check_pnpm_audit_exceptions.py:27-28 | lines written to a file with any mix of line breaks are the lines read from it, with or without a last break |
| ExceptionsParser.FileRoundTrip | tools/check_pnpm_audit_exceptions.py:23-48 | records written to a file with any mix of line breaks are read back from it |
| AuditProgram.IterVuln | tools/check_pnpm_audit_exceptions.py:82-111 | the findings of one vulnerability: one for each item that offers an id, in order; when it raises |
| AuditProgram.IterVulns | tools/check_pnpm_audit_exceptions.py:64-111 | the findings of a report, the advisories first, each described by its own fields; when it raises |
| AuditContents.AdvisoryDescribed | tools/check_pnpm_audit_exceptions.py:51-79 | an advisory's finding: named by the first true one of module_name and name, with the value stored under severity, and with the first true one of github_advisory_id, url, the first CVE, the id as text, title, advisory and overview; when it raises |
| AuditContents.FindingsDescribed | tools/check_pnpm_audit_exceptions.py:64-111 | the findings of a report are one for each advisory, in order, and then one for each item that offers a true id, with the name of its vulnerability and its severity; exactly when there are none because something raises |
| AuditContents.OneReport | tools/check_pnpm_audit_exceptions.py:64-111 | this description determines the findings and their order |
| AuditContents.GetStored | tools/check_pnpm_audit_exceptions.py:51-111 | on an object with distinct keys, what is looked up is what is stored |
| AuditFindings.ViaFindingsContents | tools/check_pnpm_audit_exceptions.py:85-111 | the findings of a vulnerability are exactly the ids its items offer, and there are none exactly when no item offers one |
| AuditProgram.PassedOver | tools/check_pnpm_audit_exceptions.py:110-111 | a vulnerability without any id, wherever it is listed, changes neither the report's findings nor how the program ends |
| AuditProgram.Check | tools/check_pnpm_audit_exceptions.py:142-243 | the program exits with 0 exactly when it runs and the audit passes, with 1 exactly when it runs and does not, and raises otherwise |
| AuditGate.GateIsVerdict | tools/check_pnpm_audit_exceptions.py:114-219 | the verdict in plain terms: the exceptions are complete and for distinct packages and advisories, every named finding of severity high or critical has an advisory, and the first of each package and advisory is permitted by an exception for it, of its severity or none, that has not expired |
| AuditGate.ExitMeans | tools/check_pnpm_audit_exceptions.py:142-243 | the program exits with 0 exactly when file and report can be read and the gate opens for what they hold, with 1 exactly when they can and it does not, and raises exactly when they cannot |
| AuditGate.AdvisoryLetThrough | tools/check_pnpm_audit_exceptions.py:64-243 | on exit 0, each advisory of the report that is named and of severity high or critical has an id, and the first mention of its package and advisory is permitted |
| AuditGate.VulnLetThrough | tools/check_pnpm_audit_exceptions.py:82-243 | the same for each id that an item of a vulnerability's `via` offers |
| AuditVerdict.IndexExceptions | tools/check_pnpm_audit_exceptions.py:151-185 | the index holds the first entry of each key, and there is no error exactly when every exception is well formed and no key repeats |
| AuditVerdict.IndexUnique | tools/check_pnpm_audit_exceptions.py:176-185 | the exceptions determine the index |
| AuditVerdict.ScanFinding | tools/check_pnpm_audit_exceptions.py:194-219 | one turn of the scan keeps the seen keys and the reports equal to their definitions |
| AuditVerdict.CheckAudit | tools/check_pnpm_audit_exceptions.py:151-243 | the outcome is the quantified verdict, and the reports list exactly the findings that fail, in order |
| AuditVerdict.CoveredByIndex | tools/check_pnpm_audit_exceptions.py:207-219 | a finding is allowed by some exception exactly when the indexed one allows it |
| AuditVerdict.ReportMeaning | tools/check_pnpm_audit_exceptions.py:221-243 | nothing is reported exactly when the audit passes |
| AuditOrder.ExceptionOrderIrrelevant | tools/check_pnpm_audit_exceptions.py:156-185 | the order of the exceptions never matters |
| AuditOrder.SomeOrderPasses | tools/check_pnpm_audit_exceptions.py:192-219 | some order of the findings passes exactly when each key is covered once |
| AuditOrder.EveryOrderPasses | tools/check_pnpm_audit_exceptions.py:192-219 | every order passes exactly when every relevant finding is covered |
| AuditOrder.FindingOrderIrrelevantIff | tools/check_pnpm_audit_exceptions.py:192-219 | exactly when the order of the findings does not matter |
| AuditOrder.OrderMatters | tools/check_pnpm_audit_exceptions.py:204-215 | an input that passes in one order and fails in the other |
| AuditOrder.OneSeverityOrderIrrelevant | tools/check_pnpm_audit_exceptions.py:192-219 | if each key has one severity, the order does not matter |
| AuditOrder.VerdictPermuted | tools/check_pnpm_audit_exceptions.py:151-243 | the exit code is unchanged by permuting both lists, under that condition |

## Left out

- The SQL library and the drivers: query text, `sqlQuery`, `Scan`, transactions, row locks and `sqlgraph` itself, which appear as functions with a stated contract.
- Interceptors and traversers: they are kept as opaque tokens of a builder and never run. A traversal path leads to the same selector each time, whatever becomes of the query it starts from; edge queries have none, since With calls make them.
- Hooks that call next more than once or not synchronously, that pass a mutation of another type (the "unexpected mutation type" error), that return a node of their own making, or that are nil.
- A hook that hands one builder's mutation to another builder's link: a hook passes on the mutation it was given or a new one.
- BulkCreate.AccountCreateBulk.Save: demands that no builder is listed twice and that no two share a mutation, and does not model the conflict options.
- CreateSpec.CreateSpecOf: does not model the conflict options.
- RowCodec.RoundTrip: assumes that the JSON codec round-trips; decoding JSON into a map that already has entries is not modelled, nor are 64-bit widths and time zones.
- QueryBuilder.AccountQuery.Clone: models the builders of groups, proxies, users and usage logs without edges of their own; slices are values, so backing arrays are not modelled, nor is the shared `config`; the `sql` selector is an opaque token, cloned as it is.
- QueryBuilder.AccountQuery.Apply: the options of a With call make a list of calls on the new edge query; keeping that query and calling it later is not modelled.
- QueryRuns.MainRows: assumes that a limit keeps the first rows of one fixed ordered result and that limit 0 is no limit; negative limits are not modelled. Calls that fail tell nothing.
- LaterEdges.LaterProxy: assumes, as the other lemmas over tables, that the configured edge query has no limit or offset, since a limit would cut a narrowed result elsewhere; `LaterEdges.LaterQueries` needs no such assumption.
- LaterLinkEdges.LaterLinkAccount: does not follow the edges of the accounts below the links, which the same lemmas describe one level up.
- GroupScan.SelectColumns: a caller's own predicates and orders on the group query leave its columns alone.
- BuilderRuns.RunLinkAccount: the accounts below an account-group query are run with all their edges, but the link keeps only their id and name.
- EagerRuns.RunAccounts: does not tell a transport error from a canceled context, nor one edge's refusal from another's; that an error is marked as one of a nested query is the model's own. An invalid field of an edge query counts as a query that fails.
- QuerySpecs.PrepareIDs: the rows that IDs, FirstID, OnlyID and Exist scan are not modelled, only what they leave in the builder before they scan.
- EagerLoading.LoadGroups: a nil and an empty list of groups are one value.
- `loadChannels` of identities, the loaders of announcements and API keys, and the other create builders: instances of the same templates.
- `Count`, `GroupBy` scans, aggregates, update and delete builders, upserts, fluent setters and the panicking variants.
- AuditProgram.Check: file access, argument parsing, JSON text, message texts and titles are not modelled, except that a title which is no string makes the join raise; which exception is raised is not distinguished.
- ExceptionsParser.RoundTrip: keys are trimmed, free of colons and not reserved or comment-like; bare values are trimmed and not between equal quotes; values hold no line breaks; an empty key or value has no white space beside it.
- Lower-casing, ISO dates, str of a JSON number and today's date are parameters.
