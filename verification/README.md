# A model of the ent query loaders and bulk create

The `ent` package of this repository is generated code that carries two algorithms of its own.

**Eager loading.** Running a query on accounts prepares it (interceptors such as the soft-delete
filter add predicates, selected fields are validated), scans the selected rows into fresh node
objects, and then loads every requested edge with one query for the whole batch: many-to-one edges
(proxy, parent, the account and group of a join row) through a map from foreign key to nodes,
one-to-many edges (children, join rows) through a map from id to node, and the many-to-many edge to
groups by streaming join rows into a map of sets. Edge queries are run the same way and may have
edges of their own; accounts refer to themselves. The loaders narrow the edge builders in place and
write the edges of shared nodes in place.

**Bulk create.** `AccountCreateBulk.Save` fills in defaults, wraps one mutator per builder in that
builder's hooks, and calls the first; each mutator checks, creates its spec and node, calls the next,
and finishes its mutation when that comes back; the last one sends the whole batch.

## How the model is laid out

- `Relational`, `Schema`: what a SELECT means (filter, stable ranking, window) over a snapshot of the
  tables, with unique primary keys and foreign keys that may dangle.
- `Queries`: builders as values, and the batched meaning of running one, errors included.
- `Cells`, `Entities`: scan destinations, the entity objects, and the trees that objects stand for. A
  *world* maps loaded objects to finite trees; it is *closed* when every field agrees with its tree.
- `Joins`, `Index`, `Assign`, `Streaming`, `Attach`, `Stages`: the loops of the loaders, each proved
  against a function on sequences, and what they do to the trees.
- `Preparing`, `Loading`, `Running`: the builders as classes and the whole run on the heap.
- `Grouping`, `NestedLoop`, `Failures`, `FirstErrors`: the reference meaning (one query per node) and its
  equality with the batched meaning, errors included.
- `Windows`, `LookupWindows`, `Ordering`, `Traversal`: exactly when a limit or an offset on an edge query,
  groups of equal rank, or traversing an edge instead of loading it, make a difference.
- `Relations`, `Projection`, `Access`: inverse edges, the two views of the join table, column selection,
  depth, and what asking an object for an edge answers.
- `Drafts`, `JoinDrafts`: defaults, check, spec and node of one builder, and reading the row back.
- `Bulk`, `Outcomes`, `Hidden`, `Nesting`: the bulk save as a state machine, its exact outcome for any
  hooks, what hooks that hide errors do to it, and the order of its events.
- `Singles`, `Turns`: saving one builder, and a bulk save against saving its builders in turn.
- `Saving`: the classes and arrays that refine single and bulk saves.

The straight-line blocks of `defaults`, `check` and `createSpec` (one `if` per column) are tables of
columns in the order of the source; what they do is stated and proved by what `backend/ent/schema/account.go`
says of each column (`Schema.Mandatory`, `Schema.Constrained`, `Schema.DefaultsToCall`,
`Schema.DefaultsToValue`, `Schema.SchemaOrder`). What the default functions return, which values the validators
accept, how rows are ranked, what the database answers to an insert and what hooks and interceptors
do are parameters. A hook may edit the mutation it is given and call the next mutator once, or fail
instead, and may then replace the error; it keeps to the mutation object, because a bulk save checks
a builder before it takes over the mutation a hook passes on (`backend/ent/account_create.go:2387-2390`).

## Where the code departs from what one would expect

- An edge query with a limit or an offset applies it to the whole batch, not to each node. Each shape of
  edge is served exactly if and only if there is no window or the query lets through too little for it to
  show (`Windows.ExactIffUnwindowed` for children, `Windows.JoinsExactIffUnwindowed` for join rows,
  `LookupWindows.ParentsExactIffUnwindowed` and
  `LookupWindows.LeavesExactIffUnwindowed` for lookups by id, `LookupWindows.GroupsExactIffUnwindowed` for
  groups, where the window counts join rows). The soft-delete interceptor is no such restriction
  (`Windows.SoftDeleteIsNoExcuse`).
- A limit of zero means "no limit" when a query is loaded and "nothing" when it is traversed, because the
  query spec keeps the number and the selector its pointer (`Traversal.TraversalIsEager`,
  `Traversal.AlwaysEagerExactly`, and `Traversal.ZeroLimitMisses` for a snapshot on which the two differ).
- The order of an account's groups is that of their first appearance in the stream of the whole batch. It
  is independent of the batch if and only if the group query ranks all groups apart
  (`Ordering.OrderKeptIffRanked`; `Ordering.TiedGroupsSwap` has two groups that change places).
- A hook that hides an error breaks all-or-nothing: earlier mutations end up done though the database
  refused the batch, or was never asked because the check of the hook's own builder failed
  (`Hidden.HiddenRefusalHappens`, `Hidden.HiddenCheckHappens`; `Outcomes.DoneExactly` says for any hooks
  which mutations end up done).
- A bulk save drops the error of `defaults()`. A builder that would fail when saved alone then passes
  exactly if its hooks leave a draft that the check lets through, for which they must set everything that
  defaults did not get to (`Singles.RescuedExactly`, `Singles.RescueSetsTheRest`, `Singles.RescueHappens`). It is
  the only way in which, with hooks that pass results on, a bulk save is not saving in turn made atomic
  (`Turns.BulkIsAtomicTurns`).
- A single save whose hooks hide the error of `sqlSave` returns a nil account and no error, because the
  nil keeps its type on the way through the hooks (`backend/ent/ent.go:592-600`,
  `Singles.NilAccountExactly`, `Singles.NilAccountHappens`).

## Model

| member | source | states |
|---|---|---|
| Running.RunExactly | backend/ent/account_query.go:307-314 | running a query returns, for every filtered row on the page of the query, in order, an object that has the selected columns of the row, or the whole row if none are selected, and stands for what looking that row's edges up one by one gives, groups in the order of their query if the group queries rank apart what they select and as sets otherwise; it fails exactly if one of those lookups would, and with the first such error |
| NestedLoop.BatchIsAlone | backend/ent/account_query.go:550-625 | one batched query per edge and a hash index give every row what a nested loop over the snapshot gives it, for any tree of edge queries without windows, whatever batch the row is in |
| NestedLoop.JoinBatchIsAlone | backend/ent/accountgroup_query.go:334-378 | the same for rows of the join table |
| Grouping.GroupBatchIsAlone | backend/ent/account_query.go:627-687 | an account of a batch gets exactly the selected groups that the join table links to it |
| Grouping.GroupsInOrder | backend/ent/account_query.go:627-687 | and, if the query ranks the groups that it selects apart, in the order of the query |
| Ordering.OrderKeptIffRanked | backend/ent/account_query.go:638-687 | every account gets its groups in the same order in every batch if and only if the query gives different ranks to any two groups |
| Ordering.TiedGroupsSwap | backend/ent/account_query.go:638-687 | two groups of one rank change places when another account of the batch mentions the second one first |
| NestedLoop.LeafBatchIsLookup | backend/ent/account_query.go:688-719 | finding a proxy among the results for a batch of keys is looking its key up alone |
| NestedLoop.LookupAgrees | backend/ent/account_query.go:720-751 | the same for a parent, with all edges of the parent |
| NestedLoop.ChildrenAgree | backend/ent/account_query.go:752-784 | an account gets the children its own query would select, in that order, each with its own edges |
| NestedLoop.JoinsAgree | backend/ent/account_query.go:815-844 | the same for join rows |
| Failures.FailsTogether | backend/ent/account_query.go:550-625 | the batched run returns an error if and only if running the edge queries row by row fails somewhere |
| Failures.JoinQueriesFailTogether | backend/ent/accountgroup_query.go:334-378 | the same for the join table |
| FirstErrors.ErrorIsReported | backend/ent/account_query.go:582-624 | the error of a batched run is that of the first edge, in the order in which edges are loaded, at which looking up some row fails, and it is the error which that lookup comes out with, at every level |
| FirstErrors.JoinErrorIsReported | backend/ent/accountgroup_query.go:334-378 | the same for the join table |
| Relational.SelectIsPage | backend/ent/account_query.go:888-893 | with a limit n and an offset k a query returns the smaller of n and what is left after k filtered rows, from position k on; with an offset alone the largest limit stands for n; with neither it returns all |
| Relational.PagesTile | backend/internal/repository/account_repo.go:1058-1065 | going through the pages of a size gives the filtered rows in their order, none twice and none left out |
| Relational.FilteredExactly | backend/ent/account_query.go:881-900 | the filtered rows are the selected rows of the table, each as often as it is there, by rank, and in the order of the table among rows of one rank |
| Relational.SelectsExactly | backend/ent/account_query.go:881-887 | a row is selected if and only if every predicate holds of it and no interceptor hides it |
| Windows.ExactIffUnwindowed | backend/ent/account_query.go:752-784 | a children query hands every parent of every batch exactly its own children if and only if it has no limit or offset, or never lets through enough rows of two parents for it to show |
| Windows.WindowCutsBatch | backend/ent/account_query.go:762-765 | any rows that are enough make a snapshot and a batch on which some parent is handed the wrong number of children |
| Windows.JoinsExactIffUnwindowed | backend/ent/account_query.go:815-844 | a query for join rows hands every account of every batch exactly its own join rows if and only if it has no limit or offset, or never lets through enough rows of two accounts for it to show |
| Windows.SoftDeleteIsNoExcuse | backend/ent/schema/mixins/soft_delete.go:82-96 | for the children query that hides deleted accounts and nothing else, the condition is that it has no limit or offset |
| LookupWindows.ParentsExactIffUnwindowed | backend/ent/account_query.go:720-751 | every key of every batch finds what it finds alone if and only if the query has no limit or offset, or never lets through enough accounts for it to show |
| LookupWindows.LeavesExactIffUnwindowed | backend/ent/account_query.go:688-719 | the same for proxies and for the groups of join rows |
| LookupWindows.GroupsExactIffUnwindowed | backend/ent/account_query.go:627-687 | every account of every batch gets the groups that are selected for it alone if and only if the query has no limit or offset, or selects no group at all |
| Traversal.TraversalIsEager | backend/ent/account_query.go:75-94 | traversing the groups edge finds the groups that loading it finds if and only if every group behind an account that only loading reads is also behind one that traversing reads |
| Traversal.AlwaysEagerExactly | backend/ent/account_query.go:858-941 | on every snapshot it finds them if and only if the limit is not zero and the offset is not a zero alone, or too few accounts can ever be selected, or no group can |
| Traversal.ZeroLimitFindsNothing | backend/ent/account_query.go:882-941 | with a limit of zero, if and only if no selected account has a selected group |
| Traversal.ZeroLimitMisses | backend/ent/account_query.go:882-941 | a snapshot with one account in one group, where loading finds the group and traversing does not |
| Relations.TwoViewsAgree | backend/ent/account_query.go:815-844 | the ids in the groups of an account are the group ids of its loaded join rows whose group is found |
| Relations.GroupsAreLinked | backend/ent/account_query.go:627-687 | a group is loaded for an account if and only if a join row links them and the query selects the group |
| Relations.JoinsLeadToGroups | backend/ent/accountgroup_query.go:408-437 | the group of a join row is found if and only if the group query selects it |
| Relations.ParentInvertsChildren | backend/ent/account_query.go:720-784 | parent and children are inverse edges, up to what either edge query leaves out |
| Relations.ParentIsTarget | backend/ent/account_query.go:720-751 | a parent is loaded if and only if the snapshot has a selected row with that id, and it is that row |
| Relations.ProxyIsTarget | backend/ent/account_query.go:688-719 | the same for a proxy; by `Stages.WholeLeaf` and `Stages.PartOfLeaf` it is all of that row or what was selected of it |
| Relations.ChildIsSelected | backend/ent/account_query.go:752-784 | an account is loaded as a child if and only if it names the parent and the query selects it |
| Projection.SameSkeletons | backend/ent/account_query.go:858-880 | whatever columns are selected at whatever level, the same ids are related as with full selections |
| Projection.SameJoinSkeletons | backend/ent/accountgroup_query.go:448-467 | the same from the join table, which has no id column |
| Projection.SameChildren | backend/ent/account_query.go:762-764 | the key appended to a child query keeps its children where a full selection puts them |
| Access.DepthBounded | backend/ent/account_query.go:550-625 | a loaded tree is at most as deep as the tree of queries is high, whatever cycles the data has |
| Access.PathBounded | backend/ent/account_query.go:550-625 | a chain of edges through the loaded objects descends to shallower trees, so no object reaches itself |
| Access.ResultsAreShallow | backend/ent/account_query.go:720-784 | a chain of edges from a result is at most as long as the tree of queries is high |
| Access.GroupsAccess | backend/ent/account.go:119-124 | asking for the groups answers those that are linked and selected if the edge was requested, "not loaded" if it was not |
| Access.ChildrenAccess | backend/ent/account.go:150-155 | the same for the children that name the account and are selected |
| Access.AccountGroupsAccess | backend/ent/account.go:168-173 | the same for the join rows, in the order of their query, each with the columns that were selected or all of them |
| Access.ParentAccess | backend/ent/account.go:139-146 | asking for the parent answers the matching row, with the selected columns or all of them, if there is one, "not found" if the edge was requested and there is none, "not loaded" if it was not requested |
| Access.ProxyAccess | backend/ent/account.go:128-135 | the same for the proxy |
| Access.JoinAccountAccess | backend/ent/accountgroup.go:47-54 | the same for the account of a join row |
| Access.JoinGroupAccess | backend/ent/accountgroup.go:58-65 | the same for the group of a join row |
| Loading.AccountQuery.All | backend/ent/account_query.go:307-314 | distinct fresh objects that stand in order for the denoted trees, in a closed world; the exact error otherwise; only builders of this query are written |
| Loading.AccountQuery.SqlAll | backend/ent/account_query.go:550-625 | scanning and loading without preparing: the same, or the error of the first edge that fails |
| Loading.AccountQuery.FetchNodes | backend/ent/account_query.go:563-577 | the selected rows become distinct fresh nodes without edges |
| Loading.AccountQuery.ScanNode | backend/ent/account_query.go:563-571 | a row goes through scanValues and assignValues without an error and becomes the node of its selected columns |
| Loading.AccountQuery.LoadEdges | backend/ent/account_query.go:582-624 | the edges are loaded in a fixed order up to the first error |
| Loading.AccountQuery.LoadGroups | backend/ent/account_query.go:627-687 | the nodes end up with exactly their groups filled in |
| Loading.AccountQuery.LoadProxy | backend/ent/account_query.go:688-719 | the nodes end up with exactly their proxies filled in; no query runs without keys |
| Loading.AccountQuery.LoadParent | backend/ent/account_query.go:720-751 | the nodes end up with exactly their parents filled in; no query runs without keys |
| Loading.AccountQuery.LoadChildren | backend/ent/account_query.go:752-784 | the nodes end up with exactly their children filled in |
| Loading.AccountQuery.LoadAccountGroups | backend/ent/account_query.go:815-844 | the nodes end up with exactly their join rows filled in |
| Loading.AccountQuery.PrepareQuery | backend/ent/account_query.go:524-540 | the first interceptor that fails or invalid field is the error; otherwise the interceptors' predicates are added |
| Loading.AccountQuery.Clone | backend/ent/account_query.go:388-408 | a well-formed builder of fresh parts that stands for the same query |
| Loading.AccountGroupQuery.All | backend/ent/accountgroup_query.go:160-167 | the same as for accounts |
| Loading.AccountGroupQuery.SqlAll | backend/ent/accountgroup_query.go:334-378 | the same as for accounts |
| Loading.AccountGroupQuery.LoadAccount | backend/ent/accountgroup_query.go:379-407 | the join rows end up with exactly their accounts filled in |
| Loading.AccountGroupQuery.LoadGroup | backend/ent/accountgroup_query.go:408-437 | the join rows end up with exactly their groups filled in |
| Loading.AccountGroupQuery.Clone | backend/ent/accountgroup_query.go:220-236 | a well-formed builder of fresh parts that stands for the same query |
| Loading.LeafQuery.JoinedRows | backend/ent/account_query.go:638-646 | the query joined with the join table streams the account id before the group's columns |
| Running.RunClone | backend/ent/account_query.go:386-408 | a clone gives what the query would give and writes no builder of the original |
| Running.RunTwice | backend/ent/account_query.go:386-408 | running two clones gives the same trees twice, as separate objects |
| Stages.StagesAreAccounts | backend/ent/account_query.go:582-624 | filling in the edges one after the other gives the denoted trees |
| Preparing.Traverse | backend/ent/account_query.go:525-534 | interceptors add their predicates in turn, until one fails |
| Preparing.Validate | backend/ent/account_query.go:535-539 | an error if and only if some field is not a column |
| Preparing.SelectColumns | backend/ent/account_query.go:866-872 | the id and then the other requested columns |
| Preparing.IDThenOnce | backend/ent/account_query.go:866-872 | the id comes first and once, whatever was asked for, and nothing asked for is lost |
| Relational.PrepareErrorFirst | backend/ent/account_query.go:524-534 | preparing fails at the first interceptor that is missing or fails, with its error |
| Preparing.PreparesExactly | backend/ent/account_query.go:524-540 | a query is prepared if and only if every interceptor is there and succeeds and every selected field is a column; otherwise an interceptor's error comes first |
| Preparing.AccountPrepares | backend/ent/account_query.go:535-539 | for accounts the fields must be columns of the schema |
| Preparing.LeafPrepares | backend/ent/proxy_query.go:539-546 | for groups and proxies the id or a column of their table |
| Relational.PreparedSelects | backend/ent/schema/mixins/soft_delete.go:82-96 | the predicates that preparing adds hide exactly what the interceptors hide |
| Relational.SelectNarrow | backend/ent/account_query.go:44-47 | without a window, adding a predicate filters the result in place |
| Stages.AccountColumnsExactly | backend/ent/account_query.go:858-880 | a selection has the id first and once, what was asked for, the keys its edges need, and nothing else |
| Stages.AccountColumnCounts | backend/ent/account_query.go:866-879 | every column but the id is in it as often as it was asked for, and the id and the keys nobody asked for once |
| Stages.LeafColumnsExactly | backend/ent/proxy_query.go:531-546 | a query on groups or proxies selects the id and every column of the table, or the id first and once and the others as often as they were asked for |
| Stages.WholeLeaf | backend/ent/proxy_query.go:531-532 | without a selection it brings back the whole row |
| Stages.PartOfLeaf | backend/ent/group_query.go:1051-1059 | with one it brings back the id and what was asked for, and nothing else |
| Stages.WholeAccount | backend/ent/account_query.go:858-859 | an account query without a selection brings back the whole row |
| Stages.PartOfAccount | backend/ent/account_query.go:866-879 | with one it brings back the id, what was asked for and the keys that its edges need, and nothing else |
| Stages.WholeJoinRow | backend/ent/accountgroup_query.go:448-467 | a query on the join table without a selection brings back the whole row |
| Schema.ColumnsInOrder | backend/ent/account/account.go:140-177 | the list of columns is that of the schema, in its order |
| Schema.KnownColumns | backend/ent/account/account.go:140-177 | and none is missing |
| Stages.JoinColumnsExactly | backend/ent/accountgroup_query.go:448-467 | a selection from the join table has what was asked for, in that order, the keys its edges need behind it and once, and nothing else |
| Stages.KeyedChildKeeps | backend/ent/account_query.go:762-764 | whatever a child query selects, its rows know their parent, and no other column is added |
| Stages.KeyedJoinKeeps | backend/ent/account_query.go:825-827 | whatever a query for join rows selects, its rows know their account, and no other column is added |
| Index.GroupByKey | backend/ent/account_query.go:689-703 | the key list is duplicate-free and in order of first use, and every key maps to its nodes in order |
| Index.WithKeyPartitions | backend/ent/account_query.go:689-700 | the lists of the index partition the nodes whose key is not nil |
| Assign.AssignParent | backend/ent/account_query.go:741-749 | before the first unknown neighbour, nodes get the last neighbour with their key; all others keep what they had |
| Assign.AssignProxy | backend/ent/account_query.go:709-717 | the same for proxies |
| Assign.AssignJoinAccount | backend/ent/accountgroup_query.go:397-405 | the same for accounts of join rows |
| Assign.AssignJoinGroup | backend/ent/accountgroup_query.go:426-434 | the same for groups of join rows |
| Assign.IndexChildren | backend/ent/account_query.go:753-761 | the index answers every id with the last node that has it, and every list starts empty |
| Assign.AssignChildren | backend/ent/account_query.go:770-781 | before the first neighbour with a nil or unknown key, every neighbour is appended to the node of its key, in order |
| Assign.AssignAccountGroups | backend/ent/account_query.go:833-841 | the same for join rows, whose key is never nil |
| Assign.HandOutByID | backend/ent/account_query.go:752-784 | of several nodes with one id the last gets all neighbours that carry it, the others the empty list; the error is that of the first nil or unknown key |
| Streaming.StreamGroups | backend/ent/account_query.go:648-670 | one object for every group, made from its first row, and for every group the set of its accounts |
| Streaming.AppendToEach | backend/ent/account_query.go:682-684 | ranging over a set in any order appends the group once to each of its accounts |
| Streaming.AssignGroups | backend/ent/account_query.go:677-685 | before the first group that was never streamed, every account gets exactly the groups whose set has it, in order |
| Joins.GroupsForExactly | backend/ent/account_query.go:627-687 | the groups of an account are those its join rows name, each once even if rows repeat, in order of the first row that mentions them |
| Joins.FirstsOrder | backend/ent/account_query.go:661-668 | the neighbours are the groups in order of first appearance, each as its first row has it |
| Entities.Account.ScanValues | backend/ent/account.go:176-197 | one destination of the right type for every column |
| Entities.Account.AssignValues | backend/ent/account.go:201-203 | the exact prefix before the first cell of an unexpected type is assigned |
| Entities.AccountGroup.AssignValues | backend/ent/accountgroup.go:85-120 | the same for the join table |
| Cells.AssignAccountProjects | backend/ent/account.go:176-197 | scanning any column list of a stored account never meets an unexpected type and rebuilds the selected part of the row |
| Cells.AssignJoinProjects | backend/ent/accountgroup.go:68-120 | the same for the join table |
| Cells.UnknownIsKept | backend/ent/account.go:444-445 | the last cell of a column that the schema does not know is kept by its name, and no other cell is |
| Cells.UnknownJoinIsKept | backend/ent/accountgroup.go:85-120 | the same for the join table |
| Singles.CreatesExactly | backend/ent/account_create.go:553-1008 | a builder without hooks is sent if and only if no default function that it needs is missing, name, platform and type are set and the validators accept what is set and what the defaults are; the row has the proxy, the parent, every column that was set, the default of every other column that has one, and nothing else; the save succeeds if and only if the database accepts it |
| Singles.BulkCreatesExactly | backend/ent/account_create.go:2371-2428 | a list of builders without hooks is sent, as one batch with just those rows, if and only if that holds of each |
| Drafts.DefaultsBySchema | backend/ent/account_create.go:583-657 | if no needed default function is nil, exactly the columns to which the schema gives a default are filled in; otherwise the error names the first that is, in the order of the schema, and exactly the columns before it are |
| Drafts.DefaultedPasses | backend/ent/account_create.go:583-766 | after the defaults only a missing name, platform or type or a validator can fail the check |
| Drafts.DefaultsFill | backend/ent/account_create.go:583-657 | defaults keep what was set, give every other column with a default the value of its function or variable, and touch no other column, up to the first function that is needed and nil, which the error names |
| Drafts.CheckPasses | backend/ent/account_create.go:660-766 | the check passes if and only if every column that the schema does not let be null is set and every validator that the schema gives a column accepts what it is set to |
| Drafts.CheckNamesFirst | backend/ent/account_create.go:660-766 | otherwise its error names the first column, in the order of the schema, that is missing or not accepted |
| Drafts.DroppedErrorResurfaces | backend/ent/account_create.go:2381-2389 | the error of defaults that a bulk save drops makes the check fail unless a hook sets the column |
| Drafts.CreatedIsDraft | backend/ent/account_create.go:786-923 | the spec has every field that was set, with its value, once and in the order of the schema, and the conflict clause; the row it stores and the node handed out are the draft |
| Drafts.SpecEdgesExactly | backend/ent/account_create.go:924-1008 | it has one edge for each kind that was added, groups with the defaults of the join table |
| Drafts.NodeIsStored | backend/ent/account_create.go:786-1008 | the node handed out is the row its spec stores |
| Drafts.CreatedIsScannable | backend/ent/account.go:176-197 | scanning expects just the types that createSpec declares |
| Drafts.CreatedReadsBack | backend/ent/account.go:176-197 | reading a created account back with any column list that covers it rebuilds the draft and the node |
| JoinDrafts.CheckedIsStored | backend/ent/accountgroup_create.go:123-208 | the check lets through exactly the drafts that the table can store, and the stored row is the node and has the four values of the draft |
| JoinDrafts.JoinCheckNamesFirst | backend/ent/accountgroup_create.go:123-136 | the error names the first column of the table that is missing |
| JoinDrafts.JoinDefaultsFill | backend/ent/accountgroup_create.go:111-120 | defaults keep what was set, fill in a missing priority and time and touch no key |
| JoinDrafts.JoinCreatesExactly | backend/ent/accountgroup_create.go:111-208 | after the defaults a row is stored if and only if both keys are set, with the priority and time that were set or their defaults |
| JoinDrafts.JoinReadsBack | backend/ent/accountgroup.go:68-120 | reading a created join row back with any covering column list rebuilds its node |
| Bulk.WhenBuilt | backend/ent/account_create.go:2382-2415 | if every builder passes, the batch is sent once and every position is settled by its builder alone |
| Bulk.WhenStopped | backend/ent/account_create.go:2382-2415 | if some builder does not pass, the database is not asked; the builders before it are settled as if the error with which it comes back were the answer to a batch that ends before it, and nothing from it on is touched |
| Bulk.MutatedKeepsBefore | backend/ent/account_create.go:2382-2415 | a mutator touches nothing of the builders before its own |
| Outcomes.SavedExactly | backend/ent/account_create.go:2371-2428 | for any hooks: what is sent, which error comes out, and every position, drafts of builders that did not get to pass included, from what each builder makes alone and what its hooks make of the answer |
| Outcomes.InsertsExactlyOnce | backend/ent/account_create.go:2393-2404 | the insert runs exactly once, with all specs in place, if every builder passes its check, and never otherwise |
| Outcomes.DoneExactly | backend/ent/account_create.go:2405-2413 | for any hooks, a mutation is done if and only if its builder and those before it pass and what comes back to its mutator is not an error |
| Outcomes.NothingDone | backend/ent/account_create.go:2405-2407 | a failed check or a refused insert leaves no mutation done if and only if no hooks in between hide it from a builder before it; honest hooks do not, and let the error out |
| Outcomes.AllDone | backend/ent/account_create.go:2408-2414 | an accepted batch leaves a mutation done, and its node with the id of its spec, if and only if the hooks behind it make no error of the success |
| Outcomes.AllOrNothing | backend/ent/account_create.go:2371-2428 | with hooks that pass results on, every mutation is done if and only if the save succeeds |
| Hidden.HiddenRefusalLooksSaved | backend/ent/account_create.go:2393-2413 | a hook of the second builder that hides errors makes a refused batch look saved |
| Hidden.HiddenCheckLooksSaved | backend/ent/account_create.go:2387-2413 | it does so to its own failed check too: the first mutation is done though nothing was sent |
| Hidden.HiddenRefusalHappens | backend/ent/account_create.go:2393-2413 | a concrete input of the first kind |
| Hidden.HiddenCheckHappens | backend/ent/account_create.go:2387-2413 | a concrete input of the second kind |
| Singles.HookedExactly | backend/ent/ent.go:568-600 | hooks around a single save amount to one check and insert of the edited draft, with the error passed through all of them, or to nothing if one of them fails |
| Singles.NilAccountExactly | backend/ent/ent.go:592-600 | a nil account comes back without an error if and only if no hook fails, the check or insert does, and the hooks hide that |
| Singles.NilAccountHappens | backend/ent/ent.go:592-600 | a concrete input |
| Singles.SavedAloneExactly | backend/ent/account_create.go:553-558 | with hooks that pass results on, a single save succeeds if and only if its defaults are there, its check passes and the database accepts its spec, and then returns its own node |
| Singles.RescuedExactly | backend/ent/account_create.go:2381-2389 | a builder that fails alone for want of a default passes in bulk if and only if no hook fails and the edited draft can be stored by the schema |
| Singles.RescueSetsTheRest | backend/ent/account_create.go:583-657 | for that, hooks must set every column from that default on that defaults() would have set |
| Singles.RescueHappens | backend/ent/account_create.go:2381-2389 | a concrete builder that is saved and done in bulk and fails alone |
| Turns.InTurnExactly | backend/ent/account_create.go:553-558 | with hooks that pass results on, saving builders in turn succeeds if and only if each has its defaults and passes and the database accepts their specs one by one; every save then leaves its own draft, spec and node with its id |
| Turns.BulkIsAtomicTurns | backend/ent/account_create.go:2371-2428 | a bulk save succeeds if and only if saving in turn does, then leaves the database as that does, with the same ids, drafts, specs and nodes, and otherwise leaves it as it was and nothing done: all this if and only if the bulk save is not accepted or no default is missing |
| Turns.FailedTurn | backend/ent/account_create.go:553-558 | whatever the hooks do, saving in turn that fails is saving the builders before the failure in turn and then one more, which fails |
| Turns.FailedTurnLeaves | backend/ent/account_create.go:553-558 | with hooks that pass results on, it leaves what saving the builders before the failure leaves |
| Turns.AgreesWhateverDatabase | backend/ent/account_create.go:2371-2428 | it is so over every database and whatever that holds if and only if some builder does not pass or no default is missing |
| Turns.RescueBreaksIt | backend/ent/account_create.go:2381-2389 | a hook that makes up for a missing default: the bulk save is accepted where saving in turn fails |
| Turns.HidingBreaksIt | backend/ent/account_create.go:2405-2407 | a hook that hides errors: the bulk save looks accepted where saving in turn fails |
| Turns.StrictnessBreaksIt | backend/ent/account_create.go:2405-2414 | a hook that makes an error of a success: the bulk save fails and yet its rows are stored |
| Turns.SerialTakesBatches | backend/ent/account_create.go:2393-2404 | a table that numbers its rows takes a batch as it takes its specs one by one, as the refinement asks of the database |
| Nesting.SavedIsNested | backend/ent/account_create.go:2378-2424 | hooks enter in list order around everything behind them; mutations are done from last to first, after the insert |
| Saving.WrapHooks | backend/ent/account_create.go:2416-2419 | the loop builds the mutator with the first hook outermost |
| Saving.AccountCreate.SqlSave | backend/ent/account_create.go:768-784 | a single insert sends the builder's spec alone, and only after a passed check; the node is linked and the mutation done if and only if the insert succeeds, and the mutation keeps the node it had otherwise |
| Saving.AccountCreate.WithHooks | backend/ent/ent.go:568-600 | the account or nil, the error, what was sent and the mutation are those of sqlSave inside all hooks; next to an error comes nil, and no value without an error is an error |
| Saving.AccountCreate.Save | backend/ent/account_create.go:553-558 | a single save stops at a failed default, with nothing sent, and else is sqlSave inside the hooks |
| Saving.AccountCreateBulk.Prepare | backend/ent/account_create.go:2378-2421 | every builder gets its defaults and every slot its mutator |
| Saving.AccountCreateBulk.Mutate | backend/ent/account_create.go:2382-2415 | calling a mutator leaves the arrays, mutations and driver in exactly the state the state machine gives |
| Saving.AccountCreateBulk.Save | backend/ent/account_create.go:2371-2428 | a save returns the nodes or the error that the state machine gives and leaves its state |
| Saving.SaveAllOrNothing | backend/ent/account_create.go:2371-2428 | end to end: one insert and everything done, or an error and nothing done |

## Left out

- The usage-logs edge of an account (`backend/ent/account_query.go:785-814`): the same loader as for join rows.
- Loaders of API keys and identities (`backend/ent/apikey_query.go`, `backend/ent/authidentity_query.go`): instances of the three shapes modelled here, with required and nullable keys.
- Edges of groups and proxies: their rows are leaves; `Entities.Leaf` stands for both.
- `AccountGroupCreateBulk.Save`: the same chain of mutators without an id.
- Unique and DISTINCT, custom paths of a query, `Count`, `Exist`, `IDs`, `GroupBy`, `Aggregate` and `Scan`: they pass calls to the selector.
- Row locks, the only modifiers the package adds (`backend/ent/account_query.go:942-963`), which `Clone` does not copy: they change no row of a snapshot.
- Interceptors that wrap the whole run instead of adding a predicate.
- SQL text, drivers, transactions, contexts and driver errors while reading; the conflict clause of a bulk.
- JSON decoding and the layout of times: both are opaque values, and a stored JSON document is not empty.
- Nil hooks, hooks that pass on a different mutation, nil default functions of the join table (calling one panics), and the two checks on the edges of a join row, which repeat the checks on its keys.
- Running a builder twice: it stays narrowed to the keys of its first run. `Running.RunTwice` is about clones.
- Saving a mutation twice, or putting one builder into a bulk twice.
- Widths of integers: ids and counts are unbounded, except for the largest limit that goes with a lone offset.
- Drafts.DroppedErrorResurfaces: needs that no hook sets the column that defaults could not, because such a hook makes the check pass.
- Running.RunExactly: assumes edge queries without limit or offset; `Windows` and `LookupWindows` say exactly when these matter.
- Ordering.OrderKeptIffRanked: assumes a group query without limit or offset, for the same reason.
- Traversal.TraversalIsEager: assumes the same of the group query.
- Turns.BulkIsAtomicTurns: assumes hooks that pass errors and successes on, because otherwise it fails (`Turns.HidingBreaksIt`, `Turns.StrictnessBreaksIt`), and a database that takes a batch as it takes its specs one by one. What a database holds is left open: any state will do, with the join rows and foreign keys that the edges of a spec write.
- Turns.AgreesWhateverDatabase: ranges over databases that hold account rows; the same assumptions.
- Singles.SavedAloneExactly: an accepted insert of one row that gives no id leaves the id zero here; the source panics (`backend/ent/account_create.go:780`).
- Loading.AccountQuery.All: has no interceptors that wrap the run.
- Loading.AccountGroupQuery.All: has none either.
- Loading.AccountQuery.SqlAll: has no usage-logs edge.
- Loading.AccountQuery.LoadEdges: has no usage-logs edge.
- Loading.AccountQuery.PrepareQuery: does not run the path of a traversal; `Traversal` says what that selects.
- Loading.AccountQuery.Clone: has no sql, path or modifiers to copy.
- Loading.AccountGroupQuery.Clone: has none either.
