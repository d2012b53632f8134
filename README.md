# Commit-graph lane layout and file-status tables of OffGit

This project models two parts of the OffGit Git workbench in Dafny and proves
properties of the model.

**The lane layout engine (`GraphEntry`).** It turns a stream of commits into
rows of a commit graph. Each row records:
- the column of the commit marker (`RevisionIndex`) and its colour;
- the line segments drawn in the row (`GraphLine`).

Each segment has a start column at the row's top edge and an end column at its
bottom edge. It also carries a branch index, a colour, the parent commit it
heads for, and two flags: it starts in this row, and it ends in this row.

A row is built from the row above it in two phases:
1. **Continuation.** The lanes handed on by the previous row are continued.
   The lanes are the open lines, one per end column, first occurrence kept.
   Each lane either bends into the marker or passes through to the next free
   column.
2. **Merge parents.** One line is added per parent after the first. It reuses
   the branch and column of a line already heading for that parent, or opens a
   fresh branch in the next column.

The first row is seeded with lane 0 for the commit's first parent. Branch `i`
is drawn in palette colour `i mod 9`. The caller folds `FromCommit` over the
commit log, and each row is computed from the one before it (`Layout`).

The two loops of the source are methods whose loop invariants tie the loop
state to a step-recursive specification function:
- `ContinuePreviousLines` is tied to `Continue`;
- `AddNewBranches` is tied to `AddBranches`.

The lemmas then state what those functions guarantee: per line, per row, and
over a whole layout. The main ones say that:
- every row is compact: its open columns are 0, 1, 2, …;
- open lines in the same column head for the same parent;
- continuity is positional and lossless from row to row;
- every line is drawn in its branch's colour;
- a linear history lays out as a single lane.

**The file-status view model (`FileStatusViewModel`).** Three fixed tables map
the version-control library's status flags and change kinds to the
application's display state. Four factories build a file-list row (path and
state) from a working-copy status entry, an index status entry, a tree change
or a tree entry. A status or change kind missing from a table makes the
source's dictionary read throw. The model returns `None` there.

Files:
- `wrappers.dfy`: `Option`.
- `graph_layout.dfy`: the engine (module `GraphLayout`).
- `graph_layout_properties.dfy`: per-phase lemmas (module `GraphLayoutProperties`).
- `graph_rows.dfy`: whole-row and whole-layout lemmas (module `GraphRows`).
- `file_status.dfy`: the tables and factories (module `FileStatus`).

Three behaviours of the code are worth knowing before reading the lemmas:
- **Missing rows.** `CreateEntryFromCommit` throws when the previous row hands
  on no lane, because `Max` is taken over an empty line list
  (`GraphEntry.cs:91`). The model returns `None` there (`Row`,
  `GraphRows.NoRowAfterLastRoot`).
- **First line of a root commit.** The first row's line never ends, even for a
  parentless commit (`GraphEntry.cs:75-82`). A root commit reached by a lane
  ends that lane instead (`GraphRows.LinearHistory`).
- **Where a lane enters.** A continued line starts at its position in the
  hand-on list (`GraphEntry.cs:45, 54`). That equals the lane's end column in
  the row above only when that row is compact. Every row the engine produces
  is compact (`GraphRows.RowCompact`), so the two agree inside a layout
  (`GraphRows.StartsMatchOpenEnds`, `GraphRows.LayoutContinuity`).

## Model

| member | source | states |
|---|---|---|
| GraphLayout.GetBranchColor | Offbeat.GitWorkbench/RepositoryManagement/GraphEntry.cs:116-118 | A branch colour is always a palette colour, never the unset default |
| GraphLayout.BranchColorFromPalette | Offbeat.GitWorkbench/RepositoryManagement/GraphEntry.cs:116-130 | The palette has 9 entries, and branch `i` takes entry `i mod 9` |
| GraphLayout.BranchColorCycle | Offbeat.GitWorkbench/RepositoryManagement/GraphEntry.cs:116-130 | Two branch indices share a colour exactly when they are congruent mod 9 |
| GraphLayout.GetLinesToContinue | Offbeat.GitWorkbench/RepositoryManagement/GraphEntry.cs:61-67 | The lanes handed on are all open, have pairwise distinct end columns, and cover exactly the row's open end columns |
| GraphLayoutProperties.LaneOrigins | Offbeat.GitWorkbench/RepositoryManagement/GraphEntry.cs:61-67 | Each lane handed on is a line of the row. The lanes come in row order, and each is the first open line for its column |
| GraphLayout.FirstTargeting | Offbeat.GitWorkbench/RepositoryManagement/GraphEntry.cs:94 | A found position is in range, and its line heads for the parent |
| GraphLayout.FirstTargetingIsFirst | Offbeat.GitWorkbench/RepositoryManagement/GraphEntry.cs:94 | No earlier line heads for the parent. When nothing is found, no line does |
| GraphLayout.MaxBranchIsMax | Offbeat.GitWorkbench/RepositoryManagement/GraphEntry.cs:91 | The maximum branch index bounds every line's index and is attained by one |
| GraphLayout.Continue | Offbeat.GitWorkbench/RepositoryManagement/GraphEntry.cs:31-58 | After `n` turns the continuation holds exactly one line per lane seen |
| GraphLayout.ContinuePreviousLines | Offbeat.GitWorkbench/RepositoryManagement/GraphEntry.cs:29-59 | The loop produces exactly the row that `Continue` specifies over all lanes (loop invariant: state equals `Continue` after `index` turns) |
| GraphLayout.AddBranches | Offbeat.GitWorkbench/RepositoryManagement/GraphEntry.cs:93-113 | After `n` turns the merge-parent loop has appended exactly `n` lines |
| GraphLayout.AddNewBranches | Offbeat.GitWorkbench/RepositoryManagement/GraphEntry.cs:90-114 | The loop produces exactly the row that `AddBranches` specifies. It yields None for a row with no line, where `Max` throws |
| GraphLayout.Row | Offbeat.GitWorkbench/RepositoryManagement/GraphEntry.cs:12-19 | The row carries the commit's id. There is no row exactly when a previous row hands on no lane |
| GraphLayout.CreateFirstEntry | Offbeat.GitWorkbench/RepositoryManagement/GraphEntry.cs:69-88 | The method builds the seeded first row plus its merge-parent lines |
| GraphLayout.CreateEntryFromCommit | Offbeat.GitWorkbench/RepositoryManagement/GraphEntry.cs:21-27 | The method continues the previous lanes, then adds the merge-parent lines |
| GraphLayout.FromCommit | Offbeat.GitWorkbench/RepositoryManagement/GraphEntry.cs:12-19 | The method dispatches on whether there is a previous row and agrees with `Row` |
| GraphLayout.Layout | Offbeat.GitWorkbench/RepositoryManagement/GitRepositoryViewModel.cs:261-283 | The fold yields one row per commit, in order, each with its commit's id |
| GraphLayoutProperties.CompactLanes | Offbeat.GitWorkbench/RepositoryManagement/GraphEntry.cs:49-56 | In a compact row the lanes handed on sit in columns 0, 1, 2, … in order, and the open end columns are exactly those |
| GraphLayoutProperties.ContinuedLinesFollowLanes | Offbeat.GitWorkbench/RepositoryManagement/GraphEntry.cs:41-56 | Continued line `i` starts in column `i`, does not start in the row, and keeps lane `i`'s branch and colour |
| GraphLayoutProperties.MarkerFromFirstMatch | Offbeat.GitWorkbench/RepositoryManagement/GraphEntry.cs:30-39 | The marker's column and colour are those of the first lane heading for the commit. With no such lane they stay 0 and unset |
| GraphLayoutProperties.TargetingLanesBend | Offbeat.GitWorkbench/RepositoryManagement/GraphEntry.cs:41-48 | Every lane heading for the commit ends in the marker's column and now heads for the first parent. It ends in the row exactly when it is not in the marker's column or the commit has no parents |
| GraphLayoutProperties.PassingLanesCompact | Offbeat.GitWorkbench/RepositoryManagement/GraphEntry.cs:49-56 | A passing lane keeps its parent and stays open. It moves to the column counting the open lines before it, never right of its start column |
| GraphLayoutProperties.ContinueKeepsInv | Offbeat.GitWorkbench/RepositoryManagement/GraphEntry.cs:29-59 | The continuation keeps its lines compact and without collision. When the commit has parents, two more facts hold. Once a lane has reached the commit, the marker line is open in the marker's column and heads for the first parent. Every end column is open, and agrees on its parent |
| GraphLayoutProperties.AddBranchShape | Offbeat.GitWorkbench/RepositoryManagement/GraphEntry.cs:94-112 | One merge-parent turn appends a line leaving the marker for the parent in its branch colour. The line reuses the first line already heading there, or else takes a branch above every branch in the row and the next free column |
| GraphLayoutProperties.NewBranchLines | Offbeat.GitWorkbench/RepositoryManagement/GraphEntry.cs:90-114 | After `n` turns the row is the original lines followed by one such line per merge parent, in parent order |
| GraphLayoutProperties.NewBranchesKeepTidy | Offbeat.GitWorkbench/RepositoryManagement/GraphEntry.cs:90-114 | Adding the merge-parent lines keeps a tidy row tidy: compact, every end column open, and lines in one column agreeing on their parent |
| GraphRows.MergePhase | Offbeat.GitWorkbench/RepositoryManagement/GraphEntry.cs:90-114 | The merge-parent phase keeps the earlier lines, marker and id. It appends, per further parent in order, an open line from the marker's column to that parent, in its branch's colour |
| GraphRows.FirstEntryShape | Offbeat.GitWorkbench/RepositoryManagement/GraphEntry.cs:69-88 | The first row has its marker in column 0 in the first palette colour. Line 0 runs 0→0 on branch 0, starts in the row, stays open and heads for the first parent. One line per further parent follows |
| GraphRows.FirstSeedTidy | Offbeat.GitWorkbench/RepositoryManagement/GraphEntry.cs:74-83 | The seeded first line forms a tidy row |
| GraphRows.RowCompact | Offbeat.GitWorkbench/RepositoryManagement/GraphEntry.cs:12-114 | Every row the engine produces is compact and has no two open lines in one column heading for different parents, whatever the row above |
| GraphRows.ContinuedFollows | Offbeat.GitWorkbench/RepositoryManagement/GraphEntry.cs:29-59 | Below a compact row, continued line `i` starts at lane `i`'s end column, does not start in the row, and keeps the lane's branch and colour. A lane heading for the commit ends in the marker's column, now heads for the first parent, and ends in the row exactly when `i` is not the marker's column or the commit has no parents. Any other lane stays open, keeps its parent, and ends in the column counting the open lines before it |
| GraphRows.LaneContinuity | Offbeat.GitWorkbench/RepositoryManagement/GraphEntry.cs:21-59 | All of these facts of `ContinuedFollows` still hold of the finished next row, after its merge-parent lines are added |
| GraphRows.MarkerPlacement | Offbeat.GitWorkbench/RepositoryManagement/GraphEntry.cs:21-39 | A later row's marker is in the column and colour of the first lane heading for the commit, else in column 0 with no colour |
| GraphRows.LaterRowSize | Offbeat.GitWorkbench/RepositoryManagement/GraphEntry.cs:21-27 | A later row has one line per lane handed on plus one per further parent |
| GraphRows.StartsMatchOpenEnds | Offbeat.GitWorkbench/RepositoryManagement/GraphEntry.cs:31-56 | Below a compact row, the start columns of the lines not starting in the next row are exactly the open end columns of the row above |
| GraphRows.RowColors | Offbeat.GitWorkbench/RepositoryManagement/GraphEntry.cs:41-56 | If the row above draws every line in its branch's palette colour, so does the new row. The first row does too |
| GraphRows.LayoutChainsRows | Offbeat.GitWorkbench/RepositoryManagement/GitRepositoryViewModel.cs:261-283 | Each row of a layout is the row of its commit computed from the row before it |
| GraphRows.LayoutCompact | Offbeat.GitWorkbench/RepositoryManagement/GitRepositoryViewModel.cs:261-283 | Every row of a layout is compact and without collision |
| GraphRows.LayoutContinuity | Offbeat.GitWorkbench/RepositoryManagement/GitRepositoryViewModel.cs:261-283 | Every row of a layout after the first continues the lanes of the row before it, with all the per-line facts of `ContinuedFollows` |
| GraphRows.LayoutColors | Offbeat.GitWorkbench/RepositoryManagement/GitRepositoryViewModel.cs:261-283 | Every row of a layout draws each line in its branch's colour |
| GraphRows.SingleLaneStep | Offbeat.GitWorkbench/RepositoryManagement/GraphEntry.cs:21-56 | Below a single open lane heading for a commit with at most one parent comes a single lane on branch 0 heading for that parent. The lane starts and ends in column 0, where the marker is. It ends in the row exactly when the commit is a root |
| GraphRows.LinearHistory | Offbeat.GitWorkbench/RepositoryManagement/GitRepositoryViewModel.cs:261-283 | A linear history, possibly ending in its root commit, lays out fully as one lane. Each row holds a single line on branch 0 in the first colour. The line starts and ends in column 0, where the marker is, and heads for the commit's parent (none for the root). The line ends only at a root below a lane; a root in the very first row keeps it open |
| GraphRows.NoRowAfterLastRoot | Offbeat.GitWorkbench/RepositoryManagement/GraphEntry.cs:91 | Once the only lane has reached a root commit, the next commit has no row (the source throws) |
| FileStatus.Ordinal | Offbeat.GitWorkbench/RepositoryManagement/FileStatusViewModel.cs:80-88 | The states' values lie in 0..6, and 0 belongs to None alone |
| FileStatus.OrdinalInjective | Offbeat.GitWorkbench/RepositoryManagement/FileStatusViewModel.cs:80-88 | Distinct states have distinct values |
| FileStatus.Lookup | Offbeat.GitWorkbench/RepositoryManagement/FileStatusViewModel.cs:60-70 | A dictionary read succeeds exactly for keys of the table and returns the table's value |
| FileStatus.FromFileStatus | Offbeat.GitWorkbench/RepositoryManagement/FileStatusViewModel.cs:10-15 | A working-copy row exists exactly for statuses in the unstaged table, and it copies the path |
| FileStatus.FromStagedChangeStatus | Offbeat.GitWorkbench/RepositoryManagement/FileStatusViewModel.cs:17-22 | An index row exists exactly for statuses in the staged table, and it copies the path |
| FileStatus.FromTreeEntryChange | Offbeat.GitWorkbench/RepositoryManagement/FileStatusViewModel.cs:24-29 | A tree-change row exists exactly for kinds in the change-kind table, and it copies the path |
| FileStatus.FromTreeEntry | Offbeat.GitWorkbench/RepositoryManagement/FileStatusViewModel.cs:72-77 | A tree-entry row copies the path and is always Added |
| FileStatus.UnstagedStates | Offbeat.GitWorkbench/RepositoryManagement/FileStatusViewModel.cs:31-39 | Which statuses show as Modified, Missing, Renamed and Untracked in the working-copy list (each an if-and-only-if), and that no other state occurs |
| FileStatus.StagedStates | Offbeat.GitWorkbench/RepositoryManagement/FileStatusViewModel.cs:41-50 | Which statuses show as Added, Removed, Renamed and Modified in the index list (each an if-and-only-if), and that no other state occurs |
| FileStatus.TreeChangeStates | Offbeat.GitWorkbench/RepositoryManagement/FileStatusViewModel.cs:52-58 | Added, Deleted, Modified and Renamed map to Added, Removed, Modified and Renamed. No other kind has a row |
| FileStatus.AddedModifiedDiffers | Offbeat.GitWorkbench/RepositoryManagement/FileStatusViewModel.cs:38-49 | Staged addition plus work-tree modification shows Modified as a working-copy change but Added as an index change |
| FileStatus.TablesAgreeElsewhere | Offbeat.GitWorkbench/RepositoryManagement/FileStatusViewModel.cs:31-50 | Where both status tables know a status they agree, except on that one combination |
| FileStatus.NeverNone | Offbeat.GitWorkbench/RepositoryManagement/FileStatusViewModel.cs:10-77 | No factory yields the state None, so every row has value above 0 |
| FileStatus.UntabledStatuses | Offbeat.GitWorkbench/RepositoryManagement/FileStatusViewModel.cs:60-66 | Unaltered, Ignored, a bare staged modification (working-copy list) and an untracked file (index list) have no row |

## Left out

- Rendering of rows (`GraphNode.cs`): pixel geometry in floating point, pens and brushes.
- `FromWorkingDirectory`, `IsFirst` and `IsCurrent` are used by the caller but defined in no file of this model. Instead, `Layout` starts from any given previous row, or none.
- The rest of `GitRepositoryViewModel.cs`: repository queries, ordering the log by commit time, file-system watching, checkout. `Layout` takes the commits in the order given.
- The working-copy, revision and diff view models, and the sorting of file lists by state and path in their callers. Only the ordinal that sort uses is modelled.
- Update in place: the source fills a freshly allocated `GraphEntry` that nothing else sees yet, and the model builds it as a value. Only the `Lines` list and the two marker fields change, so no aliasing is lost.
- Exceptions are modelled as `None`: the `Max` of an empty list and a missing dictionary key. The caller's enumerator would propagate the exception, and `Layout` yields `None` instead.
- Integer width: columns and branch indices are 32-bit `int` in the source and unbounded `nat` here. Wrap-around would need more than 2^31 lanes or branches.
- Colours are names, not ARGB values. `NoColor` stands for the default `Color` left when no lane reaches the commit.
- The library's flag enumeration is modelled as the set of flags that are on. Its numeric bit values are not modelled. Only set equality matters for the dictionary keys.
- GraphRows.ContinuesFrom: states that a lane's line starts where the lane ended only below a compact row. Below an arbitrary given first row, only the weaker fact holds that line `i` starts in column `i` (`ContinuedLinesFollowLanes`).
