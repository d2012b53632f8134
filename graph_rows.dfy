/**
 * Whole rows and the caller's fold: what every row the engine produces looks
 * like, how a row continues the lanes of the row above it, and what holds of
 * every row of a layout.
 */
module GraphRows {
  import opened Wrappers
  import opened GraphLayout
  import opened GraphLayoutProperties

  // ---------------------------------------------------------------------------
  // The merge-parent phase, seen from the finished row
  // ---------------------------------------------------------------------------

  /**
   * Adding the merge-parent lines keeps the row's earlier lines, marker and id,
   * and appends one line per parent after the first, in order: each leaves the
   * marker's column, heads for its parent, stays open and is drawn in its
   * branch's palette colour.
   */
  lemma MergePhase(commit: Commit, entry: GraphEntry, e: GraphEntry)
    requires WithNewBranches(commit, entry) == Some(e)
    ensures e.revisionId == entry.revisionId
    ensures e.revisionIndex == entry.revisionIndex
    ensures e.revisionColor == entry.revisionColor
    ensures |e.lines| == |entry.lines| + |ExtraParents(commit)|
    ensures e.lines[..|entry.lines|] == entry.lines
    ensures forall i :: |entry.lines| <= i < |e.lines| ==>
      && e.lines[i].startIndex == entry.revisionIndex
      && e.lines[i].parentId == Some(ExtraParents(commit)[i - |entry.lines|])
      && e.lines[i].startsFromThisRevision
      && !e.lines[i].endsInThisRevision
      && e.lines[i].color == GetBranchColor(e.lines[i].branchIndex)
  {
    var extra := ExtraParents(commit);
    var b := AddBranches(entry, extra, |extra|);
    NewBranchLines(entry, extra, |extra|);
    assert e.lines == b.lines;
    forall i | |entry.lines| <= i < |e.lines|
      ensures && e.lines[i].startIndex == entry.revisionIndex
              && e.lines[i].parentId == Some(extra[i - |entry.lines|])
              && e.lines[i].startsFromThisRevision
              && !e.lines[i].endsInThisRevision
              && e.lines[i].color == GetBranchColor(e.lines[i].branchIndex)
    {
      ParentLine(b, entry.lines, extra, entry.revisionIndex, i - |entry.lines|);
    }
  }

  /** The line for merge parent `extra[k]` leaves the marker for that parent in its branch's colour. */
  lemma ParentLine(b: Branching, lines: seq<GraphLine>, extra: seq<ObjectId>, revisionIndex: nat, k: nat)
    requires BranchedFrom(b, lines, extra, |extra|, revisionIndex) && k < |extra|
    ensures && b.lines[|lines| + k].startIndex == revisionIndex
            && b.lines[|lines| + k].parentId == Some(extra[k])
            && b.lines[|lines| + k].startsFromThisRevision
            && !b.lines[|lines| + k].endsInThisRevision
            && b.lines[|lines| + k].color == GetBranchColor(b.lines[|lines| + k].branchIndex)
  {
    assert NewLineFor(b.lines[..|lines| + k], b.lines[|lines| + k], extra[k], revisionIndex);
  }

  // ---------------------------------------------------------------------------
  // The first row
  // ---------------------------------------------------------------------------

  /**
   * The row of a commit with no row above it: the marker sits in column 0 in
   * the first palette colour, line 0 starts there on branch 0 and heads for
   * the first parent (it stays open even when there is none), and one line per
   * further parent follows.
   */
  lemma FirstEntryShape(commit: Commit)
    ensures FirstEntry(commit).revisionId == commit.id
    ensures FirstEntry(commit).revisionIndex == 0
    ensures FirstEntry(commit).revisionColor == DodgerBlue
    ensures |FirstEntry(commit).lines| == 1 + |ExtraParents(commit)|
    ensures FirstEntry(commit).lines[0] == GraphLine(0, 0, true, false, 0, DodgerBlue, FirstParent(commit))
    ensures forall i :: 1 <= i < |FirstEntry(commit).lines| ==>
      && FirstEntry(commit).lines[i].startIndex == 0
      && FirstEntry(commit).lines[i].parentId == Some(ExtraParents(commit)[i - 1])
      && FirstEntry(commit).lines[i].startsFromThisRevision
  {
    var seed := FirstSeed(commit);
    var e := FirstEntry(commit);
    MergePhase(commit, seed, e);
    assert e.lines[0] == e.lines[..1][0];
  }

  /** The first row's seed is tidy: one open line in column 0. */
  lemma FirstSeedTidy(commit: Commit)
    ensures Tidy(FirstSeed(commit).lines)
    ensures NoCollision(FirstSeed(commit).lines)
  {
    var l := FirstSeed(commit).lines;
    assert l[..0] == [] && l == [] + [l[0]];
    OpenEndsAppend([], l[0]);
  }

  // ---------------------------------------------------------------------------
  // Every row is compact
  // ---------------------------------------------------------------------------

  /** A tidy row has no collision: two open lines in one column head for the same parent. */
  lemma TidyNoCollision(lines: seq<GraphLine>)
    requires Tidy(lines)
    ensures NoCollision(lines)
  {
    forall i, j | 0 <= i < |lines| && 0 <= j < |lines| &&
                  !lines[i].endsInThisRevision && !lines[j].endsInThisRevision &&
                  lines[i].endIndex == lines[j].endIndex
      ensures lines[i].parentId == lines[j].parentId
    {
      assert Agree(lines);
    }
  }

  /** The merge-parent phase keeps a row compact and free of collisions. */
  lemma MergeKeepsCompact(commit: Commit, entry: GraphEntry)
    requires entry.lines != [] && Compact(entry.lines) && NoCollision(entry.lines)
    requires |commit.parents| > 0 ==> Tidy(entry.lines)
    ensures Compact(WithNewBranches(commit, entry).value.lines)
    ensures NoCollision(WithNewBranches(commit, entry).value.lines)
  {
    var extra := ExtraParents(commit);
    if |commit.parents| > 0 {
      NewBranchesKeepTidy(entry, extra, |extra|);
      TidyNoCollision(AddBranches(entry, extra, |extra|).lines);
    } else {
      assert AddBranches(entry, extra, 0).lines == entry.lines;
    }
  }

  /**
   * Every row the engine produces is compact (its open columns are 0, 1, 2, ...
   * with the lanes it hands on in order, as `CompactLanes` spells out) and has
   * no collision, whatever the row above it was.
   */
  lemma RowCompact(previous: Option<GraphEntry>, commit: Commit)
    ensures Row(previous, commit).Some? ==>
      && Compact(Row(previous, commit).value.lines)
      && NoCollision(Row(previous, commit).value.lines)
  {
    match previous
    case None =>
      FirstSeedTidy(commit);
      TidyNoCollision(FirstSeed(commit).lines);
      MergeKeepsCompact(commit, FirstSeed(commit));
    case Some(p) =>
      var lanes := GetLinesToContinue(p.lines);
      ContinueKeepsInv(lanes, commit, |lanes|);
      var c := ContinuedEntry(p, commit);
      if c.lines != [] {
        MergeKeepsCompact(commit, c);
      }
  }

  // ---------------------------------------------------------------------------
  // A row continues the lanes of the row above it
  // ---------------------------------------------------------------------------

  /**
   * Line `i` of `e`, the row of `commit`, continues lane `i` handed on by
   * `previous`: it starts in the column where the lane ended, on the same
   * branch in the same colour. A lane heading for the commit bends into the
   * marker's column, now heads for the commit's first parent, and ends in the
   * row unless it is the marker's own line of a commit with parents; any other
   * lane stays open, keeps its parent, and moves to the column counting the open
   * lines before it.
   */
  ghost predicate ContinuesFrom(previous: GraphEntry, commit: Commit, e: GraphEntry)
  {
    var lanes := GetLinesToContinue(previous.lines);
    && |lanes| <= |e.lines|
    && forall i :: 0 <= i < |lanes| ==>
      && e.lines[i].startIndex == lanes[i].endIndex
      && !e.lines[i].startsFromThisRevision
      && e.lines[i].branchIndex == lanes[i].branchIndex
      && e.lines[i].color == lanes[i].color
      && (Targets(lanes[i], commit.id) ==>
            && e.lines[i].endIndex == e.revisionIndex
            && e.lines[i].parentId == FirstParent(commit)
            && (e.lines[i].endsInThisRevision <==> i != e.revisionIndex || |commit.parents| == 0))
      && (!Targets(lanes[i], commit.id) ==>
            && !e.lines[i].endsInThisRevision
            && e.lines[i].parentId == lanes[i].parentId
            && e.lines[i].endIndex == CountOpen(e.lines[..i]))
  }

  /** The continuation phase alone already continues every lane of a compact row. */
  lemma ContinuedFollows(previous: GraphEntry, commit: Commit)
    requires Compact(previous.lines)
    ensures ContinuesFrom(previous, commit, ContinuedEntry(previous, commit))
  {
    var lanes := GetLinesToContinue(previous.lines);
    var c := ContinuedEntry(previous, commit);
    CompactLanes(previous.lines);
    ContinuedLinesFollowLanes(lanes, commit, |lanes|);
    TargetingLanesBend(lanes, commit, |lanes|);
    PassingLanesCompact(lanes, commit, |lanes|);
  }

  /** Adding the merge-parent lines leaves the continued lines and the marker as they were. */
  lemma MergeKeepsContinuation(previous: GraphEntry, commit: Commit, c: GraphEntry)
    requires c.lines != [] && ContinuesFrom(previous, commit, c)
    ensures ContinuesFrom(previous, commit, WithNewBranches(commit, c).value)
  {
    var e := WithNewBranches(commit, c).value;
    MergePhase(commit, c, e);
    assert forall i :: 0 <= i < |c.lines| ==> e.lines[i] == e.lines[..|c.lines|][i];
    assert forall i :: 0 <= i < |c.lines| ==> e.lines[..i] == c.lines[..i];
  }

  /**
   * Lane continuity: when the row above is compact, each lane it hands on is
   * continued by the line in the same position of the next row, starting in the
   * column where the lane ended.
   */
  lemma LaneContinuity(previous: GraphEntry, commit: Commit)
    requires Compact(previous.lines)
    ensures EntryFromCommit(previous, commit).Some? ==>
      ContinuesFrom(previous, commit, EntryFromCommit(previous, commit).value)
  {
    var c := ContinuedEntry(previous, commit);
    if c.lines != [] {
      ContinuedFollows(previous, commit);
      MergeKeepsContinuation(previous, commit, c);
    }
  }

  /**
   * The marker of a later row sits in the column of the first lane handed on
   * that heads for the commit, in that lane's colour; with no such lane it stays
   * in column 0 with no colour.
   */
  lemma MarkerPlacement(previous: GraphEntry, commit: Commit)
    ensures EntryFromCommit(previous, commit).Some? ==>
      var e := EntryFromCommit(previous, commit).value;
      var lanes := GetLinesToContinue(previous.lines);
      match FirstTargeting(lanes, commit.id)
      case Some(j) => e.revisionIndex == j && e.revisionColor == lanes[j].color
      case None => e.revisionIndex == 0 && e.revisionColor == NoColor
  {
    var lanes := GetLinesToContinue(previous.lines);
    var c := ContinuedEntry(previous, commit);
    MarkerFromFirstMatch(lanes, commit, |lanes|);
    assert lanes[..|lanes|] == lanes;
    if c.lines != [] {
      MergePhase(commit, c, WithNewBranches(commit, c).value);
    }
  }

  /** Every line of a later row is one of the continued lanes or one of the merge-parent lines. */
  lemma LaterRowSize(previous: GraphEntry, commit: Commit)
    ensures EntryFromCommit(previous, commit).Some? ==>
      |EntryFromCommit(previous, commit).value.lines| ==
        |GetLinesToContinue(previous.lines)| + |ExtraParents(commit)|
  {
    var c := ContinuedEntry(previous, commit);
    if c.lines != [] {
      MergePhase(commit, c, WithNewBranches(commit, c).value);
    }
  }

  /** The columns at which the lines of a row that do not start in it enter the row. */
  ghost function StartColumns(lines: seq<GraphLine>): set<nat>
  {
    set i | 0 <= i < |lines| && !lines[i].startsFromThisRevision :: lines[i].startIndex
  }

  /**
   * Continuity is positional and lossless: below a compact row, the lines that
   * do not start in the next row enter it exactly at the columns where the row
   * above left lines open.
   */
  lemma StartsMatchOpenEnds(previous: GraphEntry, commit: Commit)
    requires Compact(previous.lines)
    ensures EntryFromCommit(previous, commit).Some? ==>
      StartColumns(EntryFromCommit(previous, commit).value.lines) == OpenEnds(previous.lines)
  {
    var c := ContinuedEntry(previous, commit);
    if c.lines != [] {
      var e := EntryFromCommit(previous, commit).value;
      var lanes := GetLinesToContinue(previous.lines);
      ContinuedLinesFollowLanes(lanes, commit, |lanes|);
      MergePhase(commit, c, e);
      CompactLanes(previous.lines);
      forall i | 0 <= i < |lanes|
        ensures !e.lines[i].startsFromThisRevision && e.lines[i].startIndex == i
      {
        assert e.lines[i] == e.lines[..|c.lines|][i];
      }
      StartColumnsRange(e.lines, |lanes|);
    }
  }

  /** A row whose first `w` lines enter at columns 0 .. w-1 and whose other lines start in it enters exactly there. */
  lemma StartColumnsRange(lines: seq<GraphLine>, w: nat)
    requires w <= |lines|
    requires forall i :: 0 <= i < w ==> !lines[i].startsFromThisRevision && lines[i].startIndex == i
    requires forall i :: w <= i < |lines| ==> lines[i].startsFromThisRevision
    ensures StartColumns(lines) == Range(w)
  {
    forall col | col in StartColumns(lines)
      ensures col in Range(w)
    {
      var i :| 0 <= i < |lines| && !lines[i].startsFromThisRevision && lines[i].startIndex == col;
    }
    forall col | col in Range(w)
      ensures col in StartColumns(lines)
    {
      assert lines[col].startIndex == col;
    }
  }

  // ---------------------------------------------------------------------------
  // Colours follow branches
  // ---------------------------------------------------------------------------

  /** Every line is drawn in the palette colour of its branch index. */
  ghost predicate ColorsFollowBranches(lines: seq<GraphLine>)
  {
    forall i :: 0 <= i < |lines| ==> lines[i].color == GetBranchColor(lines[i].branchIndex)
  }

  /** The lanes handed on are lines of the row, so they keep its colouring. */
  lemma LanesKeepColors(lines: seq<GraphLine>)
    requires ColorsFollowBranches(lines)
    ensures ColorsFollowBranches(GetLinesToContinue(lines))
  {
    var r := LaneOrigins(lines);
    var lanes := GetLinesToContinue(lines);
    forall i | 0 <= i < |lanes|
      ensures lanes[i].color == GetBranchColor(lanes[i].branchIndex)
    {
      assert lanes[i] == lines[r[i]];
    }
  }

  /** The continuation phase keeps the colouring of the lanes it continues. */
  lemma ContinuedKeepsColors(previous: GraphEntry, commit: Commit)
    requires ColorsFollowBranches(previous.lines)
    ensures ColorsFollowBranches(ContinuedEntry(previous, commit).lines)
  {
    var lanes := GetLinesToContinue(previous.lines);
    LanesKeepColors(previous.lines);
    ContinuedLinesFollowLanes(lanes, commit, |lanes|);
  }

  /** The merge-parent phase keeps the colouring: its lines take their branch's colour. */
  lemma MergeKeepsColors(commit: Commit, entry: GraphEntry)
    requires entry.lines != [] && ColorsFollowBranches(entry.lines)
    ensures ColorsFollowBranches(WithNewBranches(commit, entry).value.lines)
  {
    var e := WithNewBranches(commit, entry).value;
    var n := |entry.lines|;
    MergePhase(commit, entry, e);
    forall i | 0 <= i < |e.lines|
      ensures e.lines[i].color == GetBranchColor(e.lines[i].branchIndex)
    {
      if i < n {
        assert e.lines[i] == e.lines[..n][i];
      } else {
        assert e.lines[i].color == GetBranchColor(e.lines[i].branchIndex);
      }
    }
  }

  /**
   * Every line of a row is drawn in the palette colour of its branch, provided
   * the row above was (or there is none).
   */
  lemma RowColors(previous: Option<GraphEntry>, commit: Commit)
    requires previous.Some? ==> ColorsFollowBranches(previous.value.lines)
    ensures Row(previous, commit).Some? ==> ColorsFollowBranches(Row(previous, commit).value.lines)
  {
    match previous
    case None =>
      MergeKeepsColors(commit, FirstSeed(commit));
    case Some(p) =>
      var c := ContinuedEntry(p, commit);
      ContinuedKeepsColors(p, commit);
      if c.lines != [] {
        MergeKeepsColors(commit, c);
      }
  }

  // ---------------------------------------------------------------------------
  // The fold
  // ---------------------------------------------------------------------------

  /** Each row of a layout is computed from the row before it (the first from the given one). */
  lemma {:induction false} LayoutChainsRows(previous: Option<GraphEntry>, commits: seq<Commit>)
    ensures Layout(previous, commits).Some? && commits != [] ==>
      var rows := Layout(previous, commits).value;
      && Row(previous, commits[0]) == Some(rows[0])
      && forall k :: 0 < k < |commits| ==> Row(Some(rows[k - 1]), commits[k]) == Some(rows[k])
    decreases |commits|
  {
    if commits != [] && Layout(previous, commits).Some? {
      var rows := Layout(previous, commits).value;
      var e := Row(previous, commits[0]).value;
      var tail := commits[1..];
      LayoutChainsRows(Some(e), tail);
      var rest := Layout(Some(e), tail).value;
      assert rows == [e] + rest;
      forall k | 0 < k < |commits|
        ensures Row(Some(rows[k - 1]), commits[k]) == Some(rows[k])
      {
        assert commits[k] == tail[k - 1];
        assert rows[k] == rest[k - 1];
        if k > 1 {
          assert rows[k - 1] == rest[k - 2];
        }
      }
    }
  }

  /** Every row of a layout is compact and has no collision. */
  lemma LayoutCompact(previous: Option<GraphEntry>, commits: seq<Commit>)
    ensures Layout(previous, commits).Some? ==>
      var rows := Layout(previous, commits).value;
      forall k :: 0 <= k < |rows| ==> Compact(rows[k].lines) && NoCollision(rows[k].lines)
  {
    if Layout(previous, commits).Some? {
      var rows := Layout(previous, commits).value;
      LayoutChainsRows(previous, commits);
      forall k | 0 <= k < |rows|
        ensures Compact(rows[k].lines) && NoCollision(rows[k].lines)
      {
        var above := if k == 0 then previous else Some(rows[k - 1]);
        RowCompact(above, commits[k]);
      }
    }
  }

  /** In a layout, every row after the first continues the lanes of the row before it. */
  lemma LayoutContinuity(previous: Option<GraphEntry>, commits: seq<Commit>)
    ensures Layout(previous, commits).Some? ==>
      var rows := Layout(previous, commits).value;
      forall k :: 0 < k < |rows| ==> ContinuesFrom(rows[k - 1], commits[k], rows[k])
  {
    if Layout(previous, commits).Some? {
      var rows := Layout(previous, commits).value;
      LayoutChainsRows(previous, commits);
      forall k | 0 < k < |rows|
        ensures ContinuesFrom(rows[k - 1], commits[k], rows[k])
      {
        var above := if k == 1 then previous else Some(rows[k - 2]);
        RowCompact(above, commits[k - 1]);
        LaneContinuity(rows[k - 1], commits[k]);
      }
    }
  }

  /** Every row of a layout is coloured by branch, if the row it starts from was. */
  lemma {:induction false} LayoutColors(previous: Option<GraphEntry>, commits: seq<Commit>)
    requires previous.Some? ==> ColorsFollowBranches(previous.value.lines)
    ensures Layout(previous, commits).Some? ==>
      forall k :: 0 <= k < |commits| ==> ColorsFollowBranches(Layout(previous, commits).value[k].lines)
    decreases |commits|
  {
    if commits != [] && Layout(previous, commits).Some? {
      var rows := Layout(previous, commits).value;
      RowColors(previous, commits[0]);
      var e := Row(previous, commits[0]).value;
      LayoutColors(Some(e), commits[1..]);
      var rest := Layout(Some(e), commits[1..]).value;
      assert rows == [e] + rest;
      forall k | 0 <= k < |commits|
        ensures ColorsFollowBranches(rows[k].lines)
      {
        if k > 0 {
          assert rows[k] == rest[k - 1];
          assert ColorsFollowBranches(Layout(Some(e), commits[1..]).value[k - 1].lines);
        }
      }
    }
  }

  /**
   * A line running straight down column 0 on branch 0 in the first palette
   * colour, heading for `target`; it ends in the row exactly when `ends`.
   */
  ghost predicate LaneZero(l: GraphLine, target: Option<ObjectId>, ends: bool)
  {
    && l.startIndex == 0
    && l.endIndex == 0
    && l.endsInThisRevision == ends
    && l.branchIndex == 0
    && l.color == DodgerBlue
    && l.parentId == target
  }

  /** A row holding that one line only, with the marker in column 0 in the same colour. */
  ghost predicate SingleLane(e: GraphEntry, target: Option<ObjectId>, ends: bool)
  {
    && |e.lines| == 1
    && LaneZero(e.lines[0], target, ends)
    && e.revisionIndex == 0
    && e.revisionColor == DodgerBlue
  }

  /** The first row of a commit with at most one parent is a single open lane heading for that parent, if any. */
  lemma FirstRowSingleLane(commit: Commit)
    requires |commit.parents| <= 1
    ensures SingleLane(FirstEntry(commit), FirstParent(commit), false)
  {
    FirstEntryShape(commit);
  }

  /** A commit with at most one parent adds no line in the merge-parent phase. */
  lemma NoMergeParents(commit: Commit, entry: GraphEntry)
    requires entry.lines != [] && |commit.parents| <= 1
    ensures WithNewBranches(commit, entry) == Some(entry)
  {
    assert ExtraParents(commit) == [];
  }

  /** The one continuation turn for an open lane on branch 0, column 0, heading for the commit. */
  lemma SingleLaneTurn(lane: GraphLine, commit: Commit)
    requires !lane.endsInThisRevision && lane.endIndex == 0 && lane.branchIndex == 0
    requires lane.color == DodgerBlue && lane.parentId == Some(commit.id)
    ensures ContinueLane(Progress([], 0, NoColor, false), lane, 0, commit) ==
      Progress([GraphLine(0, 0, false, |commit.parents| == 0, 0, DodgerBlue, FirstParent(commit))], 0, DodgerBlue, true)
  {
  }

  /** The continuation of a single open lane heading for a commit with at most one parent. */
  lemma SingleLaneContinued(previous: GraphEntry, commit: Commit)
    requires SingleLane(previous, Some(commit.id), false) && |commit.parents| <= 1
    ensures ContinuedEntry(previous, commit) ==
      GraphEntry([GraphLine(0, 0, false, |commit.parents| == 0, 0, DodgerBlue, FirstParent(commit))],
                 DodgerBlue, 0, commit.id)
  {
    var lanes := GetLinesToContinue(previous.lines);
    assert previous.lines[..0] == [];
    assert lanes == previous.lines;
    assert Continue(lanes, commit, 1) == ContinueLane(Progress([], 0, NoColor, false), lanes[0], 0, commit);
    SingleLaneTurn(lanes[0], commit);
  }

  /**
   * Below a single open lane heading for a commit with at most one parent comes
   * a single lane heading for that parent; it ends there when the commit is a root.
   */
  lemma SingleLaneStep(previous: GraphEntry, commit: Commit)
    requires SingleLane(previous, Some(commit.id), false) && |commit.parents| <= 1
    ensures Row(Some(previous), commit).Some?
    ensures SingleLane(Row(Some(previous), commit).value, FirstParent(commit), |commit.parents| == 0)
  {
    SingleLaneContinued(previous, commit);
    NoMergeParents(commit, ContinuedEntry(previous, commit));
  }

  /**
   * Each commit but the last has exactly one parent, the next commit; the last
   * has at most one parent, so the history may end in its root commit.
   */
  ghost predicate Linear(commits: seq<Commit>)
  {
    && (forall k :: 0 <= k < |commits| ==> |commits[k].parents| <= 1)
    && (forall k :: 0 <= k < |commits| - 1 ==> commits[k].parents != [] && commits[k].parents[0] == commits[k + 1].id)
  }

  /** Dropping the first commit of a linear history leaves a linear history. */
  lemma LinearTail(commits: seq<Commit>)
    requires Linear(commits) && commits != []
    ensures Linear(commits[1..])
  {
    assert forall k :: 0 <= k < |commits| - 1 ==> commits[1..][k] == commits[k + 1];
  }

  /**
   * The first row of a linear history: a single lane heading for the first
   * commit's parent, ending only at a root below a lane, and an open lane
   * heading for the next commit when there is one.
   */
  lemma LinearHead(previous: Option<GraphEntry>, commits: seq<Commit>)
    requires Linear(commits) && commits != []
    requires previous.Some? ==> SingleLane(previous.value, Some(commits[0].id), false)
    ensures Row(previous, commits[0]).Some?
    ensures SingleLane(Row(previous, commits[0]).value, FirstParent(commits[0]),
                       |commits[0].parents| == 0 && previous.Some?)
    ensures |commits| > 1 ==> SingleLane(Row(previous, commits[0]).value, Some(commits[1].id), false)
  {
    var head := commits[0];
    assert |head.parents| <= 1;
    if previous.None? {
      FirstRowSingleLane(head);
    } else {
      SingleLaneStep(previous.value, head);
    }
    if |commits| > 1 {
      assert head.parents != [] && head.parents[0] == commits[1].id;
    }
  }

  /**
   * Row k is a single lane heading for commit k's parent, if any; it ends in
   * the row exactly when commit k is a root and a lane came down to it, which
   * holds for every row but the first and, when `below`, for the first too.
   */
  ghost predicate SingleLanes(rows: seq<GraphEntry>, commits: seq<Commit>, below: bool)
  {
    && |rows| == |commits|
    && forall k :: 0 <= k < |commits| ==>
         SingleLane(rows[k], FirstParent(commits[k]), |commits[k].parents| == 0 && (k > 0 || below))
  }

  /** Prepending a first row to the single-lane rows of the rest of a history. */
  lemma SingleLanesCons(e: GraphEntry, rest: seq<GraphEntry>, commits: seq<Commit>, below: bool)
    requires commits != []
    requires SingleLane(e, FirstParent(commits[0]), |commits[0].parents| == 0 && below)
    requires SingleLanes(rest, commits[1..], true)
    ensures SingleLanes([e] + rest, commits, below)
  {
    forall k | 0 < k < |commits|
      ensures SingleLane(([e] + rest)[k], FirstParent(commits[k]), |commits[k].parents| == 0)
    {
      assert ([e] + rest)[k] == rest[k - 1] && commits[k] == commits[1..][k - 1];
    }
  }

  /** The fold's first step: a layout is the first row followed by the layout of the rest. */
  lemma LayoutCons(previous: Option<GraphEntry>, commits: seq<Commit>, e: GraphEntry, rest: seq<GraphEntry>)
    requires commits != [] && Row(previous, commits[0]) == Some(e) && Layout(Some(e), commits[1..]) == Some(rest)
    ensures Layout(previous, commits) == Some([e] + rest)
  {
  }

  /**
   * A linear history lays out fully as one lane: every row holds a single line,
   * on branch 0 in the first palette colour, in column 0 with the marker, and
   * heading for the commit's parent. Only a root commit below a lane ends it; a
   * root in the very first row keeps its line open.
   */
  lemma {:induction false} LinearHistory(previous: Option<GraphEntry>, commits: seq<Commit>)
    requires Linear(commits)
    requires commits != [] && previous.Some? ==> SingleLane(previous.value, Some(commits[0].id), false)
    ensures Layout(previous, commits).Some?
    ensures SingleLanes(Layout(previous, commits).value, commits, previous.Some?)
    decreases |commits|
  {
    if commits != [] {
      LinearHead(previous, commits);
      LinearTail(commits);
      var e, tail := Row(previous, commits[0]).value, commits[1..];
      assert tail != [] ==> tail[0] == commits[1];
      LinearHistory(Some(e), tail);
      var rest := Layout(Some(e), tail).value;
      LayoutCons(previous, commits, e, rest);
      SingleLanesCons(e, rest, commits, previous.Some?);
    }
  }

  /**
   * The source throws when a row hands on no lane: the merge-parent phase takes
   * the maximum branch index of an empty line list. After the last lane reaches
   * a root commit, any further commit has no row.
   */
  lemma NoRowAfterLastRoot(tip: Commit, root: Commit, next: Commit)
    requires tip.parents == [root.id] && root.parents == []
    ensures Layout(None, [tip, root, next]).None?
  {
    var first := FirstEntry(tip);
    FirstEntryShape(tip);
    assert ExtraParents(tip) == [];
    var line := first.lines[0];
    assert first.lines == [line];
    assert line.parentId == Some(root.id) && !line.endsInThisRevision;
    var lanes := GetLinesToContinue(first.lines);
    assert first.lines[..0] == [];
    assert lanes == [line];
    var c := ContinuedEntry(first, root);
    assert Continue(lanes, root, 0) == Progress([], 0, NoColor, false);
    assert c.lines == [GraphLine(0, 0, false, true, 0, DodgerBlue, None)];
    assert ExtraParents(root) == [];
    var second := Row(Some(first), root).value;
    MergePhase(root, c, second);
    assert second.lines == c.lines;
    assert second.lines[..0] == [];
    assert GetLinesToContinue(second.lines) == [];
    assert Row(Some(second), next).None?;
    var commits := [tip, root, next];
    assert commits[1..] == [root, next];
    assert [root, next][1..] == [next];
    assert Layout(Some(second), [next]).None?;
    assert Layout(Some(first), [root, next]).None?;
  }
}
