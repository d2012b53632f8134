/**
 * The commit-graph lane layout engine: given the previous row and one commit,
 * it computes that commit's row (the column and colour of the commit marker and
 * the line segments drawn in the row).
 */
module GraphLayout {
  import opened Wrappers

  /** A commit id, compared only for equality. */
  type ObjectId(==)

  /** A commit: its id and its ordered parent ids (the first one is the mainline). */
  datatype Commit = Commit(id: ObjectId, parents: seq<ObjectId>)

  /** The first (mainline) parent, or None for a root commit. */
  function FirstParent(commit: Commit): Option<ObjectId>
  {
    if |commit.parents| == 0 then None else Some(commit.parents[0])
  }

  /** The parents after the first: the ones a merge brings in. */
  function ExtraParents(commit: Commit): seq<ObjectId>
  {
    if |commit.parents| == 0 then [] else commit.parents[1..]
  }

  // ---------------------------------------------------------------------------
  // Colours
  // ---------------------------------------------------------------------------

  /**
   * The branch palette, plus `NoColor`: the all-zero default colour that a row's
   * marker keeps when no incoming lane reaches its commit.
   */
  datatype Color =
    | DodgerBlue | MediumVioletRed | DarkKhaki | LightGreen | DarkViolet
    | SaddleBrown | ForestGreen | Aquamarine | BlueViolet
    | NoColor

  /** The palette, in the order in which branch indices cycle through it. */
  const BranchColors: seq<Color> :=
    [DodgerBlue, MediumVioletRed, DarkKhaki, LightGreen, DarkViolet,
     SaddleBrown, ForestGreen, Aquamarine, BlueViolet]

  /** The colour of a branch index: the palette, cycled. */
  function GetBranchColor(index: nat): (c: Color)
    ensures c != NoColor
  {
    match index % 9
    case 0 => DodgerBlue
    case 1 => MediumVioletRed
    case 2 => DarkKhaki
    case 3 => LightGreen
    case 4 => DarkViolet
    case 5 => SaddleBrown
    case 6 => ForestGreen
    case 7 => Aquamarine
    case _ => BlueViolet
  }

  /** Branch index `i` takes palette entry `i % 9`. */
  lemma BranchColorFromPalette(index: nat)
    ensures |BranchColors| == 9
    ensures GetBranchColor(index) == BranchColors[index % |BranchColors|]
  {
  }

  /** Two branch indices share a colour exactly when they are congruent modulo the palette size. */
  lemma BranchColorCycle(i: nat, j: nat)
    ensures GetBranchColor(i) == GetBranchColor(j) <==> i % 9 == j % 9
  {
  }

  // ---------------------------------------------------------------------------
  // Rows
  // ---------------------------------------------------------------------------

  /**
   * One segment drawn in a row: from column `startIndex` at the top edge to
   * column `endIndex` at the bottom edge, heading for commit `parentId`
   * (None stands for a null parent).
   */
  datatype GraphLine = GraphLine(
    startIndex: nat,
    endIndex: nat,
    startsFromThisRevision: bool,
    endsInThisRevision: bool,
    branchIndex: nat,
    color: Color,
    parentId: Option<ObjectId>)

  /** One row: its segments and the column and colour of the commit marker. */
  datatype GraphEntry = GraphEntry(
    lines: seq<GraphLine>,
    revisionColor: Color,
    revisionIndex: nat,
    revisionId: ObjectId)

  predicate Targets(line: GraphLine, id: ObjectId)
  {
    line.parentId == Some(id)
  }

  /** The number of lines that stay open below the row. */
  function CountOpen(lines: seq<GraphLine>): (n: nat)
    ensures n <= |lines|
    decreases |lines|
  {
    if lines == [] then 0
    else CountOpen(lines[..|lines| - 1]) + (if lines[|lines| - 1].endsInThisRevision then 0 else 1)
  }

  /** The set of bottom columns of the lines that do not end in the row. */
  function OpenEnds(lines: seq<GraphLine>): set<nat>
    decreases |lines|
  {
    if lines == [] then {}
    else
      var last := lines[|lines| - 1];
      OpenEnds(lines[..|lines| - 1]) + if last.endsInThisRevision then {} else {last.endIndex}
  }

  /** The set of bottom columns of all lines, open or ending. */
  function Ends(lines: seq<GraphLine>): set<nat>
    decreases |lines|
  {
    if lines == [] then {} else Ends(lines[..|lines| - 1]) + {lines[|lines| - 1].endIndex}
  }

  /** The columns 0 .. n-1. */
  ghost function Range(n: nat): (r: set<nat>)
    ensures forall k: nat :: k in r <==> k < n
    ensures |r| == n
  {
    if n == 0 then {} else Range(n - 1) + {n - 1}
  }

  lemma OpenEndsAppend(lines: seq<GraphLine>, x: GraphLine)
    ensures OpenEnds(lines + [x]) == if x.endsInThisRevision then OpenEnds(lines) else OpenEnds(lines) + {x.endIndex}
    ensures Ends(lines + [x]) == Ends(lines) + {x.endIndex}
  {
    assert (lines + [x])[..|lines|] == lines;
  }

  /** The column of every line is among the row's end columns; of every open line, among its open ones. */
  lemma {:induction false} OpenEndsAt(lines: seq<GraphLine>)
    ensures forall k :: 0 <= k < |lines| ==> lines[k].endIndex in Ends(lines)
    ensures forall k :: 0 <= k < |lines| && !lines[k].endsInThisRevision ==> lines[k].endIndex in OpenEnds(lines)
    decreases |lines|
  {
    if lines != [] {
      var init := lines[..|lines| - 1];
      OpenEndsAt(init);
      assert forall k :: 0 <= k < |init| ==> lines[k] == init[k];
    }
  }

  /**
   * The lanes a row hands on to the next one: its lines that do not end,
   * keeping only the first line for each bottom column, in the order in which
   * the columns first occur.
   */
  function GetLinesToContinue(lines: seq<GraphLine>): (lanes: seq<GraphLine>)
    ensures forall i :: 0 <= i < |lanes| ==> !lanes[i].endsInThisRevision
    ensures forall i, j :: 0 <= i < j < |lanes| ==> lanes[i].endIndex != lanes[j].endIndex
    ensures OpenEnds(lanes) == OpenEnds(lines)
    decreases |lines|
  {
    if lines == [] then []
    else
      var init, last := lines[..|lines| - 1], lines[|lines| - 1];
      assert lines == init + [last];
      OpenEndsAppend(init, last);
      OpenEndsAt(GetLinesToContinue(init));
      if last.endsInThisRevision || last.endIndex in OpenEnds(init) then GetLinesToContinue(init)
      else GetLinesToContinue(init) + [last]
  }

  /** The position of the first line of `lines` that heads for `id`, if any. */
  function FirstTargeting(lines: seq<GraphLine>, id: ObjectId): (r: Option<nat>)
    ensures r.Some? ==> r.value < |lines| && Targets(lines[r.value], id)
    decreases |lines|
  {
    if lines == [] then None
    else if Targets(lines[0], id) then Some(0)
    else match FirstTargeting(lines[1..], id)
      case None => None
      case Some(j) => Some(j + 1)
  }

  /** `FirstTargeting` finds the first line heading for `id`, and finds none only when there is none. */
  lemma {:induction false} FirstTargetingIsFirst(lines: seq<GraphLine>, id: ObjectId)
    ensures var r := FirstTargeting(lines, id);
      && (r.Some? ==> forall k :: 0 <= k < r.value ==> !Targets(lines[k], id))
      && (r.None? ==> forall k :: 0 <= k < |lines| ==> !Targets(lines[k], id))
    decreases |lines|
  {
    if lines != [] && !Targets(lines[0], id) {
      FirstTargetingIsFirst(lines[1..], id);
      assert forall k :: 0 < k < |lines| ==> lines[k] == lines[1..][k - 1];
    }
  }

  /** The largest branch index in a non-empty row (the source throws on an empty one). */
  function MaxBranch(lines: seq<GraphLine>): nat
    requires lines != []
    decreases |lines|
  {
    if |lines| == 1 then lines[0].branchIndex
    else
      var m := MaxBranch(lines[1..]);
      if lines[0].branchIndex > m then lines[0].branchIndex else m
  }

  /** `MaxBranch` is the largest branch index of the row, and some line has it. */
  lemma {:induction false} MaxBranchIsMax(lines: seq<GraphLine>)
    requires lines != []
    ensures forall i :: 0 <= i < |lines| ==> lines[i].branchIndex <= MaxBranch(lines)
    ensures exists i :: 0 <= i < |lines| && lines[i].branchIndex == MaxBranch(lines)
    decreases |lines|
  {
    if |lines| == 1 {
      assert lines[0].branchIndex == MaxBranch(lines);
    } else {
      var rest := lines[1..];
      MaxBranchIsMax(rest);
      assert forall i :: 0 < i < |lines| ==> lines[i] == rest[i - 1];
      var j :| 0 <= j < |rest| && rest[j].branchIndex == MaxBranch(rest);
      if lines[0].branchIndex > MaxBranch(rest) {
        assert lines[0].branchIndex == MaxBranch(lines);
      } else {
        assert lines[j + 1].branchIndex == MaxBranch(lines);
      }
    }
  }

  // ---------------------------------------------------------------------------
  // Continuing the previous row's lanes
  // ---------------------------------------------------------------------------

  /** The state of the continuation loop: the lines so far and the marker. */
  datatype Progress = Progress(
    lines: seq<GraphLine>,
    revisionIndex: nat,
    revisionColor: Color,
    commitIndexSet: bool)

  /** One turn of the continuation loop: the lane in column `index` bends into the marker or passes through. */
  function ContinueLane(p: Progress, lane: GraphLine, index: nat, commit: Commit): Progress
  {
    if Targets(lane, commit.id) then
      var revisionIndex := if p.commitIndexSet then p.revisionIndex else index;
      var revisionColor := if p.commitIndexSet then p.revisionColor else lane.color;
      var line := GraphLine(
        startIndex := index,
        endIndex := revisionIndex,
        startsFromThisRevision := false,
        endsInThisRevision := index != revisionIndex || |commit.parents| == 0,
        branchIndex := lane.branchIndex,
        color := lane.color,
        parentId := FirstParent(commit));
      Progress(p.lines + [line], revisionIndex, revisionColor, true)
    else
      var line := GraphLine(
        startIndex := index,
        endIndex := CountOpen(p.lines),
        startsFromThisRevision := false,
        endsInThisRevision := false,
        branchIndex := lane.branchIndex,
        color := lane.color,
        parentId := lane.parentId);
      p.(lines := p.lines + [line])
  }

  /** The continuation loop after its first `n` turns. */
  function Continue(lanes: seq<GraphLine>, commit: Commit, n: nat): (p: Progress)
    requires n <= |lanes|
    ensures |p.lines| == n
  {
    if n == 0 then Progress([], 0, NoColor, false)
    else ContinueLane(Continue(lanes, commit, n - 1), lanes[n - 1], n - 1, commit)
  }

  /** The row after the continuation phase, before merge parents are added. */
  function ContinuedEntry(previous: GraphEntry, commit: Commit): (e: GraphEntry)
  {
    var lanes := GetLinesToContinue(previous.lines);
    var p := Continue(lanes, commit, |lanes|);
    GraphEntry(p.lines, p.revisionColor, p.revisionIndex, commit.id)
  }

  method ContinuePreviousLines(previous: GraphEntry, commit: Commit) returns (entry: GraphEntry)
    ensures entry == ContinuedEntry(previous, commit)
  {
    var lanes := GetLinesToContinue(previous.lines);
    var lines: seq<GraphLine> := [];
    var revisionIndex: nat := 0;
    var revisionColor := NoColor;
    var commitIndexSet := false;
    for index := 0 to |lanes|
      invariant Continue(lanes, commit, index) == Progress(lines, revisionIndex, revisionColor, commitIndexSet)
    {
      var line := lanes[index];
      if line.parentId == Some(commit.id) {
        if !commitIndexSet {
          revisionIndex := index;
          revisionColor := line.color;
          commitIndexSet := true;
        }
        lines := lines + [GraphLine(
          startIndex := index,
          endIndex := revisionIndex,
          startsFromThisRevision := false,
          endsInThisRevision := index != revisionIndex || |commit.parents| == 0,
          branchIndex := line.branchIndex,
          color := line.color,
          parentId := FirstParent(commit))];
      } else {
        lines := lines + [GraphLine(
          startIndex := index,
          endIndex := CountOpen(lines),
          startsFromThisRevision := false,
          endsInThisRevision := false,
          branchIndex := line.branchIndex,
          color := line.color,
          parentId := line.parentId)];
      }
    }
    entry := GraphEntry(lines, revisionColor, revisionIndex, commit.id);
  }

  // ---------------------------------------------------------------------------
  // Lanes for merge parents
  // ---------------------------------------------------------------------------

  /** A line leaving the marker for `parent` on branch `branchIndex`. */
  function NewBranchLine(parent: ObjectId, branchIndex: nat, startIndex: nat, endIndex: nat): GraphLine
  {
    GraphLine(
      startIndex := startIndex,
      endIndex := endIndex,
      startsFromThisRevision := true,
      endsInThisRevision := false,
      branchIndex := branchIndex,
      color := GetBranchColor(branchIndex),
      parentId := Some(parent))
  }

  /** The state of the merge-parent loop: the lines so far and the next fresh branch index. */
  datatype Branching = Branching(lines: seq<GraphLine>, branchIndex: nat)

  /** One turn of the merge-parent loop. */
  function AddBranch(b: Branching, parent: ObjectId, revisionIndex: nat): Branching
  {
    match FirstTargeting(b.lines, parent)
    case Some(j) =>
      Branching(b.lines + [NewBranchLine(parent, b.lines[j].branchIndex, revisionIndex, b.lines[j].endIndex)], b.branchIndex)
    case None =>
      Branching(b.lines + [NewBranchLine(parent, b.branchIndex, revisionIndex, |Ends(b.lines)|)], b.branchIndex + 1)
  }

  /** The merge-parent loop after its first `n` turns. */
  function AddBranches(entry: GraphEntry, extra: seq<ObjectId>, n: nat): (b: Branching)
    requires entry.lines != [] && n <= |extra|
    ensures |b.lines| == |entry.lines| + n
  {
    if n == 0 then Branching(entry.lines, MaxBranch(entry.lines) + 1)
    else AddBranch(AddBranches(entry, extra, n - 1), extra[n - 1], entry.revisionIndex)
  }

  /** The row with a line for every parent after the first; None where `Max` throws. */
  function WithNewBranches(commit: Commit, entry: GraphEntry): (r: Option<GraphEntry>)
  {
    if entry.lines == [] then None
    else
      var extra := ExtraParents(commit);
      Some(entry.(lines := AddBranches(entry, extra, |extra|).lines))
  }

  method AddNewBranches(commit: Commit, entry: GraphEntry) returns (r: Option<GraphEntry>)
    ensures r == WithNewBranches(commit, entry)
  {
    if entry.lines == [] {
      return None;
    }
    var branchIndex: nat := MaxBranch(entry.lines) + 1;
    var lines := entry.lines;
    var extra := ExtraParents(commit);
    for k := 0 to |extra|
      invariant AddBranches(entry, extra, k) == Branching(lines, branchIndex)
    {
      var parent := extra[k];
      var matchingLine := FirstTargeting(lines, parent);
      var currentBranchIndex: nat, endIndex: nat;
      if matchingLine.Some? {
        currentBranchIndex := lines[matchingLine.value].branchIndex;
        endIndex := lines[matchingLine.value].endIndex;
      } else {
        currentBranchIndex := branchIndex;
        endIndex := |Ends(lines)|;
        branchIndex := branchIndex + 1;
      }
      lines := lines + [NewBranchLine(parent, currentBranchIndex, entry.revisionIndex, endIndex)];
    }
    r := Some(entry.(lines := lines));
  }

  // ---------------------------------------------------------------------------
  // Whole rows
  // ---------------------------------------------------------------------------

  /** The row seeded with lane 0 for the commit's first parent, before merge parents. */
  function FirstSeed(commit: Commit): GraphEntry
  {
    GraphEntry(
      [GraphLine(
        startIndex := 0,
        endIndex := 0,
        startsFromThisRevision := true,
        endsInThisRevision := false,
        branchIndex := 0,
        color := GetBranchColor(0),
        parentId := FirstParent(commit))],
      GetBranchColor(0), 0, commit.id)
  }

  /** The row of a commit that has no previous row. */
  function FirstEntry(commit: Commit): GraphEntry
  {
    WithNewBranches(commit, FirstSeed(commit)).value
  }

  /** The row of a commit that follows `previous`; None where the source throws. */
  function EntryFromCommit(previous: GraphEntry, commit: Commit): Option<GraphEntry>
  {
    WithNewBranches(commit, ContinuedEntry(previous, commit))
  }

  /** The row of `commit`, given the previous row if there is one. */
  function Row(previous: Option<GraphEntry>, commit: Commit): (r: Option<GraphEntry>)
    ensures r.Some? ==> r.value.revisionId == commit.id
    ensures r.None? <==> previous.Some? && GetLinesToContinue(previous.value.lines) == []
  {
    match previous
    case None => Some(FirstEntry(commit))
    case Some(p) => EntryFromCommit(p, commit)
  }

  method CreateFirstEntry(commit: Commit) returns (entry: GraphEntry)
    ensures entry == FirstEntry(commit)
  {
    var r := AddNewBranches(commit, FirstSeed(commit));
    entry := r.value;
  }

  method CreateEntryFromCommit(previous: GraphEntry, commit: Commit) returns (r: Option<GraphEntry>)
    ensures r == EntryFromCommit(previous, commit)
  {
    var entry := ContinuePreviousLines(previous, commit);
    r := AddNewBranches(commit, entry);
  }

  method FromCommit(previous: Option<GraphEntry>, commit: Commit) returns (r: Option<GraphEntry>)
    ensures r == Row(previous, commit)
  {
    if previous.None? {
      var entry := CreateFirstEntry(commit);
      return Some(entry);
    }
    r := CreateEntryFromCommit(previous.value, commit);
  }

  /**
   * The caller's fold: each commit's row is computed from the row before it,
   * starting from `previous`. None if some row cannot be computed.
   */
  function Layout(previous: Option<GraphEntry>, commits: seq<Commit>): (rows: Option<seq<GraphEntry>>)
    ensures rows.Some? ==> |rows.value| == |commits|
    ensures rows.Some? ==> forall k :: 0 <= k < |commits| ==> rows.value[k].revisionId == commits[k].id
    decreases |commits|
  {
    if commits == [] then Some([])
    else
      match Row(previous, commits[0])
      case None => None
      case Some(e) =>
        match Layout(Some(e), commits[1..])
        case None => None
        case Some(rest) => Some([e] + rest)
  }
}
