/**
 * What the layout engine guarantees: per-line facts about the continuation and
 * merge-parent phases, the compaction of open columns, and lane continuity from
 * one row to the next.
 */
module GraphLayoutProperties {
  import opened Wrappers
  import opened GraphLayout

  // ---------------------------------------------------------------------------
  // Handing lanes on: first occurrences, in order
  // ---------------------------------------------------------------------------

  /**
   * Where in `lines` each handed-on lane comes from. The positions increase, and
   * each is the first open line for its column: the lanes handed on are the
   * first occurrences, in the order of the row.
   */
  ghost function LaneOrigins(lines: seq<GraphLine>): (r: seq<nat>)
    ensures |r| == |GetLinesToContinue(lines)|
    ensures forall i :: 0 <= i < |r| ==> r[i] < |lines| && lines[r[i]] == GetLinesToContinue(lines)[i]
    ensures forall i, j :: 0 <= i < j < |r| ==> r[i] < r[j]
    ensures forall i, k :: 0 <= i < |r| && 0 <= k < r[i] && !lines[k].endsInThisRevision ==>
      lines[k].endIndex != lines[r[i]].endIndex
    decreases |lines|
  {
    if lines == [] then []
    else
      var init, last := lines[..|lines| - 1], lines[|lines| - 1];
      assert lines == init + [last];
      OpenEndsAppend(init, last);
      OpenEndsAt(init);
      var r0 := LaneOrigins(init);
      if last.endsInThisRevision || last.endIndex in OpenEnds(init) then r0
      else r0 + [|lines| - 1]
  }

  // ---------------------------------------------------------------------------
  // Compaction
  // ---------------------------------------------------------------------------

  /**
   * Every line of a row that stays open either reuses a column already opened
   * above it in the row or opens the next free one, so that the open columns
   * first occur in the order 0, 1, 2, ...
   */
  ghost predicate Compact(lines: seq<GraphLine>)
    decreases |lines|
  {
    lines == [] ||
    (Compact(lines[..|lines| - 1]) &&
     (lines[|lines| - 1].endsInThisRevision ||
      lines[|lines| - 1].endIndex <= |GetLinesToContinue(lines[..|lines| - 1])|))
  }

  /** In a compact row the lanes handed on sit in columns 0, 1, 2, ... and fill them. */
  lemma {:induction false} CompactLanes(lines: seq<GraphLine>)
    requires Compact(lines)
    ensures OpenEnds(lines) == Range(|GetLinesToContinue(lines)|)
    ensures forall i :: 0 <= i < |GetLinesToContinue(lines)| ==> GetLinesToContinue(lines)[i].endIndex == i
    decreases |lines|
  {
    if lines != [] {
      var init, last := lines[..|lines| - 1], lines[|lines| - 1];
      assert lines == init + [last];
      CompactLanes(init);
      OpenEndsAppend(init, last);
      var w := |GetLinesToContinue(init)|;
      if !last.endsInThisRevision {
        if last.endIndex == w {
          assert last.endIndex !in OpenEnds(init);
          assert GetLinesToContinue(lines) == GetLinesToContinue(init) + [last];
          assert Range(w + 1) == Range(w) + {w};
        } else {
          assert last.endIndex in OpenEnds(init);
          assert GetLinesToContinue(lines) == GetLinesToContinue(init);
        }
      }
    }
  }

  /** Two lines that stay open and end in the same column head for the same parent. */
  ghost predicate NoCollision(lines: seq<GraphLine>)
  {
    forall i, j ::
      (0 <= i < |lines| && 0 <= j < |lines| &&
       !lines[i].endsInThisRevision && !lines[j].endsInThisRevision &&
       lines[i].endIndex == lines[j].endIndex)
      ==> lines[i].parentId == lines[j].parentId
  }

  /** Any line that ends in the column of an open line heads for that line's parent. */
  ghost predicate Agree(lines: seq<GraphLine>)
  {
    forall i, j ::
      (0 <= i < |lines| && 0 <= j < |lines| &&
       !lines[j].endsInThisRevision && lines[i].endIndex == lines[j].endIndex)
      ==> lines[i].parentId == lines[j].parentId
  }

  /** A row into which merge-parent lines can be added without leaving a gap or a clash. */
  ghost predicate Tidy(lines: seq<GraphLine>)
  {
    Compact(lines) && Ends(lines) == OpenEnds(lines) && Agree(lines)
  }

  lemma AppendOpen(lines: seq<GraphLine>, x: GraphLine)
    requires Compact(lines) && !x.endsInThisRevision
    ensures x.endIndex <= |GetLinesToContinue(lines)| ==> Compact(lines + [x])
    ensures x.endIndex == |GetLinesToContinue(lines)| ==>
      |GetLinesToContinue(lines + [x])| == |GetLinesToContinue(lines)| + 1
    ensures x.endIndex < |GetLinesToContinue(lines)| ==>
      |GetLinesToContinue(lines + [x])| == |GetLinesToContinue(lines)|
  {
    var l := lines + [x];
    assert l[..|l| - 1] == lines;
    CompactLanes(lines);
  }

  lemma AppendEnding(lines: seq<GraphLine>, x: GraphLine)
    requires Compact(lines) && x.endsInThisRevision
    ensures Compact(lines + [x])
    ensures GetLinesToContinue(lines + [x]) == GetLinesToContinue(lines)
    ensures OpenEnds(lines + [x]) == OpenEnds(lines)
  {
    var l := lines + [x];
    assert l[..|l| - 1] == lines;
    OpenEndsAppend(lines, x);
  }


  // ---------------------------------------------------------------------------
  // Continuation phase
  // ---------------------------------------------------------------------------

  lemma {:induction false} FirstTargetingAppend(s: seq<GraphLine>, x: GraphLine, id: ObjectId)
    ensures FirstTargeting(s + [x], id) ==
      match FirstTargeting(s, id)
      case Some(j) => Some(j)
      case None => if Targets(x, id) then Some(|s|) else None
    decreases |s|
  {
    if s != [] && !Targets(s[0], id) {
      FirstTargetingAppend(s[1..], x, id);
      assert (s + [x])[1..] == s[1..] + [x];
    }
  }

  /** Line i of the continuation continues lane i: it starts in column i and keeps the lane's branch and colour. */
  lemma {:induction false} ContinuedLinesFollowLanes(lanes: seq<GraphLine>, commit: Commit, n: nat)
    requires n <= |lanes|
    ensures var p := Continue(lanes, commit, n);
      forall i :: 0 <= i < n ==>
        && p.lines[i].startIndex == i
        && !p.lines[i].startsFromThisRevision
        && p.lines[i].branchIndex == lanes[i].branchIndex
        && p.lines[i].color == lanes[i].color
  {
    if n > 0 {
      ContinuedLinesFollowLanes(lanes, commit, n - 1);
      var p, q := Continue(lanes, commit, n - 1), Continue(lanes, commit, n);
      assert q == ContinueLane(p, lanes[n - 1], n - 1, commit);
      assert q.lines[..n - 1] == p.lines;
      forall i | 0 <= i < n
        ensures && q.lines[i].startIndex == i
                && !q.lines[i].startsFromThisRevision
                && q.lines[i].branchIndex == lanes[i].branchIndex
                && q.lines[i].color == lanes[i].color
      {
        if i < n - 1 {
          assert q.lines[i] == p.lines[i];
        }
      }
    }
  }

  /**
   * The marker's column and colour are those of the first lane heading for the
   * commit; with no such lane the column stays 0 and the colour unset.
   */
  lemma {:induction false} MarkerFromFirstMatch(lanes: seq<GraphLine>, commit: Commit, n: nat)
    requires n <= |lanes|
    ensures var p := Continue(lanes, commit, n);
      match FirstTargeting(lanes[..n], commit.id)
      case Some(j) => p.commitIndexSet && p.revisionIndex == j && p.revisionColor == lanes[j].color
      case None => !p.commitIndexSet && p.revisionIndex == 0 && p.revisionColor == NoColor
  {
    if n > 0 {
      MarkerFromFirstMatch(lanes, commit, n - 1);
      assert lanes[..n] == lanes[..n - 1] + [lanes[n - 1]];
      FirstTargetingAppend(lanes[..n - 1], lanes[n - 1], commit.id);
    }
  }

  /**
   * Every lane heading for the commit bends into the marker's column, now
   * heads for the commit's first parent, and ends in this row exactly when it
   * is not the marker's own lane or the commit has no parents.
   */
  lemma {:induction false} TargetingLanesBend(lanes: seq<GraphLine>, commit: Commit, n: nat)
    requires n <= |lanes|
    ensures var p := Continue(lanes, commit, n);
      forall i :: 0 <= i < n && Targets(lanes[i], commit.id) ==>
        && p.lines[i].endIndex == p.revisionIndex
        && p.lines[i].parentId == FirstParent(commit)
        && (p.lines[i].endsInThisRevision <==> i != p.revisionIndex || |commit.parents| == 0)
  {
    if n > 0 {
      TargetingLanesBend(lanes, commit, n - 1);
      MarkerFromFirstMatch(lanes, commit, n - 1);
      FirstTargetingIsFirst(lanes[..n - 1], commit.id);
      var p, q := Continue(lanes, commit, n - 1), Continue(lanes, commit, n);
      assert q == ContinueLane(p, lanes[n - 1], n - 1, commit);
      forall i | 0 <= i < n && Targets(lanes[i], commit.id)
        ensures && q.lines[i].endIndex == q.revisionIndex
                && q.lines[i].parentId == FirstParent(commit)
                && (q.lines[i].endsInThisRevision <==> i != q.revisionIndex || |commit.parents| == 0)
      {
        if i < n - 1 {
          assert lanes[..n - 1][i] == lanes[i];
          assert p.commitIndexSet;
          assert q.lines[i] == p.lines[i];
        }
      }
    }
  }

  /**
   * A lane not heading for the commit keeps its parent, stays open, and moves
   * to the column after the open lines before it, never to the right of where
   * it came from.
   */
  lemma {:induction false} PassingLanesCompact(lanes: seq<GraphLine>, commit: Commit, n: nat)
    requires n <= |lanes|
    ensures var p := Continue(lanes, commit, n);
      forall i :: 0 <= i < n && !Targets(lanes[i], commit.id) ==>
        && p.lines[i].parentId == lanes[i].parentId
        && !p.lines[i].endsInThisRevision
        && p.lines[i].endIndex == CountOpen(p.lines[..i])
        && p.lines[i].endIndex <= i
  {
    if n > 0 {
      PassingLanesCompact(lanes, commit, n - 1);
      var p, q := Continue(lanes, commit, n - 1), Continue(lanes, commit, n);
      assert q.lines[..n - 1] == p.lines;
      forall i | 0 <= i < n && !Targets(lanes[i], commit.id)
        ensures q.lines[i].parentId == lanes[i].parentId && !q.lines[i].endsInThisRevision
        ensures q.lines[i].endIndex == CountOpen(q.lines[..i]) <= i
      {
        if i < n - 1 {
          assert q.lines[..i] == p.lines[..i];
        }
      }
    }
  }

  /** What the continuation loop keeps true of the lines it has built. */
  ghost predicate ContinueInv(commit: Commit, p: Progress)
  {
    && Compact(p.lines)
    && |GetLinesToContinue(p.lines)| == CountOpen(p.lines)
    && (!p.commitIndexSet ==> CountOpen(p.lines) == |p.lines|)
    && (p.commitIndexSet && |commit.parents| > 0 ==>
          && p.revisionIndex < |p.lines|
          && !p.lines[p.revisionIndex].endsInThisRevision
          && p.lines[p.revisionIndex].endIndex == p.revisionIndex
          && p.lines[p.revisionIndex].parentId == FirstParent(commit))
    && (|commit.parents| > 0 ==> Ends(p.lines) == OpenEnds(p.lines) && Agree(p.lines))
    && NoCollision(p.lines)
  }

  /** A new open line in the next free column keeps a row compact. */
  lemma AppendFresh(lines: seq<GraphLine>, x: GraphLine)
    requires Compact(lines) && !x.endsInThisRevision && x.endIndex == |GetLinesToContinue(lines)|
    ensures Compact(lines + [x])
    ensures |GetLinesToContinue(lines + [x])| == |GetLinesToContinue(lines)| + 1
    ensures NoCollision(lines) ==> NoCollision(lines + [x])
    ensures Ends(lines) == OpenEnds(lines) && Agree(lines) ==>
      Ends(lines + [x]) == OpenEnds(lines + [x]) && Agree(lines + [x])
  {
    AppendOpen(lines, x);
    CompactLanes(lines);
    FreshKeepsNoCollision(lines, x);
    FreshKeepsAgree(lines, x);
  }

  lemma FreshKeepsNoCollision(lines: seq<GraphLine>, x: GraphLine)
    requires !x.endsInThisRevision && x.endIndex !in OpenEnds(lines)
    ensures NoCollision(lines) ==> NoCollision(lines + [x])
  {
    if NoCollision(lines) {
      var l := lines + [x];
      OpenEndsAt(lines);
      assert forall k :: 0 <= k < |lines| ==> l[k] == lines[k];
      forall i, j | 0 <= i < |l| && 0 <= j < |l| && !l[i].endsInThisRevision && !l[j].endsInThisRevision &&
                    l[i].endIndex == l[j].endIndex
        ensures l[i].parentId == l[j].parentId
      {
      }
    }
  }

  lemma FreshKeepsAgree(lines: seq<GraphLine>, x: GraphLine)
    requires !x.endsInThisRevision && x.endIndex !in OpenEnds(lines)
    ensures Ends(lines) == OpenEnds(lines) && Agree(lines) ==>
      Ends(lines + [x]) == OpenEnds(lines + [x]) && Agree(lines + [x])
  {
    if Ends(lines) == OpenEnds(lines) && Agree(lines) {
      var l := lines + [x];
      OpenEndsAppend(lines, x);
      OpenEndsAt(lines);
      assert forall k :: 0 <= k < |lines| ==> l[k] == lines[k];
      forall i, j | 0 <= i < |l| && 0 <= j < |l| && !l[j].endsInThisRevision && l[i].endIndex == l[j].endIndex
        ensures l[i].parentId == l[j].parentId
      {
      }
    }
  }

  /** A line that ends in the column of an open line heading for the same parent keeps a tidy row tidy. */
  lemma AppendEndingAtOpen(lines: seq<GraphLine>, x: GraphLine, r: nat)
    requires Tidy(lines) && x.endsInThisRevision
    requires r < |lines| && !lines[r].endsInThisRevision
    requires lines[r].endIndex == x.endIndex && lines[r].parentId == x.parentId
    ensures Tidy(lines + [x])
    ensures |GetLinesToContinue(lines + [x])| == |GetLinesToContinue(lines)|
  {
    var l := lines + [x];
    AppendEnding(lines, x);
    OpenEndsAppend(lines, x);
    OpenEndsAt(lines);
    assert forall i :: 0 <= i < |lines| ==> l[i] == lines[i];
    forall i, j | 0 <= i < |l| && 0 <= j < |l| && !l[j].endsInThisRevision && l[i].endIndex == l[j].endIndex
      ensures l[i].parentId == l[j].parentId
    {
      if i == |lines| {
        assert lines[r].parentId == lines[j].parentId;
      }
    }
  }

  lemma PassKeepsInv(p: Progress, lane: GraphLine, index: nat, commit: Commit)
    requires index == |p.lines| && ContinueInv(commit, p) && !Targets(lane, commit.id)
    ensures ContinueInv(commit, ContinueLane(p, lane, index, commit))
  {
    var q := ContinueLane(p, lane, index, commit);
    var x := q.lines[index];
    assert q.lines == p.lines + [x];
    assert q.lines[..|q.lines| - 1] == p.lines;
    AppendFresh(p.lines, x);
    assert p.commitIndexSet && |commit.parents| > 0 ==> q.lines[q.revisionIndex] == p.lines[p.revisionIndex];
  }

  lemma FirstMatchKeepsInv(p: Progress, lane: GraphLine, index: nat, commit: Commit)
    requires index == |p.lines| && ContinueInv(commit, p) && Targets(lane, commit.id) && !p.commitIndexSet
    ensures ContinueInv(commit, ContinueLane(p, lane, index, commit))
  {
    var q := ContinueLane(p, lane, index, commit);
    var x := q.lines[index];
    assert q.lines == p.lines + [x];
    assert q.lines[..|q.lines| - 1] == p.lines;
    if |commit.parents| > 0 {
      AppendFresh(p.lines, x);
    } else {
      AppendEnding(p.lines, x);
    }
  }

  lemma LaterMatchKeepsInv(p: Progress, lane: GraphLine, index: nat, commit: Commit)
    requires index == |p.lines| && ContinueInv(commit, p) && Targets(lane, commit.id) && p.commitIndexSet
    ensures ContinueInv(commit, ContinueLane(p, lane, index, commit))
  {
    var q := ContinueLane(p, lane, index, commit);
    var x := q.lines[index];
    assert q.lines == p.lines + [x];
    assert q.lines[..|q.lines| - 1] == p.lines;
    if |commit.parents| > 0 {
      AppendEndingAtOpen(p.lines, x, p.revisionIndex);
      assert q.lines[q.revisionIndex] == p.lines[p.revisionIndex];
    } else {
      AppendEnding(p.lines, x);
    }
  }

  lemma ContinueStepKeepsInv(lanes: seq<GraphLine>, commit: Commit, n: nat)
    requires 0 < n <= |lanes|
    ensures ContinueInv(commit, Continue(lanes, commit, n - 1)) ==> ContinueInv(commit, Continue(lanes, commit, n))
  {
    var p := Continue(lanes, commit, n - 1);
    assert Continue(lanes, commit, n) == ContinueLane(p, lanes[n - 1], n - 1, commit);
    if ContinueInv(commit, p) {
      if !Targets(lanes[n - 1], commit.id) {
        PassKeepsInv(p, lanes[n - 1], n - 1, commit);
      } else if !p.commitIndexSet {
        FirstMatchKeepsInv(p, lanes[n - 1], n - 1, commit);
      } else {
        LaterMatchKeepsInv(p, lanes[n - 1], n - 1, commit);
      }
    }
  }

  lemma {:induction false} ContinueKeepsInv(lanes: seq<GraphLine>, commit: Commit, n: nat)
    requires n <= |lanes|
    ensures ContinueInv(commit, Continue(lanes, commit, n))
  {
    if n > 0 {
      ContinueKeepsInv(lanes, commit, n - 1);
      ContinueStepKeepsInv(lanes, commit, n);
    }
  }

  // ---------------------------------------------------------------------------
  // Merge-parent phase
  // ---------------------------------------------------------------------------

  lemma MaxBranchAppend(lines: seq<GraphLine>, x: GraphLine)
    requires lines != []
    ensures MaxBranch(lines + [x]) == if x.branchIndex > MaxBranch(lines) then x.branchIndex else MaxBranch(lines)
  {
    var l := lines + [x];
    MaxBranchIsMax(lines);
    MaxBranchIsMax(l);
    assert forall i :: 0 <= i < |lines| ==> l[i] == lines[i];
    var m := MaxBranch(lines);
    var i :| 0 <= i < |lines| && lines[i].branchIndex == m;
    assert l[i].branchIndex == m;
    assert l[|lines|] == x;
  }

  /**
   * The line added for merge parent `parent`, given the lines before it: it
   * leaves the marker for that parent in its branch's palette colour; it shares
   * the branch and column of the first line already heading for that parent,
   * and otherwise takes a branch index one above every one in the row and the
   * next column after all the row's end columns.
   */
  ghost predicate NewLineFor(before: seq<GraphLine>, x: GraphLine, parent: ObjectId, revisionIndex: nat)
  {
    && before != []
    && x.startsFromThisRevision
    && !x.endsInThisRevision
    && x.startIndex == revisionIndex
    && x.parentId == Some(parent)
    && x.color == GetBranchColor(x.branchIndex)
    && match FirstTargeting(before, parent)
       case Some(j) => x.branchIndex == before[j].branchIndex && x.endIndex == before[j].endIndex
       case None => x.branchIndex == MaxBranch(before) + 1 && x.endIndex == |Ends(before)|
  }

  lemma AddBranchShape(b: Branching, parent: ObjectId, revisionIndex: nat)
    requires b.lines != [] && b.branchIndex == MaxBranch(b.lines) + 1
    ensures var c := AddBranch(b, parent, revisionIndex);
      && |c.lines| == |b.lines| + 1
      && c.lines[..|b.lines|] == b.lines
      && NewLineFor(b.lines, c.lines[|b.lines|], parent, revisionIndex)
      && c.branchIndex == MaxBranch(c.lines) + 1
  {
    var c := AddBranch(b, parent, revisionIndex);
    var y := c.lines[|b.lines|];
    assert c.lines == b.lines + [y];
    assert c.lines[..|b.lines|] == b.lines;
    MaxBranchIsMax(b.lines);
    MaxBranchAppend(b.lines, y);
  }

  /** Line `|lines| + k` of `row` is the line for merge parent `extra[k]`, for every `k < n`. */
  ghost predicate LinesForParents(row: seq<GraphLine>, lines: seq<GraphLine>, extra: seq<ObjectId>, n: nat, revisionIndex: nat)
  {
    forall k :: 0 <= k < n ==>
      && k < |extra|
      && |lines| + k < |row|
      && NewLineFor(row[..|lines| + k], row[|lines| + k], extra[k], revisionIndex)
  }

  /** `b` holds `lines` followed by one line per merge parent in `extra[..n]`, each as `NewLineFor` describes. */
  ghost predicate BranchedFrom(b: Branching, lines: seq<GraphLine>, extra: seq<ObjectId>, n: nat, revisionIndex: nat)
  {
    && lines != []
    && n <= |extra|
    && |b.lines| == |lines| + n
    && b.lines[..|lines|] == lines
    && b.branchIndex == MaxBranch(b.lines) + 1
    && LinesForParents(b.lines, lines, extra, n, revisionIndex)
  }

  /** Appending the line for the next merge parent extends `LinesForParents` by one. */
  lemma LinesForParentsAppend(row: seq<GraphLine>, y: GraphLine, lines: seq<GraphLine>, extra: seq<ObjectId>, n: nat, revisionIndex: nat)
    requires 0 < n <= |extra| && |row| == |lines| + n - 1
    requires LinesForParents(row, lines, extra, n - 1, revisionIndex)
    requires NewLineFor(row, y, extra[n - 1], revisionIndex)
    ensures LinesForParents(row + [y], lines, extra, n, revisionIndex)
  {
    var c := row + [y];
    var base := |lines|;
    forall k | 0 <= k < n
      ensures k < |extra| && base + k < |c|
      ensures NewLineFor(c[..base + k], c[base + k], extra[k], revisionIndex)
    {
      if k < n - 1 {
        assert c[..base + k] == row[..base + k];
        assert c[base + k] == row[base + k];
      } else {
        assert c[..base + k] == row;
      }
    }
  }

  lemma AddBranchExtends(b: Branching, lines: seq<GraphLine>, extra: seq<ObjectId>, n: nat, revisionIndex: nat)
    requires 0 < n <= |extra|
    ensures BranchedFrom(b, lines, extra, n - 1, revisionIndex) ==>
      BranchedFrom(AddBranch(b, extra[n - 1], revisionIndex), lines, extra, n, revisionIndex)
  {
    if BranchedFrom(b, lines, extra, n - 1, revisionIndex) {
      var c := AddBranch(b, extra[n - 1], revisionIndex);
      AddBranchShape(b, extra[n - 1], revisionIndex);
      assert c.lines == b.lines + [c.lines[|b.lines|]];
      LinesForParentsAppend(b.lines, c.lines[|b.lines|], lines, extra, n, revisionIndex);
      assert c.lines[..|lines|] == b.lines[..|lines|];
    }
  }

  lemma BranchedFromStart(entry: GraphEntry, extra: seq<ObjectId>)
    ensures entry.lines != [] ==>
      BranchedFrom(AddBranches(entry, extra, 0), entry.lines, extra, 0, entry.revisionIndex)
  {
    assert entry.lines[..|entry.lines|] == entry.lines;
  }

  lemma BranchedFromStep(entry: GraphEntry, extra: seq<ObjectId>, n: nat)
    ensures entry.lines != [] && 0 < n <= |extra| ==>
      BranchedFrom(AddBranches(entry, extra, n - 1), entry.lines, extra, n - 1, entry.revisionIndex) ==>
      BranchedFrom(AddBranches(entry, extra, n), entry.lines, extra, n, entry.revisionIndex)
  {
    if entry.lines != [] && 0 < n <= |extra| {
      var b := AddBranches(entry, extra, n - 1);
      AddBranchExtends(b, entry.lines, extra, n, entry.revisionIndex);
      assert AddBranches(entry, extra, n) == AddBranch(b, extra[n - 1], entry.revisionIndex);
    }
  }

  /** After `n` turns of the merge-parent loop the row holds one line per merge parent so far, as `NewLineFor` describes. */
  lemma NewBranchLines(entry: GraphEntry, extra: seq<ObjectId>, n: nat)
    requires entry.lines != [] && n <= |extra|
    ensures BranchedFrom(AddBranches(entry, extra, n), entry.lines, extra, n, entry.revisionIndex)
  {
    if n == 0 {
      BranchedFromStart(entry, extra);
    } else {
      NewBranchLines(entry, extra, n - 1);
      BranchedFromStep(entry, extra, n);
    }
  }

  /** An open witness for every open end column. */
  lemma {:induction false} OpenEndWitness(lines: seq<GraphLine>, e: nat) returns (m: nat)
    requires e in OpenEnds(lines)
    ensures m < |lines| && !lines[m].endsInThisRevision && lines[m].endIndex == e
    decreases |lines|
  {
    var init := lines[..|lines| - 1];
    if e in OpenEnds(init) {
      m := OpenEndWitness(init, e);
      assert lines[m] == init[m];
    } else {
      m := |lines| - 1;
    }
  }

  /** A new open line sharing the column and parent of a line already in a tidy row keeps it tidy. */
  lemma AppendReuse(lines: seq<GraphLine>, x: GraphLine, j: nat)
    requires Tidy(lines) && !x.endsInThisRevision
    requires j < |lines| && x.endIndex == lines[j].endIndex && x.parentId == lines[j].parentId
    ensures Tidy(lines + [x])
  {
    var l := lines + [x];
    CompactLanes(lines);
    OpenEndsAt(lines);
    assert x.endIndex in Ends(lines);
    AppendOpen(lines, x);
    OpenEndsAppend(lines, x);
    var m := OpenEndWitness(lines, x.endIndex);
    assert forall i :: 0 <= i < |lines| ==> l[i] == lines[i];
    forall i, k | 0 <= i < |l| && 0 <= k < |l| && !l[k].endsInThisRevision && l[i].endIndex == l[k].endIndex
      ensures l[i].parentId == l[k].parentId
    {
      if i == |lines| && k < |lines| {
        assert lines[j].parentId == lines[k].parentId;
      } else if k == |lines| && i < |lines| {
        assert lines[i].parentId == lines[m].parentId;
        assert lines[j].parentId == lines[m].parentId;
      }
    }
  }

  lemma AddBranchKeepsTidy(b: Branching, parent: ObjectId, revisionIndex: nat)
    ensures Tidy(b.lines) ==> Tidy(AddBranch(b, parent, revisionIndex).lines)
  {
    if !Tidy(b.lines) {
      return;
    }
    var c := AddBranch(b, parent, revisionIndex);
    var y := c.lines[|b.lines|];
    assert c.lines == b.lines + [y];
    match FirstTargeting(b.lines, parent)
    case Some(j) =>
      AppendReuse(b.lines, y, j);
    case None =>
      CompactLanes(b.lines);
      AppendFresh(b.lines, y);
  }

  lemma AddBranchesStartTidy(entry: GraphEntry, extra: seq<ObjectId>)
    ensures entry.lines != [] && Tidy(entry.lines) ==> Tidy(AddBranches(entry, extra, 0).lines)
  {
  }

  lemma AddBranchesStepTidy(entry: GraphEntry, extra: seq<ObjectId>, n: nat)
    ensures entry.lines != [] && 0 < n <= |extra| ==>
      Tidy(AddBranches(entry, extra, n - 1).lines) ==> Tidy(AddBranches(entry, extra, n).lines)
  {
    if entry.lines != [] && 0 < n <= |extra| {
      var b := AddBranches(entry, extra, n - 1);
      AddBranchKeepsTidy(b, extra[n - 1], entry.revisionIndex);
      assert AddBranches(entry, extra, n) == AddBranch(b, extra[n - 1], entry.revisionIndex);
    }
  }

  /** The merge-parent loop keeps a tidy row tidy. */
  lemma NewBranchesKeepTidy(entry: GraphEntry, extra: seq<ObjectId>, n: nat)
    requires entry.lines != [] && n <= |extra|
    ensures Tidy(entry.lines) ==> Tidy(AddBranches(entry, extra, n).lines)
  {
    if n == 0 {
      AddBranchesStartTidy(entry, extra);
    } else {
      NewBranchesKeepTidy(entry, extra, n - 1);
      AddBranchesStepTidy(entry, extra, n);
    }
  }
}
