/**
 * The file list entries shown for a working copy, its index and a revision:
 * a path and a display state, looked up in three fixed tables from the
 * version-control library's status flags and change kinds.
 */
module FileStatus {
  import Wrappers

  // ---------------------------------------------------------------------------
  // The library's vocabulary
  // ---------------------------------------------------------------------------

  /**
   * One flag of the library's `FileStatus` flags enumeration, by the names the
   * view model uses (`Added` is new in the index, `Staged` modified in the index,
   * `Removed` deleted from the index, `Untracked` new in the work tree,
   * `Modified` modified in the work tree, `Missing` deleted from the work tree).
   */
  datatype StatusFlag =
    | Nonexistent
    | Added | Staged | Removed | RenamedInIndex | TypeChangeInIndex
    | Untracked | Modified | Missing | TypeChangeInWorkDir | RenamedInWorkDir
    | Unreadable | Ignored | Conflicted

  /** A `FileStatus` value: the set of flags that are on. `Unaltered` is the empty set. */
  type FileStatus = set<StatusFlag>

  /** The library's kind of a change between two trees. */
  datatype ChangeKind =
    | Unmodified | Added | Deleted | Modified | Renamed | Copied
    | Ignored | Untracked | TypeChanged | Unreadable | Conflicted

  /** A status entry of the working copy: a path and its status flags. */
  datatype StatusEntry = StatusEntry(filePath: string, state: FileStatus)

  /** One changed path between a commit's tree and its parent's. */
  datatype TreeEntryChanges = TreeEntryChanges(path: string, status: ChangeKind)

  /** One entry of a commit's tree. */
  datatype TreeEntry = TreeEntry(path: string)

  // ---------------------------------------------------------------------------
  // The application's states
  // ---------------------------------------------------------------------------

  /** The display state of a file. */
  datatype RepositoryFileStatus = None | Modified | Added | Removed | Missing | Renamed | Untracked

  /** The enumeration's integer value, by which file lists are ordered. */
  function Ordinal(s: RepositoryFileStatus): (n: nat)
    ensures n <= 6
    ensures n == 0 <==> s == RepositoryFileStatus.None
  {
    match s
    case None => 0
    case Modified => 1
    case Added => 2
    case Removed => 3
    case Missing => 4
    case Renamed => 5
    case Untracked => 6
  }

  /** Distinct states have distinct values, so ordering by value is a total order on states. */
  lemma OrdinalInjective(a: RepositoryFileStatus, b: RepositoryFileStatus)
    ensures Ordinal(a) == Ordinal(b) <==> a == b
  {
  }

  /** A row of a file list: a path and its display state. */
  datatype FileStatusViewModel = FileStatusViewModel(path: string, state: RepositoryFileStatus)

  // ---------------------------------------------------------------------------
  // The three tables
  // ---------------------------------------------------------------------------

  /** Display states of working-copy (unstaged) changes. */
  const UnstagedStatuses: map<FileStatus, RepositoryFileStatus> := map[
    {StatusFlag.Missing} := RepositoryFileStatus.Missing,
    {StatusFlag.Modified} := RepositoryFileStatus.Modified,
    {StatusFlag.RenamedInWorkDir} := RepositoryFileStatus.Renamed,
    {StatusFlag.Untracked} := RepositoryFileStatus.Untracked,
    {StatusFlag.Staged, StatusFlag.Modified} := RepositoryFileStatus.Modified,
    {StatusFlag.Added, StatusFlag.Modified} := RepositoryFileStatus.Modified]

  /** Display states of index (staged) changes. */
  const StagedStatuses: map<FileStatus, RepositoryFileStatus> := map[
    {StatusFlag.Added} := RepositoryFileStatus.Added,
    {StatusFlag.Removed} := RepositoryFileStatus.Removed,
    {StatusFlag.Modified} := RepositoryFileStatus.Modified,
    {StatusFlag.RenamedInIndex} := RepositoryFileStatus.Renamed,
    {StatusFlag.Staged} := RepositoryFileStatus.Modified,
    {StatusFlag.Staged, StatusFlag.Modified} := RepositoryFileStatus.Modified,
    {StatusFlag.Added, StatusFlag.Modified} := RepositoryFileStatus.Added]

  /** Display states of the changes a commit makes to its parent's tree. */
  const StatusesByChangeKind: map<ChangeKind, RepositoryFileStatus> := map[
    ChangeKind.Added := RepositoryFileStatus.Added,
    ChangeKind.Deleted := RepositoryFileStatus.Removed,
    ChangeKind.Modified := RepositoryFileStatus.Modified,
    ChangeKind.Renamed := RepositoryFileStatus.Renamed]

  /** A dictionary read: the value for `key`, or None where the source's indexer throws. */
  function Lookup<K, V>(m: map<K, V>, key: K): (r: Wrappers.Option<V>)
    ensures r.Some? <==> key in m
    ensures r.Some? ==> r.value == m[key]
  {
    if key in m then Wrappers.Some(m[key]) else Wrappers.None
  }

  // ---------------------------------------------------------------------------
  // The factories
  // ---------------------------------------------------------------------------

  /** The row for a working-copy change; None where the status is not in the unstaged table. */
  function FromFileStatus(se: StatusEntry): (r: Wrappers.Option<FileStatusViewModel>)
    ensures r.Some? <==> se.state in UnstagedStatuses
    ensures r.Some? ==> r.value.path == se.filePath
  {
    match Lookup(UnstagedStatuses, se.state)
    case None => Wrappers.None
    case Some(state) => Wrappers.Some(FileStatusViewModel(se.filePath, state))
  }

  /** The row for an index change; None where the status is not in the staged table. */
  function FromStagedChangeStatus(se: StatusEntry): (r: Wrappers.Option<FileStatusViewModel>)
    ensures r.Some? <==> se.state in StagedStatuses
    ensures r.Some? ==> r.value.path == se.filePath
  {
    match Lookup(StagedStatuses, se.state)
    case None => Wrappers.None
    case Some(state) => Wrappers.Some(FileStatusViewModel(se.filePath, state))
  }

  /** The row for a path a commit changed; None where the change kind is not in the table. */
  function FromTreeEntryChange(changes: TreeEntryChanges): (r: Wrappers.Option<FileStatusViewModel>)
    ensures r.Some? <==> changes.status in StatusesByChangeKind
    ensures r.Some? ==> r.value.path == changes.path
  {
    match Lookup(StatusesByChangeKind, changes.status)
    case None => Wrappers.None
    case Some(state) => Wrappers.Some(FileStatusViewModel(changes.path, state))
  }

  /** The row for a file of a root commit's tree: every file is new. */
  function FromTreeEntry(entry: TreeEntry): (r: FileStatusViewModel)
    ensures r.path == entry.path && r.state == RepositoryFileStatus.Added
  {
    FileStatusViewModel(entry.path, RepositoryFileStatus.Added)
  }

  // ---------------------------------------------------------------------------
  // What the tables promise
  // ---------------------------------------------------------------------------

  /**
   * A working-copy change shows as Modified exactly for a work-tree
   * modification, alone or on top of a staged modification or a staged
   * addition; Missing, Renamed and Untracked each come from their single
   * work-tree flag; nothing else has a display state.
   */
  lemma UnstagedStates(se: StatusEntry)
    ensures FromFileStatus(se).Some? && FromFileStatus(se).value.state == RepositoryFileStatus.Modified <==>
      se.state in {{StatusFlag.Modified}, {StatusFlag.Staged, StatusFlag.Modified}, {StatusFlag.Added, StatusFlag.Modified}}
    ensures FromFileStatus(se).Some? && FromFileStatus(se).value.state == RepositoryFileStatus.Missing <==>
      se.state == {StatusFlag.Missing}
    ensures FromFileStatus(se).Some? && FromFileStatus(se).value.state == RepositoryFileStatus.Renamed <==>
      se.state == {StatusFlag.RenamedInWorkDir}
    ensures FromFileStatus(se).Some? && FromFileStatus(se).value.state == RepositoryFileStatus.Untracked <==>
      se.state == {StatusFlag.Untracked}
    ensures FromFileStatus(se).Some? ==>
      FromFileStatus(se).value.state in
        {RepositoryFileStatus.Modified, RepositoryFileStatus.Missing, RepositoryFileStatus.Renamed, RepositoryFileStatus.Untracked}
  {
  }

  /**
   * An index change shows as Added for a staged addition (also with a work-tree
   * modification on top), Removed for a staged deletion, Renamed for a rename in
   * the index, and Modified for a staged modification (also with a work-tree
   * modification on top) or a bare work-tree modification; nothing else has a
   * display state.
   */
  lemma StagedStates(se: StatusEntry)
    ensures FromStagedChangeStatus(se).Some? && FromStagedChangeStatus(se).value.state == RepositoryFileStatus.Added <==>
      se.state in {{StatusFlag.Added}, {StatusFlag.Added, StatusFlag.Modified}}
    ensures FromStagedChangeStatus(se).Some? && FromStagedChangeStatus(se).value.state == RepositoryFileStatus.Removed <==>
      se.state == {StatusFlag.Removed}
    ensures FromStagedChangeStatus(se).Some? && FromStagedChangeStatus(se).value.state == RepositoryFileStatus.Renamed <==>
      se.state == {StatusFlag.RenamedInIndex}
    ensures FromStagedChangeStatus(se).Some? && FromStagedChangeStatus(se).value.state == RepositoryFileStatus.Modified <==>
      se.state in {{StatusFlag.Modified}, {StatusFlag.Staged}, {StatusFlag.Staged, StatusFlag.Modified}}
    ensures FromStagedChangeStatus(se).Some? ==>
      FromStagedChangeStatus(se).value.state in
        {RepositoryFileStatus.Added, RepositoryFileStatus.Removed, RepositoryFileStatus.Renamed, RepositoryFileStatus.Modified}
  {
  }

  /**
   * A tree change shows Added, Deleted, Modified and Renamed as Added, Removed,
   * Modified and Renamed, and has no display state for any other kind.
   */
  lemma TreeChangeStates(changes: TreeEntryChanges)
    ensures FromTreeEntryChange(changes).Some? <==>
      changes.status in {ChangeKind.Added, ChangeKind.Deleted, ChangeKind.Modified, ChangeKind.Renamed}
    ensures changes.status == ChangeKind.Added ==> FromTreeEntryChange(changes).value.state == RepositoryFileStatus.Added
    ensures changes.status == ChangeKind.Deleted ==> FromTreeEntryChange(changes).value.state == RepositoryFileStatus.Removed
    ensures changes.status == ChangeKind.Modified ==> FromTreeEntryChange(changes).value.state == RepositoryFileStatus.Modified
    ensures changes.status == ChangeKind.Renamed ==> FromTreeEntryChange(changes).value.state == RepositoryFileStatus.Renamed
  {
  }

  /** The same flags, staged addition plus work-tree modification, show differently in the two lists. */
  lemma AddedModifiedDiffers(path: string)
    ensures FromFileStatus(StatusEntry(path, {StatusFlag.Added, StatusFlag.Modified})) ==
      Wrappers.Some(FileStatusViewModel(path, RepositoryFileStatus.Modified))
    ensures FromStagedChangeStatus(StatusEntry(path, {StatusFlag.Added, StatusFlag.Modified})) ==
      Wrappers.Some(FileStatusViewModel(path, RepositoryFileStatus.Added))
  {
  }

  /** Where both working-copy and index tables know a status, they agree, except on staged addition plus modification. */
  lemma TablesAgreeElsewhere(s: FileStatus)
    ensures s in UnstagedStatuses && s in StagedStatuses && s != {StatusFlag.Added, StatusFlag.Modified} ==>
      UnstagedStatuses[s] == StagedStatuses[s]
  {
  }

  /** No factory ever yields the state None, so every row sorts after value 0. */
  lemma NeverNone(se: StatusEntry, changes: TreeEntryChanges, entry: TreeEntry)
    ensures FromFileStatus(se).Some? ==> Ordinal(FromFileStatus(se).value.state) > 0
    ensures FromStagedChangeStatus(se).Some? ==> Ordinal(FromStagedChangeStatus(se).value.state) > 0
    ensures FromTreeEntryChange(changes).Some? ==> Ordinal(FromTreeEntryChange(changes).value.state) > 0
    ensures Ordinal(FromTreeEntry(entry).state) > 0
  {
    UnstagedStates(se);
    StagedStates(se);
    TreeChangeStates(changes);
  }

  /** Statuses outside the tables, such as Unaltered and Ignored, have no row in either list. */
  lemma UntabledStatuses(path: string)
    ensures FromFileStatus(StatusEntry(path, {})).None? && FromStagedChangeStatus(StatusEntry(path, {})).None?
    ensures FromFileStatus(StatusEntry(path, {StatusFlag.Ignored})).None?
    ensures FromStagedChangeStatus(StatusEntry(path, {StatusFlag.Ignored})).None?
    ensures FromFileStatus(StatusEntry(path, {StatusFlag.Staged})).None?
    ensures FromStagedChangeStatus(StatusEntry(path, {StatusFlag.Untracked})).None?
  {
  }
}
