/** The persisted settings: writing a partial record, seeding defaults for absent
    keys, and the views the message handlers report. */
module Settings {
  import opened Types

  /** The storage keys, in the order the defaults object lists them. */
  datatype Key = IsEnabledKey | CommentsKey | LastExecutionTimeKey | ParticipatedContentIdsKey | ExecutionLogKey

  const Keys: seq<Key> := [IsEnabledKey, CommentsKey, LastExecutionTimeKey, ParticipatedContentIdsKey, ExecutionLogKey]

  /** The values a fresh installation starts with. */
  const Defaults: Store := Store(Some(true), Some(DefaultComments), Some(Null), Some([]), Some([]))

  /** Whether key `k` is undefined in `s`. */
  predicate Absent(s: Store, k: Key) {
    match k
    case IsEnabledKey => s.isEnabled.None?
    case CommentsKey => s.comments.None?
    case LastExecutionTimeKey => s.lastExecutionTime.None?
    case ParticipatedContentIdsKey => s.participatedContentIds.None?
    case ExecutionLogKey => s.executionLog.None?
  }

  /** Whether `a` and `b` hold the same value (or both nothing) under key `k`. */
  predicate SameAt(a: Store, b: Store, k: Key) {
    match k
    case IsEnabledKey => a.isEnabled == b.isEnabled
    case CommentsKey => a.comments == b.comments
    case LastExecutionTimeKey => a.lastExecutionTime == b.lastExecutionTime
    case ParticipatedContentIdsKey => a.participatedContentIds == b.participatedContentIds
    case ExecutionLogKey => a.executionLog == b.executionLog
  }

  /** `a` with the value `b` holds under key `k`. */
  function CopyAt(a: Store, b: Store, k: Key): (r: Store)
    ensures SameAt(r, b, k)
    ensures forall k' :: k' != k ==> SameAt(r, a, k')
  {
    match k
    case IsEnabledKey => a.(isEnabled := b.isEnabled)
    case CommentsKey => a.(comments := b.comments)
    case LastExecutionTimeKey => a.(lastExecutionTime := b.lastExecutionTime)
    case ParticipatedContentIdsKey => a.(participatedContentIds := b.participatedContentIds)
    case ExecutionLogKey => a.(executionLog := b.executionLog)
  }

  lemma SameEverywhere(a: Store, b: Store)
    requires forall k :: SameAt(a, b, k)
    ensures a == b
  {
    assert SameAt(a, b, IsEnabledKey) && SameAt(a, b, CommentsKey) && SameAt(a, b, LastExecutionTimeKey);
    assert SameAt(a, b, ParticipatedContentIdsKey) && SameAt(a, b, ExecutionLogKey);
  }

  /** `chrome.storage.local.set(patch)`: every key the patch holds is overwritten,
      every other key keeps its value. */
  function Merge(s: Store, patch: Store): (r: Store)
    ensures forall k :: !Absent(patch, k) ==> SameAt(r, patch, k)
    ensures forall k :: Absent(patch, k) ==> SameAt(r, s, k)
  {
    Store(
      if patch.isEnabled.Some? then patch.isEnabled else s.isEnabled,
      if patch.comments.Some? then patch.comments else s.comments,
      if patch.lastExecutionTime.Some? then patch.lastExecutionTime else s.lastExecutionTime,
      if patch.participatedContentIds.Some? then patch.participatedContentIds else s.participatedContentIds,
      if patch.executionLog.Some? then patch.executionLog else s.executionLog)
  }

  /** The `toSet` object of setupDefaultSettings: the default of every absent key. */
  function MissingDefaults(s: Store): Store {
    Store(
      if s.isEnabled.None? then Defaults.isEnabled else None,
      if s.comments.None? then Defaults.comments else None,
      if s.lastExecutionTime.None? then Defaults.lastExecutionTime else None,
      if s.participatedContentIds.None? then Defaults.participatedContentIds else None,
      if s.executionLog.None? then Defaults.executionLog else None)
  }

  lemma MissingDefaultsEmpty(s: Store)
    ensures MissingDefaults(s) == EmptyStore <==> forall k :: !Absent(s, k)
  {
    if MissingDefaults(s) == EmptyStore {
      forall k ensures !Absent(s, k) {
        match k
        case IsEnabledKey =>
        case CommentsKey =>
        case LastExecutionTimeKey =>
        case ParticipatedContentIdsKey =>
        case ExecutionLogKey =>
      }
    } else {
      assert Absent(s, IsEnabledKey) || Absent(s, CommentsKey) || Absent(s, LastExecutionTimeKey)
        || Absent(s, ParticipatedContentIdsKey) || Absent(s, ExecutionLogKey);
    }
  }

  /** The store after setupDefaultSettings. */
  function Seeded(s: Store): Store {
    Merge(s, MissingDefaults(s))
  }

  /** Seeding never overwrites a stored value, fills every absent key with its
      default, and leaves a store with no absent key as it was. */
  lemma SeedingFillsOnlyAbsent(s: Store)
    ensures forall k :: !Absent(s, k) ==> SameAt(Seeded(s), s, k)
    ensures forall k :: Absent(s, k) ==> SameAt(Seeded(s), Defaults, k)
    ensures forall k :: !Absent(Seeded(s), k)
    ensures (forall k :: !Absent(s, k)) ==> Seeded(s) == s
  {
    if forall k :: !Absent(s, k) {
      assert !Absent(s, IsEnabledKey) && !Absent(s, CommentsKey) && !Absent(s, LastExecutionTimeKey);
      assert !Absent(s, ParticipatedContentIdsKey) && !Absent(s, ExecutionLogKey);
    }
  }

  /** Seeding twice is seeding once. */
  lemma SeedingIdempotent(s: Store)
    ensures Seeded(Seeded(s)) == Seeded(s)
  {
    SeedingFillsOnlyAbsent(s);
    SeedingFillsOnlyAbsent(Seeded(s));
  }

  /** `!isEnabled` as toggleEnabled computes it: an absent value becomes `true`. */
  function Toggled(v: Option<bool>): (b: bool)
    ensures b <==> !Truthy(v)
  {
    match v
    case Some(x) => !x
    case None => true
  }

  /** Toggling twice from a stored value restores it. */
  lemma ToggleTwice(b: bool)
    ensures Toggled(Some(Toggled(Some(b)))) == b
  {
  }

  /** `isEnabled ?? true`: what getStatus and getSettings report. */
  function ReportedEnabled(v: Option<bool>): bool {
    v.GetOr(true)
  }

  /** An absent flag is reported as enabled while the run guard treats it as disabled;
      on a stored flag the two agree. */
  lemma ReportedVersusGuard(v: Option<bool>)
    ensures v.None? ==> ReportedEnabled(v) && !Truthy(v)
    ensures v.Some? ==> (ReportedEnabled(v) <==> Truthy(v))
  {
  }

  /** `comments || defaultComments`: the pool getSettings reports and performComment
      draws from. A stored empty array is truthy, so it is kept. */
  function CommentPool(s: Store): (pool: seq<string>)
    ensures s.comments.None? ==> pool == DefaultComments
    ensures s.comments.Some? ==> pool == s.comments.value
  {
    s.comments.GetOr(DefaultComments)
  }
}
