/** The participation engine: one object holding the single-flight flag and the
    persisted store, the run it executes on demand or on a timer, and the message
    handlers of the control surface. */
module Engine {
  import opened Types
  import opened OrderedSet
  import opened Discovery
  import opened Participation
  import opened ExecutionLog
  import opened Settings

  const AlreadyRunningError: string := "이미 실행 중입니다."
  const DisabledError: string := "자동화 기능이 비활성화되어 있습니다."
  const EmptyListError: string := "기부 목록을 가져올 수 없습니다."
  const NothingToDoMessage: string := "처리할 새로운 기부 항목이 없습니다."
  const UnknownActionError: string := "Unknown action"

  /** The ids discovery treats as already participated in. */
  function Seen(s: Store): set<Id> {
    Elements(s.participatedContentIds.GetOr([]))
  }

  /** The listed items whose status is `STATUS_FUNDING`, in listing order. */
  function FundingOnly(items: seq<Item>): seq<Item> {
    if items == [] then []
    else (if items[0].status == FundingStatus then [items[0]] else []) + FundingOnly(items[1..])
  }

  /** The filter keeps exactly the listed items whose status is `STATUS_FUNDING`, and
      never more items than were listed. */
  lemma {:induction false} FundingOnlyKeeps(items: seq<Item>)
    ensures var r := FundingOnly(items);
      && |r| <= |items|
      && forall x :: x in r <==> x in items && x.status == FundingStatus
  {
    if items != [] {
      FundingOnlyKeeps(items[1..]);
      assert items == [items[0]] + items[1..];
    }
  }

  /** The filter distributes over concatenation, so it keeps the order of the items
      it keeps (and repeats them as often as they are listed). */
  lemma {:induction false} FundingOnlyConcat(a: seq<Item>, b: seq<Item>)
    ensures FundingOnly(a + b) == FundingOnly(a) + FundingOnly(b)
  {
    if a == [] {
      assert a + b == b;
    } else {
      var ab := a + b;
      assert ab[0] == a[0] && ab[1..] == a[1..] + b;
      FundingOnlyConcat(a[1..], b);
    }
  }

  /** On one item the filter keeps it exactly when its status is `STATUS_FUNDING`. */
  lemma FundingOnlySingle(x: Item)
    ensures FundingOnly([x]) == if x.status == FundingStatus then [x] else []
  {
    assert [x][1..] == [];
  }

  function ListCalls(pages: seq<nat>): (r: seq<Call>)
    ensures |r| == |pages|
    ensures forall i :: 0 <= i < |r| ==> r[i] == ListPage(pages[i])
  {
    seq(|pages|, i requires 0 <= i < |pages| => ListPage(pages[i]))
  }

  /** The reply of a run that failed after the guards: the initial result record with
      the error set. */
  function Failed(error: string): RunResult {
    RunResult(false, 0, [], None, Some(error))
  }

  /** The reply of a run, the store after it, and the requests it issued. */
  datatype RunOutcome = RunOutcome(result: RunResult, store: Store, calls: seq<Call>)

  /** The log entry a run that reached the loop appends. */
  function EntryOf(env: Env, list: seq<Item>, funding: seq<Item>, t: Tally): LogEntry {
    LogEntry(env.startTime, |t.joined|, |list|, |funding|, |list| - |funding|, t.errors, env.duration)
  }

  /** The per-item loop and the writes after it, on a run that reached the loop. */
  function FullRun(s: Store, env: Env, list: seq<Item>, funding: seq<Item>): RunOutcome {
    var t := Participate(funding, env, |funding|);
    var ids := Dedup(s.participatedContentIds.GetOr([]) + t.joined);
    var s' := Merge(s, Store(None, None, Some(At(env.startTime)), Some(ids), None));
    var s'' := s'.(executionLog := Some(AppendBounded(s'.executionLog.GetOr([]), EntryOf(env, list, funding, t))));
    RunOutcome(RunResult(true, |t.joined|, t.errors, None, None), s'', CallsOf(funding, Picks(CommentPool(s), env), |funding|))
  }

  /** Reference definition of one run, from the single-flight flag and the store. */
  function Run(running: bool, s: Store, env: Env): RunOutcome {
    if running then RunOutcome(Refused(AlreadyRunningError), s, [])
    else if !Truthy(s.isEnabled) then RunOutcome(Refused(DisabledError), s, [])
    else
      var scan := Discover(env.page, Seen(s), 1);
      var listing := ListCalls(scan.requested);
      match scan.outcome
      case Err(e) => RunOutcome(Failed(e), s, listing)
      case Ok(list) =>
        if list == [] then RunOutcome(Failed(EmptyListError), s, listing)
        else
          var funding := FundingOnly(list);
          if funding == [] then
            RunOutcome(RunResult(true, 0, [], Some(NothingToDoMessage), None), s, listing)
          else
            var full := FullRun(s, env, list, funding);
            RunOutcome(full.result, full.store, listing + full.calls)
  }

  /** Whether a run gets past every guard and early exit into the per-item loop. */
  predicate ReachesLoop(running: bool, s: Store, env: Env) {
    && !running
    && Truthy(s.isEnabled)
    && var scan := Discover(env.page, Seen(s), 1);
    && scan.outcome.Ok?
    && FundingOnly(scan.outcome.value) != []
  }

  /** A run refused by the single-flight flag or the enabled flag reports failure with
      its reason, writes nothing and issues no request. */
  lemma RunGuards(running: bool, s: Store, env: Env)
    requires running || !Truthy(s.isEnabled)
    ensures var o := Run(running, s, env);
      && o.result == Refused(if running then AlreadyRunningError else DisabledError)
      && !o.result.Success()
      && o.store == s
      && o.calls == []
  {
  }

  /** A run that stops before the loop leaves the store as it was and requests listing
      pages only. Past the guards, a failed discovery reports its error, an empty one
      is an error too, and a listing without funding items is the only early exit
      that reports success. */
  lemma RunEarlyExitKeepsStore(running: bool, s: Store, env: Env)
    requires !ReachesLoop(running, s, env)
    ensures var o := Run(running, s, env);
      && o.store == s
      && (forall i :: 0 <= i < |o.calls| ==> o.calls[i].ListPage?)
      && (o.result.Success() <==>
            !running && Truthy(s.isEnabled) && Discover(env.page, Seen(s), 1).outcome.Ok?
            && Discover(env.page, Seen(s), 1).outcome.value != [])
    ensures var o, scan := Run(running, s, env), Discover(env.page, Seen(s), 1);
      !running && Truthy(s.isEnabled) ==>
        && o.calls == ListCalls(scan.requested)
        && (scan.outcome.Err? ==> o.result == Failed(scan.outcome.error))
        && (scan.outcome == Ok([]) ==> o.result == Failed(EmptyListError))
        && (scan.outcome.Ok? && scan.outcome.value != [] ==>
              o.result == RunResult(true, 0, [], Some(NothingToDoMessage), None))
  {
  }

  /** On a run that reaches the loop, every funding item is counted either as
      processed (its comment succeeded) or as one error (its comment failed). */
  lemma RunPartition(running: bool, s: Store, env: Env)
    requires ReachesLoop(running, s, env)
    ensures var o := Run(running, s, env);
      var funding := FundingOnly(Discover(env.page, Seen(s), 1).outcome.value);
      && o.result.success
      && o.result.processedCount + |o.result.errors| == |funding|
      && o.result.processedCount == SucceededCount(env, |funding|)
      && forall e :: e in o.result.errors ==>
           exists k :: 0 <= k < |funding| && env.comment(k).CallFailed? && e == ItemError(funding[k], env.comment(k).failure)
  {
    var funding := FundingOnly(Discover(env.page, Seen(s), 1).outcome.value);
    ParticipatePartition(funding, env, |funding|);
    ParticipateErrorsTraced(funding, env, |funding|);
  }

  /** The persisted participated ids after a full run: the old ones, in their order,
      followed by the ids of the processed items; each id once. The set only grows. */
  lemma RunParticipatedGrows(running: bool, s: Store, env: Env)
    requires ReachesLoop(running, s, env)
    ensures var o := Run(running, s, env);
      var funding := FundingOnly(Discover(env.page, Seen(s), 1).outcome.value);
      var old_ := s.participatedContentIds.GetOr([]);
      var joined := Participate(funding, env, |funding|).joined;
      && o.store.participatedContentIds.Some?
      && var ids := o.store.participatedContentIds.value;
      && Dedup(old_) <= ids
      && Elements(ids) == Elements(old_) + Elements(joined)
      && Seen(s) <= Elements(ids)
      && NoDuplicates(ids)
      && o.store.lastExecutionTime == Some(At(env.startTime))
  {
    var funding := FundingOnly(Discover(env.page, Seen(s), 1).outcome.value);
    var old_ := s.participatedContentIds.GetOr([]);
    var joined := Participate(funding, env, |funding|).joined;
    DedupGrows(old_, joined);
    DedupSound(old_ + joined);
    ElementsConcat(old_, joined);
  }

  /** A full run appends one entry describing it to the log, which keeps at most 50
      entries; the counts satisfy skipped = total - new. */
  lemma RunLogsOnce(running: bool, s: Store, env: Env)
    requires ReachesLoop(running, s, env)
    ensures var o := Run(running, s, env);
      var list := Discover(env.page, Seen(s), 1).outcome.value;
      var funding := FundingOnly(list);
      var oldLog := s.executionLog.GetOr([]);
      && o.store.executionLog.Some?
      && var log := o.store.executionLog.value;
      && |log| == Min(MaxEntries, |oldLog| + 1)
      && log[..|log| - 1] == oldLog[|oldLog| + 1 - |log|..]
      && var e := log[|log| - 1];
      && e.timestamp == env.startTime
      && e.totalCount == |list|
      && e.newCount == |funding|
      && e.skippedCount == e.totalCount - e.newCount >= 0
      && e.processedCount == o.result.processedCount
      && e.errors == o.result.errors
  {
    var list := Discover(env.page, Seen(s), 1).outcome.value;
    var funding := FundingOnly(list);
    var t := Participate(funding, env, |funding|);
    FundingOnlyKeeps(list);
    AppendBoundedKeepsNewest(s.executionLog.GetOr([]), EntryOf(env, list, funding, t));
  }

  /** With id 7 already participated in and page 1 listing 9, 8, 7, 6, discovery
      returns 9 and 8, never considers 6, and requests no second page. */
  lemma DiscoverStopsAtSeen(page: nat -> PageResponse, i9: Item, i8: Item, i7: Item, i6: Item)
    requires i9.id == "9" && i8.id == "8" && i7.id == "7" && i6.id == "6"
    requires page(1) == Body(Some([i9, i8, i7, i6]), false, 5)
    ensures Discover(page, {"7"}, 1) == Scan(Ok([i9, i8]), [1])
  {
    var c := [i9, i8, i7, i6];
    TakeUnseenIs(c, {"7"}, 2);
    assert c[..2] == [i9, i8];
  }

  /** Nothing participated in yet, three funding items over two pages, every comment
      accepted: all three are processed, stored in listing order, and one log entry
      counts three discovered, three new and none skipped. */
  lemma ThreeItemsOverTwoPages(s: Store, env: Env, a: Item, b: Item, c: Item)
    requires s.isEnabled == Some(true) && s.participatedContentIds == Some([]) && s.executionLog == Some([])
    requires a.status == FundingStatus && b.status == FundingStatus && c.status == FundingStatus
    requires a.id != b.id && a.id != c.id && b.id != c.id
    requires env.page(1) == Body(Some([a, b]), false, 2)
    requires env.page(2) == Body(Some([c]), true, 2)
    requires forall k :: k < 3 ==> env.comment(k) == Succeeded
    ensures var o := Run(false, s, env);
      && o.result == RunResult(true, 3, [], None, None)
      && o.store.participatedContentIds == Some([a.id, b.id, c.id])
      && o.store.executionLog == Some([LogEntry(env.startTime, 3, 3, 3, 0, [], env.duration)])
  {
    var list := [a, b, c];
    assert Seen(s) == {};
    TwoPageScan(env.page, a, b, c);
    FundingOnlyAll(a, b, c);
    AllAccepted(a, b, c, env);
    FullRunOfAccepted(s, env, list);
  }

  /** The writes of a full run in which every funding item of `list` was accepted,
      from an empty participated list and an empty log. */
  lemma FullRunOfAccepted(s: Store, env: Env, list: seq<Item>)
    requires s.participatedContentIds == Some([]) && s.executionLog == Some([])
    requires var t := Participate(list, env, |list|);
      |t.joined| == |list| && t.errors == [] && NoDuplicates(t.joined)
    ensures var o := FullRun(s, env, list, list);
      && o.result == RunResult(true, |list|, [], None, None)
      && o.store.participatedContentIds == Some(Participate(list, env, |list|).joined)
      && o.store.executionLog == Some([LogEntry(env.startTime, |list|, |list|, |list|, 0, [], env.duration)])
  {
    var t := Participate(list, env, |list|);
    assert s.participatedContentIds.GetOr([]) + t.joined == t.joined;
    DedupOfDistinct(t.joined);
    var s' := Merge(s, Store(None, None, Some(At(env.startTime)), Some(t.joined), None));
    assert s'.executionLog.GetOr([]) == [];
    var e := EntryOf(env, list, list, t);
    assert e == LogEntry(env.startTime, |list|, |list|, |list|, 0, [], env.duration);
    assert AppendBounded([], e) == [e];
  }

  lemma FundingOnlyAll(a: Item, b: Item, c: Item)
    requires a.status == FundingStatus && b.status == FundingStatus && c.status == FundingStatus
    ensures FundingOnly([a, b, c]) == [a, b, c]
  {
    assert [a, b, c][1..] == [b, c] && [b, c][1..] == [c] && [c][1..] == [];
    assert FundingOnly([c]) == [c];
    assert FundingOnly([b, c]) == [b, c];
  }

  lemma TwoPageScan(page: nat -> PageResponse, a: Item, b: Item, c: Item)
    requires page(1) == Body(Some([a, b]), false, 2)
    requires page(2) == Body(Some([c]), true, 2)
    ensures Discover(page, {}, 1) == Scan(Ok([a, b, c]), [1, 2])
  {
    TakeUnseenIs([a, b], {}, 2);
    TakeUnseenIs([c], {}, 1);
    assert [a, b][..2] == [a, b] && [c][..1] == [c];
    assert [a, b] + [c] == [a, b, c];
  }

  lemma AllAccepted(a: Item, b: Item, c: Item, env: Env)
    requires forall k :: k < 3 ==> env.comment(k) == Succeeded
    ensures var t := Participate([a, b, c], env, 3);
      t.joined == [a.id, b.id, c.id] && t.errors == []
    ensures NoDuplicates([a.id, b.id, c.id]) <== a.id != b.id && a.id != c.id && b.id != c.id
  {
    assert env.comment(0) == Succeeded && env.comment(1) == Succeeded && env.comment(2) == Succeeded;
    var items := [a, b, c];
    assert Participate(items, env, 1).joined == [a.id];
    assert Participate(items, env, 2).joined == [a.id, b.id];
  }

  /** A control message from the popup or the options page. */
  datatype Request = Request(action: string, settings: Store)

  datatype Response =
    | StatusReply(isEnabled: bool, lastExecutionTime: Option<Stamp>, isRunning: bool, recentLogs: seq<LogEntry>)
    | ToggleReply(isEnabled: bool)
    | RunReply(run: RunResult)
    | SettingsReply(comments: seq<string>, isEnabled: bool)
    | UpdateReply
    | ErrorReply(error: string)
  {
    /** The `success` field of the reply. */
    predicate Success() {
      match this
      case RunReply(run) => run.Success()
      case ErrorReply(_) => false
      case _ => true
    }
  }

  predicate KnownAction(action: string) {
    action in {"getStatus", "toggleEnabled", "executeNow", "getSettings", "updateSettings"}
  }

  class Automation {
    /** Set while a run is in flight; a second run is refused meanwhile. */
    var isRunning: bool
    /** The extension's local storage. */
    var store: Store

    constructor (initial: Store)
      ensures !isRunning && store == initial
    {
      isRunning := false;
      store := initial;
    }

    /** Writes the default of every absent key, in one write, and only when some key
        is absent. */
    method SetupDefaultSettings() returns (wrote: bool)
      modifies this
      ensures store == Seeded(old(store))
      ensures isRunning == old(isRunning)
      ensures wrote <==> exists k :: Absent(old(store), k)
    {
      var existing := store;
      var toSet := EmptyStore;
      var i := 0;
      while i < |Keys|
        invariant 0 <= i <= |Keys|
        invariant forall j :: 0 <= j < i ==>
          if Absent(existing, Keys[j]) then SameAt(toSet, Defaults, Keys[j]) else Absent(toSet, Keys[j])
        invariant forall j :: i <= j < |Keys| ==> Absent(toSet, Keys[j])
      {
        var key := Keys[i];
        if Absent(existing, key) {
          toSet := CopyAt(toSet, Defaults, key);
        }
        i := i + 1;
      }
      forall k ensures SameAt(toSet, MissingDefaults(existing), k) {
        assert k == Keys[KeyIndex(k)];
      }
      SameEverywhere(toSet, MissingDefaults(existing));
      wrote := toSet != EmptyStore;
      MissingDefaultsEmpty(existing);
      if wrote {
        store := Merge(store, toSet);
      } else {
        SeedingFillsOnlyAbsent(existing);
      }
    }

    /** The status reply: the reported flag, the last run time, the in-flight flag and
        the last five log entries. */
    function GetStatus(): (r: Response)
      reads this
      ensures r.StatusReply? && r.Success()
      ensures r.isEnabled == ReportedEnabled(store.isEnabled)
      ensures r.isRunning == isRunning
      ensures r.lastExecutionTime == store.lastExecutionTime
      ensures var log := store.executionLog.GetOr([]);
        && |r.recentLogs| == Min(RecentCount, |log|)
        && forall i :: 0 <= i < |r.recentLogs| ==> r.recentLogs[i] == log[|log| - |r.recentLogs| + i]
    {
      StatusReply(ReportedEnabled(store.isEnabled), store.lastExecutionTime, isRunning, Recent(store.executionLog.GetOr([])))
    }

    /** Stores and reports the negation of the stored flag. */
    method ToggleEnabled() returns (r: Response)
      modifies this
      ensures r == ToggleReply(Toggled(old(store.isEnabled)))
      ensures store == old(store).(isEnabled := Some(r.isEnabled))
      ensures isRunning == old(isRunning)
    {
      var newStatus := Toggled(store.isEnabled);
      store := Merge(store, EmptyStore.(isEnabled := Some(newStatus)));
      r := ToggleReply(newStatus);
    }

    /** The comment pool and the reported flag, both with their defaults. */
    function GetSettings(): (r: Response)
      reads this
      ensures r.SettingsReply? && r.Success()
      ensures r.comments == CommentPool(store)
      ensures r.isEnabled == ReportedEnabled(store.isEnabled)
    {
      SettingsReply(CommentPool(store), ReportedEnabled(store.isEnabled))
    }

    /** Writes whatever keys the caller sends. */
    method UpdateSettings(settings: Store) returns (r: Response)
      modifies this
      ensures r == UpdateReply
      ensures store == Merge(old(store), settings)
      ensures isRunning == old(isRunning)
    {
      store := Merge(store, settings);
      r := UpdateReply;
    }

    /** Discovery as the engine runs it: pages 1, 2, ... until a seen id, the end of
        the listing, a page without content, or page 50; `requested` is the page
        numbers fetched, in order. */
    method FetchContentList(page: nat -> PageResponse) returns (outcome: Result<seq<Item>>, requested: seq<nat>)
      ensures Scan(outcome, requested) == Discover(page, Seen(store), 1)
    {
      var allContent: seq<Item> := [];
      var currentPage: nat := 1;
      var hasMorePages := true;
      var participatedSet := Elements(store.participatedContentIds.GetOr([]));
      ghost var target := Discover(page, participatedSet, 1);
      requested := [];
      assert Then([], [], target) == target by {
        if target.outcome.Ok? {
          assert [] + target.outcome.value == target.outcome.value;
        }
        assert [] + target.requested == target.requested;
      }
      while hasMorePages
        invariant 1 <= currentPage <= MaxPages
        invariant hasMorePages ==> target == Then(allContent, requested, Discover(page, participatedSet, currentPage))
        invariant !hasMorePages ==> target == Scan(Ok(allContent), requested)
        decreases MaxPages + 1 - currentPage + (if hasMorePages then 1 else 0)
      {
        DiscoverUnfold(page, participatedSet, currentPage, allContent, requested);
        requested := requested + [currentPage];
        var response := page(currentPage);
        if response.PageFailed? {
          outcome := Err(DiscoveryError(response.failure));
          return;
        }
        if response.content.Some? {
          var content := response.content.value;
          var kept, foundOldContent := ScanPage(content, participatedSet);
          allContent := allContent + kept;
          if foundOldContent {
            assert !Continues(response, currentPage, participatedSet);
            hasMorePages := false;
            break;
          }
          hasMorePages := !response.last && currentPage < response.totalPages;
          if hasMorePages && currentPage < MaxPages {
            assert Continues(response, currentPage, participatedSet);
            assert target == Then(allContent, requested, Discover(page, participatedSet, currentPage + 1));
          } else {
            assert !Continues(response, currentPage, participatedSet);
            assert target == Scan(Ok(allContent), requested);
          }
          currentPage := currentPage + 1;
        } else {
          assert target == Scan(Ok(allContent), requested);
          hasMorePages := false;
        }
        if currentPage > MaxPages {
          break;
        }
      }
      outcome := Ok(allContent);
    }

    /** The items of one listing page before the first id in `seen`, and whether
        such an id was met. */
    static method ScanPage(content: seq<Item>, seen: set<Id>) returns (kept: seq<Item>, foundOldContent: bool)
      ensures kept == TakeUnseen(content, seen)
      ensures foundOldContent <==> kept != content
    {
      kept, foundOldContent := [], false;
      var j := 0;
      while j < |content|
        invariant 0 <= j <= |content|
        invariant kept == content[..j]
        invariant forall i :: 0 <= i < j ==> content[i].id !in seen
      {
        if content[j].id in seen {
          foundOldContent := true;
          break;
        }
        kept := kept + [content[j]];
        j := j + 1;
      }
      TakeUnseenIs(content, seen, j);
      assert foundOldContent ==> |kept| < |content|;
      assert !foundOldContent ==> kept == content;
    }

    /** saveExecutionLog: push the entry, splice off the oldest beyond 50, store. */
    method SaveExecutionLog(entry: LogEntry)
      modifies this
      ensures store == old(store).(executionLog := Some(AppendBounded(old(store).executionLog.GetOr([]), entry)))
      ensures isRunning == old(isRunning)
    {
      var logs := store.executionLog.GetOr([]);
      logs := logs + [entry];
      if |logs| > MaxEntries {
        logs := logs[|logs| - MaxEntries..];
      }
      store := Merge(store, EmptyStore.(executionLog := Some(logs)));
    }

    /** The per-item loop of executeAutomation and the writes after it: the participated
        ids, the execution time and one log entry. */
    method ProcessAndRecord(env: Env, list: seq<Item>, funding: seq<Item>) returns (result: RunResult, itemCalls: seq<Call>)
      modifies this
      ensures isRunning == old(isRunning)
      ensures RunOutcome(result, store, itemCalls) == FullRun(old(store), env, list, funding)
    {
      ghost var full := FullRun(store, env, list, funding);
      var participated := store.participatedContentIds.GetOr([]);
      var ids, processedCount, errors;
      ids, processedCount, errors, itemCalls := ProcessItems(funding, Picks(CommentPool(store), env), participated, env);
      store := Merge(store, Store(None, None, Some(At(env.startTime)), Some(ids), None));
      var total := |list|;
      SaveExecutionLog(LogEntry(env.startTime, processedCount, total, |funding|, total - |funding|, errors, env.duration));
      result := RunResult(true, processedCount, errors, None, None);
      assert store == full.store;
    }

    /** One run: refused while another is in flight or while disabled; otherwise
        discovery, the funding filter, the per-item loop, and on the full path the
        participated ids, the run time and one log entry are stored. The in-flight
        flag is set for the run and cleared on every path. */
    method ExecuteAutomation(env: Env) returns (result: RunResult, calls: seq<Call>)
      modifies this
      ensures isRunning == old(isRunning)
      ensures RunOutcome(result, store, calls) == Run(old(isRunning), old(store), env)
    {
      if isRunning {
        return Refused(AlreadyRunningError), [];
      }
      if !Truthy(store.isEnabled) {
        return Refused(DisabledError), [];
      }
      isRunning := true;
      ghost var before := store;
      result := RunResult(false, 0, [], None, None);
      var contentList, requested := FetchContentList(env.page);
      ghost var scan := Discover(env.page, Seen(before), 1);
      assert scan.outcome == contentList && scan.requested == requested;
      calls := ListCalls(requested);
      if contentList.Err? {
        result := result.(error := Some(contentList.error));
      } else if contentList.value == [] {
        result := result.(error := Some(EmptyListError));
      } else {
        var newContents := FundingOnly(contentList.value);
        if newContents == [] {
          result := result.(success := true, message := Some(NothingToDoMessage));
        } else {
          var itemCalls;
          result, itemCalls := ProcessAndRecord(env, contentList.value, newContents);
          calls := calls + itemCalls;
        }
      }
      isRunning := false;
    }

    /** Dispatches a control message; an unknown action is answered with an error and
        changes nothing. `calls` is what a run requested (empty for other actions). */
    method HandleMessage(request: Request, env: Env) returns (response: Response, calls: seq<Call>)
      modifies this
      ensures !KnownAction(request.action) ==>
        response == ErrorReply(UnknownActionError) && store == old(store) && isRunning == old(isRunning) && calls == []
      ensures request.action == "getStatus" ==> response == old(GetStatus()) && store == old(store)
      ensures request.action == "toggleEnabled" ==>
        response == ToggleReply(Toggled(old(store.isEnabled))) && store == old(store).(isEnabled := Some(response.isEnabled))
      ensures request.action == "executeNow" ==>
        var o := Run(old(isRunning), old(store), env);
        response == RunReply(o.result) && store == o.store && calls == o.calls
      ensures request.action == "getSettings" ==> response == old(GetSettings()) && store == old(store)
      ensures request.action == "updateSettings" ==> response == UpdateReply && store == Merge(old(store), request.settings)
      ensures request.action != "executeNow" ==> calls == []
      ensures isRunning == old(isRunning)
    {
      calls := [];
      match request.action
      case "getStatus" => response := GetStatus();
      case "toggleEnabled" => response := ToggleEnabled();
      case "executeNow" =>
        var result;
        result, calls := ExecuteAutomation(env);
        response := RunReply(result);
      case "getSettings" => response := GetSettings();
      case "updateSettings" => response := UpdateSettings(request.settings);
      case _ => response := ErrorReply(UnknownActionError);
    }

    /** Toggling twice from a stored flag restores it, and both replies succeed. */
    method ToggleTwiceRestores() returns (first: Response, second: Response)
      requires store.isEnabled.Some?
      modifies this
      ensures first == ToggleReply(!old(store.isEnabled.value)) && first.Success()
      ensures second == ToggleReply(old(store.isEnabled.value)) && second.Success()
      ensures store == old(store)
    {
      first := ToggleEnabled();
      second := ToggleEnabled();
      ToggleTwice(old(store.isEnabled.value));
    }
  }

  function KeyIndex(k: Key): (i: nat)
    ensures i < |Keys| && Keys[i] == k
  {
    match k
    case IsEnabledKey => 0
    case CommentsKey => 1
    case LastExecutionTimeKey => 2
    case ParticipatedContentIdsKey => 3
    case ExecutionLogKey => 4
  }
}
