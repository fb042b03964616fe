/** The per-item participation loop of a run: for each funding item, a like, then a
    comment drawn from the pool; an item joins the participated set only when its
    comment succeeds, and a failed comment becomes one error string. */
module Participation {
  import opened Types
  import opened OrderedSet

  /** `Math.floor(Math.random() * commentList.length)`. */
  function CommentIndex(count: nat, r: Fraction): (i: int)
    ensures count > 0 ==> 0 <= i < count
    ensures count == 0 ==> i == 0
  {
    (r * count as real).Floor
  }

  /** `commentList[index]`; `None` stands for the `undefined` an empty pool yields. */
  function ChooseComment(pool: seq<string>, r: Fraction): (m: Option<string>)
    ensures m.Some? <==> |pool| > 0
    ensures m.Some? ==> m.value in pool
  {
    var i := CommentIndex(|pool|, r);
    if 0 <= i < |pool| then Some(pool[i]) else None
  }

  /** The comment each comment request carries: the k-th request draws `env.pick(k)`
      and reads the pool. */
  function Picks(pool: seq<string>, env: Env): nat -> Option<string> {
    (k: nat) => ChooseComment(pool, env.pick(k))
  }

  /** The k-th comment is taken from the pool, and is undefined only when the pool is
      empty. */
  lemma PicksFromPool(pool: seq<string>, env: Env, k: nat)
    ensures var m := Picks(pool, env)(k);
      && (m.Some? <==> |pool| > 0)
      && (m.Some? ==> m.value in pool)
  {
    assert Picks(pool, env)(k) == ChooseComment(pool, env.pick(k));
  }

  /** The message of the error a failed comment request makes performComment throw.
      A non-2xx reply is wrapped twice, once where it is detected and once in the
      handler around it. */
  function CommentError(f: Failure): string {
    var inner := match f
      case HttpStatus(status, text) => "댓글 작성 실패: " + status + " - " + text
      case Thrown(message) => message;
    "댓글 작성 실패: " + inner
  }

  /** `content.title || content.id`. */
  function Label(item: Item): string {
    if item.title != "" then item.title else item.id
  }

  /** The error string recorded for an item whose comment failed. */
  function ItemError(item: Item, f: Failure): string {
    Label(item) + ": " + CommentError(f)
  }

  /** What the loop has produced after the first `n` items: the ids that joined, in
      order, and the error strings. */
  datatype Tally = Tally(joined: seq<Id>, errors: seq<string>)

  /** Reference definition of the loop over `items[..n]`. Item `k` receives the
      reply `env.comment(k)`. The like reply is no input at all: performLike swallows
      its own errors, so it cannot influence the run. */
  function Participate(items: seq<Item>, env: Env, n: nat): Tally
    requires n <= |items|
  {
    if n == 0 then Tally([], [])
    else
      var t := Participate(items, env, n - 1);
      var item := items[n - 1];
      match env.comment(n - 1)
      case Succeeded => Tally(t.joined + [item.id], t.errors)
      case CallFailed(f) => Tally(t.joined, t.errors + [ItemError(item, f)])
  }

  /** The requests the loop issues for `items[..n]`: a like, then a comment carrying
      `choose(k)`, for each item `k`. */
  function CallsOf(items: seq<Item>, choose: nat -> Option<string>, n: nat): seq<Call>
    requires n <= |items|
  {
    if n == 0 then []
    else CallsOf(items, choose, n - 1) + [Like(items[n - 1].id), Comment(items[n - 1].id, choose(n - 1))]
  }

  /** One more item: its id joins or its error is recorded according to its comment
      reply. */
  lemma ParticipateStep(items: seq<Item>, env: Env, n: nat)
    requires n < |items|
    ensures var t, item, reply := Participate(items, env, n), items[n], env.comment(n);
      Participate(items, env, n + 1) ==
        if reply.Succeeded? then Tally(t.joined + [item.id], t.errors)
        else Tally(t.joined, t.errors + [ItemError(item, reply.failure)])
  {
  }

  /** How many of the first `n` comment requests succeed. */
  function SucceededCount(env: Env, n: nat): nat {
    if n == 0 then 0
    else SucceededCount(env, n - 1) + (if env.comment(n - 1).Succeeded? then 1 else 0)
  }

  /** Every item lands in exactly one bucket: the processed count is the number of
      successful comments and the errors are the rest. */
  lemma {:induction false} ParticipatePartition(items: seq<Item>, env: Env, n: nat)
    requires n <= |items|
    ensures var t := Participate(items, env, n);
      && |t.joined| == SucceededCount(env, n)
      && |t.errors| == n - SucceededCount(env, n)
      && |t.joined| + |t.errors| == n
  {
    if n > 0 {
      ParticipatePartition(items, env, n - 1);
    }
  }

  /** An item joins exactly when its comment succeeds. */
  lemma {:induction false} ParticipateJoined(items: seq<Item>, env: Env, n: nat)
    requires n <= |items|
    ensures var t := Participate(items, env, n);
      && (forall k :: 0 <= k < n && env.comment(k).Succeeded? ==> items[k].id in t.joined)
      && (forall id :: id in t.joined ==>
            exists k :: 0 <= k < n && env.comment(k).Succeeded? && items[k].id == id)
  {
    if n > 0 {
      ParticipateJoined(items, env, n - 1);
      var t, t' := Participate(items, env, n - 1), Participate(items, env, n);
      assert forall id :: id in t.joined ==>
        exists k :: 0 <= k < n - 1 && env.comment(k).Succeeded? && items[k].id == id;
      assert t'.joined == t.joined + (if env.comment(n - 1).Succeeded? then [items[n - 1].id] else []);
      forall id | id in t'.joined
        ensures exists k :: 0 <= k < n && env.comment(k).Succeeded? && items[k].id == id
      {
        if id in t.joined {
          var k :| 0 <= k < n - 1 && env.comment(k).Succeeded? && items[k].id == id;
          assert 0 <= k < n;
        } else {
          assert env.comment(n - 1).Succeeded? && items[n - 1].id == id;
        }
      }
    }
  }

  /** Item `k`, whose comment failed, has its error string among those of any longer
      prefix. */
  lemma {:induction false} ErrorRecordedAt(items: seq<Item>, env: Env, n: nat, k: nat)
    requires k < n <= |items| && env.comment(k).CallFailed?
    ensures ItemError(items[k], env.comment(k).failure) in Participate(items, env, n).errors
    decreases n
  {
    ParticipateStep(items, env, n - 1);
    if k < n - 1 {
      ErrorRecordedAt(items, env, n - 1, k);
    }
  }

  /** Every item whose comment failed yields its error string: its label followed by
      the comment error. */
  lemma ParticipateErrorsRecorded(items: seq<Item>, env: Env, n: nat)
    requires n <= |items|
    ensures var t := Participate(items, env, n);
      forall k :: 0 <= k < n && env.comment(k).CallFailed? ==>
        ItemError(items[k], env.comment(k).failure) in t.errors
  {
    forall k | 0 <= k < n && env.comment(k).CallFailed?
      ensures ItemError(items[k], env.comment(k).failure) in Participate(items, env, n).errors
    {
      ErrorRecordedAt(items, env, n, k);
    }
  }

  /** Every error string comes from an item whose comment failed. */
  lemma {:induction false} ParticipateErrorsTraced(items: seq<Item>, env: Env, n: nat)
    requires n <= |items|
    ensures var t := Participate(items, env, n);
      forall e :: e in t.errors ==>
        exists k :: 0 <= k < n && env.comment(k).CallFailed? && e == ItemError(items[k], env.comment(k).failure)
  {
    if n > 0 {
      ParticipateErrorsTraced(items, env, n - 1);
      ParticipateStep(items, env, n - 1);
      var t, t' := Participate(items, env, n - 1), Participate(items, env, n);
      var r := env.comment(n - 1);
      forall e | e in t'.errors
        ensures exists k :: 0 <= k < n && env.comment(k).CallFailed? && e == ItemError(items[k], env.comment(k).failure)
      {
        if e in t.errors {
          var k :| 0 <= k < n - 1 && env.comment(k).CallFailed? && e == ItemError(items[k], env.comment(k).failure);
        } else {
          assert r.CallFailed? && e == ItemError(items[n - 1], r.failure);
        }
      }
    }
  }

  /** Each item gets a like request and then one comment request carrying its chosen
      comment, in item order. */
  lemma {:induction false} ParticipateCalls(items: seq<Item>, choose: nat -> Option<string>, n: nat)
    requires n <= |items|
    ensures var c := CallsOf(items, choose, n);
      && |c| == 2 * n
      && forall k :: 0 <= k < n ==>
           && c[2 * k] == Like(items[k].id)
           && c[2 * k + 1] == Comment(items[k].id, choose(k))
  {
    if n > 0 {
      ParticipateCalls(items, choose, n - 1);
      var c, c' := CallsOf(items, choose, n - 1), CallsOf(items, choose, n);
      forall k | 0 <= k < n
        ensures c'[2 * k] == Like(items[k].id) && c'[2 * k + 1] == Comment(items[k].id, choose(k))
      {
        if k < n - 1 {
          assert c'[2 * k] == c[2 * k] && c'[2 * k + 1] == c[2 * k + 1];
        }
      }
    }
  }

  /** The loop of a run: starts from the stored participated ids as a `Set`, and for
      each item likes it, comments on it, and on success adds its id and counts it. */
  method ProcessItems(items: seq<Item>, choose: nat -> Option<string>, participated: seq<Id>, env: Env)
    returns (ids: seq<Id>, processedCount: nat, errors: seq<string>, calls: seq<Call>)
    ensures var t := Participate(items, env, |items|);
      && ids == Dedup(participated + t.joined)
      && processedCount == |t.joined|
      && errors == t.errors
      && calls == CallsOf(items, choose, |items|)
    ensures processedCount + |errors| == |items|
  {
    ids := Dedup(participated);
    processedCount, errors, calls := 0, [], [];
    assert participated + [] == participated;
    ghost var t := Participate(items, env, 0);
    var k := 0;
    while k < |items|
      invariant k <= |items|
      invariant t == Participate(items, env, k)
      invariant ids == Dedup(participated + t.joined)
      invariant processedCount == |t.joined| && errors == t.errors
      invariant calls == CallsOf(items, choose, k)
    {
      var item := items[k];
      ParticipateStep(items, env, k);
      var message := choose(k);
      calls := calls + [Like(item.id), Comment(item.id, message)];
      var reply := env.comment(k);
      if reply.Succeeded? {
        DedupStep(participated, t.joined, item.id);
        ids := Insert(ids, item.id);
        processedCount := processedCount + 1;
        t := Tally(t.joined + [item.id], t.errors);
      } else {
        errors := errors + [ItemError(item, reply.failure)];
        t := Tally(t.joined, errors);
      }
      k := k + 1;
    }
    ParticipatePartition(items, env, |items|);
  }
}
