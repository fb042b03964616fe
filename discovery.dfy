/** Discovery: the paginated scan of the "now fundraising" listing that collects the
    items not yet participated in, stopping at the first one already participated in. */
module Discovery {
  import opened Types

  /** The scan never requests a page beyond this one. */
  const MaxPages: nat := 50

  /** The items of one page up to, and excluding, the first id in `seen`. */
  function TakeUnseen(c: seq<Item>, seen: set<Id>): seq<Item> {
    if c == [] then []
    else if c[0].id in seen then []
    else [c[0]] + TakeUnseen(c[1..], seen)
  }

  /** The kept items are a prefix of the page without a seen id, and the first item
      left out, if any, has a seen id. */
  lemma {:induction false} TakeUnseenSpec(c: seq<Item>, seen: set<Id>)
    ensures var r := TakeUnseen(c, seen);
      && r <= c
      && (forall i :: 0 <= i < |r| ==> r[i].id !in seen)
      && (|r| < |c| ==> c[|r|].id in seen)
  {
    if c != [] && c[0].id !in seen {
      TakeUnseenSpec(c[1..], seen);
    }
  }

  /** A seen-free prefix that stops at a seen id (or at the end) is what TakeUnseen
      keeps. */
  lemma {:induction false} TakeUnseenIs(c: seq<Item>, seen: set<Id>, j: nat)
    requires j <= |c|
    requires forall i :: 0 <= i < j ==> c[i].id !in seen
    requires j < |c| ==> c[j].id in seen
    ensures TakeUnseen(c, seen) == c[..j]
  {
    if j > 0 {
      TakeUnseenIs(c[1..], seen, j - 1);
      assert c[..j] == [c[0]] + c[1..][..j - 1];
    }
  }

  lemma {:induction false} TakeUnseenAppend(a: seq<Item>, b: seq<Item>, seen: set<Id>)
    requires TakeUnseen(a, seen) == a
    ensures TakeUnseen(a + b, seen) == a + TakeUnseen(b, seen)
  {
    if a == [] {
      assert a + b == b;
    } else {
      var x, a', ab := a[0], a[1..], a + b;
      assert x.id !in seen;
      assert TakeUnseen(a', seen) == a';
      TakeUnseenAppend(a', b, seen);
      assert ab[0] == x && ab[1..] == a' + b;
      assert [x] + a' == a;
    }
  }

  function ListingError(f: Failure): string {
    match f
    case HttpStatus(status, text) => "API 호출 실패: " + status + " - " + text
    case Thrown(message) => message
  }

  /** The message of the error a failed listing request makes discovery throw. */
  function DiscoveryError(f: Failure): string {
    "기부 목록을 가져올 수 없습니다: " + ListingError(f)
  }

  /** The outcome of a scan and the page numbers it requested, in order. */
  datatype Scan = Scan(outcome: Result<seq<Item>>, requested: seq<nat>)

  /** Whether, after page `n` answered `p`, the scan requests page `n + 1`: the page
      has a content array, none of its ids was seen, it is not the last page, `n` is
      below `totalPages`, and the ceiling is not reached. */
  predicate Continues(p: PageResponse, n: nat, seen: set<Id>) {
    && p.Body?
    && p.content.Some?
    && TakeUnseen(p.content.value, seen) == p.content.value
    && !p.last
    && n < p.totalPages
    && n < MaxPages
  }

  /** The items a page contributes to the listing (none without a content array). */
  function Content(p: PageResponse): seq<Item> {
    if p.Body? && p.content.Some? then p.content.value else []
  }

  /** The content of pages `n` .. `n + k - 1`, concatenated in page order. */
  function Listing(page: nat -> PageResponse, n: nat, k: nat): seq<Item>
    decreases k
  {
    if k == 0 then [] else Content(page(n)) + Listing(page, n + 1, k - 1)
  }

  function Prefixed(items: seq<Item>, r: Result<seq<Item>>): Result<seq<Item>> {
    match r
    case Ok(rest) => Ok(items + rest)
    case Err(e) => Err(e)
  }

  /** The scan that starts at page `n`: its reference definition. */
  function Discover(page: nat -> PageResponse, seen: set<Id>, n: nat): Scan
    requires 1 <= n <= MaxPages
    decreases MaxPages - n
  {
    match page(n)
    case PageFailed(f) => Scan(Err(DiscoveryError(f)), [n])
    case Body(None, _, _) => Scan(Ok([]), [n])
    case Body(Some(c), _, _) =>
      if Continues(page(n), n, seen) then
        var rest := Discover(page, seen, n + 1);
        Scan(Prefixed(c, rest.outcome), [n] + rest.requested)
      else
        Scan(Ok(TakeUnseen(c, seen)), [n])
  }

  /** The scan `s` continued after items `acc` already collected on pages `req`. */
  function Then(acc: seq<Item>, req: seq<nat>, s: Scan): Scan {
    Scan(Prefixed(acc, s.outcome), req + s.requested)
  }

  /** One step of the scan, seen from a point where `acc` was collected on pages `req`. */
  lemma DiscoverUnfold(page: nat -> PageResponse, seen: set<Id>, n: nat, acc: seq<Item>, req: seq<nat>)
    requires 1 <= n <= MaxPages
    ensures var p, t := page(n), Then(acc, req, Discover(page, seen, n));
      && (p.PageFailed? ==> t == Scan(Err(DiscoveryError(p.failure)), req + [n]))
      && (p.Body? && p.content.None? ==> t == Scan(Ok(acc), req + [n]))
      && (p.Body? && p.content.Some? && !Continues(p, n, seen) ==>
            t == Scan(Ok(acc + TakeUnseen(p.content.value, seen)), req + [n]))
      && (Continues(p, n, seen) ==>
            t == Then(acc + p.content.value, req + [n], Discover(page, seen, n + 1)))
  {
    var p := page(n);
    if p.Body? && p.content.None? {
      assert acc + [] == acc;
    }
    if Continues(p, n, seen) {
      var s := Discover(page, seen, n + 1);
      assert req + ([n] + s.requested) == (req + [n]) + s.requested;
      if s.outcome.Ok? {
        assert acc + (p.content.value + s.outcome.value) == (acc + p.content.value) + s.outcome.value;
      }
    }
  }

  /** Pages are requested one after another from `n` on, never past page 50. */
  lemma {:induction false} DiscoverRequestsConsecutive(page: nat -> PageResponse, seen: set<Id>, n: nat)
    requires 1 <= n <= MaxPages
    ensures var r := Discover(page, seen, n).requested;
      && 1 <= |r|
      && n + |r| - 1 <= MaxPages
      && forall i :: 0 <= i < |r| ==> r[i] == n + i
    decreases MaxPages - n
  {
    if Continues(page(n), n, seen) {
      DiscoverRequestsConsecutive(page, seen, n + 1);
    }
  }

  /** Every requested page but the last satisfied the continuation condition, and the
      last one did not: the next page is requested exactly when the condition holds. */
  lemma {:induction false} DiscoverContinuesOnlyIf(page: nat -> PageResponse, seen: set<Id>, n: nat)
    requires 1 <= n <= MaxPages
    ensures var r := Discover(page, seen, n).requested;
      && |r| >= 1
      && (forall i :: 0 <= i < |r| - 1 ==> Continues(page(r[i]), r[i], seen))
      && !Continues(page(r[|r| - 1]), r[|r| - 1], seen)
    decreases MaxPages - n
  {
    if Continues(page(n), n, seen) {
      DiscoverContinuesOnlyIf(page, seen, n + 1);
      var r := Discover(page, seen, n + 1).requested;
      assert Discover(page, seen, n).requested == [n] + r;
    }
  }

  /** Discovery fails exactly when the last requested page failed, with that page's
      error; no partial list is returned. */
  lemma {:induction false} DiscoverFailsOnFailedPage(page: nat -> PageResponse, seen: set<Id>, n: nat)
    requires 1 <= n <= MaxPages
    ensures var s := Discover(page, seen, n);
      && |s.requested| >= 1
      && var last := page(s.requested[|s.requested| - 1]);
      && (s.outcome.Err? <==> last.PageFailed?)
      && (s.outcome.Err? ==> s.outcome.error == DiscoveryError(last.failure))
    decreases MaxPages - n
  {
    if Continues(page(n), n, seen) {
      DiscoverFailsOnFailedPage(page, seen, n + 1);
    }
  }

  /** A successful scan returns exactly the concatenated content of the requested
      pages, cut before the first id already in `seen`; so none of its ids is in `seen`. */
  lemma {:induction false} DiscoverExact(page: nat -> PageResponse, seen: set<Id>, n: nat)
    requires 1 <= n <= MaxPages
    ensures var s := Discover(page, seen, n);
      s.outcome.Ok? ==>
        && s.outcome.value == TakeUnseen(Listing(page, n, |s.requested|), seen)
        && forall i :: 0 <= i < |s.outcome.value| ==> s.outcome.value[i].id !in seen
    decreases MaxPages - n
  {
    var s := Discover(page, seen, n);
    TakeUnseenSpec(Listing(page, n, |s.requested|), seen);
    DiscoverRequestsConsecutive(page, seen, n);
    if Continues(page(n), n, seen) {
      DiscoverExact(page, seen, n + 1);
      var rest := Discover(page, seen, n + 1);
      var c := page(n).content.value;
      assert Listing(page, n, |s.requested|) == c + Listing(page, n + 1, |rest.requested|);
      if s.outcome.Ok? {
        TakeUnseenAppend(c, Listing(page, n + 1, |rest.requested|), seen);
      }
    } else {
      assert |s.requested| == 1;
      assert Listing(page, n + 1, 0) == [];
      assert Listing(page, n, 1) == Content(page(n)) + [] == Content(page(n));
    }
  }

  /** The scan looks at no page it did not request: listings that agree on the
      requested pages give the same scan. */
  lemma {:induction false} DiscoverReadsOnlyRequested(page: nat -> PageResponse, page': nat -> PageResponse, seen: set<Id>, n: nat)
    requires 1 <= n <= MaxPages
    requires forall k :: k in Discover(page, seen, n).requested ==> page'(k) == page(k)
    ensures Discover(page', seen, n) == Discover(page, seen, n)
    decreases MaxPages - n
  {
    var r := Discover(page, seen, n).requested;
    assert r[0] == n;
    if Continues(page(n), n, seen) {
      forall k | k in Discover(page, seen, n + 1).requested ensures page'(k) == page(k) {
        assert k in r;
      }
      DiscoverReadsOnlyRequested(page, page', seen, n + 1);
    }
  }
}
