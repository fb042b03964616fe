/** Values the participation engine works with: listed items, the replies of the
    platform's HTTP endpoints, the persisted store and the per-run records. */
module Types {

  datatype Option<+T> = None | Some(value: T) {
    function GetOr(default: T): T {
      match this
      case Some(v) => v
      case None => default
    }
  }

  datatype Result<+T> = Ok(value: T) | Err(error: string)

  /** An item identifier, compared by equality only. */
  type Id = string

  /** One entry of the fundraising listing. A missing title is the empty string. */
  datatype Item = Item(id: Id, title: string, status: string)

  const FundingStatus: string := "STATUS_FUNDING"

  /** Why an HTTP call failed: a non-2xx reply (status code text and status or body
      text) or an exception thrown by the transport or by JSON decoding. */
  datatype Failure = HttpStatus(status: string, text: string) | Thrown(message: string)

  /** The reply to one listing request: a failure, or a decoded JSON body whose
      `content` may be missing. An absent `totalPages` behaves as 0. */
  datatype PageResponse =
    | PageFailed(failure: Failure)
    | Body(content: Option<seq<Item>>, last: bool, totalPages: int)

  /** The reply to one comment request. */
  datatype CallReply = Succeeded | CallFailed(failure: Failure)

  /** A value of Math.random(). */
  type Fraction = r: real | 0.0 <= r < 1.0

  /** Everything a run learns from the outside world: the listing reply for each page
      number, the reply to the k-th comment request, the random value drawn for the
      k-th comment, the start time as ISO-8601 text and the measured duration. */
  datatype Env = Env(
    page: nat -> PageResponse,
    comment: nat -> CallReply,
    pick: nat -> Fraction,
    startTime: string,
    duration: int)

  /** An HTTP request the engine issues, in the order issued. */
  datatype Call = ListPage(page: nat) | Like(id: Id) | Comment(id: Id, message: Option<string>)

  /** The reply of executeAutomation: a guard rejection carries only `success: false`
      and its reason; every other exit carries the full result record. */
  datatype RunResult =
    | Refused(reason: string)
    | RunResult(
        success: bool,
        processedCount: nat,
        errors: seq<string>,
        message: Option<string>,
        error: Option<string>)
  {
    /** The `success` field of the reply. */
    predicate Success() {
      RunResult? && success
    }
  }

  datatype LogEntry = LogEntry(
    timestamp: string,
    processedCount: nat,
    totalCount: nat,
    newCount: nat,
    skippedCount: int,
    errors: seq<string>,
    duration: int)

  /** The stored `lastExecutionTime`: `null` (as seeded) or an ISO-8601 instant. */
  datatype Stamp = Null | At(iso: string)

  /** The extension's local storage; `None` is a key that was never written. */
  datatype Store = Store(
    isEnabled: Option<bool>,
    comments: Option<seq<string>>,
    lastExecutionTime: Option<Stamp>,
    participatedContentIds: Option<seq<Id>>,
    executionLog: Option<seq<LogEntry>>)

  const EmptyStore: Store := Store(None, None, None, None, None)

  /** The engine's built-in comment pool. */
  const DefaultComments: seq<string> := [
    "응원합니다!",
    "좋은 일에 함께할 수 있어 기쁩니다.",
    "의미있는 활동이네요!",
    "작은 힘이지만 보탭니다.",
    "함께 만들어가요!"
  ]

  /** JavaScript truthiness of a stored `isEnabled`: absent counts as false. */
  predicate Truthy(b: Option<bool>) {
    b == Some(true)
  }
}
