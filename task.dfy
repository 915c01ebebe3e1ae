/**
 * `LeafTask`: the live handle of one transfer. Its state follows `resume`, `suspend`
 * and `cancel`, and becomes `.completed` whenever a response or an error is stored;
 * it keeps the caller's closures, the retry count and the bound transport task, and is
 * identified by its identifier alone.
 */
module Tasks {
  import opened Wrappers
  import opened Text
  import opened LeafTypes
  import opened Errors
  import opened Requests
  import opened Responses
  import opened URLRequests

  /** `LeafTask.LeafState`, with raw values 0 to 4. */
  datatype LeafState = Running | Suspended | Canceling | Completed | WaitingForConnectivity
  {
    function RawValue(): nat {
      match this
      case Running => 0
      case Suspended => 1
      case Canceling => 2
      case Completed => 3
      case WaitingForConnectivity => 4
    }

    /** `String(describing:)` of the case: its name. */
    function Name(): string {
      match this
      case Running => "running"
      case Suspended => "suspended"
      case Canceling => "canceling"
      case Completed => "completed"
      case WaitingForConnectivity => "waitingForConnectivity"
    }
  }

  /** `LeafState(rawValue:)` */
  function LeafStateOf(raw: int): (s: Option<LeafState>)
    ensures s.Some? <==> 0 <= raw <= 4
    ensures s.Some? ==> s.value.RawValue() == raw
  {
    if raw == 0 then Some(Running)
    else if raw == 1 then Some(Suspended)
    else if raw == 2 then Some(Canceling)
    else if raw == 3 then Some(Completed)
    else if raw == 4 then Some(WaitingForConnectivity)
    else None
  }

  /** `URLSessionTask.State`, with Foundation's raw values 0 to 3. */
  datatype TransportState = TaskRunning | TaskSuspended | TaskCanceling | TaskCompleted
  {
    function RawValue(): nat {
      match this
      case TaskRunning => 0
      case TaskSuspended => 1
      case TaskCanceling => 2
      case TaskCompleted => 3
    }
  }

  /** `URLSessionTask.State(rawValue:)` */
  function TransportStateOf(raw: int): (s: Option<TransportState>)
    ensures s.Some? <==> 0 <= raw <= 3
    ensures s.Some? ==> s.value.RawValue() == raw
  {
    if raw == 0 then Some(TaskRunning)
    else if raw == 1 then Some(TaskSuspended)
    else if raw == 2 then Some(TaskCanceling)
    else if raw == 3 then Some(TaskCompleted)
    else None
  }

  /** A control message sent to a transport task. */
  datatype Command = CancelCommand | SuspendCommand | ResumeCommand

  /** The kind of `URLSessionTask` a transfer runs on. */
  datatype TransferKind = DataTransfer | DownloadTransfer | UploadTransfer | StreamTransfer

  /**
   * `LeafTaskMetrics`: the platform's collected metrics (opaque) together with the LeafTask's
   * request and response at the time they were collected.
   */
  datatype Metrics = Metrics(collected: nat, request: Option<LeafRequest>, response: Option<LeafResponse>)

  /**
   * A Foundation `Progress`: its counts and flags. `controlled` is the transport task its
   * pausing, cancellation and resuming handlers act on, when Leaf installed them.
   */
  class Progress {
    var totalUnitCount: Int64
    var completedUnitCount: Int64
    var paused: bool
    var cancelled: bool
    var pausable: bool
    var cancellable: bool
    var controlled: TransportTask?

    /** `Progress(totalUnitCount:)` */
    constructor (totalUnitCount: Int64)
      ensures this.totalUnitCount == totalUnitCount && completedUnitCount == 0
      ensures !paused && !cancelled && !pausable && !cancellable && controlled == null
    {
      this.totalUnitCount := totalUnitCount;
      completedUnitCount := 0;
      paused := false;
      cancelled := false;
      pausable := false;
      cancellable := false;
      controlled := null;
    }

    method Pause()
      modifies this`paused
      ensures paused
    {
      paused := true;
    }

    method Resume()
      modifies this`paused
      ensures !paused
    {
      paused := false;
    }

    method Cancel()
      modifies this`cancelled
      ensures cancelled
    {
      cancelled := true;
    }
  }

  /**
   * A `URLSessionTask`, the transport behind a `LeafTask` (its `LeafTaskProtocol`): its
   * state and byte counters as Foundation reports them, and the control messages it has
   * been sent.
   */
  class TransportTask {
    const kind: TransferKind
    const taskIdentifier: Int64
    var state: TransportState
    var commands: seq<Command>
    var countOfBytesReceived: Int64
    var countOfBytesSent: Int64
    var countOfBytesExpectedToReceive: Int64
    var countOfBytesExpectedToSend: Int64
    /** `(response as? HTTPURLResponse)?.allHeaderFields` */
    var responseHeaders: Option<map<string, string>>
    var progress: Progress
    var taskDescription: Option<string>
    var priority: real
    const originalRequest: Option<URLRequest>
    var currentRequest: Option<URLRequest>

    /** A task as `URLSession` creates it for a request: suspended, nothing transferred. */
    constructor (kind: TransferKind, taskIdentifier: Int64, request: Option<URLRequest>)
      ensures this.kind == kind && this.taskIdentifier == taskIdentifier
      ensures originalRequest == request && currentRequest == request
      ensures taskDescription.None? && priority == DefaultPriority
      ensures state == TaskSuspended && commands == [] && responseHeaders.None?
      ensures countOfBytesReceived == 0 && countOfBytesSent == 0
      ensures countOfBytesExpectedToReceive == 0 && countOfBytesExpectedToSend == 0
      ensures fresh(progress)
    {
      this.kind := kind;
      this.taskIdentifier := taskIdentifier;
      state := TaskSuspended;
      commands := [];
      countOfBytesReceived := 0;
      countOfBytesSent := 0;
      countOfBytesExpectedToReceive := 0;
      countOfBytesExpectedToSend := 0;
      responseHeaders := None;
      progress := new Progress(0);
      taskDescription := None;
      priority := DefaultPriority;
      originalRequest := request;
      currentRequest := request;
    }

    method Cancel()
      modifies this`commands
      ensures commands == old(commands) + [CancelCommand]
    {
      commands := commands + [CancelCommand];
    }

    method Suspend()
      modifies this`commands
      ensures commands == old(commands) + [SuspendCommand]
    {
      commands := commands + [SuspendCommand];
    }

    method Resume()
      modifies this`commands
      ensures commands == old(commands) + [ResumeCommand]
    {
      commands := commands + [ResumeCommand];
    }
  }

  /** `URLSessionTask.defaultPriority` */
  const DefaultPriority: real := 0.5

  /** The `DispatchSemaphore` a blocking `sync` waits on: how often it has been signalled. */
  class Semaphore {
    var signals: nat

    constructor ()
      ensures signals == 0
    {
      signals := 0;
    }

    method Signal()
      modifies this
      ensures signals == old(signals) + 1
    {
      signals := signals + 1;
    }
  }

  /**
   * A closure stored in a task: one of the caller's, known by identity, or one of the
   * forwarding closures a retry installs, which hand their argument on to `target`.
   */
  datatype Callback = UserCallback(id: nat) | ForwardTo(target: LeafTask)

  /** One invocation of a stored closure, with its argument. */
  datatype Delivery =
    | Succeeded(closure: Callback, response: LeafResponse)
    | Failed(closure: Callback, error: LeafError)
    | Progressed(closure: Callback, progress: Progress)

  /** `RetryClosure`: given the response, the error and the retry count, whether to try again. */
  type RetryClosure = (Option<LeafResponse>, Option<LeafError>, nat) -> bool

  /** What a call of `sync()` does before it would block, or with what it returns at once. */
  datatype SyncStart = Settled(outcome: Result<LeafResponse, LeafError>) | Waiting

  /** What `sync()` returns after waking, as written: `response!` on a missing response is a trap. */
  datatype WakeOutcome = Woken(outcome: Result<LeafResponse, LeafError>) | Trapped

  class LeafTask {
    const identifier: Int64
    var request: Option<LeafRequest>
    var response: Option<LeafResponse>
    const taskDescription: Option<string>
    var state: LeafState
    var error: Option<LeafError>
    var priority: Option<real>
    var progress: Progress
    var metrics: Option<Metrics>
    /** The bound transport task (`leafTask: LeafTaskProtocol?`). */
    var leafTask: TransportTask?
    var retryCount: nat
    var dispatchSemaphore: Semaphore?
    var successClosure: Option<Callback>
    var failureClosure: Option<Callback>
    var retryClosure: Option<RetryClosure>
    var progressClosure: Option<Callback>
    /** Every invocation of one of this task's closures, in order. */
    var delivered: seq<Delivery>

    /**
     * `init(_ identifier: LeafTaskIdentifier? = nil, ...)`. The `didSet` observers do not
     * run inside an initialiser, so the state is the `state` argument even when a response
     * or an error is given. `random` is the value `arc4random()` would draw. Without a
     * progress object the total is `Int64(request?.contentLength ?? 0)`, a conversion that
     * traps above `Int64.max`.
     */
    constructor (identifier: Option<Int64>, random: nat, request: Option<LeafRequest> := None,
                 response: Option<LeafResponse> := None, taskDescription: Option<string> := None,
                 state: LeafState := Suspended, error: Option<LeafError> := None, priority: Option<real> := None,
                 progress: Progress? := null, metrics: Option<Metrics> := None, task: TransportTask? := null)
      requires random < 0x1_0000_0000
      requires progress == null && task == null && request.Some? && request.value.contentLength.Some?
               ==> request.value.contentLength.value <= Int64Max
      ensures this.identifier == identifier.GetOr(random)
      ensures this.request == request && this.response == response && this.error == error
      ensures this.taskDescription == (if taskDescription.Some? then taskDescription
                                       else if request.Some? then Some(Requests.Description(request.value)) else None)
      ensures this.state == state && this.priority == priority && this.metrics == metrics
      ensures progress != null ==> this.progress == progress
      ensures progress == null && task != null ==> this.progress == task.progress
      ensures progress == null && task == null ==>
        fresh(this.progress) && this.progress.completedUnitCount == 0
        && this.progress.totalUnitCount == (if request.Some? then request.value.contentLength.GetOr(0) else 0)
      ensures leafTask == task && retryCount == 0 && dispatchSemaphore == null
      ensures successClosure.None? && failureClosure.None? && retryClosure.None? && progressClosure.None?
      ensures delivered == []
    {
      this.request := request;
      this.identifier := identifier.GetOr(random);
      this.response := response;
      this.taskDescription := if taskDescription.Some? then taskDescription
                              else if request.Some? then Some(Requests.Description(request.value)) else None;
      this.state := state;
      this.error := error;
      this.priority := priority;
      if progress != null {
        this.progress := progress;
      } else if task != null {
        this.progress := task.progress;
      } else {
        var total := if request.Some? then request.value.contentLength.GetOr(0) else 0;
        this.progress := new Progress(total);
      }
      this.metrics := metrics;
      this.leafTask := task;
      retryCount := 0;
      dispatchSemaphore := null;
      successClosure := None;
      failureClosure := None;
      retryClosure := None;
      progressClosure := None;
      delivered := [];
    }

    /** Assigning `response`: its `didSet` completes the LeafTask. */
    method SetResponse(response: Option<LeafResponse>)
      modifies this`response, this`state
      ensures this.response == response && state == Completed
    {
      this.response := response;
      state := Completed;
    }

    /** Assigning `error`: its `didSet` completes the LeafTask. */
    method SetError(error: Option<LeafError>)
      modifies this`error, this`state
      ensures this.error == error && state == Completed
    {
      this.error := error;
      state := Completed;
    }

    /** `resume()`: running, and the transport told so when there is one. */
    method Resume()
      modifies this`state, ({leafTask} - {null})`commands
      ensures state == Running
      ensures leafTask != null ==> leafTask.commands == old(leafTask.commands) + [ResumeCommand]
    {
      state := Running;
      if leafTask != null {
        leafTask.Resume();
      }
    }

    /** `suspend()` */
    method Suspend()
      modifies this`state, ({leafTask} - {null})`commands
      ensures state == Suspended
      ensures leafTask != null ==> leafTask.commands == old(leafTask.commands) + [SuspendCommand]
    {
      state := Suspended;
      if leafTask != null {
        leafTask.Suspend();
      }
    }

    /** `cancel()` */
    method Cancel()
      modifies this`state, ({leafTask} - {null})`commands
      ensures state == Canceling
      ensures leafTask != null ==> leafTask.commands == old(leafTask.commands) + [CancelCommand]
    {
      state := Canceling;
      if leafTask != null {
        leafTask.Cancel();
      }
    }

    /** `async(success:failure:)`: only a suspended task takes the closures and starts. */
    method Async(success: Option<Callback>, failure: Option<Callback>)
      modifies this`state, this`successClosure, this`failureClosure, ({leafTask} - {null})`commands
      ensures old(state) != Suspended ==>
        state == old(state) && successClosure == old(successClosure) && failureClosure == old(failureClosure)
        && (leafTask != null ==> leafTask.commands == old(leafTask.commands))
      ensures old(state) == Suspended ==>
        state == Running && successClosure == success && failureClosure == failure
        && (leafTask != null ==> leafTask.commands == old(leafTask.commands) + [ResumeCommand])
    {
      if state != Suspended {
        return;
      }
      successClosure := success;
      failureClosure := failure;
      Resume();
    }

    /**
     * `sync()` up to its wait: a task that is not suspended answers at once; a suspended
     * one gets a semaphore and is resumed, and the caller blocks.
     */
    method Sync() returns (start: SyncStart)
      modifies this`state, this`dispatchSemaphore, ({leafTask} - {null})`commands
      ensures old(state) != Suspended ==>
        start == Settled(SettledOutcome(response, error)) && state == old(state)
        && dispatchSemaphore == old(dispatchSemaphore)
        && (leafTask != null ==> leafTask.commands == old(leafTask.commands))
      ensures old(state) == Suspended ==>
        start == Waiting && state == Running && dispatchSemaphore != null && fresh(dispatchSemaphore)
        && dispatchSemaphore.signals == 0
        && (leafTask != null ==> leafTask.commands == old(leafTask.commands) + [ResumeCommand])
    {
      if state != Suspended {
        if response.Some? {
          return Settled(Success(response.value));
        } else if error.Some? {
          return Settled(Failure(error.value));
        } else {
          return Settled(Failure(Leaf(None, "", None, None, None)));
        }
      }
      dispatchSemaphore := new Semaphore();
      Resume();
      start := Waiting;
    }

    /**
     * `sync()` after its wait: a timeout stores a timed-out error (completing the LeafTask);
     * then the error wins over the response. Where the source force-unwraps a missing
     * response this throws `LeafError.unknown` (see `WokenOutcomeAsWritten`).
     */
    method SyncAfterWait(timedOut: bool, describe: int -> string) returns (r: Result<LeafResponse, LeafError>)
      modifies this`error, this`state
      ensures timedOut ==> error == Some(TimedOutError(describe, old(response))) && state == Completed
      ensures !timedOut ==> error == old(error) && state == old(state)
      ensures r == WokenOutcome(response, error)
    {
      if timedOut {
        SetError(Some(TimedOutError(describe, response)));
      }
      if error.Some? {
        return Failure(error.value);
      }
      r := WokenOutcome(response, error);
    }

    /**
     * `cached()`: the stored response, else the URL cache's answer for the request
     * (`lookup`, what `URLCache.shared` holds for its `URLRequest`), else the stored error,
     * else a resource-unavailable error saying what was missing.
     */
    function Cached(lookup: Option<LeafResponse>, describe: int -> string): (r: Result<LeafResponse, LeafError>)
      reads this
      ensures response.Some? ==> r == Success(response.value)
      ensures response.None? && request.Some? && lookup.Some? ==> r == Success(lookup.value)
      ensures response.None? && (request.None? || lookup.None?) && error.Some? ==> r == Failure(error.value)
      ensures response.None? && error.None? && request.None? ==>
        r == Failure(UnavailableError(describe, "Request not found."))
      ensures response.None? && error.None? && request.Some? && lookup.None? ==>
        r == Failure(UnavailableError(describe, "Cached response not found."))
    {
      if response.Some? then Success(response.value)
      else if request.None? then
        (if error.Some? then Failure(error.value) else Failure(UnavailableError(describe, "Request not found.")))
      else if lookup.Some? then Success(lookup.value)
      else if error.Some? then Failure(error.value)
      else Failure(UnavailableError(describe, "Cached response not found."))
    }

    /** `retry(_:)` */
    method Retry(retry: Option<RetryClosure>)
      modifies this`retryClosure
      ensures retryClosure == retry
    {
      retryClosure := retry;
    }

    /** `progress(_:)` */
    method SetProgressClosure(progressClosure: Option<Callback>)
      modifies this`progressClosure
      ensures this.progressClosure == progressClosure
    {
      this.progressClosure := progressClosure;
    }

    /** `description`: the type name, the identifier, the state in parentheses, then the LeafTask description. */
    method Description() returns (description: string)
      ensures description == DescriptionOf(identifier, state, taskDescription)
    {
      description := TaskPrefix + IntToString(identifier) + " (" + state.Name() + ")";
      if taskDescription.Some? {
        description := description + " " + taskDescription.value;
      }
    }
  }

  // ---------------------------------------------------------------------------
  // Outcomes

  /** `URLError.Code.timedOut` and `.resourceUnavailable`, as `_code` reports them. */
  const TimedOutCode: int := -1001
  const ResourceUnavailableCode: int := -1008

  /** The error a timed-out wait stores; `describe` is the platform's text for a `URLError` code. */
  function TimedOutError(describe: int -> string, response: Option<LeafResponse>): (e: LeafError)
    ensures e.Leaf? && e.code == Some(TimedOutCode) && e.underlying == Some(Native(TimedOutCode, describe(TimedOutCode)))
  {
    Leaf(Some(TimedOutCode), describe(TimedOutCode),
         if response.Some? then response.value.headers else None,
         if response.Some? then response.value.responseObject else None,
         Some(Native(TimedOutCode, describe(TimedOutCode))))
  }

  /** The error `cached()` throws when it has nothing: the given message, a resource-unavailable cause. */
  function UnavailableError(describe: int -> string, message: string): (e: LeafError)
    ensures e.Leaf? && e.code == Some(ResourceUnavailableCode) && e.message == message
    ensures e.underlying == Some(Native(ResourceUnavailableCode, describe(ResourceUnavailableCode)))
  {
    Leaf(Some(ResourceUnavailableCode), message, None, None,
         Some(Native(ResourceUnavailableCode, describe(ResourceUnavailableCode))))
  }

  /** What `sync()` answers on a task that is not suspended: the response first, then the error. */
  function SettledOutcome(response: Option<LeafResponse>, error: Option<LeafError>): (r: Result<LeafResponse, LeafError>)
    ensures response.Some? <==> r.Success?
    ensures r.Success? ==> r.value == response.value
    ensures response.None? && error.Some? ==> r == Failure(error.value)
    ensures response.None? && error.None? ==> r == Failure(Leaf(None, "", None, None, None))
  {
    if response.Some? then Success(response.value)
    else if error.Some? then Failure(error.value)
    else Failure(Leaf(None, "", None, None, None))
  }

  /** `sync()` after waking, as written: the error first, then `response!`. */
  function WokenOutcomeAsWritten(response: Option<LeafResponse>, error: Option<LeafError>): (r: WakeOutcome)
    ensures r.Trapped? <==> response.None? && error.None?
  {
    if error.Some? then Woken(Failure(error.value))
    else if response.Some? then Woken(Success(response.value))
    else Trapped
  }

  /** `sync()` after waking, as intended: a missing response and error is the `unknown` failure the callbacks get. */
  function WokenOutcome(response: Option<LeafResponse>, error: Option<LeafError>): (r: Result<LeafResponse, LeafError>)
    ensures error.Some? ==> r == Failure(error.value)
    ensures error.None? && response.Some? ==> r == Success(response.value)
    ensures error.None? && response.None? ==> r == Failure(Unknown())
  {
    if error.Some? then Failure(error.value)
    else if response.Some? then Success(response.value)
    else Failure(Unknown())
  }

  /** `==`: the same identifier. */
  predicate Equal(a: LeafTask, b: LeafTask)
  {
    a.identifier == b.identifier
  }

  /** `hashValue`: the identifier's hash, whatever the platform's integer hash is. */
  function Hash(intHash: Int64 -> Int64, t: LeafTask): Int64
  {
    intHash(t.identifier)
  }

  /** What `description` starts with. */
  const TaskPrefix: string := "LeafTask "

  function DescriptionOf(identifier: Int64, state: LeafState, taskDescription: Option<string>): string
  {
    TaskPrefix + IntToString(identifier) + " (" + StateSuffix(state, taskDescription)
  }

  /** What follows the identifier's opening parenthesis. */
  function StateSuffix(state: LeafState, taskDescription: Option<string>): string
  {
    state.Name() + ")" + (if taskDescription.Some? then " " + taskDescription.value else "")
  }

  /** The identifier a task description names: the integer between `"LeafTask "` and `" ("`. */
  function IdentifierIn(description: string): Option<int>
  {
    if |description| < |TaskPrefix| || description[..|TaskPrefix|] != TaskPrefix then None
    else
      var rest := description[|TaskPrefix|..];
      match IndexOf(rest, " (", 0)
      case None => None
      case Some(k) => ParseInt64(rest[..k])
  }

  // ---------------------------------------------------------------------------
  // Lemmas

  /** The transport's states all have a `LeafState` of the same raw value, so the LeafTask can mirror them. */
  lemma TransportStatesMirror(s: TransportState)
    ensures LeafStateOf(s.RawValue()).Some? && LeafStateOf(s.RawValue()).value.RawValue() == s.RawValue()
  {
  }

  /** The state names differ from each other. */
  lemma StateNamesDistinct(a: LeafState, b: LeafState)
    requires a != b
    ensures a.Name() != b.Name()
  {
    assert a.Name()[0] != b.Name()[0] || |a.Name()| != |b.Name()| || a.Name()[2] != b.Name()[2];
  }

  /** Before the wait the response wins; after it the error does — they differ when both are set. */
  lemma SyncPrecedence(response: LeafResponse, error: LeafError)
    ensures SettledOutcome(Some(response), Some(error)) == Success(response)
    ensures WokenOutcome(Some(response), Some(error)) == Failure(error)
  {
  }

  /** With exactly one of response and error stored, both branches of `sync()` agree. */
  lemma SyncBranchesAgree(response: Option<LeafResponse>, error: Option<LeafError>)
    requires response.Some? != error.Some?
    ensures SettledOutcome(response, error) == WokenOutcome(response, error)
    ensures WokenOutcomeAsWritten(response, error) == Woken(WokenOutcome(response, error))
  {
  }

  /** A task that woke with neither a response nor an error traps as written. */
  lemma WokenTrap()
    ensures WokenOutcomeAsWritten(None, None) == Trapped
    ensures WokenOutcome(None, None) == Failure(Unknown())
  {
  }

  /** Equality is an equivalence, and equal tasks hash equally. */
  lemma EqualTasksHashEqually(intHash: Int64 -> Int64, a: LeafTask, b: LeafTask, c: LeafTask)
    ensures Equal(a, a)
    ensures Equal(a, b) ==> Equal(b, a) && Hash(intHash, a) == Hash(intHash, b)
    ensures Equal(a, b) && Equal(b, c) ==> Equal(a, c)
  {
  }

  /** The description names the identifier, which can be read back from it. */
  lemma DescriptionNamesIdentifier(identifier: Int64, state: LeafState, taskDescription: Option<string>)
    ensures IdentifierIn(DescriptionOf(identifier, state, taskDescription)) == Some(identifier as int)
  {
    DigitsHaveNoSpace(identifier);
    IdentifierAfterPrefix(IntToString(identifier), StateSuffix(state, taskDescription));
    Int64RoundTrip(identifier);
  }

  lemma IdentifierAfterPrefix(digits: string, rest: string)
    requires forall k :: 0 <= k < |digits| ==> digits[k] != ' '
    ensures IdentifierIn(TaskPrefix + digits + " (" + rest) == ParseInt64(digits)
  {
    var d := TaskPrefix + digits + " (" + rest;
    assert d[..|TaskPrefix|] == TaskPrefix;
    assert d[|TaskPrefix|..] == digits + " (" + rest;
    IndexOfSkipsPrefix(digits, " (", rest);
    assert (digits + " (" + rest)[..|digits|] == digits;
  }

  lemma DigitsHaveNoSpace(i: Int64)
    ensures forall k :: 0 <= k < |IntToString(i)| ==> IntToString(i)[k] != ' '
  {
    if i < 0 {
      NatToStringDigits(-(i as int));
      assert IntToString(i) == "-" + NatToString(-(i as int));
      forall k | 0 <= k < |IntToString(i)| ensures IntToString(i)[k] != ' ' {
        if k > 0 {
          assert IntToString(i)[k] == NatToString(-(i as int))[k - 1];
        }
      }
    } else {
      NatToStringDigits(i);
    }
  }
}
