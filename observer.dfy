/**
 * `LeafURLSessionTaskObserver`: a table from transport tasks to the `LeafTask`s that wrap
 * them, kept up to date from the transport's key-value notifications. A state change is
 * mirrored into the wrapper and drives its progress (pause, resume, cancel, and removal
 * from the table once the transfer is over); any other notification recomputes the
 * progress counts from the transport's byte counters.
 */
module TaskObservers {
  import opened Wrappers
  import opened Text
  import opened LeafTypes
  import opened Tasks

  /** The key paths the observer registers for. */
  const StateKeyPath: string := "state"

  /** The response header whose value, when it is an `Int64`, replaces the expected total. */
  const UncompressedLengthField: string := "X-Uncompressed-Content-Length"

  /** `change?[.newKey]`: an integer, or a value of some other type. */
  datatype NewValue = IntValue(value: int) | OtherValue

  /** The transport state a notification reports: only for the `state` key path with a valid raw value. */
  function ReportedState(keyPath: string, newValue: NewValue): (s: Option<TransportState>)
    ensures s.Some? <==> keyPath == StateKeyPath && newValue.IntValue? && 0 <= newValue.value <= 3
    ensures s.Some? ==> s.value.RawValue() == newValue.value
  {
    if keyPath == StateKeyPath && newValue.IntValue? then TransportStateOf(newValue.value) else None
  }

  /** `LeafState(rawValue: state.rawValue)`, which exists for every transport state. */
  function Mirrored(s: TransportState): (m: LeafState)
    ensures m.RawValue() == s.RawValue()
  {
    TransportStatesMirror(s);
    LeafStateOf(s.RawValue()).value
  }

  /** A transport state after which the wrapper leaves the table. */
  predicate Finished(s: TransportState)
  {
    s == TaskCanceling || s == TaskCompleted
  }

  /** The completed count: the larger of the bytes received and sent. */
  function CompletedUnits(received: Int64, sent: Int64): (n: Int64)
    ensures n >= received && n >= sent
    ensures n == received || n == sent
  {
    if received >= sent then received else sent
  }

  /**
   * The total count: the uncompressed length a response header gives, when it parses as
   * an `Int64`; otherwise the larger of the bytes expected to be received and sent.
   */
  function TotalUnits(expectedToReceive: Int64, expectedToSend: Int64, headers: Option<map<string, string>>): (n: Int64)
  {
    match HeaderLength(headers)
    case Some(length) => length
    case None => CompletedUnits(expectedToReceive, expectedToSend)
  }

  /** `Int64(allHeaderFields["X-Uncompressed-Content-Length"])` */
  function HeaderLength(headers: Option<map<string, string>>): (n: Option<Int64>)
    ensures n.Some? ==> headers.Some? && UncompressedLengthField in headers.value
  {
    if headers.Some? && UncompressedLengthField in headers.value then ParseInt64(headers.value[UncompressedLengthField])
    else None
  }

  class Observer {
    var tasks: map<TransportTask, LeafTask>

    constructor ()
      ensures tasks == map[]
    {
      tasks := map[];
    }

    /** `add(_:_:)`: `tasks[task] = leafTask`, where a nil wrapper removes the entry. */
    method Add(task: TransportTask, leafTask: LeafTask?)
      modifies this`tasks
      ensures leafTask != null ==> tasks == old(tasks)[task := leafTask]
      ensures leafTask == null ==> tasks == old(tasks) - {task}
    {
      if leafTask != null {
        tasks := tasks[task := leafTask];
      } else {
        tasks := tasks - {task};
      }
    }

    /**
     * `observeValue(forKeyPath:of:change:context:)`. Returns the progress whose counts it
     * updated, or null when it returned early. A reported state is mirrored into the
     * wrapper; suspension pauses the wrapper's progress; cancellation cancels it and,
     * like completion, removes the entry and skips the counts; running resumes a paused
     * progress. A transport without a wrapper gets a fresh controlling progress, which
     * is not stored anywhere.
     */
    method ObserveValue(keyPath: Option<string>, task: TransportTask?, change: Option<NewValue>)
      returns (updated: Progress?)
      modifies this`tasks, (if task != null && task in tasks then {tasks[task]} else {})`state
      modifies (if task != null && task in tasks then {tasks[task]} else {})`delivered
      modifies (if task != null && task in tasks then {tasks[task].progress} else {})`completedUnitCount
      modifies (if task != null && task in tasks then {tasks[task].progress} else {})`totalUnitCount
      modifies (if task != null && task in tasks then {tasks[task].progress} else {})`paused
      modifies (if task != null && task in tasks then {tasks[task].progress} else {})`cancelled
      ensures keyPath.None? || task == null || change.None? ==> updated == null && tasks == old(tasks)
      ensures keyPath.Some? && task != null && change.Some? ==>
        var reported := ReportedState(keyPath.value, change.value);
        && (reported.Some? && Finished(reported.value) <==> updated == null)
        && (updated == null ==> tasks == old(tasks) - {task})
        && (updated != null ==> tasks == old(tasks))
        && (task in old(tasks) ==> ObservedTask(old(tasks)[task], task, reported, updated))
        && (task !in old(tasks) && updated != null ==>
              fresh(updated) && updated.pausable && updated.cancellable && updated.controlled == task
              && updated.completedUnitCount == CompletedUnits(task.countOfBytesReceived, task.countOfBytesSent)
              && updated.totalUnitCount
                 == TotalUnits(task.countOfBytesExpectedToReceive, task.countOfBytesExpectedToSend, task.responseHeaders))
    {
      if keyPath.None? || task == null || change.None? {
        return null;
      }
      var leafTask: LeafTask? := if task in tasks then tasks[task] else null;
      var taskProgress: Progress? := if leafTask != null then leafTask.progress else null;
      var reported := ReportedState(keyPath.value, change.value);
      if reported.Some? {
        var state := reported.value;
        if leafTask != null {
          leafTask.state := Mirrored(state);
        }
        if state != TaskRunning {
          if state == TaskSuspended {
            if taskProgress != null {
              taskProgress.Pause();
            }
          } else {
            if state == TaskCanceling && taskProgress != null {
              taskProgress.Cancel();
            }
            tasks := tasks - {task};
            return null;
          }
        } else if taskProgress != null && taskProgress.paused {
          taskProgress.Resume();
        }
      }
      if taskProgress == null {
        var total := TotalUnits(task.countOfBytesExpectedToReceive, task.countOfBytesExpectedToSend, task.responseHeaders);
        taskProgress := SyncProgress(task, total);
      }
      Publish(task, taskProgress, leafTask);
      updated := taskProgress;
    }
  }

  /**
   * The end of `observeValue`: the progress gets the completed count and the total the
   * transport's counters and headers give, and the wrapper's progress closure, if any,
   * is handed the progress.
   */
  method Publish(task: TransportTask, progress: Progress, leafTask: LeafTask?)
    modifies progress`completedUnitCount, progress`totalUnitCount, ({leafTask} - {null})`delivered
    ensures progress.completedUnitCount == CompletedUnits(task.countOfBytesReceived, task.countOfBytesSent)
    ensures progress.totalUnitCount
            == TotalUnits(task.countOfBytesExpectedToReceive, task.countOfBytesExpectedToSend, task.responseHeaders)
    ensures leafTask != null ==>
      leafTask.delivered == old(leafTask.delivered)
        + (if leafTask.progressClosure.Some? then [Progressed(leafTask.progressClosure.value, progress)] else [])
  {
    var completedUnitCount := CompletedUnits(task.countOfBytesReceived, task.countOfBytesSent);
    var totalUnitCount := CompletedUnits(task.countOfBytesExpectedToReceive, task.countOfBytesExpectedToSend);
    var length := HeaderLength(task.responseHeaders);
    if length.Some? {
      totalUnitCount := length.value;
    }
    progress.completedUnitCount := completedUnitCount;
    progress.totalUnitCount := totalUnitCount;
    if leafTask != null && leafTask.progressClosure.Some? {
      leafTask.delivered := leafTask.delivered + [Progressed(leafTask.progressClosure.value, progress)];
    }
  }

  /**
   * What a notification does to a wrapper that is in the table: its state mirrors the
   * reported one, its progress is paused, resumed or cancelled as that state demands and
   * its pause and cancel flags are otherwise left as they were,
   * and, unless the transfer is over, the progress carries the recomputed counts and the
   * progress closure, if any, has been handed that progress.
   */
  twostate predicate ObservedTask(leafTask: LeafTask, task: TransportTask, reported: Option<TransportState>,
                                  new updated: Progress?)
    reads leafTask, leafTask.progress, task
  {
    && leafTask.progress == old(leafTask.progress)
    && (reported.Some? ==> leafTask.state == Mirrored(reported.value))
    && (reported.None? ==> leafTask.state == old(leafTask.state))
    && (reported == Some(TaskSuspended) ==> leafTask.progress.paused)
    && (reported == Some(TaskRunning) ==> !leafTask.progress.paused)
    && (reported == Some(TaskCanceling) ==> leafTask.progress.cancelled)
    && (reported != Some(TaskCanceling) ==> leafTask.progress.cancelled == old(leafTask.progress.cancelled))
    && (reported != Some(TaskSuspended) && reported != Some(TaskRunning)
        ==> leafTask.progress.paused == old(leafTask.progress.paused))
    && (updated == null ==> leafTask.delivered == old(leafTask.delivered)
                            && leafTask.progress.completedUnitCount == old(leafTask.progress.completedUnitCount)
                            && leafTask.progress.totalUnitCount == old(leafTask.progress.totalUnitCount))
    && (updated != null ==>
          && updated == leafTask.progress
          && updated.completedUnitCount == CompletedUnits(task.countOfBytesReceived, task.countOfBytesSent)
          && updated.totalUnitCount
             == TotalUnits(task.countOfBytesExpectedToReceive, task.countOfBytesExpectedToSend, task.responseHeaders)
          && leafTask.delivered == old(leafTask.delivered)
             + (if leafTask.progressClosure.Some? then [Progressed(leafTask.progressClosure.value, updated)] else []))
  }

  /**
   * `syncProgress(_:totalUnitCount:)`: a pausable, cancellable progress whose handlers
   * control `task`.
   */
  method SyncProgress(task: TransportTask, totalUnitCount: Int64) returns (progress: Progress)
    ensures fresh(progress)
    ensures progress.totalUnitCount == totalUnitCount && progress.completedUnitCount == 0
    ensures progress.pausable && progress.cancellable && progress.controlled == task
    ensures !progress.paused && !progress.cancelled
  {
    progress := new Progress(totalUnitCount);
    progress.pausable := true;
    progress.cancellable := true;
    progress.controlled := task;
  }

  /** The pausing handler: suspends the controlled task unless it is already suspended. */
  method PausingHandler(progress: Progress)
    modifies ({progress.controlled} - {null})`commands
    ensures progress.controlled != null ==>
      progress.controlled.commands
      == old(progress.controlled.commands) + Guarded(progress.controlled.state != TaskSuspended, SuspendCommand)
  {
    var task := progress.controlled;
    if task != null && task.state != TaskSuspended {
      task.Suspend();
    }
  }

  /** The cancellation handler: cancels the controlled task unless it is already canceling. */
  method CancellationHandler(progress: Progress)
    modifies ({progress.controlled} - {null})`commands
    ensures progress.controlled != null ==>
      progress.controlled.commands
      == old(progress.controlled.commands) + Guarded(progress.controlled.state != TaskCanceling, CancelCommand)
  {
    var task := progress.controlled;
    if task != null && task.state != TaskCanceling {
      task.Cancel();
    }
  }

  /** The resuming handler: resumes the controlled task unless it is already running. */
  method ResumingHandler(progress: Progress)
    modifies ({progress.controlled} - {null})`commands
    ensures progress.controlled != null ==>
      progress.controlled.commands
      == old(progress.controlled.commands) + Guarded(progress.controlled.state != TaskRunning, ResumeCommand)
  {
    var task := progress.controlled;
    if task != null && task.state != TaskRunning {
      task.Resume();
    }
  }

  /** The command a handler sends, when its guard lets it through. */
  function Guarded(guard: bool, command: Command): (r: seq<Command>)
    ensures |r| <= 1
    ensures guard <==> r == [command]
  {
    if guard then [command] else []
  }

  // ---------------------------------------------------------------------------
  // Lemmas

  /** The header's length, when it parses, decides the total whatever the byte counters say. */
  lemma HeaderOverridesTotal(expectedToReceive: Int64, expectedToSend: Int64, headers: map<string, string>)
    requires UncompressedLengthField in headers
    requires ParseInt64(headers[UncompressedLengthField]).Some?
    ensures TotalUnits(expectedToReceive, expectedToSend, Some(headers)) == ParseInt64(headers[UncompressedLengthField]).value
  {
  }

  /** Without a usable header the total is the larger expected count. */
  lemma TotalWithoutHeader(expectedToReceive: Int64, expectedToSend: Int64, headers: Option<map<string, string>>)
    requires headers.None? || UncompressedLengthField !in headers.value
             || ParseInt64(headers.value[UncompressedLengthField]).None?
    ensures var n := TotalUnits(expectedToReceive, expectedToSend, headers);
      n >= expectedToReceive && n >= expectedToSend && (n == expectedToReceive || n == expectedToSend)
  {
  }

  /** An uncompressed length written as a decimal number overrides the total exactly. */
  lemma WrittenLengthOverrides(expectedToReceive: Int64, expectedToSend: Int64, headers: map<string, string>, length: Int64)
    requires UncompressedLengthField in headers && headers[UncompressedLengthField] == IntToString(length)
    ensures TotalUnits(expectedToReceive, expectedToSend, Some(headers)) == length
  {
    Int64RoundTrip(length);
  }

  /** A handler's guard makes it idempotent: once the LeafTask is in the target state, nothing is sent. */
  lemma HandlersIdle(s: TransportState)
    ensures Guarded(s != TaskSuspended, SuspendCommand) == [] <==> s == TaskSuspended
    ensures Guarded(s != TaskCanceling, CancelCommand) == [] <==> s == TaskCanceling
    ensures Guarded(s != TaskRunning, ResumeCommand) == [] <==> s == TaskRunning
  {
  }

  /** Only the `state` key path with a known raw value reports a state; byte-count notifications never do. */
  lemma CountNotificationsReportNoState(keyPath: string, newValue: NewValue)
    requires keyPath != StateKeyPath
    ensures ReportedState(keyPath, newValue).None?
  {
  }
}
