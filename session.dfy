/**
 * `LeafURLSession`: the session wrapper. It folds its request interceptors over a
 * request's builder before serialising it, folds its response interceptors over a
 * response's builder, turns transport errors into `LeafError`s, and `process` decides
 * whether a finished transfer is retried (reissued as a new data transfer that reports
 * back to the original task) or finished with one success or failure callback.
 */
module Sessions {
  import opened Wrappers
  import opened LeafTypes
  import opened Errors
  import opened Requests
  import RequestBuilders
  import opened URLRequests
  import opened Responses
  import ResponseBuilders
  import opened Tasks
  import opened TaskObservers
  import opened SessionDelegates

  /** `RequestInterceptor`, on a snapshot of the builder it is handed. */
  type RequestInterceptor = RequestBuilders.RequestFields -> RequestBuilders.RequestFields

  /** `ResponseInterceptor`, on a snapshot of the builder it is handed. */
  type ResponseInterceptor = ResponseBuilders.ResponseFields -> ResponseBuilders.ResponseFields

  /** `interceptors.forEach { builder = interceptor(builder) }`: a left fold in registration order. */
  function FoldRequest(interceptors: seq<RequestInterceptor>, f: RequestBuilders.RequestFields): RequestBuilders.RequestFields
  {
    if |interceptors| == 0 then f
    else interceptors[|interceptors| - 1](FoldRequest(interceptors[..|interceptors| - 1], f))
  }

  function FoldResponse(interceptors: seq<ResponseInterceptor>, f: ResponseBuilders.ResponseFields): ResponseBuilders.ResponseFields
  {
    if |interceptors| == 0 then f
    else interceptors[|interceptors| - 1](FoldResponse(interceptors[..|interceptors| - 1], f))
  }

  /**
   * `leafTask(_:_:)`: the wrapper's request is read back from the transport's current
   * request, else from its original request, else it is the given one.
   */
  function WrapperRequest(vocab: Vocabulary, current: Option<URLRequest>, original: Option<URLRequest>,
                          request: Option<LeafRequest>): (r: Option<LeafRequest>)
    ensures current.Some? ==> r == FromURLRequest(vocab, current.value)
    ensures current.None? && original.Some? ==> r == FromURLRequest(vocab, original.value)
    ensures current.None? && original.None? ==> r == request
  {
    if current.Some? then FromURLRequest(vocab, current.value)
    else if original.Some? then FromURLRequest(vocab, original.value)
    else request
  }

  /**
   * `leafError(_:_:_:)`: a transport error becomes a `.leaf` error with its code and
   * description, the response's headers, the response data and the error itself as cause.
   */
  function LeafErrorOf(error: Option<AnyError>, responseObject: Option<Payload>,
                       responseHeaders: Option<map<string, string>>): (r: Option<LeafError>)
    ensures r.Some? <==> error.Some?
    ensures r.Some? ==> r.value == Leaf(Some(AnyCode(error.value)), AnyDescription(error.value), responseHeaders,
                                        responseObject, Some(error.value))
  {
    if error.Some? then
      Some(Leaf(Some(AnyCode(error.value)), AnyDescription(error.value), responseHeaders, responseObject, Some(error.value)))
    else None
  }

  /**
   * `leafRequest(_:cache:timeout:)`: a request for `url` with every default but the cache
   * policy and the timeout, which are the given ones or else the session configuration's
   * (`configuredCache` is the raw value of its `requestCachePolicy`; one that names no
   * `LeafCachePolicy` falls back to `.useProtocolCachePolicy`).
   */
  function SessionRequest(url: Url, cache: Option<CachePolicy>, timeout: Option<Seconds>,
                          configuredCache: nat, configuredTimeout: Seconds): (r: LeafRequest)
    ensures r == NewRequest(url, cache := r.cache, timeout := r.timeout)
    ensures cache.Some? ==> r.cache == cache.value
    ensures cache.None? && configuredCache <= 3 ==> r.cache.RawValue() == configuredCache
    ensures cache.None? && configuredCache > 3 ==> r.cache == UseProtocolCachePolicy
    ensures timeout.Some? ==> r.timeout == timeout.value
    ensures timeout.None? ==> r.timeout == configuredTimeout
  {
    var policy := if cache.Some? then cache.value else CachePolicyOf(configuredCache).GetOr(UseProtocolCachePolicy);
    NewRequest(url, cache := policy, timeout := timeout.GetOr(configuredTimeout))
  }

  /** Which closure, if any, asked for a retry; the LeafTask's own closure is asked first. */
  datatype RetryVerdict = NoRequest | TaskAsked | SessionAsked | Declined
  {
    predicate Retries() { this == TaskAsked || this == SessionAsked }
  }

  /**
   * The retry condition of `process`: only a task that has a request retries, and then
   * when its own retry closure says so or, failing that, the session's does.
   */
  function RetryDecision(request: Option<LeafRequest>, own: Option<RetryClosure>, session: Option<RetryClosure>,
                         response: Option<LeafResponse>, error: Option<LeafError>, retryCount: nat): (v: RetryVerdict)
    ensures v.Retries() <==>
      request.Some? && ((own.Some? && own.value(response, error, retryCount))
                        || (session.Some? && session.value(response, error, retryCount)))
  {
    if request.None? then NoRequest
    else if own.Some? && own.value(response, error, retryCount) then TaskAsked
    else if session.Some? && session.value(response, error, retryCount) then SessionAsked
    else Declined
  }

  /**
   * The callbacks `process` makes when it does not retry: success with the response when
   * there is one, otherwise failure with the error or `unknown`, each only if that
   * closure is set.
   */
  function Finish(success: Option<Callback>, failure: Option<Callback>, response: Option<LeafResponse>,
                  error: Option<LeafError>): seq<Delivery>
  {
    if response.Some? then (if success.Some? then [Succeeded(success.value, response.value)] else [])
    else if failure.Some? then [Failed(failure.value, error.GetOr(Unknown()))]
    else []
  }

  class Session {
    const vocab: Vocabulary
    var requestInterceptors: seq<RequestInterceptor>
    var responseInterceptors: seq<ResponseInterceptor>
    var retryClosure: Option<RetryClosure>
    const hasAuthChallenge: bool
    const serverTrust: map<string, TrustPolicy>
    var taskObserver: Observer?
    /** The session's delegate when it is a `LeafURLSessionDelegate`. */
    const delegate: Delegate?

    /**
     * The initialisers: a fresh task observer, and a fresh delegate of Leaf's own unless
     * the session was given another delegate (or an existing `URLSession`).
     */
    constructor (vocab: Vocabulary, ownDelegate: bool, hasAuthChallenge: bool := false,
                 serverTrust: map<string, TrustPolicy> := map[])
      ensures this.vocab == vocab && this.hasAuthChallenge == hasAuthChallenge && this.serverTrust == serverTrust
      ensures requestInterceptors == [] && responseInterceptors == [] && retryClosure.None?
      ensures taskObserver != null && fresh(taskObserver) && taskObserver.tasks == map[]
      ensures ownDelegate <==> delegate != null
      ensures delegate != null ==> fresh(delegate) && delegate.tasks == map[]
    {
      this.vocab := vocab;
      requestInterceptors := [];
      responseInterceptors := [];
      retryClosure := None;
      this.hasAuthChallenge := hasAuthChallenge;
      this.serverTrust := serverTrust;
      taskObserver := new Observer();
      if ownDelegate {
        delegate := new Delegate();
      } else {
        delegate := null;
      }
    }

    /** What the delegate sees of this session. */
    function Settings(): (s: SessionSettings)
      ensures s.hasAuthChallenge == hasAuthChallenge && s.serverTrust == serverTrust
    {
      SessionSettings(hasAuthChallenge, serverTrust)
    }

    /** `addRequestInterceptor(_:)` */
    method AddRequestInterceptor(interceptor: RequestInterceptor)
      modifies this`requestInterceptors
      ensures requestInterceptors == old(requestInterceptors) + [interceptor]
    {
      requestInterceptors := requestInterceptors + [interceptor];
    }

    /** `addResponseInterceptor(_:)` */
    method AddResponseInterceptor(interceptor: ResponseInterceptor)
      modifies this`responseInterceptors
      ensures responseInterceptors == old(responseInterceptors) + [interceptor]
    {
      responseInterceptors := responseInterceptors + [interceptor];
    }

    /** `observe(_:_:)`: the LeafTask goes into the observer's table and into the delegate's. */
    method Observe(task: TransportTask, leafTask: LeafTask?)
      modifies ({taskObserver} - {null})`tasks, ({delegate} - {null})`tasks
      ensures taskObserver != null && leafTask != null ==> taskObserver.tasks == old(taskObserver.tasks)[task := leafTask]
      ensures taskObserver != null && leafTask == null ==> taskObserver.tasks == old(taskObserver.tasks) - {task}
      ensures delegate != null && leafTask != null ==> delegate.tasks == old(delegate.tasks)[task := leafTask]
      ensures delegate != null && leafTask == null ==> delegate.tasks == old(delegate.tasks) - {task}
    {
      if taskObserver != null {
        taskObserver.Add(task, leafTask);
      }
      if delegate != null {
        delegate.Add(task, leafTask);
      }
    }

    /**
     * `urlRequest(_:)`: the request's builder, passed through every request interceptor
     * in order, built and serialised.
     */
    method URLRequestOf(r: LeafRequest) returns (u: URLRequest)
      ensures Serialises(vocab, RequestBuilders.BuildFrom(FoldRequest(requestInterceptors, RequestBuilders.FieldsOf(r))), u)
    {
      var builder := RequestBuilders.FieldsOf(r);
      for i := 0 to |requestInterceptors|
        invariant builder == FoldRequest(requestInterceptors[..i], RequestBuilders.FieldsOf(r))
      {
        assert requestInterceptors[..i + 1][..i] == requestInterceptors[..i];
        builder := requestInterceptors[i](builder);
      }
      assert requestInterceptors[..|requestInterceptors|] == requestInterceptors;
      u := ToURLRequest(vocab, RequestBuilders.BuildFrom(builder));
    }

    /**
     * `leafResponse(_:_:_:)`: nothing without a transport response; otherwise the adapted
     * response (`adapted`, what `LeafResponse(response, leafTask, responseObject)` makes)
     * passed through every response interceptor in order and built.
     */
    method LeafResponseOf(adapted: Option<LeafResponse>) returns (r: Option<LeafResponse>)
      ensures r.None? <==> adapted.None?
      ensures r.Some? ==>
        r.value == ResponseBuilders.BuildFrom(FoldResponse(responseInterceptors, ResponseBuilders.SeedFields(adapted)))
      ensures r == InterceptedResponse(adapted)
    {
      if adapted.None? {
        return None;
      }
      var builder := ResponseBuilders.SeedFields(adapted);
      for i := 0 to |responseInterceptors|
        invariant builder == FoldResponse(responseInterceptors[..i], ResponseBuilders.SeedFields(adapted))
      {
        assert responseInterceptors[..i + 1][..i] == responseInterceptors[..i];
        builder := responseInterceptors[i](builder);
      }
      assert responseInterceptors[..|responseInterceptors|] == responseInterceptors;
      r := Some(ResponseBuilders.BuildFrom(builder));
    }

    /**
     * `session.dataTask(with: urlRequest(request))`: a fresh, suspended data transport for
     * the intercepted and serialised request, numbered `taskIdentifier` as `URLSession`
     * numbers its tasks.
     */
    method Submit(request: LeafRequest, taskIdentifier: Int64) returns (transport: TransportTask)
      ensures fresh(transport) && transport.kind == DataTransfer && transport.taskIdentifier == taskIdentifier
      ensures transport.commands == [] && transport.state == TaskSuspended
      ensures transport.originalRequest.Some? && transport.currentRequest == transport.originalRequest
      ensures transport.taskDescription.None? && transport.priority == DefaultPriority
      ensures Serialises(vocab, RequestBuilders.BuildFrom(FoldRequest(requestInterceptors, RequestBuilders.FieldsOf(request))),
                         transport.originalRequest.value)
    {
      var u := URLRequestOf(request);
      transport := new TransportTask(DataTransfer, taskIdentifier, Some(u));
    }

    /**
     * `leafTask(_:_:)` on a transport: a fresh `LeafTask` with the transport's identifier,
     * description, state and priority, bound to it, whose request is read back from the
     * transport's request.
     */
    method WrapTransport(transport: TransportTask, request: Option<LeafRequest>) returns (t: LeafTask)
      ensures fresh(t) && t.leafTask == transport
      ensures t.identifier == transport.taskIdentifier
      ensures t.request == WrapperRequest(vocab, transport.currentRequest, transport.originalRequest, request)
      ensures t.state == LeafStateOf(transport.state.RawValue()).GetOr(Suspended)
      ensures t.priority == Some(transport.priority) && t.progress == transport.progress && t.retryCount == 0
      ensures t.response.None? && t.error.None? && t.delivered == [] && t.metrics.None?
      ensures t.successClosure.None? && t.failureClosure.None? && t.retryClosure.None? && t.progressClosure.None?
    {
      var wrapped := WrapperRequest(vocab, transport.currentRequest, transport.originalRequest, request);
      t := new LeafTask(Some(transport.taskIdentifier), 0, request := wrapped, taskDescription := transport.taskDescription,
                        state := LeafStateOf(transport.state.RawValue()).GetOr(Suspended),
                        priority := Some(transport.priority), task := transport);
    }

    /**
     * `dataTask(_:)` for a `LeafRequest`: the submitted transport, wrapped, and registered
     * with the observer and the delegate. The wrapper's request is the one read back from
     * the serialised request (`Submit` states what that is).
     */
    method DataTask(request: LeafRequest, taskIdentifier: Int64) returns (t: LeafTask)
      modifies ({taskObserver} - {null})`tasks, ({delegate} - {null})`tasks
      ensures fresh(t) && t.leafTask != null && fresh(t.leafTask)
      ensures t.leafTask.kind == DataTransfer && t.leafTask.taskIdentifier == taskIdentifier
      ensures t.leafTask.commands == [] && t.leafTask.originalRequest.Some?
      ensures t.identifier == taskIdentifier && t.state == Suspended && t.retryCount == 0
      ensures t.request == FromURLRequest(vocab, t.leafTask.originalRequest.value)
      ensures t.response.None? && t.error.None? && t.delivered == []
      ensures t.successClosure.None? && t.failureClosure.None? && t.retryClosure.None? && t.progressClosure.None?
      ensures taskObserver != null ==> taskObserver.tasks == old(taskObserver.tasks)[t.leafTask := t]
      ensures delegate != null ==> delegate.tasks == old(delegate.tasks)[t.leafTask := t]
    {
      var transport := Submit(request, taskIdentifier);
      t := WrapTransport(transport, Some(request));
      Observe(transport, t);
    }

    /**
     * `process(_:_:_:)`. The response and the error are stored (completing the LeafTask).
     * Then, if the retry condition holds, the request is reissued as a data transfer
     * (numbered `retryIdentifier`) whose closures forward to this task: the LeafTask is bound
     * to the new transport, counts one more retry and is resumed, and the new wrapper,
     * returned, loses its request. Otherwise the wait is signalled and the LeafTask's success
     * or failure closure gets the outcome.
     */
    method Process(leafTask: LeafTask?, response: Option<LeafResponse>, error: Option<LeafError>, retryIdentifier: Int64)
      returns (retryTask: LeafTask?)
      modifies leafTask, if leafTask != null then ({leafTask.dispatchSemaphore} - {null}) else {}
      modifies ({taskObserver} - {null})`tasks, ({delegate} - {null})`tasks
      ensures leafTask == null ==> retryTask == null
      ensures leafTask != null ==>
        var verdict := RetryDecision(old(leafTask.request), old(leafTask.retryClosure), retryClosure, response, error,
                                     old(leafTask.retryCount));
        && leafTask.response == response && leafTask.error == error
        && KeepsSetup(leafTask) && leafTask.metrics == old(leafTask.metrics)
        && (verdict.Retries() <==> retryTask != null)
        && (verdict.Retries() ==> AfterRetry(leafTask, retryTask, retryIdentifier))
        && (!verdict.Retries() ==> AfterFinish(leafTask, response, error))
      ensures taskObserver != null ==> taskObserver.tasks == Registered(old(taskObserver.tasks), retryTask)
      ensures delegate != null ==> delegate.tasks == Registered(old(delegate.tasks), retryTask)
    {
      if leafTask == null {
        return null;
      }
      leafTask.SetResponse(response);
      leafTask.SetError(error);
      var verdict := RetryDecision(leafTask.request, leafTask.retryClosure, retryClosure, response, error, leafTask.retryCount);
      if verdict.Retries() {
        retryTask := Reissue(leafTask, retryIdentifier);
      } else {
        retryTask := null;
        Conclude(leafTask, response, error);
      }
    }

    /** The retry branch of `process`. */
    method Reissue(leafTask: LeafTask, retryIdentifier: Int64) returns (retryTask: LeafTask)
      requires leafTask.request.Some?
      modifies leafTask, ({taskObserver} - {null})`tasks, ({delegate} - {null})`tasks
      ensures leafTask.response == old(leafTask.response) && leafTask.error == old(leafTask.error)
      ensures KeepsSetup(leafTask) && leafTask.metrics == old(leafTask.metrics)
      ensures AfterRetry(leafTask, retryTask, retryIdentifier)
      ensures taskObserver != null ==> taskObserver.tasks == Registered(old(taskObserver.tasks), retryTask)
      ensures delegate != null ==> delegate.tasks == Registered(old(delegate.tasks), retryTask)
    {
      retryTask := DataTask(leafTask.request.value, retryIdentifier);
      ForwardTo(retryTask, leafTask);
      Rebind(leafTask, retryTask.leafTask);
    }

    /** The original task moves to the retry's transport, counts the retry, and is suspended then resumed. */
    static method Rebind(leafTask: LeafTask, transport: TransportTask)
      modifies leafTask`leafTask, leafTask`state, leafTask`retryCount, transport`commands
      ensures leafTask.leafTask == transport && leafTask.state == Running
      ensures leafTask.retryCount == old(leafTask.retryCount) + 1
      ensures transport.commands == old(transport.commands) + [ResumeCommand]
    {
      leafTask.leafTask := transport;
      leafTask.state := Suspended;
      leafTask.retryCount := leafTask.retryCount + 1;
      leafTask.Resume();
    }

    /** The retry wrapper loses its request and forwards its progress, success and failure to `target`. */
    static method ForwardTo(retryTask: LeafTask, target: LeafTask)
      modifies retryTask`request, retryTask`progressClosure, retryTask`successClosure, retryTask`failureClosure
      ensures retryTask.request.None?
      ensures retryTask.progressClosure == Some(Callback.ForwardTo(target))
      ensures retryTask.successClosure == Some(Callback.ForwardTo(target))
      ensures retryTask.failureClosure == Some(Callback.ForwardTo(target))
    {
      retryTask.request := None;
      retryTask.progressClosure := Some(Callback.ForwardTo(target));
      retryTask.successClosure := Some(Callback.ForwardTo(target));
      retryTask.failureClosure := Some(Callback.ForwardTo(target));
    }

    /** The finishing branch of `process`. */
    method Conclude(leafTask: LeafTask, response: Option<LeafResponse>, error: Option<LeafError>)
      requires leafTask.state == Completed
      modifies leafTask`delivered, ({leafTask.dispatchSemaphore} - {null})
      ensures leafTask.delivered
              == old(leafTask.delivered) + Finish(leafTask.successClosure, leafTask.failureClosure, response, error)
      ensures leafTask.dispatchSemaphore != null ==> leafTask.dispatchSemaphore.signals == old(leafTask.dispatchSemaphore.signals) + 1
    {
      if leafTask.dispatchSemaphore != null {
        leafTask.dispatchSemaphore.Signal();
      }
      leafTask.delivered := leafTask.delivered + Finish(leafTask.successClosure, leafTask.failureClosure, response, error);
    }

    /**
     * The completion handler `dataTask(_:)` gives the transport: the adapted response and
     * the transport error, converted, go to `process`.
     */
    method Complete(leafTask: LeafTask, adapted: Option<LeafResponse>, error: Option<AnyError>, data: Option<Payload>,
                    responseHeaders: Option<map<string, string>>, retryIdentifier: Int64)
      returns (retryTask: LeafTask?)
      modifies leafTask, ({leafTask.dispatchSemaphore} - {null}), ({taskObserver} - {null})`tasks, ({delegate} - {null})`tasks
      ensures leafTask.response == InterceptedResponse(adapted)
      ensures leafTask.error == LeafErrorOf(error, data, responseHeaders)
      ensures KeepsSetup(leafTask) && leafTask.metrics == old(leafTask.metrics)
      ensures
        var verdict := RetryDecision(old(leafTask.request), old(leafTask.retryClosure), retryClosure,
                                     leafTask.response, leafTask.error, old(leafTask.retryCount));
        && (verdict.Retries() ==> AfterRetry(leafTask, retryTask, retryIdentifier))
        && (!verdict.Retries() ==> retryTask == null && AfterFinish(leafTask, leafTask.response, leafTask.error))
      ensures taskObserver != null ==> taskObserver.tasks == Registered(old(taskObserver.tasks), retryTask)
      ensures delegate != null ==> delegate.tasks == Registered(old(delegate.tasks), retryTask)
    {
      var response := LeafResponseOf(adapted);
      var leafError := LeafErrorOf(error, data, responseHeaders);
      retryTask := Process(leafTask, response, leafError, retryIdentifier);
    }

    /** The response `process` is handed: none without a platform response, else the intercepted one. */
    function InterceptedResponse(adapted: Option<LeafResponse>): Option<LeafResponse>
      reads this
    {
      if adapted.None? then None
      else Some(ResponseBuilders.BuildFrom(FoldResponse(responseInterceptors, ResponseBuilders.SeedFields(adapted))))
    }

    /** The progress closure a retry installs: the original task takes the progress and passes it on. */
    method ForwardProgress(target: LeafTask, progress: Progress)
      modifies target`progress, target`delivered
      ensures target.progress == progress
      ensures target.delivered == old(target.delivered)
        + (if target.progressClosure.Some? then [Progressed(target.progressClosure.value, progress)] else [])
    {
      target.progress := progress;
      if target.progressClosure.Some? {
        target.delivered := target.delivered + [Progressed(target.progressClosure.value, progress)];
      }
    }

    /**
     * The success closure a retry installs: the original task takes the retry's metrics
     * and is processed with the response and no error.
     */
    method ForwardSuccess(via: LeafTask, target: LeafTask, response: LeafResponse, retryIdentifier: Int64)
      returns (retryTask: LeafTask?)
      modifies target, ({target.dispatchSemaphore} - {null}), ({taskObserver} - {null})`tasks, ({delegate} - {null})`tasks
      ensures target.response == Some(response) && target.error.None? && target.metrics == old(via.metrics)
      ensures KeepsSetup(target)
      ensures
        var verdict := RetryDecision(old(target.request), old(target.retryClosure), retryClosure,
                                     Some(response), None, old(target.retryCount));
        && (verdict.Retries() ==> AfterRetry(target, retryTask, retryIdentifier))
        && (!verdict.Retries() ==> retryTask == null && AfterFinish(target, Some(response), None))
      ensures taskObserver != null ==> taskObserver.tasks == Registered(old(taskObserver.tasks), retryTask)
      ensures delegate != null ==> delegate.tasks == Registered(old(delegate.tasks), retryTask)
    {
      target.metrics := via.metrics;
      retryTask := Process(target, Some(response), None, retryIdentifier);
    }

    /**
     * The failure closure a retry installs: the original task takes the retry's metrics
     * and is processed with the error and no response.
     */
    method ForwardFailure(via: LeafTask, target: LeafTask, error: LeafError, retryIdentifier: Int64)
      returns (retryTask: LeafTask?)
      modifies target, ({target.dispatchSemaphore} - {null}), ({taskObserver} - {null})`tasks, ({delegate} - {null})`tasks
      ensures target.response.None? && target.error == Some(error) && target.metrics == old(via.metrics)
      ensures KeepsSetup(target)
      ensures
        var verdict := RetryDecision(old(target.request), old(target.retryClosure), retryClosure,
                                     None, Some(error), old(target.retryCount));
        && (verdict.Retries() ==> AfterRetry(target, retryTask, retryIdentifier))
        && (!verdict.Retries() ==> retryTask == null && AfterFinish(target, None, Some(error)))
      ensures taskObserver != null ==> taskObserver.tasks == Registered(old(taskObserver.tasks), retryTask)
      ensures delegate != null ==> delegate.tasks == Registered(old(delegate.tasks), retryTask)
    {
      target.metrics := via.metrics;
      retryTask := Process(target, None, Some(error), retryIdentifier);
    }
  }

  /** A task table after `process`: a retry wrapper, when there is one, is registered under its transport. */
  function Registered(tasks: map<TransportTask, LeafTask>, retryTask: LeafTask?): map<TransportTask, LeafTask>
    reads retryTask
  {
    if retryTask != null && retryTask.leafTask != null then tasks[retryTask.leafTask := retryTask] else tasks
  }

  /** What `process` leaves alone: the request, the priority, the progress, the closures and the wait handle. */
  twostate predicate KeepsSetup(leafTask: LeafTask)
    reads leafTask
  {
    && leafTask.request == old(leafTask.request) && leafTask.priority == old(leafTask.priority)
    && leafTask.progress == old(leafTask.progress)
    && leafTask.successClosure == old(leafTask.successClosure) && leafTask.failureClosure == old(leafTask.failureClosure)
    && leafTask.retryClosure == old(leafTask.retryClosure) && leafTask.progressClosure == old(leafTask.progressClosure)
    && leafTask.dispatchSemaphore == old(leafTask.dispatchSemaphore)
  }

  /**
   * The state a retry leaves: the LeafTask is bound to a fresh data transport that has been
   * resumed, runs again with one more retry, delivers nothing and leaves its wait unsignalled,
   * and the fresh retry wrapper on that transport has no request and forwards its progress,
   * success and failure to the LeafTask.
   */
  twostate predicate AfterRetry(leafTask: LeafTask, new retryTask: LeafTask?, retryIdentifier: Int64)
    reads leafTask, retryTask, if leafTask.leafTask != null then {leafTask.leafTask} else {}
    reads if leafTask.dispatchSemaphore != null then {leafTask.dispatchSemaphore} else {}
  {
    && retryTask != null && fresh(retryTask)
    && leafTask.retryCount == old(leafTask.retryCount) + 1
    && leafTask.state == Running
    && leafTask.leafTask != null && fresh(leafTask.leafTask) && leafTask.leafTask == retryTask.leafTask
    && leafTask.leafTask.kind == DataTransfer && leafTask.leafTask.taskIdentifier == retryIdentifier
    && leafTask.leafTask.commands == [ResumeCommand]
    && leafTask.delivered == old(leafTask.delivered)
    && leafTask.dispatchSemaphore == old(leafTask.dispatchSemaphore)
    && (leafTask.dispatchSemaphore != null ==> leafTask.dispatchSemaphore.signals == old(leafTask.dispatchSemaphore.signals))
    && retryTask.request.None? && retryTask.retryClosure.None?
    && retryTask.progressClosure == Some(ForwardTo(leafTask))
    && retryTask.successClosure == Some(ForwardTo(leafTask))
    && retryTask.failureClosure == Some(ForwardTo(leafTask))
  }

  /**
   * The state finishing leaves: completed, the same transport and retry count, the wait
   * signalled once, and the callbacks `Finish` chooses delivered.
   */
  twostate predicate AfterFinish(leafTask: LeafTask, response: Option<LeafResponse>, error: Option<LeafError>)
    reads leafTask, if leafTask.dispatchSemaphore != null then {leafTask.dispatchSemaphore} else {}
  {
    && leafTask.state == Completed
    && leafTask.retryCount == old(leafTask.retryCount)
    && leafTask.leafTask == old(leafTask.leafTask)
    && leafTask.dispatchSemaphore == old(leafTask.dispatchSemaphore)
    && (leafTask.dispatchSemaphore != null ==> leafTask.dispatchSemaphore.signals == old(leafTask.dispatchSemaphore.signals) + 1)
    && leafTask.delivered
       == old(leafTask.delivered) + Finish(old(leafTask.successClosure), old(leafTask.failureClosure), response, error)
  }

  // ---------------------------------------------------------------------------
  // Lemmas

  /** Registering an interceptor makes it the last one applied. */
  lemma AddedRequestInterceptorRunsLast(interceptors: seq<RequestInterceptor>, added: RequestInterceptor,
                                        f: RequestBuilders.RequestFields)
    ensures FoldRequest(interceptors + [added], f) == added(FoldRequest(interceptors, f))
  {
    assert (interceptors + [added])[..|interceptors|] == interceptors;
  }

  lemma AddedResponseInterceptorRunsLast(interceptors: seq<ResponseInterceptor>, added: ResponseInterceptor,
                                         f: ResponseBuilders.ResponseFields)
    ensures FoldResponse(interceptors + [added], f) == added(FoldResponse(interceptors, f))
  {
    assert (interceptors + [added])[..|interceptors|] == interceptors;
  }

  /** The fold is a fold: running two lists of interceptors in turn is running their concatenation. */
  lemma {:induction false} FoldRequestConcat(a: seq<RequestInterceptor>, b: seq<RequestInterceptor>,
                                             f: RequestBuilders.RequestFields)
    ensures FoldRequest(a + b, f) == FoldRequest(b, FoldRequest(a, f))
    decreases |b|
  {
    if |b| > 0 {
      var last := b[|b| - 1];
      assert (a + b)[..|a + b| - 1] == a + b[..|b| - 1];
      FoldRequestConcat(a, b[..|b| - 1], f);
    } else {
      assert a + b == a;
    }
  }

  /** Without interceptors a request is serialised as it is. */
  lemma NoRequestInterceptors(r: LeafRequest)
    ensures RequestBuilders.BuildFrom(FoldRequest([], RequestBuilders.FieldsOf(r))) == r
  {
    RequestBuilders.BuildRoundTrip(r);
  }

  /** Without interceptors the adapted response comes back unchanged (unless it stores a −1 length). */
  lemma NoResponseInterceptors(adapted: LeafResponse)
    requires adapted.contentLength != Some(UnknownLength)
    ensures ResponseBuilders.BuildFrom(FoldResponse([], ResponseBuilders.SeedFields(Some(adapted)))) == adapted
  {
    ResponseBuilders.SeedRoundTrip(adapted);
  }

  /** The LeafTask's own closure is asked first: when it says yes, the session's closure is not consulted. */
  lemma TaskClosureFirst(request: LeafRequest, own: RetryClosure, session: Option<RetryClosure>,
                         response: Option<LeafResponse>, error: Option<LeafError>, retryCount: nat)
    requires own(response, error, retryCount)
    ensures RetryDecision(Some(request), Some(own), session, response, error, retryCount) == TaskAsked
  {
  }

  /** A task without a request never retries, whatever its closures say. */
  lemma NoRequestNoRetry(own: Option<RetryClosure>, session: Option<RetryClosure>,
                         response: Option<LeafResponse>, error: Option<LeafError>, retryCount: nat)
    ensures !RetryDecision(None, own, session, response, error, retryCount).Retries()
  {
  }

  /**
   * At most one callback fires: success when there is a response and a success closure
   * (even if an error is set too), otherwise failure with the error or `unknown` when
   * there is a failure closure.
   */
  lemma FinishDeliversOne(success: Option<Callback>, failure: Option<Callback>, response: Option<LeafResponse>,
                          error: Option<LeafError>)
    ensures |Finish(success, failure, response, error)| <= 1
    ensures response.Some? && success.Some? ==>
      Finish(success, failure, response, error) == [Succeeded(success.value, response.value)]
    ensures response.None? && failure.Some? && error.Some? ==>
      Finish(success, failure, response, error) == [Failed(failure.value, error.value)]
    ensures response.None? && failure.Some? && error.None? ==>
      Finish(success, failure, response, error) == [Failed(failure.value, Unknown())]
    ensures |Finish(success, failure, response, error)| == 0 <==>
      (response.Some? && success.None?) || (response.None? && failure.None?)
  {
  }

  /** A retry wrapper cannot itself retry: it has no request. */
  lemma RetryWrapperNeverRetries(own: Option<RetryClosure>, session: Option<RetryClosure>,
                                 response: Option<LeafResponse>, error: Option<LeafError>, retryCount: nat)
    ensures RetryDecision(None, own, session, response, error, retryCount) == NoRequest
  {
  }
}
