/**
 * `LeafURLSessionDelegate`: the session's delegate. It keeps its own table from transport
 * tasks to their wrappers, stores the collected metrics on a wrapper (and forgets it),
 * marks a wrapper that waits for connectivity, and answers authentication challenges.
 */
module SessionDelegates {
  import opened Wrappers
  import opened LeafTypes
  import opened Requests
  import opened Tasks

  /** A `SecTrust`: opaque. */
  datatype ServerTrust = ServerTrust(id: nat)

  /** A `LeafServerTrust` policy: opaque; what it accepts is the `evaluate` parameter. */
  datatype TrustPolicy = TrustPolicy(id: nat)

  /** A `URLCredential`: made from a user and password, made from a server trust, or one proposed by the platform. */
  datatype Credential =
    | UserPassword(user: string, password: string)
    | TrustCredential(trust: ServerTrust)
    | Proposed(id: nat, hasPassword: bool)

  /** `URLAuthenticationChallenge`, with the parts of its protection space the decision reads. */
  datatype Challenge = Challenge(
    previousFailureCount: nat,
    proposedCredential: Option<Credential>,
    authenticationMethod: string,
    serverTrust: Option<ServerTrust>,
    host: string)

  /** What the delegate reads of its (weakly held) session. */
  datatype SessionSettings = SessionSettings(hasAuthChallenge: bool, serverTrust: map<string, TrustPolicy>)

  /** `URLSession.AuthChallengeDisposition`, the two values the delegate uses. */
  datatype Disposition = UseCredential | CancelAuthenticationChallenge

  /**
   * How a challenge is answered: handed to the session's own `authChallenge` closure, or
   * decided here (whether the challenge's sender was told to cancel, and what is passed
   * to the completion handler).
   */
  datatype ChallengeOutcome =
    | Delegated
    | Decided(senderCancelled: bool, disposition: Disposition, credential: Option<Credential>)

  const HTTPBasicMethod: string := "NSURLAuthenticationMethodHTTPBasic"
  const HTTPDigestMethod: string := "NSURLAuthenticationMethodHTTPDigest"
  const ServerTrustMethod: string := "NSURLAuthenticationMethodServerTrust"

  /** `credential?.hasPassword != true` */
  predicate LacksPassword(credential: Option<Credential>)
  {
    !(credential.Some? && credential.value.Proposed? && credential.value.hasPassword)
    && !(credential.Some? && credential.value.UserPassword?)
  }

  /** The credential after the HTTP Basic/Digest step: the request's basic authorization replaces one without a password. */
  function BasicStep(challenge: Challenge, request: Option<LeafRequest>): Option<Credential>
  {
    var credential := challenge.proposedCredential;
    if LacksPassword(credential)
       && (challenge.authenticationMethod == HTTPBasicMethod || challenge.authenticationMethod == HTTPDigestMethod)
       && request.Some? && request.value.authorization.Basic?
    then Some(UserPassword(request.value.authorization.user, request.value.authorization.password))
    else credential
  }

  /** The credential after the server-trust step: trust is accepted unless the host's policy rejects it. */
  function TrustStep(session: Option<SessionSettings>, challenge: Challenge, credential: Option<Credential>,
                     evaluate: (TrustPolicy, ServerTrust, string) -> bool): Option<Credential>
  {
    if credential.None? && challenge.authenticationMethod == ServerTrustMethod && challenge.serverTrust.Some? then
      var trust := challenge.serverTrust.value;
      var host := challenge.host;
      if session.Some? && host in session.value.serverTrust then
        (if evaluate(session.value.serverTrust[host], trust, host) then Some(TrustCredential(trust)) else None)
      else Some(TrustCredential(trust))
    else credential
  }

  /**
   * `handle(_:_:completion:)`: the session's closure decides when it has one; otherwise a
   * repeated challenge is cancelled, and a first one is answered with the proposed
   * credential, refined by the two steps above, used iff there is one.
   */
  function HandleChallenge(session: Option<SessionSettings>, challenge: Challenge, request: Option<LeafRequest>,
                           evaluate: (TrustPolicy, ServerTrust, string) -> bool): (r: ChallengeOutcome)
    ensures r.Delegated? <==> session.Some? && session.value.hasAuthChallenge
    ensures r.Decided? && challenge.previousFailureCount > 0 ==>
      r == Decided(true, CancelAuthenticationChallenge, None)
    ensures r.Decided? ==> (r.disposition == UseCredential <==> r.credential.Some?)
    ensures r.Decided? ==> (r.senderCancelled <==> challenge.previousFailureCount > 0)
  {
    if session.Some? && session.value.hasAuthChallenge then Delegated
    else if challenge.previousFailureCount != 0 then Decided(true, CancelAuthenticationChallenge, None)
    else
      var credential := TrustStep(session, challenge, BasicStep(challenge, request), evaluate);
      Decided(false, if credential.Some? then UseCredential else CancelAuthenticationChallenge, credential)
  }

  class Delegate {
    var tasks: map<TransportTask, LeafTask>

    constructor ()
      ensures tasks == map[]
    {
      tasks := map[];
    }

    /** `add(_:_:)`: `tasks[task] = leafTask`, where a nil wrapper removes the entry. */
    method Add(task: TransportTask, leafTask: LeafTask?)
      modifies this`tasks
      ensures leafTask != null ==> tasks == old(tasks)[task := leafTask]
      ensures leafTask == null ==> tasks == old(tasks) - {task}
    {
      if leafTask != null {
        tasks := tasks[task := leafTask];
      } else {
        tasks := tasks - {task};
      }
    }

    /** `urlSession(_:task:didReceive:completionHandler:)`: the decision for the LeafTask's wrapper's request. */
    function DidReceive(session: Option<SessionSettings>, task: TransportTask, challenge: Challenge,
                        evaluate: (TrustPolicy, ServerTrust, string) -> bool): (r: ChallengeOutcome)
      reads this, tasks.Values
      ensures r == HandleChallenge(session, challenge, if task in tasks then tasks[task].request else None, evaluate)
    {
      HandleChallenge(session, challenge, if task in tasks then tasks[task].request else None, evaluate)
    }

    /**
     * `urlSession(_:task:didFinishCollecting:)`: the wrapper gets the metrics, with its
     * request and response, and leaves the table.
     */
    method DidFinishCollecting(task: TransportTask, collected: nat)
      modifies this`tasks, (if task in tasks then {tasks[task]} else {})`metrics
      ensures tasks == old(tasks) - {task}
      ensures task in old(tasks) ==>
        var leafTask := old(tasks)[task];
        leafTask.metrics == Some(Metrics(collected, old(leafTask.request), old(leafTask.response)))
        && leafTask.request == old(leafTask.request) && leafTask.response == old(leafTask.response)
        && leafTask.state == old(leafTask.state) && leafTask.delivered == old(leafTask.delivered)
    {
      if task in tasks {
        var leafTask := tasks[task];
        leafTask.metrics := Some(Metrics(collected, leafTask.request, leafTask.response));
      }
      tasks := tasks - {task};
    }

    /** `urlSession(_:taskIsWaitingForConnectivity:)` */
    method WaitingForConnectivity(task: TransportTask)
      modifies (if task in tasks then {tasks[task]} else {})`state
      ensures task in tasks ==> tasks[task].state == Tasks.WaitingForConnectivity
      ensures task in tasks ==>
        tasks[task].request == old(tasks[task].request) && tasks[task].response == old(tasks[task].response)
        && tasks[task].metrics == old(tasks[task].metrics)
    {
      if task in tasks {
        tasks[task].state := Tasks.WaitingForConnectivity;
      }
    }
  }

  // ---------------------------------------------------------------------------
  // Lemmas

  lemma MethodNamesDistinct()
    ensures HTTPBasicMethod != ServerTrustMethod && HTTPDigestMethod != ServerTrustMethod
  {
    assert HTTPBasicMethod[25] != ServerTrustMethod[25];
    assert HTTPDigestMethod[25] != ServerTrustMethod[25];
  }

  /** A first Basic or Digest challenge with no password yet is answered with the request's user and password. */
  lemma BasicAuthorizationAnswers(session: Option<SessionSettings>, challenge: Challenge, request: LeafRequest,
                                  evaluate: (TrustPolicy, ServerTrust, string) -> bool)
    requires !(session.Some? && session.value.hasAuthChallenge) && challenge.previousFailureCount == 0
    requires challenge.authenticationMethod == HTTPBasicMethod || challenge.authenticationMethod == HTTPDigestMethod
    requires LacksPassword(challenge.proposedCredential) && request.authorization.Basic?
    ensures HandleChallenge(session, challenge, Some(request), evaluate)
            == Decided(false, UseCredential, Some(UserPassword(request.authorization.user, request.authorization.password)))
  {
  }

  /**
   * A first server-trust challenge without a proposed credential is accepted with the
   * trust iff the host has no policy or its policy accepts the trust.
   */
  lemma ServerTrustDecision(session: Option<SessionSettings>, challenge: Challenge, request: Option<LeafRequest>,
                            evaluate: (TrustPolicy, ServerTrust, string) -> bool)
    requires !(session.Some? && session.value.hasAuthChallenge) && challenge.previousFailureCount == 0
    requires challenge.authenticationMethod == ServerTrustMethod && challenge.proposedCredential.None?
    requires challenge.serverTrust.Some?
    ensures var r := HandleChallenge(session, challenge, request, evaluate);
      var host := challenge.host;
      var accepted := !(session.Some? && host in session.value.serverTrust)
                      || evaluate(session.value.serverTrust[host], challenge.serverTrust.value, host);
      && (accepted ==> r == Decided(false, UseCredential, Some(TrustCredential(challenge.serverTrust.value))))
      && (!accepted ==> r == Decided(false, CancelAuthenticationChallenge, None))
  {
    MethodNamesDistinct();
  }

  /** Any other first challenge is answered with the platform's proposed credential, used iff there is one. */
  lemma ProposedCredentialOtherwise(session: Option<SessionSettings>, challenge: Challenge, request: Option<LeafRequest>,
                                    evaluate: (TrustPolicy, ServerTrust, string) -> bool)
    requires !(session.Some? && session.value.hasAuthChallenge) && challenge.previousFailureCount == 0
    requires challenge.authenticationMethod != HTTPBasicMethod && challenge.authenticationMethod != HTTPDigestMethod
    requires challenge.authenticationMethod != ServerTrustMethod
    ensures HandleChallenge(session, challenge, request, evaluate)
            == Decided(false, if challenge.proposedCredential.Some? then UseCredential else CancelAuthenticationChallenge,
                       challenge.proposedCredential)
  {
  }

  /** A proposed credential with a password is never replaced. */
  lemma PasswordCredentialKept(session: Option<SessionSettings>, challenge: Challenge, request: Option<LeafRequest>,
                               evaluate: (TrustPolicy, ServerTrust, string) -> bool)
    requires !(session.Some? && session.value.hasAuthChallenge) && challenge.previousFailureCount == 0
    requires challenge.proposedCredential.Some? && challenge.proposedCredential.value.Proposed?
    requires challenge.proposedCredential.value.hasPassword
    ensures HandleChallenge(session, challenge, request, evaluate)
            == Decided(false, UseCredential, challenge.proposedCredential)
  {
  }
}
