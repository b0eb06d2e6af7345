/**
 The Auth0 identity connector (backend/app/connectors.py, lines 53-178). The provider, the network
 and the clocks are the scripts passed to each method; `log` records every request sent.
 */
module Connector {
  import opened Base
  import opened Breaker

  datatype Request =
    | FetchToken
    | FindUser(email: string, bearer: string)
    | BlockUser(userId: string, bearer: string)

  datatype Call = Call(request: Request, attempt: Attempt)

  datatype Result =
    | Unsupported
    | NotAllowlisted
    | DryRun(target: string)
    | NoCredentials
    | Failed(outcome: Outcome)
    | Malformed
    | NotUnique
    | Blocked(target: string)

  /** The surroundings of one `execute`: the wall clock around the token, and the three operations. */
  datatype Script = Script(clock: int, grant: Operation, granted: int, lookup: Operation, patch: Operation) {
    predicate WellTimed() {
      grant.WellTimed() && lookup.WellTimed() && patch.WellTimed()
    }
  }

  const SUPPORTED := {"Disable account"}

  predicate Blank(c: char) {
    c in {' ', '\t', '\n', '\r'}
  }

  function StripLeft(s: string): string {
    if s != "" && Blank(s[0]) then StripLeft(s[1..]) else s
  }

  function Strip(s: string): string {
    if s != "" && Blank(s[|s| - 1]) then Strip(s[..|s| - 1]) else StripLeft(s)
  }

  predicate AllBlank(s: string) {
    forall c :: c in s ==> Blank(c)
  }

  lemma {:induction false} StripLeftMeaning(s: string) returns (before: string)
    ensures s == before + StripLeft(s) && AllBlank(before)
    ensures StripLeft(s) != "" ==> !Blank(StripLeft(s)[0])
  {
    before := "";
    if s != "" && Blank(s[0]) {
      var rest := StripLeftMeaning(s[1..]);
      before := [s[0]] + rest;
    }
  }

  /** Stripping takes off just the blanks at both ends. */
  lemma {:induction false} StripMeaning(s: string) returns (before: string, after: string)
    ensures s == before + Strip(s) + after && AllBlank(before) && AllBlank(after)
    ensures Strip(s) != "" ==> !Blank(Strip(s)[0]) && !Blank(Strip(s)[|Strip(s)| - 1])
  {
    if s != "" && Blank(s[|s| - 1]) {
      before, after := StripMeaning(s[..|s| - 1]);
      after := after + [s[|s| - 1]];
    } else {
      before := StripLeftMeaning(s);
      after := "";
    }
  }

  function Tagged(request: Request, attempts: seq<Attempt>): seq<Call> {
    seq(|attempts|, i requires 0 <= i < |attempts| => Call(request, attempts[i]))
  }

  /** How long a granted token is reused: a minute less than granted, but half a minute at least. */
  function Lifetime(expiresIn: ExpiresIn): int
    requires !expiresIn.Unreadable?
  {
    Max(30, (if expiresIn.Seconds? then expiresIn.n else 3600) - 60) * SECOND
  }

  predicate Reused(granted: int, expiresIn: int, t: int) {
    t < granted + Lifetime(Seconds(expiresIn))
  }

  predicate Granted(granted: int, expiresIn: int, t: int) {
    t < granted + expiresIn * SECOND
  }

  /** A cached token is never used beyond its grant exactly when the grant is for 30 s or more. */
  lemma TokenOutlivesUseIff(granted: int, expiresIn: int)
    ensures (forall t :: Reused(granted, expiresIn, t) ==> Granted(granted, expiresIn, t)) <==> expiresIn >= 30
  {
    var t := granted + Lifetime(Seconds(expiresIn)) - 1;
    assert Reused(granted, expiresIn, t);
    if expiresIn < 30 {
      assert !Granted(granted, expiresIn, t);
    }
  }

  /** The grant has been accepted and holds a token. */
  predicate NamesToken(outcome: Outcome) {
    outcome.Accepted? && outcome.body.TokenGrant? && outcome.body.accessToken.Some?
  }

  function Rank(request: Request): nat {
    match request
    case FetchToken => 0
    case FindUser(_, _) => 1
    case BlockUser(_, _) => 2
  }

  /** Token requests, then user lookups, then blocking requests. */
  ghost predicate InOrder(sent: seq<Call>) {
    forall i, j :: 0 <= i < j < |sent| ==> Rank(sent[i].request) <= Rank(sent[j].request)
  }

  /** The provider has named exactly one user for the address, and it is this one. */
  predicate NamesUser(call: Call, target: string, userId: string) {
    && call.request.FindUser? && call.request.email == target
    && call.attempt.reply.Response? && call.attempt.reply.status < 400
    && call.attempt.reply.body == UserList([Some(userId)])
  }

  /** Whoever is blocked was looked up before, under the target address, and found to be unique. */
  ghost predicate OnlyTargetBlocked(sent: seq<Call>, target: string) {
    forall i :: 0 <= i < |sent| && sent[i].request.BlockUser? ==>
      exists k :: 0 <= k < i && NamesUser(sent[k], target, sent[i].request.userId)
  }

  /** Lookups and blocks carry this bearer token. */
  ghost predicate Bears(sent: seq<Call>, token: string) {
    forall i :: 0 <= i < |sent| ==>
      match sent[i].request
      case FetchToken => true
      case FindUser(_, bearer) => bearer == token
      case BlockUser(_, bearer) => bearer == token
  }

  /** A lookup that names the user, followed by attempts to block that user. */
  lemma LookupThenBlock(lookup: seq<Call>, block: seq<Call>, target: string, userId: string)
    requires forall i :: 0 <= i < |lookup| ==> !lookup[i].request.BlockUser?
    requires lookup != [] && NamesUser(lookup[|lookup| - 1], target, userId)
    requires forall i :: 0 <= i < |block| && block[i].request.BlockUser? ==> block[i].request.userId == userId
    ensures OnlyTargetBlocked(lookup + block, target)
  {
    var sent := lookup + block;
    forall i | 0 <= i < |sent| && sent[i].request.BlockUser?
      ensures exists k :: 0 <= k < i && NamesUser(sent[k], target, sent[i].request.userId)
    {
      assert sent[i] == block[i - |lookup|];
      assert NamesUser(sent[|lookup| - 1], target, sent[i].request.userId);
    }
  }

  /** Requests that block nobody may come first. */
  lemma TokenFirst(first: seq<Call>, rest: seq<Call>, target: string)
    requires forall i :: 0 <= i < |first| ==> first[i].request.FetchToken?
    requires InOrder(rest) && OnlyTargetBlocked(rest, target)
    ensures InOrder(first + rest) && OnlyTargetBlocked(first + rest, target)
  {
    var sent := first + rest;
    forall i | 0 <= i < |sent| && sent[i].request.BlockUser?
      ensures exists k :: 0 <= k < i && NamesUser(sent[k], target, sent[i].request.userId)
    {
      var n := i - |first|;
      assert sent[i] == rest[n];
      var k :| 0 <= k < n && NamesUser(rest[k], target, rest[n].request.userId);
      assert NamesUser(sent[|first| + k], target, sent[i].request.userId);
    }
  }

  /** The last request was a block, and the provider accepted it. */
  predicate EndsWithBlock(sent: seq<Call>) {
    && sent != [] && sent[|sent| - 1].request.BlockUser?
    && sent[|sent| - 1].attempt.reply.Response? && sent[|sent| - 1].attempt.reply.status < 400
  }

  /** Only this address is looked up. */
  ghost predicate OnlyAsksFor(sent: seq<Call>, target: string) {
    forall i :: 0 <= i < |sent| && sent[i].request.FindUser? ==> sent[i].request.email == target
  }

  /** Requests for a token bear none, and end nothing. */
  lemma TokenFirstEnds(first: seq<Call>, rest: seq<Call>, token: string)
    requires forall i :: 0 <= i < |first| ==> first[i].request.FetchToken?
    requires Bears(rest, token)
    ensures Bears(first + rest, token) && (EndsWithBlock(first + rest) <==> EndsWithBlock(rest))
  {
  }

  /** In order, bearing the token, and about the target only. */
  ghost predicate Proper(sent: seq<Call>, target: string, token: string) {
    InOrder(sent) && OnlyTargetBlocked(sent, target) && Bears(sent, token) && OnlyAsksFor(sent, target)
  }

  lemma TokensAreProper(first: seq<Call>, target: string, token: string)
    requires forall i :: 0 <= i < |first| ==> first[i].request.FetchToken?
    ensures Proper(first, target, token) && !EndsWithBlock(first)
  {
  }

  lemma TokensThenProper(first: seq<Call>, rest: seq<Call>, target: string, token: string)
    requires forall i :: 0 <= i < |first| ==> first[i].request.FetchToken?
    requires Proper(rest, target, token)
    ensures Proper(first + rest, target, token) && (EndsWithBlock(first + rest) <==> EndsWithBlock(rest))
  {
    TokenFirst(first, rest, target);
    TokenFirstEnds(first, rest, token);
  }

  /** Lookups followed by attempts to block bear the token, and end with a block that the last one decides. */
  lemma BlocksLast(lookup: seq<Call>, block: seq<Call>, token: string)
    requires forall i :: 0 <= i < |lookup| ==> lookup[i].request.FindUser?
    requires Bears(lookup, token) && Bears(block, token)
    ensures Bears(lookup + block, token) && (EndsWithBlock(lookup + block) <==> EndsWithBlock(block))
  {
  }

  /** The circuit lets the operation through, and its first request is answered with a status below 400. */
  predicate AtOnce(openUntil: int, op: Operation) {
    && openUntil <= op.now && op.attempts != [] && op.attempts[0].reply.Response? && op.attempts[0].reply.status < 400
  }

  lemma AtOnceAccepted(c: Circuit, op: Operation)
    requires op.WellTimed() && AtOnce(c.openUntil, op)
    ensures OutcomeOf(c, op) == Accepted(op.attempts[0].reply.body) && After(c, op) == Circuit(0, c.openUntil)
  {
  }

  /** Such a lookup that names one user, and such a block. */
  predicate SmoothBlock(openUntil: int, env: Script) {
    && AtOnce(openUntil, env.lookup) && AtOnce(openUntil, env.patch)
    && env.lookup.attempts[0].reply.body.UserList?
    && |env.lookup.attempts[0].reply.body.userIds| == 1 && env.lookup.attempts[0].reply.body.userIds[0].Some?
  }

  /** Such a grant of a token. */
  predicate SmoothGrant(openUntil: int, env: Script) {
    && AtOnce(openUntil, env.grant) && env.grant.attempts[0].reply.body.TokenGrant?
    && env.grant.attempts[0].reply.body.accessToken.Some? && !env.grant.attempts[0].reply.body.expiresIn.Unreadable?
  }

  class Auth0IdentityConnector {
    const allowed: set<string>
    const targetOverride: string
    const configured: bool
    var consecutiveFailures: nat
    var circuitOpenUntil: int
    var token: string
    var tokenExpiresAt: int
    ghost var log: seq<Call>

    function State(): Circuit
      reads this
    {
      Circuit(consecutiveFailures, circuitOpenUntil)
    }

    constructor (allowed: set<string>, targetOverride: string, configured: bool)
      ensures State() == CLOSED && token == "" && log == []
      ensures this.allowed == allowed && this.targetOverride == Lower(Strip(targetOverride))
      ensures this.configured == configured
    {
      this.allowed, this.targetOverride, this.configured := allowed, Lower(Strip(targetOverride)), configured;
      consecutiveFailures, circuitOpenUntil, token, tokenExpiresAt, log := 0, 0, "", 0, [];
    }

    /** The account an action on `subject` is aimed at, if it is allowlisted. */
    function Target(subject: string): Option<string> {
      var target := if targetOverride != "" then targetOverride else Lower(Strip(subject));
      if target == "" || target !in allowed then None else Some(target)
    }

    /** There is a token or a smooth grant of one. */
    predicate HasToken(env: Script)
      reads this
    {
      (token != "" && env.clock < tokenExpiresAt) || (configured && SmoothGrant(circuitOpenUntil, env))
    }

    /** Nothing stands in the way of a block. */
    predicate Ready(env: Script)
      reads this
    {
      HasToken(env) && SmoothBlock(circuitOpenUntil, env)
    }

    method RecordRetryableFailure(at: int)
      modifies this`consecutiveFailures, this`circuitOpenUntil
      ensures State() == RecordFailure(old(State()), at)
    {
      consecutiveFailures := consecutiveFailures + 1;
      if consecutiveFailures >= 2 {
        circuitOpenUntil := at + OPEN_FOR;
      }
    }

    /** The retry loop; it is the breaker's operation, and its requests are the operation's calls. */
    method Send(request: Request, op: Operation) returns (outcome: Outcome)
      requires op.WellTimed()
      modifies this`consecutiveFailures, this`circuitOpenUntil, this`log
      ensures State() == After(old(State()), op)
      ensures outcome == OutcomeOf(old(State()), op)
      ensures log == old(log) + Tagged(request, Calls(old(State()), op))
    {
      if op.now < circuitOpenUntil {
        return CircuitOpen;
      }
      var response: Option<Reply> := None;
      for attempt := 0 to 3
        invariant log == old(log) + Tagged(request, op.attempts[..attempt])
        invariant forall k :: 0 <= k < attempt ==> !Conclusive(op.attempts[k].reply)
        invariant State() == old(State())
        invariant response.Some? ==> response.value.Response?
        invariant attempt == 3 ==> response == Some(op.attempts[2].reply)
      {
        var reply := op.attempts[attempt].reply;
        log := log + [Call(request, op.attempts[attempt])];
        assert Tagged(request, op.attempts[..attempt + 1])
            == Tagged(request, op.attempts[..attempt]) + [Call(request, op.attempts[attempt])];
        if reply.NetworkError? {
          if attempt == 2 {
            RecordRetryableFailure(op.end);
            return Network;
          }
          continue;
        }
        response := Some(reply);
        if !Retryable(reply.status) {
          assert Sent(op.attempts) == attempt + 1;
          break;
        }
      }
      // The branch for a missing response (lines 101-103) cannot be taken.
      assert response.Some? && response.value == op.attempts[Sent(op.attempts) - 1].reply;
      var status := response.value.status;
      if Retryable(status) {
        RecordRetryableFailure(op.end);
        return UpstreamRetryable(status);
      }
      if status >= 400 {
        return UpstreamRejected(status);
      }
      consecutiveFailures := 0;
      return Accepted(response.value.body);
    }

    /**
     A cached token while it lasts, otherwise a new grant. A grant whose lifetime cannot be read fails, but
     its token is stored by then; the expiry is not, so the next call asks for another grant.
     */
    method AccessToken(env: Script) returns (failure: Option<Result>, ghost sent: seq<Call>)
      requires env.WellTimed()
      modifies this`consecutiveFailures, this`circuitOpenUntil, this`token, this`tokenExpiresAt, this`log
      ensures log == old(log) + sent && |sent| <= 3
      ensures forall i :: 0 <= i < |sent| ==> sent[i].request == FetchToken
      ensures var cached := old(token) != "" && env.clock < old(tokenExpiresAt);
              && (cached ==> failure == None && sent == [] && State() == old(State())
                             && token == old(token) && tokenExpiresAt == old(tokenExpiresAt))
              && (!cached && !configured ==> failure == Some(NoCredentials) && sent == [] && State() == old(State()))
              && (!cached && configured ==>
                    State() == After(old(State()), env.grant)
                            && sent == Tagged(FetchToken, Calls(old(State()), env.grant)))
      ensures failure == None && (old(token) == "" || env.clock >= old(tokenExpiresAt)) ==>
                exists e :: OutcomeOf(old(State()), env.grant) == Accepted(TokenGrant(Some(token), e))
                            && !e.Unreadable?
                            && tokenExpiresAt
                               == env.granted + Max(30, (if e.Seconds? then e.n else 3600) - 60) * 1_000_000
      ensures failure != None ==> tokenExpiresAt == old(tokenExpiresAt)
      ensures failure != None ==>
                token == if failure == Some(Malformed) && NamesToken(OutcomeOf(old(State()), env.grant))
                         then OutcomeOf(old(State()), env.grant).body.accessToken.value else old(token)
      ensures failure != None ==> failure.value.NoCredentials? || failure.value.Failed? || failure.value.Malformed?
      ensures old(HasToken(env)) ==> failure == None && circuitOpenUntil == old(circuitOpenUntil)
    {
      sent := [];
      if token != "" && env.clock < tokenExpiresAt {
        return None, [];
      }
      if !configured {
        return Some(NoCredentials), [];
      }
      if SmoothGrant(circuitOpenUntil, env) {
        AtOnceAccepted(State(), env.grant);
      }
      var outcome := Send(FetchToken, env.grant);
      sent := Tagged(FetchToken, Calls(old(State()), env.grant));
      if !outcome.Accepted? {
        return Some(Failed(outcome)), sent;
      }
      if !outcome.body.TokenGrant? || outcome.body.accessToken == None {
        return Some(Malformed), sent;
      }
      token := outcome.body.accessToken.value;
      if outcome.body.expiresIn.Unreadable? {
        return Some(Malformed), sent;
      }
      tokenExpiresAt := env.granted + Lifetime(outcome.body.expiresIn);
      failure := None;
      assert OutcomeOf(old(State()), env.grant) == Accepted(TokenGrant(Some(token), outcome.body.expiresIn));
    }

    /**
     `execute`: the address is the configured override, or else the subject without blanks around it and
     in lower case. Nothing is sent unless the action is supported, the address is on the allowlist and
     the run a real one. Otherwise at most nine requests are sent, every lookup is for that address, and
     every block is of the single account the provider has just named for it. Success is reported if and
     only if the last request was a block and the provider's status was below 400.
     */
    method Execute(action: string, subject: string, dryRun: bool, env: Script)
      returns (result: Result, ghost sent: seq<Call>)
      requires env.WellTimed()
      modifies this`consecutiveFailures, this`circuitOpenUntil, this`token, this`tokenExpiresAt, this`log
      ensures log == old(log) + sent && |sent| <= 9 && InOrder(sent)
      ensures var address := if targetOverride != "" then targetOverride else Lower(Strip(subject));
              && (action != "Disable account" || address !in allowed || address == "" || dryRun ==>
                    sent == [] && State() == old(State()) && token == old(token)
                    && tokenExpiresAt == old(tokenExpiresAt))
              && (forall i :: 0 <= i < |sent| && sent[i].request.FindUser? ==>
                    sent[i].request.email == address && address in allowed)
              && OnlyTargetBlocked(sent, address)
              && (result.Unsupported? <==> action != "Disable account")
              && (result.NotAllowlisted? <==> action == "Disable account" && (address !in allowed || address == ""))
              && (result == DryRun(address) <==>
                    action == "Disable account" && address in allowed && address != "" && dryRun)
              && (result.DryRun? || result.Blocked? ==> result.target == address)
              && (action == "Disable account" && address in allowed && address != "" && !dryRun && old(Ready(env)) ==>
                    result.Blocked?)
      ensures !configured && (old(token) == "" || env.clock >= old(tokenExpiresAt)) ==> sent == []
      ensures Bears(sent, token)
      ensures result.Blocked? <==> EndsWithBlock(sent)
    {
      sent := [];
      if action !in SUPPORTED {
        return Unsupported, [];
      }
      var target := Target(subject);
      if target == None {
        return NotAllowlisted, [];
      }
      if dryRun {
        return DryRun(target.value), [];
      }
      result, sent := Authenticated(target.value, env);
    }

    /** The token, then the lookup and the block. */
    method Authenticated(target: string, env: Script) returns (result: Result, ghost sent: seq<Call>)
      requires env.WellTimed()
      modifies this`consecutiveFailures, this`circuitOpenUntil, this`token, this`tokenExpiresAt, this`log
      ensures log == old(log) + sent && |sent| <= 9 && InOrder(sent) && OnlyTargetBlocked(sent, target)
      ensures Bears(sent, token) && OnlyAsksFor(sent, target)
      ensures !result.Unsupported? && !result.NotAllowlisted? && !result.DryRun?
      ensures result.Blocked? <==> EndsWithBlock(sent)
      ensures result.Blocked? ==> result.target == target
      ensures !configured && (old(token) == "" || env.clock >= old(tokenExpiresAt)) ==> sent == []
      ensures old(Ready(env)) ==> result.Blocked?
    {
      var failure;
      failure, sent := AccessToken(env);
      if failure != None {
        TokensAreProper(sent, target, token);
        return failure.value, sent;
      }
      ghost var later;
      result, later := BlockTarget(target, env);
      TokensThenProper(sent, later, target, token);
      sent := sent + later;
    }

    /** The lookup and the block, once there is a token. */
    method BlockTarget(target: string, env: Script) returns (result: Result, ghost sent: seq<Call>)
      requires env.WellTimed()
      modifies this`consecutiveFailures, this`circuitOpenUntil, this`log
      ensures log == old(log) + sent && |sent| <= 6 && InOrder(sent) && OnlyTargetBlocked(sent, target)
      ensures Bears(sent, token) && OnlyAsksFor(sent, target)
      ensures forall i :: 0 <= i < |sent| ==> !sent[i].request.FetchToken?
      ensures !result.Unsupported? && !result.NotAllowlisted? && !result.DryRun?
      ensures result.Blocked? <==> EndsWithBlock(sent)
      ensures result.Blocked? ==> result.target == target
      ensures SmoothBlock(old(circuitOpenUntil), env) ==> result.Blocked?
    {
      var failure, userId;
      failure, userId, sent := FindTarget(target, env);
      if failure != None {
        return failure.value, sent;
      }
      ghost var block;
      var blocked;
      blocked, block := PatchUser(userId, env);
      LookupThenBlock(sent, block, target, userId);
      BlocksLast(sent, block, token);
      sent := sent + block;
      result := if blocked.Accepted? then Blocked(target) else Failed(blocked);
    }

    method PatchUser(userId: string, env: Script) returns (blocked: Outcome, ghost sent: seq<Call>)
      requires env.WellTimed()
      modifies this`consecutiveFailures, this`circuitOpenUntil, this`log
      ensures log == old(log) + sent && |sent| <= 3
      ensures forall i :: 0 <= i < |sent| ==> sent[i].request == BlockUser(userId, token)
      ensures blocked.Accepted? <==> EndsWithBlock(sent)
      ensures AtOnce(old(circuitOpenUntil), env.patch) ==> blocked.Accepted?
    {
      ghost var before := State();
      if AtOnce(circuitOpenUntil, env.patch) {
        AtOnceAccepted(before, env.patch);
      }
      blocked := Send(BlockUser(userId, token), env.patch);
      CallsOfOperation(before, env.patch);
      sent := Tagged(BlockUser(userId, token), Calls(before, env.patch));
    }

    /** The user the provider names for the address, if there is exactly one. */
    method FindTarget(target: string, env: Script)
      returns (failure: Option<Result>, userId: string, ghost sent: seq<Call>)
      requires env.WellTimed()
      modifies this`consecutiveFailures, this`circuitOpenUntil, this`log
      ensures log == old(log) + sent && |sent| <= 3
      ensures forall i :: 0 <= i < |sent| ==> sent[i].request.FindUser?
      ensures Bears(sent, token) && OnlyAsksFor(sent, target)
      ensures failure == None ==> sent != [] && NamesUser(sent[|sent| - 1], target, userId)
      ensures failure != None ==> failure.value.Failed? || failure.value.Malformed? || failure.value.NotUnique?
      ensures SmoothBlock(old(circuitOpenUntil), env) ==> failure == None && circuitOpenUntil == old(circuitOpenUntil)
    {
      ghost var before := State();
      if SmoothBlock(circuitOpenUntil, env) {
        AtOnceAccepted(before, env.lookup);
      }
      var users := Send(FindUser(target, token), env.lookup);
      userId, sent := "", Tagged(FindUser(target, token), Calls(before, env.lookup));
      if !users.Accepted? {
        return Some(Failed(users)), userId, sent;
      }
      if !users.body.UserList? {
        return Some(Malformed), userId, sent;
      }
      if |users.body.userIds| != 1 {
        return Some(NotUnique), userId, sent;
      }
      if users.body.userIds[0] == None {
        return Some(Malformed), userId, sent;
      }
      failure, userId := None, users.body.userIds[0].value;
      assert users.body.userIds == [Some(userId)];
    }
  }
}
