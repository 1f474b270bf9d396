// The sequential parts of the Entra ID credentials provider of `entra_id.rs`: scope
// validation, the mapping of tokens and backend errors, the constructors' order of checks,
// and the provider state that one round of the background loop and `subscribe` update.
// The Azure backend is absent: its outcomes are parameters.
module EntraId {
  import opened Wrappers
  import opened Errors
  import opened AuthTypes

  /** The default scope of Azure Managed Redis. */
  const REDIS_SCOPE_DEFAULT: string := "https://redis.azure.com/.default"

  const EMPTY_SCOPES: string := "Scopes cannot be empty for Entra ID authentication"
  const BLANK_SCOPE: string := "Scope cannot be empty or whitespace-only"
  const AUTH_FAILED: string := "Entra ID authentication failed"
  const UNWRAP_FAILED: string := "Failed to unwrap credential"
  const RUNTIME_FAILED: string := "Failed to create runtime"

  // ---------------------------------------------------------------- scope validation

  /** The characters with the Unicode White_Space property, which `str::trim` removes. */
  predicate IsWhitespace(c: char)
  {
    || ('\U{0009}' <= c <= '\U{000D}') || c == ' ' || c == '\U{0085}' || c == '\U{00A0}' || c == '\U{1680}'
    || ('\U{2000}' <= c <= '\U{200A}') || c == '\U{2028}' || c == '\U{2029}' || c == '\U{202F}'
    || c == '\U{205F}' || c == '\U{3000}'
  }

  /** `s` without its leading white space. */
  function TrimStart(s: string): (t: string)
    ensures |t| <= |s| && t == s[|s| - |t|..]
    ensures t == [] || !IsWhitespace(t[0])
    ensures forall i :: 0 <= i < |s| - |t| ==> IsWhitespace(s[i])
  {
    if s != [] && IsWhitespace(s[0]) then
      var t := TrimStart(s[1..]);
      assert s[1..][|s| - 1 - |t|..] == s[|s| - |t|..];
      assert forall i :: 1 <= i < |s| ==> s[i] == s[1..][i - 1];
      t
    else s
  }

  /** `s` without its trailing white space. */
  function TrimEnd(s: string): (t: string)
    ensures |t| <= |s| && t == s[..|t|]
    ensures t == [] || !IsWhitespace(t[|t| - 1])
    ensures forall i :: |t| <= i < |s| ==> IsWhitespace(s[i])
  {
    if s != [] && IsWhitespace(s[|s| - 1]) then TrimEnd(s[..|s| - 1]) else s
  }

  /**
   * `str::trim`: a prefix of `TrimStart(s)` (itself a suffix of `s`) that neither starts nor
   * ends with white space, everything of `s` before and after it being white space.
   */
  function Trim(s: string): (t: string)
    ensures |t| <= |TrimStart(s)| && t == TrimStart(s)[..|t|]
    ensures t == [] || (!IsWhitespace(t[0]) && !IsWhitespace(t[|t| - 1]))
    ensures forall i :: 0 <= i < |s| - |TrimStart(s)| ==> IsWhitespace(s[i])
    ensures forall i :: |s| - |TrimStart(s)| + |t| <= i < |s| ==> IsWhitespace(s[i])
  {
    TrailingWhitespace(s, TrimStart(s));
    TrimEnd(TrimStart(s))
  }

  /** What `TrimEnd` drops from the suffix `u` of `s` is white space of `s`. */
  lemma TrailingWhitespace(s: string, u: string)
    requires |u| <= |s| && u == s[|s| - |u|..]
    ensures forall i :: |s| - |u| + |TrimEnd(u)| <= i < |s| ==> IsWhitespace(s[i])
  {
    var k := |s| - |u|;
    forall i | k + |TrimEnd(u)| <= i < |s|
      ensures IsWhitespace(s[i])
    {
      assert s[i] == u[i - k];
    }
  }

  /** A scope that trims to nothing. */
  predicate IsBlank(scope: string)
  {
    Trim(scope) == []
  }

  /** A scope trims to nothing exactly when every character of it is white space. */
  lemma BlankIffAllWhitespace(s: string)
    ensures IsBlank(s) <==> forall i :: 0 <= i < |s| ==> IsWhitespace(s[i])
  {
    var u := TrimStart(s);
    if Trim(s) == [] {
      // `u` is empty: it would start with a character that is not white space, and keep it
      assert u == [];
    } else {
      var t := Trim(s);
      assert t[0] == u[0];
      assert !IsWhitespace(s[|s| - |u|]);
    }
  }

  /**
   * The check applied to each scope in turn: the first blank one stops the scan. The test
   * for blankness is a parameter (always `IsBlank`), which keeps the proof about the scan
   * apart from the one about trimming.
   */
  function CheckEachScope(scopes: seq<string>, blank: string -> bool): (r: Outcome<RedisError>)
    ensures r.Fail? ==> r.error == RedisError(InvalidClientConfig, BLANK_SCOPE, None)
  {
    if scopes == [] then Pass
    else if blank(scopes[0]) then Fail(RedisError(InvalidClientConfig, BLANK_SCOPE, None))
    else CheckEachScope(scopes[1..], blank)
  }

  /** The scan passes exactly when no scope is blank. */
  lemma {:induction false} CheckEachScopeIff(scopes: seq<string>, blank: string -> bool)
    ensures CheckEachScope(scopes, blank).Pass? <==> forall i :: 0 <= i < |scopes| ==> !blank(scopes[i])
  {
    if scopes != [] && !blank(scopes[0]) {
      var rest := scopes[1..];
      CheckEachScopeIff(rest, blank);
      assert forall i :: 1 <= i < |scopes| ==> scopes[i] == rest[i - 1];
    }
  }

  /**
   * `validate_scopes`: an empty list is rejected, then a list holding a scope that is empty
   * or white space only; nothing else is checked.
   */
  function ValidateScopes(scopes: seq<string>): (r: Outcome<RedisError>)
    ensures r.Pass? <==> scopes != [] && forall i :: 0 <= i < |scopes| ==> !IsBlank(scopes[i])
    ensures scopes == [] ==> r == Fail(RedisError(InvalidClientConfig, EMPTY_SCOPES, None))
    ensures scopes != [] && r.Fail? ==> r == Fail(RedisError(InvalidClientConfig, BLANK_SCOPE, None))
  {
    if scopes == [] then Fail(RedisError(InvalidClientConfig, EMPTY_SCOPES, None))
    else
      CheckEachScopeIff(scopes, IsBlank);
      CheckEachScope(scopes, IsBlank)
  }

  /** A single scope that starts with a visible character is accepted: there is no URL check. */
  lemma NoUrlCheck(scope: string)
    requires |scope| > 0 && !IsWhitespace(scope[0])
    ensures ValidateScopes([scope]).Pass?
  {
    assert TrimStart(scope) == scope;
    assert !IsBlank(scope);
    assert [scope][0] == scope;
  }

  /** The examples of the unit tests: [], [""] and ["   "] are rejected. */
  lemma ScopeExamples()
    ensures ValidateScopes([]).Fail? && ValidateScopes([]).error.description == EMPTY_SCOPES
    ensures ValidateScopes([""]).Fail? && ValidateScopes([""]).error.description == BLANK_SCOPE
    ensures ValidateScopes(["   "]).Fail? && ValidateScopes(["   "]).error.description == BLANK_SCOPE
  {
    assert IsBlank("   ") by {
      BlankIffAllWhitespace("   ");
    }
    assert IsBlank("");
    assert ["   "][0] == "   ";
  }

  /** The proper scope of the unit tests is accepted. */
  lemma ValidScopeExample()
    ensures ValidateScopes(["https://valid.scope/.default"]).Pass?
  {
    NoUrlCheck("https://valid.scope/.default");
  }

  /** The default scope is accepted. */
  lemma DefaultScopeValid()
    ensures ValidateScopes([REDIS_SCOPE_DEFAULT]).Pass?
  {
    assert REDIS_SCOPE_DEFAULT[0] == 'h';
    NoUrlCheck(REDIS_SCOPE_DEFAULT);
  }

  // ---------------------------------------------------------------- tokens and errors

  /** `convert_error`: every backend error is an authentication failure carrying its text. */
  function ConvertError(err: string): (e: RedisError)
    ensures e.kind == AuthenticationFailed && e.description == AUTH_FAILED && e.detail == Some(err)
  {
    RedisError(AuthenticationFailed, AUTH_FAILED, Some(err))
  }

  /** A token becomes the credential `Bearer` / its secret. */
  function TokenToCredential(secret: string): (c: BasicAuth)
    ensures c.username == "Bearer" && c.password == secret
  {
    BasicAuth("Bearer", secret)
  }

  /** A token request's outcome (the secret, or the backend's error text) as the loop maps it. */
  function MapTokenResponse(response: Result<string, string>): (r: Result<BasicAuth, RedisError>)
    ensures response.Success? <==> r.Success?
    ensures response.Success? ==> r.value == TokenToCredential(response.value)
    ensures response.Failure? ==> r.error == ConvertError(response.error)
  {
    match response
    case Success(secret) => Success(TokenToCredential(secret))
    case Failure(err) => Failure(ConvertError(err))
  }

  /**
   * The synchronous `get_credentials`: a runtime that cannot be created is an I/O error;
   * otherwise the token request's outcome, mapped.
   */
  function SyncCredentials(runtimeError: Option<string>, response: Result<string, string>): (r: Result<BasicAuth, RedisError>)
    ensures runtimeError.Some? ==> r == Failure(RedisError(IoError, RUNTIME_FAILED, runtimeError))
    ensures runtimeError.None? ==> r == MapTokenResponse(response)
  {
    match runtimeError
    case Some(e) => Failure(RedisError(IoError, RUNTIME_FAILED, Some(e)))
    case None => MapTokenResponse(response)
  }

  // ---------------------------------------------------------------- construction

  /** The identity flows a provider can be built on. */
  datatype Backend =
    | DefaultAzure
    | ClientSecret(tenantId: string, clientId: string, clientSecret: string)
    | ClientCertificate(tenantId: string, clientId: string, certificatePem: string, privateKeyPem: string)
    | SystemAssignedManagedIdentity
    | UserAssignedManagedIdentity(clientId: string)
    | CustomCredential

  /** What building the backend's credential came to: built, an Azure error, or shared so it could not be unwrapped. */
  datatype BuildOutcome = Built | BuildFailed(detail: string) | StillShared

  /**
   * Why a constructor fails, if it does: invalid scopes first, then (except for a custom
   * credential, which is already built) the backend's error, then the unwrap failure.
   */
  function ConstructionError(backend: Backend, scopes: seq<string>, build: BuildOutcome): (r: Outcome<RedisError>)
    ensures ValidateScopes(scopes).Fail? ==> r == ValidateScopes(scopes)
    ensures r.Pass? <==> ValidateScopes(scopes).Pass? && (backend.CustomCredential? || build.Built?)
    ensures ValidateScopes(scopes).Pass? && !backend.CustomCredential? && build.BuildFailed? ==>
      r == Fail(ConvertError(build.detail))
    ensures ValidateScopes(scopes).Pass? && !backend.CustomCredential? && build.StillShared? ==>
      r == Fail(RedisError(AuthenticationFailed, UNWRAP_FAILED, None))
  {
    match ValidateScopes(scopes)
    case Fail(e) => Fail(e)
    case Pass =>
      if backend.CustomCredential? then Pass
      else
        match build
        case Built => Pass
        case BuildFailed(detail) => Fail(ConvertError(detail))
        case StillShared => Fail(RedisError(AuthenticationFailed, UNWRAP_FAILED, None))
  }

  /** The constructors without explicit scopes use the default scope, which is valid. */
  lemma DefaultScopeConstruction(backend: Backend, build: BuildOutcome)
    ensures ConstructionError(backend, [REDIS_SCOPE_DEFAULT], build).Pass? <==> backend.CustomCredential? || build.Built?
  {
    DefaultScopeValid();
  }

  /** What a subscriber has seen: whether its stream is still held, and the items it got. */
  datatype Subscriber = Subscriber(open: bool, delivered: seq<Result<BasicAuth, RedisError>>)

  /** One subscriber's share of a round: an open one receives the item, a closed one cannot. */
  function DeliverOne(s: Subscriber, item: Result<BasicAuth, RedisError>): (r: Subscriber)
    ensures r.open == s.open
    ensures r.delivered == if s.open then s.delivered + [item] else s.delivered
  {
    if s.open then s.(delivered := s.delivered + [item]) else s
  }

  /** `item` sent to every registered subscriber, in registration order. */
  function Deliver(subs: seq<Subscriber>, item: Result<BasicAuth, RedisError>): (r: seq<Subscriber>)
    ensures |r| == |subs|
    ensures forall i :: 0 <= i < |subs| ==> r[i] == DeliverOne(subs[i], item)
  {
    if subs == [] then []
    else Deliver(subs[..|subs| - 1], item) + [DeliverOne(subs[|subs| - 1], item)]
  }

  /** The subscribers left after `retain(|sender| !sender.is_closed())`: the open ones, in order. */
  function KeepOpen(subs: seq<Subscriber>): (r: seq<Subscriber>)
    ensures |r| <= |subs|
    ensures forall i :: 0 <= i < |r| ==> r[i].open
  {
    if subs == [] then []
    else
      KeepOpen(subs[..|subs| - 1]) + (if subs[|subs| - 1].open then [subs[|subs| - 1]] else [])
  }

  /** Exactly the open subscribers survive pruning. */
  lemma {:induction false} KeepOpenMembers(subs: seq<Subscriber>, s: Subscriber)
    ensures s in KeepOpen(subs) <==> s in subs && s.open
  {
    if subs != [] {
      var init := subs[..|subs| - 1];
      KeepOpenMembers(init, s);
      assert subs == init + [subs[|subs| - 1]];
    }
  }

  /** Pruning keeps the order: pruning a concatenation prunes each part. */
  lemma {:induction false} KeepOpenAppend(a: seq<Subscriber>, b: seq<Subscriber>)
    ensures KeepOpen(a + b) == KeepOpen(a) + KeepOpen(b)
    decreases |b|
  {
    if b == [] {
      assert a + b == a;
    } else {
      var b' := b[..|b| - 1];
      assert (a + b)[..|a + b| - 1] == a + b';
      assert (a + b)[|a + b| - 1] == b[|b| - 1];
      KeepOpenAppend(a, b');
    }
  }

  /** Delivering and then pruning is pruning and then delivering: every open subscriber gets the item. */
  lemma {:induction false} DeliverThenPrune(subs: seq<Subscriber>, item: Result<BasicAuth, RedisError>)
    ensures KeepOpen(Deliver(subs, item)) == Deliver(KeepOpen(subs), item)
  {
    if subs != [] {
      var init := subs[..|subs| - 1];
      var last := subs[|subs| - 1];
      var sent := Deliver(subs, item);
      var tail := if last.open then [last] else [];
      assert sent[..|sent| - 1] == Deliver(init, item);
      assert sent[|sent| - 1] == DeliverOne(last, item);
      DeliverThenPrune(init, item);
      assert KeepOpen(sent) == Deliver(KeepOpen(init), item) + Deliver(tail, item) by {
        DeliverSingle(last, item);
      }
      assert KeepOpen(subs) == KeepOpen(init) + tail;
      DeliverAppend(KeepOpen(init), tail, item);
    }
  }

  /** Delivering to one subscriber. */
  lemma DeliverSingle(s: Subscriber, item: Result<BasicAuth, RedisError>)
    ensures Deliver([s], item) == [DeliverOne(s, item)]
  {
    assert [s][..0] == [];
  }

  /** Delivery is element-wise, so it distributes over concatenation. */
  lemma DeliverAppend(a: seq<Subscriber>, b: seq<Subscriber>, item: Result<BasicAuth, RedisError>)
    ensures Deliver(a + b, item) == Deliver(a, item) + Deliver(b, item)
  {
    var l := Deliver(a + b, item);
    var r := Deliver(a, item) + Deliver(b, item);
    assert |l| == |r|;
    forall i | 0 <= i < |l|
      ensures l[i] == r[i]
    {
      if i < |a| {
        assert (a + b)[i] == a[i];
      } else {
        assert (a + b)[i] == b[i - |a|];
      }
    }
  }

  /** The stream a new subscriber gets replays the current credentials first, when there are any. */
  function NewSubscriber(current: Option<BasicAuth>): (s: Subscriber)
    ensures s.open
    ensures current.Some? ==> s.delivered == [Success(current.value)]
    ensures current.None? ==> s.delivered == []
  {
    Subscriber(true, if current.Some? then [Success(current.value)] else [])
  }

  /** The `send` to each registered subscriber, in registration order. */
  method SendToAll(subs: seq<Subscriber>, item: Result<BasicAuth, RedisError>) returns (sent: seq<Subscriber>)
    ensures sent == Deliver(subs, item)
  {
    sent := [];
    var i := 0;
    while i < |subs|
      invariant 0 <= i <= |subs|
      invariant sent == Deliver(subs[..i], item)
    {
      var next := subs[..i + 1];
      assert next[..|next| - 1] == subs[..i] && next[|next| - 1] == subs[i];
      assert Deliver(next, item) == Deliver(subs[..i], item) + [DeliverOne(subs[i], item)];
      sent := sent + [DeliverOne(subs[i], item)];
      i := i + 1;
    }
    assert subs[..i] == subs;
  }

  /** `retain(|sender| !sender.is_closed())`. */
  method RetainOpen(subs: seq<Subscriber>) returns (kept: seq<Subscriber>)
    ensures kept == KeepOpen(subs)
  {
    kept := [];
    var j := 0;
    while j < |subs|
      invariant 0 <= j <= |subs|
      invariant kept == KeepOpen(subs[..j])
    {
      var next := subs[..j + 1];
      assert next[..|next| - 1] == subs[..j] && next[|next| - 1] == subs[j];
      assert KeepOpen(next) == KeepOpen(subs[..j]) + (if subs[j].open then [subs[j]] else []);
      if subs[j].open {
        kept := kept + [subs[j]];
      }
      j := j + 1;
    }
    assert subs[..j] == subs;
  }

  // ---------------------------------------------------------------- the provider

  /**
   * `EntraIdCredentialsProvider`: its backend and scopes, the handle of the background task
   * (tasks numbered in spawn order; `aborted` lists the ones aborted, in order), the
   * subscribers and the last credentials obtained.
   */
  class EntraIdCredentialsProvider {
    const backend: Backend
    const scopes: seq<string>
    var backgroundHandle: Option<nat>
    var spawned: nat
    var aborted: seq<nat>
    var subscribers: seq<Subscriber>
    var currentCredentials: Option<BasicAuth>

    /** The state every successful constructor builds. */
    constructor (backend: Backend, scopes: seq<string>)
      ensures this.backend == backend && this.scopes == scopes
      ensures backgroundHandle.None? && spawned == 0 && aborted == []
      ensures subscribers == [] && currentCredentials.None?
    {
      this.backend := backend;
      this.scopes := scopes;
      backgroundHandle := None;
      spawned := 0;
      aborted := [];
      subscribers := [];
      currentCredentials := None;
    }

    /**
     * `start`: nothing when a background task exists; otherwise spawn one. (Each round of
     * its loop is `BroadcastRound`.)
     */
    method Start()
      modifies this
      ensures old(backgroundHandle).Some? ==> backgroundHandle == old(backgroundHandle) && spawned == old(spawned)
      ensures old(backgroundHandle).None? ==> backgroundHandle == Some(old(spawned)) && spawned == old(spawned) + 1
      ensures aborted == old(aborted) && subscribers == old(subscribers) && currentCredentials == old(currentCredentials)
    {
      if backgroundHandle.Some? {
        return;
      }
      backgroundHandle := Some(spawned);
      spawned := spawned + 1;
    }

    /** `stop`: take the handle, if any, and abort its task. */
    method Stop()
      modifies this
      ensures backgroundHandle.None? && spawned == old(spawned)
      ensures aborted == old(aborted) + (if old(backgroundHandle).Some? then [old(backgroundHandle).value] else [])
      ensures subscribers == old(subscribers) && currentCredentials == old(currentCredentials)
    {
      if backgroundHandle.Some? {
        aborted := aborted + [backgroundHandle.value];
        backgroundHandle := None;
      }
    }

    /**
     * One round of the background loop, given the token request's mapped outcome: keep the
     * credentials on success, send the outcome to every subscriber, then drop the closed ones.
     */
    method BroadcastRound(response: Result<BasicAuth, RedisError>)
      modifies this
      ensures currentCredentials == if response.Success? then Some(response.value) else old(currentCredentials)
      ensures subscribers == KeepOpen(Deliver(old(subscribers), response))
      ensures backgroundHandle == old(backgroundHandle) && spawned == old(spawned) && aborted == old(aborted)
    {
      if response.Success? {
        currentCredentials := Some(response.value);
      }
      var sent := SendToAll(subscribers, response);
      subscribers := RetainOpen(sent);
    }

    /** `subscribe`: register one more subscriber, whose stream starts with the current credentials. */
    method Subscribe() returns (index: nat)
      modifies this
      ensures subscribers == old(subscribers) + [NewSubscriber(old(currentCredentials))]
      ensures index == |old(subscribers)| && index < |subscribers|
      ensures currentCredentials == old(currentCredentials)
      ensures backgroundHandle == old(backgroundHandle) && spawned == old(spawned) && aborted == old(aborted)
    {
      index := |subscribers|;
      subscribers := subscribers + [NewSubscriber(currentCredentials)];
    }

    /** Dropping the stream of the subscriber at `index` closes its channel. */
    method CloseSubscriber(index: nat)
      requires index < |subscribers|
      modifies this
      ensures subscribers == old(subscribers)[index := old(subscribers)[index].(open := false)]
      ensures currentCredentials == old(currentCredentials)
      ensures backgroundHandle == old(backgroundHandle) && spawned == old(spawned) && aborted == old(aborted)
    {
      subscribers := subscribers[index := subscribers[index].(open := false)];
    }
  }

  /**
   * The `*_with_scopes` constructors and `new_with_credential`: scopes are validated before
   * anything is built, and kept as given.
   */
  method NewWithScopes(backend: Backend, scopes: seq<string>, build: BuildOutcome)
    returns (r: Result<EntraIdCredentialsProvider, RedisError>)
    ensures ConstructionError(backend, scopes, build).Fail? ==> r == Failure(ConstructionError(backend, scopes, build).error)
    ensures ConstructionError(backend, scopes, build).Pass? ==>
      && r.Success? && fresh(r.value)
      && r.value.backend == backend && r.value.scopes == scopes
      && r.value.backgroundHandle.None? && r.value.subscribers == [] && r.value.currentCredentials.None?
  {
    var check := ValidateScopes(scopes);
    if check.Fail? {
      return Failure(check.error);
    }
    if !backend.CustomCredential? {
      match build
      case BuildFailed(detail) =>
        return Failure(ConvertError(detail));
      case StillShared =>
        return Failure(RedisError(AuthenticationFailed, UNWRAP_FAILED, None));
      case Built =>
    }
    var p := new EntraIdCredentialsProvider(backend, scopes);
    r := Success(p);
  }

  /** `new_default`, `new_client_secret`, ...: the same with the default scope. */
  method New(backend: Backend, build: BuildOutcome) returns (r: Result<EntraIdCredentialsProvider, RedisError>)
    requires !backend.CustomCredential?
    ensures r.Success? <==> build.Built?
    ensures r.Success? ==> fresh(r.value) && r.value.scopes == [REDIS_SCOPE_DEFAULT] && r.value.backend == backend
    ensures build.BuildFailed? ==> r == Failure(ConvertError(build.detail))
    ensures build.StillShared? ==> r == Failure(RedisError(AuthenticationFailed, UNWRAP_FAILED, None))
  {
    DefaultScopeValid();
    r := NewWithScopes(backend, [REDIS_SCOPE_DEFAULT], build);
  }

  /**
   * A subscriber that joins while credentials are current sees them first and then the next
   * round's outcome, and stays after the earlier subscribers that are still open.
   */
  lemma SubscriberSeesReplayThenRound(subs: seq<Subscriber>, current: BasicAuth, next: Result<BasicAuth, RedisError>)
    ensures KeepOpen(Deliver(subs + [NewSubscriber(Some(current))], next))
         == KeepOpen(Deliver(subs, next)) + [Subscriber(true, [Success(current), next])]
  {
    var all := subs + [NewSubscriber(Some(current))];
    var seen := Subscriber(true, [Success(current), next]);
    assert all[..|all| - 1] == subs;
    assert DeliverOne(all[|all| - 1], next) == seen;
    var sent := Deliver(all, next);
    assert sent == Deliver(subs, next) + [seen];
    assert sent[..|sent| - 1] == Deliver(subs, next);
  }
}
