/**
 * The closure that Fetch returns (common/util.go): a 404 loop whose counter outlives the call, a credential
 * refresh on 401, and the shared credential cache. Responses come from a script.
 */
module Fetching {
  import opened Outcomes
  import opened Aliases
  import opened Credentials

  datatype Response = NetError | Resp(status: int, readable: bool)

  datatype Request = Request(uri: string, credential: Credential)

  /** The position in the script of the response whose body is returned, or an error. */
  type Result = Outcome<nat>

  type Script = nat -> Response

  /** What a call depends on besides the script: whether the URI parses, the 404 switch, whether Vault is configured. */
  datatype Env = Env(uriOk: bool, disable404: bool, vault: bool)

  predicate Succeeds(r: Response) {
    r.Resp? && 200 <= r.status < 300
  }

  predicate Has(r: Response, status: int) {
    r.Resp? && r.status == status
  }

  function Read(script: Script, at: nat): Result {
    if script(at).Resp? && script(at).readable then Ok(at) else Err(Other)
  }

  /** The 404 loop, from the response at a position: the counter and the position it ends with. */
  function Retry(script: Script, count: nat, at: nat): (r: (nat, nat))
    ensures r.1 >= at
    decreases 3 - count
  {
    if count < 3 && Has(script(at), 404) then
      if script(at + 1).NetError? then (count, at + 1) else Retry(script, count + 1, at + 1)
    else (count, at)
  }

  /** How a call ends: result, counter, position of the next unused response. */
  datatype End = End(result: Result, count: nat, next: nat)

  function On404(env: Env, script: Script, count: nat, at: nat): (r: End)
    ensures r.next > at
  {
    if env.disable404 then End(Err(Other), count, at + 1)
    else
      var (count', last) := Retry(script, count, at);
      End(if Succeeds(script(last)) then Read(script, last) else Err(Other), count', last + 1)
  }

  function On401(env: Env, script: Script, count: nat, at: nat, refresh: Outcome<Credential>): (r: End)
    ensures r.next > at
  {
    if !env.vault then End(Err(InvalidCredential), count, at + 1)
    else if !refresh.Ok? then End(Err(Other), count, at + 1)
    else if Has(script(at + 1), 401) then End(Err(InvalidCredential), count, at + 2)
    else End(Read(script, at + 1), count, at + 2)
  }

  function Call(env: Env, script: Script, count: nat, at: nat, refresh: Outcome<Credential>): (r: End)
    ensures r.next > at || !env.uriOk
    ensures r.next >= at
  {
    if !env.uriOk then End(Err(Other), count, at)
    else if Succeeds(script(at)) then End(Read(script, at), count, at + 1)
    else if Has(script(at), 404) then On404(env, script, count, at)
    else if Has(script(at), 401) then On401(env, script, count, at, refresh)
    else End(Err(Other), count, at + 1)
  }

  /** Whether a call goes to Vault for fresh credentials. */
  predicate Refreshes(env: Env, script: Script, at: nat) {
    env.uriOk && env.vault && Has(script(at), 401)
  }

  function CredentialFor(creds: map<string, Credential>, host: string, default: Credential): Credential {
    if host in creds then creds[host] else default
  }

  /** The n requests of one call: the one after a refresh carries the fresh credential. */
  function Requests(uri: string, n: nat, first: Credential, refreshes: bool, refresh: Outcome<Credential>): seq<Request> {
    if n == 0 then []
    else if refreshes then [Request(uri, first)] + (if refresh.Ok? then [Request(uri, refresh.value)] else [])
    else [Request(uri, first)] + seq(n - 1, _ => Request(uri, first))
  }

  // ---------------------------------------------------------------- the closure and what it touches

  class Network {
    const script: Script
    var next: nat
    var sent: seq<Request>

    constructor (script: Script)
      ensures this.script == script && next == 0 && sent == []
    {
      this.script := script;
      next, sent := 0, [];
    }

    method DoRequest(req: Request) returns (resp: Response)
      modifies this
      ensures resp == script(old(next)) && next == old(next) + 1 && sent == old(sent) + [req]
    {
      resp := script(next);
      next, sent := next + 1, sent + [req];
    }
  }

  method BuildRequest(creds: ChassisCredentials, uri: string, host: string, default: Credential) returns (req: Request)
    ensures req == Request(uri, CredentialFor(creds.Creds, host, default))
    ensures req.uri == uri
    ensures host in creds.Creds.Keys ==> (host, req.credential) in creds.Creds.Items
    ensures host !in creds.Creds.Keys ==> req.credential == default
  {
    var c := creds.Get(host);
    req := Request(uri, if c.Some? then c.value else default);
  }

  class Closure {
    const uri: string
    const host: string
    const profile: string
    var retryCount: nat

    constructor (uri: string, host: string, profile: string)
      ensures this.uri == uri && this.host == host && this.profile == profile && retryCount == 0
    {
      this.uri, this.host, this.profile := uri, host, profile;
      retryCount := 0;
    }

    method RetryLoop(net: Network, req: Request, first: Response) returns (resp: Response)
      requires net.next > 0 && first == net.script(net.next - 1)
      modifies this`retryCount, net
      ensures var (count, last) := Retry(net.script, old(retryCount), old(net.next) - 1);
              && retryCount == count && net.next == last + 1 && resp == net.script(last)
              && net.sent == old(net.sent) + seq(last + 1 - old(net.next), _ => req)
    {
      resp := first;
      while retryCount < 3 && Has(resp, 404)
        invariant old(net.next) <= net.next && resp == net.script(net.next - 1)
        invariant Retry(net.script, old(retryCount), old(net.next) - 1) == Retry(net.script, retryCount, net.next - 1)
        invariant net.sent == old(net.sent) + seq(net.next - old(net.next), _ => req)
        decreases 3 - retryCount
      {
        resp := net.DoRequest(req);
        if resp.NetError? {
          return;
        }
        retryCount := retryCount + 1;
      }
    }

    method Handle404(net: Network, req: Request, resp: Response, env: Env) returns (r: Result)
      requires net.next > 0 && resp == net.script(net.next - 1) && Has(resp, 404)
      modifies this`retryCount, net
      ensures End(r, retryCount, net.next) == On404(env, net.script, old(retryCount), old(net.next) - 1)
      ensures net.next >= old(net.next)
      ensures net.sent == old(net.sent) + seq(net.next - old(net.next), _ => req)
    {
      if env.disable404 {
        return Err(Other);
      }
      var last := RetryLoop(net, req, resp);
      if !Succeeds(last) {
        return Err(Other);
      }
      var at: nat := net.next - 1;
      return if last.readable then Ok(at) else Err(Other);
    }

    /** The request after a refresh: 401 is an invalid credential, any other readable response is taken. */
    method Resend(creds: ChassisCredentials, net: Network, default: Credential) returns (r: Result)
      requires host in creds.Creds
      modifies net
      ensures net.next == old(net.next) + 1
      ensures r == if Has(net.script(old(net.next)), 401) then Err(InvalidCredential) else Read(net.script, old(net.next))
      ensures net.sent == old(net.sent) + [Request(uri, creds.Creds[host])]
    {
      var req := BuildRequest(creds, uri, host, default);
      var at := net.next;
      var resp := net.DoRequest(req);
      if resp.NetError? {
        return Err(Other);
      }
      if resp.status == 401 {
        return Err(InvalidCredential);
      }
      return if resp.readable then Ok(at) else Err(Other);
    }

    method Handle401(creds: ChassisCredentials, net: Network, default: Credential, aliases: map<string, string>, env: Env)
      returns (r: Result, ghost refresh: Outcome<Credential>)
      requires creds.Valid() && net.next > 0 && Has(net.script(net.next - 1), 401) && env.vault == creds.Vault.Some?
      modifies creds`Creds, net
      ensures End(r, retryCount, net.next) == On401(env, net.script, retryCount, old(net.next) - 1, refresh)
      ensures creds.Creds == CacheAfter(old(creds.Creds), host, env.vault, refresh)
      ensures env.vault ==> CanObtain(refresh, creds.Vault, creds.ProfileValues(), creds.DefaultProfile, profile, host, aliases)
      ensures net.sent == old(net.sent) + (if env.vault && refresh.Ok? then [Request(uri, refresh.value)] else [])
    {
      if creds.Vault.None? {
        return Err(InvalidCredential), Err(Other);
      }
      var obtained := creds.Refresh(profile, host, aliases);
      refresh := obtained;
      if !obtained.Ok? {
        return Err(Other), refresh;
      }
      r := Resend(creds, net, default);
    }

    /**
     * One call. refresh is what Vault answered, if it was asked. The requests carry the cached or configured
     * credential, except the one sent after a refresh, which carries the fresh one.
     */
    method Invoke(creds: ChassisCredentials, net: Network, default: Credential, aliases: map<string, string>, env: Env)
      returns (r: Result, ghost refresh: Outcome<Credential>)
      requires creds.Valid() && env.vault == creds.Vault.Some?
      modifies this`retryCount, creds`Creds, net
      ensures End(r, retryCount, net.next) == Call(env, net.script, old(retryCount), old(net.next), refresh)
      ensures creds.Creds == CacheAfter(old(creds.Creds), host, Refreshes(env, net.script, old(net.next)), refresh)
      ensures Refreshes(env, net.script, old(net.next)) ==>
                CanObtain(refresh, creds.Vault, creds.ProfileValues(), creds.DefaultProfile, profile, host, aliases)
      ensures net.sent == old(net.sent) + Requests(uri, net.next - old(net.next), CredentialFor(old(creds.Creds), host, default),
                                                   Refreshes(env, net.script, old(net.next)), refresh)
    {
      refresh := Err(Other);
      if !env.uriOk {
        return Err(Other), refresh;
      }
      var req := BuildRequest(creds, uri, host, default);
      var resp := net.DoRequest(req);
      if Succeeds(resp) {
        var at: nat := net.next - 1;
        r := if resp.readable then Ok(at) else Err(Other);
      } else if Has(resp, 404) {
        r := Handle404(net, req, resp, env);
      } else if Has(resp, 401) {
        r, refresh := Handle401(creds, net, default, aliases, env);
      } else {
        r := Err(Other);
      }
    }
  }

  // ---------------------------------------------------------------- outcomes

  /**
   * The invalid-credential error is returned exactly when the first response of the call is 401 and either there
   * is no Vault or the refresh worked and the response to the second request is 401 as well.
   */
  lemma InvalidCredentialExactly(env: Env, script: Script, count: nat, at: nat, refresh: Outcome<Credential>)
    ensures Call(env, script, count, at, refresh).result == Err(InvalidCredential)
            <==> env.uriOk && Has(script(at), 401) && (!env.vault || (refresh.Ok? && Has(script(at + 1), 401)))
  {
  }

  /**
   * A body is returned exactly when the last response is readable and is a success or, after a refresh, any
   * response at all but 401.
   */
  lemma BodyExactly(env: Env, script: Script, count: nat, at: nat, refresh: Outcome<Credential>)
    ensures var e := Call(env, script, count, at, refresh);
            e.result.Ok? <==>
              && e.next > at && script(e.next - 1).Resp? && script(e.next - 1).readable
              && (Succeeds(script(e.next - 1))
                  || (Refreshes(env, script, at) && refresh.Ok? && script(e.next - 1).status != 401))
    ensures var e := Call(env, script, count, at, refresh); e.result.Ok? ==> e.result.value == e.next - 1
  {
    if Has(script(at), 401) && env.vault && refresh.Ok? {
      assert at + 2 - 1 == at + 1;
    }
  }

  // ---------------------------------------------------------------- one call, response by response

  /** The loop passes 404 responses only, counts the retries that were answered, and stops no earlier than it must. */
  lemma {:induction false} RetryStops(script: Script, count: nat, at: nat)
    ensures var (c, last) := Retry(script, count, at);
            && (forall i :: at <= i < last ==> script(i).Resp? && script(i).status == 404)
            && (last > at ==> count < 3)
            && c == count + (last - at) - (if last > at && script(last).NetError? then 1 else 0)
            && (script(last).Resp? && script(last).status == 404 ==> c >= 3)
            && (count <= 3 ==> c <= 3)
    decreases 3 - count
  {
    if count < 3 && Has(script(at), 404) && !script(at + 1).NetError? {
      RetryStops(script, count + 1, at + 1);
    }
  }

  /**
   * A call whose first response is 404. With retries switched off it is the only one. Otherwise all responses but the
   * last are 404, the last is one only if the counter is used up, the counter advances by the retries that were
   * answered, and a body is returned exactly if the last response is a success.
   */
  lemma NotFoundExactly(env: Env, script: Script, count: nat, at: nat, refresh: Outcome<Credential>)
    requires env.uriOk && script(at).Resp? && script(at).status == 404
    ensures env.disable404 ==> Call(env, script, count, at, refresh) == End(Err(Other), count, at + 1)
    ensures !env.disable404 ==>
              var e := Call(env, script, count, at, refresh);
              var last := e.next - 1;
              && last >= at && (last > at ==> count < 3)
              && (forall i :: at <= i < last ==> script(i).Resp? && script(i).status == 404)
              && (script(last).Resp? && script(last).status == 404 ==> e.count >= 3)
              && e.count == count + (last - at) - (if last > at && script(last).NetError? then 1 else 0)
              && (count <= 3 ==> e.count <= 3)
              && e.result == if script(last).Resp? && 200 <= script(last).status <= 299 && script(last).readable then Ok(last) else Err(Other)
  {
    RetryStops(script, count, at);
  }

  /** A call whose first response is 401. */
  lemma UnauthorizedExactly(env: Env, script: Script, count: nat, at: nat, refresh: Outcome<Credential>)
    requires env.uriOk && script(at).Resp? && script(at).status == 401
    ensures !env.vault ==> Call(env, script, count, at, refresh) == End(Err(InvalidCredential), count, at + 1)
    ensures env.vault && !refresh.Ok? ==> Call(env, script, count, at, refresh) == End(Err(Other), count, at + 1)
    ensures env.vault && refresh.Ok? ==>
              var second := script(at + 1);
              Call(env, script, count, at, refresh)
              == End(if second.Resp? && second.status == 401 then Err(InvalidCredential)
                     else if second.Resp? && second.readable then Ok(at + 1) else Err(Other),
                     count, at + 2)
  {
  }

  /** Any other call sends one request, and returns its body exactly if it is a success. */
  lemma OtherwiseOneRequest(env: Env, script: Script, count: nat, at: nat, refresh: Outcome<Credential>)
    requires script(at).Resp? ==> script(at).status != 404 && script(at).status != 401
    ensures !env.uriOk ==> Call(env, script, count, at, refresh) == End(Err(Other), count, at)
    ensures env.uriOk ==>
              var first := script(at);
              Call(env, script, count, at, refresh)
              == End(if first.Resp? && 200 <= first.status <= 299 && first.readable then Ok(at) else Err(Other), count, at + 1)
  {
  }

  /** The 500 of this script ends the loop, and the 200 behind it is never asked for. */
  lemma ServerErrorEndsRetries(refresh: Outcome<Credential>)
    ensures var script := (i: nat) => Resp(if i == 0 then 404 else if i == 1 then 500 else 200, true);
            Call(Env(true, false, true), script, 0, 0, refresh) == End(Err(Other), 1, 2)
  {
    var script := (i: nat) => Resp(if i == 0 then 404 else if i == 1 then 500 else 200, true);
    NotFoundExactly(Env(true, false, true), script, 0, 0, refresh);
  }

  /**
   * The credentials that go out: first the cached one or, for a host that is not cached, the configured one; after a
   * refresh the fresh one; and no change between the retries of a 404.
   */
  lemma CredentialsSent(uri: string, n: nat, creds: map<string, Credential>, host: string, default: Credential, refreshes: bool,
                        refresh: Outcome<Credential>)
    requires n > 0
    ensures var sent := Requests(uri, n, CredentialFor(creds, host, default), refreshes, refresh);
            && sent != [] && sent[0].uri == uri
            && (host in creds ==> sent[0].credential == creds[host])
            && (host !in creds ==> sent[0].credential == default)
            && (refreshes && refresh.Ok? ==> |sent| == 2 && sent[1] == Request(uri, refresh.value))
            && (refreshes && !refresh.Ok? ==> |sent| == 1)
            && (!refreshes ==> |sent| == n && forall i :: 0 <= i < n ==> sent[i] == sent[0])
  {
  }

  // ---------------------------------------------------------------- bounds

  lemma {:induction false} RetryBound(script: Script, count: nat, at: nat)
    requires count <= 3
    ensures var (c, last) := Retry(script, count, at);
            && count <= c <= 3
            && last - at <= c - count + 1
            && (c == 3 ==> last - at == c - count)
    decreases 3 - count
  {
    if count < 3 && Has(script(at), 404) && !script(at + 1).NetError? {
      RetryBound(script, count + 1, at + 1);
    }
  }

  lemma CallBound(env: Env, script: Script, count: nat, at: nat, refresh: Outcome<Credential>)
    requires count <= 3
    ensures var e := Call(env, script, count, at, refresh);
            && count <= e.count <= 3
            && e.next - at <= 2 + e.count - count
            && (count < 3 && e.count == 3 ==> e.next - at == 1 + e.count - count)
  {
    RetryBound(script, count, at);
  }

  /** The counter and the number of requests after k calls of one closure; refresh gives what Vault answers each time. */
  function Calls(env: Env, script: Script, refresh: nat -> Outcome<Credential>, k: nat): (nat, nat) {
    if k == 0 then (0, 0)
    else
      var (count, at) := Calls(env, script, refresh, k - 1);
      var e := Call(env, script, count, at, refresh(k - 1));
      (e.count, e.next)
  }

  lemma {:induction false} CallsBound(env: Env, script: Script, refresh: nat -> Outcome<Credential>, k: nat)
    ensures var (count, requests) := Calls(env, script, refresh, k);
            count <= 3 && requests <= 2 * k + (if count < 3 then count else 2)
  {
    if k > 0 {
      CallsBound(env, script, refresh, k - 1);
      var (count, at) := Calls(env, script, refresh, k - 1);
      CallBound(env, script, count, at, refresh(k - 1));
    }
  }

  /** k calls of one closure send at most 2k + 2 requests, whatever the responses. */
  lemma RequestsBound(env: Env, script: Script, refresh: nat -> Outcome<Credential>, k: nat)
    ensures Calls(env, script, refresh, k).1 <= 2 * k + 2
  {
    CallsBound(env, script, refresh, k);
  }

  function Worst(i: nat): Response {
    Resp(if i < 4 then 404 else 401, true)
  }

  /** And the bound is attained, for every positive k. */
  lemma {:induction false} RequestsBoundAttained(refresh: nat -> Outcome<Credential>, k: nat)
    requires k > 0 && forall i :: refresh(i).Ok?
    ensures Calls(Env(true, false, true), Worst, refresh, k) == (3, 2 * k + 2)
  {
    var env := Env(true, false, true);
    if k == 1 {
      assert Retry(Worst, 3, 3) == (3, 3) && Retry(Worst, 2, 2) == (3, 3) && Retry(Worst, 1, 1) == (3, 3);
      assert Call(env, Worst, 0, 0, refresh(0)) == End(Err(Other), 3, 4);
      assert Calls(env, Worst, refresh, 0) == (0, 0);
    } else {
      RequestsBoundAttained(refresh, k - 1);
    }
  }

  // ---------------------------------------------------------------- the shared cache

  /** A call as the cache sees it: its host, whether it asked Vault, and the answer. */
  datatype Use = Use(host: string, refreshes: bool, refresh: Outcome<Credential>)

  function CacheAfterAll(creds: map<string, Credential>, uses: seq<Use>): map<string, Credential>
    decreases |uses|
  {
    if uses == [] then creds
    else CacheAfterAll(CacheAfter(creds, uses[0].host, uses[0].refreshes, uses[0].refresh), uses[1..])
  }

  function Entry(creds: map<string, Credential>, host: string): Option<Credential> {
    if host in creds then Some(creds[host]) else None
  }

  function LastRefresh(uses: seq<Use>, host: string): Option<Outcome<Credential>> {
    if uses == [] then None
    else
      var u := uses[|uses| - 1];
      if u.host == host && u.refreshes then Some(u.refresh) else LastRefresh(uses[..|uses| - 1], host)
  }

  lemma {:induction false} CacheAfterSnoc(creds: map<string, Credential>, uses: seq<Use>, u: Use)
    ensures CacheAfterAll(creds, uses + [u]) == CacheAfter(CacheAfterAll(creds, uses), u.host, u.refreshes, u.refresh)
    decreases |uses|
  {
    if uses == [] {
      assert [] + [u] == [u] && [u][1..] == [];
    } else {
      assert (uses + [u])[1..] == uses[1..] + [u];
      CacheAfterSnoc(CacheAfter(creds, uses[0].host, uses[0].refreshes, uses[0].refresh), uses[1..], u);
    }
  }

  /**
   * Over any sequence of calls for any hosts: the entry of a host is what the last refresh for that host left
   * there, the fresh credential or nothing, and what it was at the start if there was no such refresh.
   */
  lemma {:induction false} LastRefreshWins(creds: map<string, Credential>, uses: seq<Use>, host: string)
    ensures Entry(CacheAfterAll(creds, uses), host) ==
            match LastRefresh(uses, host)
            case None => Entry(creds, host)
            case Some(r) => if r.Ok? then Some(r.value) else None
    decreases |uses|
  {
    if uses != [] {
      var front, u := uses[..|uses| - 1], uses[|uses| - 1];
      assert uses == front + [u];
      CacheAfterSnoc(creds, front, u);
      LastRefreshWins(creds, front, host);
    }
  }
}
