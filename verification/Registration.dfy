/** Dynamic registration of an OIDC client, recorded in a Kubernetes secret. */
module Registration {
  import opened Wrappers
  import opened Sources

  type SecretData = map<string, string>

  datatype Auth = Basic(user: string, password: string) | Bearer(token: string) | Anonymous

  datatype PostValue = One(v: string) | Many(vs: seq<string>)

  type PostBody = map<string, PostValue>

  /** Which texts Go accepts as the URL of a request.  The operator ignores the error and works on
      with a request that is nil. */
  type UrlParser = string -> bool

  /** A request sent to the OIDC provider. */
  datatype Call =
    | Discover(url: string)
    | RetrieveToken(url: string)
    | RegisterClient(url: string, body: PostBody, auth: Auth)

  datatype Endpoints = Endpoints(registration: string, token: string)

  datatype ClientData = ClientData(id: string, secret: string)

  /** What the provider answers and whether the secret can be written; `None` is an error. */
  datatype Replies = Replies(discovery: Option<Endpoints>, token: Option<string>, client: Option<ClientData>,
      writable: bool)

  predicate Registered(data: SecretData) {
    Indexed(data, "client_id") != "" && Indexed(data, "client_secret") != ""
  }

  /** The body of the registration request; `None` if an entry has no name or no value. */
  function BodyOf(post: seq<PostData>): Option<PostBody> {
    if post == [] then Some(map[])
    else
      var last := post[|post| - 1];
      match BodyOf(post[..|post| - 1])
      case None => None
      case Some(body) =>
        if last.name == "" then None
        else if last.value != "" then Some(body[last.name := One(last.value)])
        else if last.values.Some? then Some(body[last.name := Many(last.values.value)])
        else None
  }

  function UsesBasic(data: SecretData): bool {
    Indexed(data, "baUsername") != "" && Indexed(data, "baPassword") != ""
  }

  /** A token has to be asked for, and there is an endpoint to ask. */
  predicate AsksForToken(data: SecretData, e: Endpoints) {
    !UsesBasic(data) && Indexed(data, "initialAccessToken") == "" && e.token != ""
  }

  /** The token the registration request carries, and the request that fetched it, if any. */
  function BearerToken(data: SecretData, e: Endpoints, r: Replies): (string, seq<Call>) {
    if !AsksForToken(data, e) then (Indexed(data, "initialAccessToken"), [])
    else (if r.token.Some? then r.token.value else "", [RetrieveToken(e.token)])
  }

  function AuthFor(data: SecretData, token: string): Auth {
    if UsesBasic(data) then Basic(Indexed(data, "baUsername"), Indexed(data, "baPassword"))
    else if token != "" then Bearer(token)
    else Anonymous
  }

  /** How an attempt ends, with the data the secret then holds if it ends well, and the requests. */
  datatype Outcome = Outcome(result: Result<SecretData>, calls: seq<Call>)

  /** A URL that does not parse ends an attempt in a panic; so does a secret without any data, whose
      map is nil, when what the provider hands out is entered. */
  function Register(parses: UrlParser, src: Source, data: SecretData, r: Replies): Outcome {
    if Registered(data) then Outcome(Ok(data), [])
    else if src.discoveryEndpoint == "" then Outcome(Error, [])
    else if !parses(src.discoveryEndpoint) then Outcome(Panic, [])
    else
      match r.discovery
      case None => Outcome(Error, [Discover(src.discoveryEndpoint)])
      case Some(e) =>
        var o := RegisterAt(parses, e, src, data, r);
        Outcome(o.result, [Discover(src.discoveryEndpoint)] + o.calls)
  }

  /** The rest of an attempt, at the endpoints that were discovered. */
  function RegisterAt(parses: UrlParser, e: Endpoints, src: Source, data: SecretData, r: Replies): Outcome {
    if AsksForToken(data, e) && !parses(e.token) then Outcome(Panic, [])
    else
      var (token, c) := BearerToken(data, e, r);
      match BodyOf(src.postData)
      case None => Outcome(Error, c)
      case Some(body) =>
        if !parses(e.registration) then Outcome(Panic, c)
        else Accept(data, r, c + [RegisterClient(e.registration, body, AuthFor(data, token))])
  }

  /** What becomes of the reply to the registration request. */
  function Accept(data: SecretData, r: Replies, calls: seq<Call>): Outcome {
    match r.client
    case None => Outcome(Error, calls)
    case Some(c) =>
      if c.id == "" || c.secret == "" then Outcome(Error, calls)
      else if data == map[] then Outcome(Panic, calls)
      else if !r.writable then Outcome(Error, calls)
      else Outcome(Ok(data["client_id" := c.id]["client_secret" := c.secret]), calls)
  }

  /** The data of the secret after an attempt. */
  function Recorded(parses: UrlParser, src: Source, data: SecretData, r: Replies): SecretData {
    var o := Register(parses, src, data, r);
    if o.result.Ok? then o.result.value else data
  }

  /** The provider accepted a registration, whether or not it could be recorded. */
  predicate Accepted(parses: UrlParser, src: Source, data: SecretData, r: Replies) {
    && (exists c :: c in Register(parses, src, data, r).calls && c.RegisterClient?)
    && r.client.Some? && r.client.value.id != "" && r.client.value.secret != ""
  }

  /** The attempt gets as far as a URL that does not parse: the configured discovery endpoint, or one
      of those that the provider hands out. */
  predicate MeetsBadUrl(parses: UrlParser, src: Source, data: SecretData, r: Replies) {
    && !Registered(data) && src.discoveryEndpoint != ""
    && (|| !parses(src.discoveryEndpoint)
        || (r.discovery.Some? && AsksForToken(data, r.discovery.value) && !parses(r.discovery.value.token))
        || (r.discovery.Some? && BodyOf(src.postData).Some? && !parses(r.discovery.value.registration)))
  }

  // ----- the operator's code

  class OidcClient {
    var calls: seq<Call>

    constructor ()
      ensures calls == []
    {
      calls := [];
    }

    method HandleOidcRegistration(parses: UrlParser, src: Source, secret: SecretData, r: Replies)
      returns (result: Result<SecretData>)
      modifies this
      ensures var o := Register(parses, src, secret, r); result == o.result && calls == old(calls) + o.calls
    {
      result := Error;
      var clientId, clientSecret := Indexed(secret, "client_id"), Indexed(secret, "client_secret");
      if clientId == "" || clientSecret == "" {
        if src.discoveryEndpoint == "" { return; }
        var sent := DoRequest(parses, src.discoveryEndpoint, Discover(src.discoveryEndpoint));
        if !sent { return Panic; }
        if r.discovery.None? { return; }
        ghost var first := [Discover(src.discoveryEndpoint)];
        ghost var o := RegisterAt(parses, r.discovery.value, src, secret, r);
        result := RegisterNew(parses, r.discovery.value, src, secret, r);
        assert (old(calls) + first) + o.calls == old(calls) + (first + o.calls);
      } else {
        result := Ok(secret);
      }
    }

    /** Registers a new client at the endpoints, and enters it in the secret. */
    method RegisterNew(parses: UrlParser, endpoints: Endpoints, src: Source, secret: SecretData, r: Replies)
      returns (result: Result<SecretData>)
      modifies this
      ensures var o := RegisterAt(parses, endpoints, src, secret, r);
        result == o.result && calls == old(calls) + o.calls
    {
      var baUser, baPwd := Indexed(secret, "baUsername"), Indexed(secret, "baPassword");
      var bearerToken := InitialToken(parses, secret, baUser, baPwd, endpoints, r);
      if bearerToken.None? { return Panic; }
      var client := RegisterOidcClient(parses, endpoints, src, baUser, baPwd, bearerToken.value, r);
      if client.Panic? { return Panic; }
      if client.Error? { return Error; }
      if client.value.id == "" || client.value.secret == "" { return Error; }
      if secret == map[] { return Panic; }
      var data := secret["client_id" := client.value.id]["client_secret" := client.value.secret];
      if !r.writable { return Error; }
      result := Ok(data);
    }

    /** Sends a request, unless its URL does not parse. */
    method DoRequest(parses: UrlParser, url: string, request: Call) returns (sent: bool)
      modifies this
      ensures sent == parses(url) && calls == if sent then old(calls) + [request] else old(calls)
    {
      sent := parses(url);
      if sent { calls := calls + [request]; }
    }

    /** The recorded token or, without basic authentication, one that is asked for; `None` is a
        panic. */
    method InitialToken(parses: UrlParser, secret: SecretData, baUser: string, baPwd: string, e: Endpoints, r: Replies)
      returns (token: Option<string>)
      requires baUser == Indexed(secret, "baUsername") && baPwd == Indexed(secret, "baPassword")
      modifies this
      ensures if AsksForToken(secret, e) && !parses(e.token) then token == None && calls == old(calls)
              else var (t, cs) := BearerToken(secret, e, r); token == Some(t) && calls == old(calls) + cs
    {
      token := Some(Indexed(secret, "initialAccessToken"));
      if baUser == "" || baPwd == "" {
        if token.value == "" {
          if e.token != "" {
            var sent := DoRequest(parses, e.token, RetrieveToken(e.token));
            if !sent { return None; }
            if r.token.Some? { token := Some(r.token.value); }
          }
        }
      }
    }

    method RegisterOidcClient(parses: UrlParser, e: Endpoints, src: Source, baUser: string, baPwd: string,
                              token: string, r: Replies)
      returns (client: Result<ClientData>)
      modifies this
      ensures match BodyOf(src.postData)
        case None => client == Error && calls == old(calls)
        case Some(body) =>
          var auth := if baUser != "" && baPwd != "" then Basic(baUser, baPwd)
                      else if token != "" then Bearer(token)
                      else Anonymous;
          if !parses(e.registration) then client == Panic && calls == old(calls)
          else
            client == (if r.client.Some? then Ok(r.client.value) else Error)
            && calls == old(calls) + [RegisterClient(e.registration, body, auth)]
    {
      var body: PostBody := map[];
      for i := 0 to |src.postData|
        invariant BodyOf(src.postData[..i]) == Some(body) && calls == old(calls)
      {
        assert src.postData[..i + 1][..i] == src.postData[..i];
        var entry := src.postData[i];
        if entry.name == "" || (entry.value == "" && entry.values.None?) {
          NoBody(src.postData, i + 1);
          return Error;
        }
        if entry.value != "" {
          body := body[entry.name := One(entry.value)];
        } else {
          body := body[entry.name := Many(entry.values.value)];
        }
      }
      assert src.postData[..|src.postData|] == src.postData;
      var auth := if baUser != "" && baPwd != "" then Basic(baUser, baPwd)
                  else if token != "" then Bearer(token)
                  else Anonymous;
      var sent := DoRequest(parses, e.registration, RegisterClient(e.registration, body, auth));
      if !sent { return Panic; }
      client := if r.client.Some? then Ok(r.client.value) else Error;
    }
  }

  lemma {:induction false} NoBody(post: seq<PostData>, i: nat)
    requires i <= |post| && BodyOf(post[..i]) == None
    ensures BodyOf(post) == None
    decreases |post|
  {
    if i < |post| {
      assert post[..|post| - 1][..i] == post[..i];
      NoBody(post[..|post| - 1], i);
    } else {
      assert post[..i] == post;
    }
  }

  // ----- what one attempt does

  /** A registered secret is used as it is: no request, no change. */
  lemma RegisteredIsLeftAlone(parses: UrlParser, src: Source, data: SecretData, r: Replies)
    ensures Registered(data) ==> Register(parses, src, data, r) == Outcome(Ok(data), [])
    ensures Register(parses, src, data, r).result.Ok? ==> Registered(Recorded(parses, src, data, r))
  {
  }

  /** The secret is rewritten only by a recorded registration, and only in its two client fields. */
  lemma OnlyClientFieldsChange(parses: UrlParser, src: Source, data: SecretData, r: Replies)
    ensures var (o, after) := (Register(parses, src, data, r), Recorded(parses, src, data, r));
      && after - {"client_id", "client_secret"} == data - {"client_id", "client_secret"}
      && (after != data ==> o.result.Ok? && Accepted(parses, src, data, r) && r.writable && data != map[])
  {
    var o := Register(parses, src, data, r);
    if Recorded(parses, src, data, r) != data {
      assert o.calls[|o.calls| - 1].RegisterClient?;
    }
  }

  /** An attempt panics exactly when the provider accepts a registration for a secret without data,
      or it gets as far as a URL that does not parse. */
  lemma PanicsIff(parses: UrlParser, src: Source, data: SecretData, r: Replies)
    ensures Register(parses, src, data, r).result.Panic?
       <==> (data == map[] && Accepted(parses, src, data, r)) || MeetsBadUrl(parses, src, data, r)
    ensures MeetsBadUrl(parses, src, data, r) ==> !Accepted(parses, src, data, r)
  {
    var o := Register(parses, src, data, r);
    if o.result.Panic? && !MeetsBadUrl(parses, src, data, r) { assert o.calls[|o.calls| - 1].RegisterClient?; }
  }

  /** Such an attempt: a block scalar of YAML ends in a newline, which no URL may hold. */
  lemma TrailingNewlinePanics(parses: UrlParser, data: SecretData, r: Replies)
    requires !Registered(data) && !parses("https://op/.well-known\n")
    ensures
      var src := Source(OIDC, "", "", "", "", [], 0, "https://op/.well-known\n", "client", []);
      MeetsBadUrl(parses, src, data, r) && Register(parses, src, data, r) == Outcome(Panic, [])
  {
  }

  /** What is recorded is what the provider handed out: the id under `client_id`, the secret under
      `client_secret`, and everything else as it was. */
  lemma ClientIsRecorded(parses: UrlParser, src: Source, data: SecretData, r: Replies)
    ensures !Registered(data) && Register(parses, src, data, r).result.Ok? ==>
      && r.client.Some?
      && Recorded(parses, src, data, r)
         == data["client_id" := r.client.value.id]["client_secret" := r.client.value.secret]
  {
  }

  /** One attempt, from the secret to the secret. */
  lemma RegistrationExample(parses: UrlParser)
    requires parses("https://op/.well-known") && parses("https://op/register")
    ensures
      var post := [PostData("name", "gw", None)];
      var src := Source(OIDC, "", "", "", "", [], 0, "https://op/.well-known", "client", post);
      var e := Endpoints("https://op/register", "https://op/token");
      var r := Replies(Some(e), None, Some(ClientData("id", "pw")), true);
      var data := map["baUsername" := "u", "baPassword" := "p"];
      Register(parses, src, data, r) ==
        Outcome(Ok(map["baUsername" := "u", "baPassword" := "p", "client_id" := "id", "client_secret" := "pw"]),
                [Discover("https://op/.well-known"),
                 RegisterClient("https://op/register", map["name" := One("gw")], Basic("u", "p"))])
  {
    var post := [PostData("name", "gw", None)];
    assert post[..0] == [];
    assert BodyOf(post) == Some(map["name" := One("gw")]);
    var data := map["baUsername" := "u", "baPassword" := "p"];
    assert data["client_id" := "id"]["client_secret" := "pw"]
        == map["baUsername" := "u", "baPassword" := "p", "client_id" := "id", "client_secret" := "pw"];
  }

  /** A secret is used as it is exactly if both client fields have a value. */
  lemma UsedAsItIsIff(parses: UrlParser, src: Source, data: SecretData, r: Replies)
    ensures Register(parses, src, data, r) == Outcome(Ok(data), [])
       <==> "client_id" in data && data["client_id"] != "" && "client_secret" in data && data["client_secret"] != ""
  {
    RequestsInOrder(parses, src, data, r);
  }

  // ----- the requests

  /** Basic authentication takes a user and a password; a token is asked for exactly if one of them
      and the initial token are missing and the provider has an endpoint for it. */
  lemma CredentialsLaw(parses: UrlParser, src: Source, data: SecretData, r: Replies, c: Call)
    requires c in Register(parses, src, data, r).calls
    ensures c.RegisterClient? ==> (c.auth.Basic? <==>
      "baUsername" in data && data["baUsername"] != "" && "baPassword" in data && data["baPassword"] != "")
    ensures c.RegisterClient? ==>
      ((exists t :: t in Register(parses, src, data, r).calls && t.RetrieveToken?) <==>
         && !("baUsername" in data && data["baUsername"] != "" && "baPassword" in data && data["baPassword"] != "")
         && !("initialAccessToken" in data && data["initialAccessToken"] != "")
         && r.discovery.value.token != "")
  {
    if c.RegisterClient? && AsksForToken(data, r.discovery.value) {
      assert Register(parses, src, data, r).calls[1] == RetrieveToken(r.discovery.value.token);
    }
  }

  /** Requests go to the configured endpoint, and to those that the provider hands out. */
  lemma RequestsGoTo(parses: UrlParser, src: Source, data: SecretData, r: Replies, c: Call)
    requires c in Register(parses, src, data, r).calls
    ensures parses(c.url)
    ensures c.Discover? ==> c.url == src.discoveryEndpoint
    ensures !c.Discover? ==> r.discovery.Some?
    ensures c.RetrieveToken? ==> c.url == r.discovery.value.token
    ensures c.RegisterClient? ==> c.url == r.discovery.value.registration && BodyOf(src.postData) == Some(c.body)
  {
  }

  /** When a registration is sent: neither a token that is refused nor one that is not offered keeps
      it back. */
  lemma RegistrationIsSentIff(parses: UrlParser, src: Source, data: SecretData, r: Replies)
    ensures (exists c :: c in Register(parses, src, data, r).calls && c.RegisterClient?) <==>
      && (Indexed(data, "client_id") == "" || Indexed(data, "client_secret") == "")
      && src.discoveryEndpoint != "" && parses(src.discoveryEndpoint) && r.discovery.Some?
      && BodyOf(src.postData).Some? && parses(r.discovery.value.registration)
      && (AsksForToken(data, r.discovery.value) ==> parses(r.discovery.value.token))
  {
    var calls := Register(parses, src, data, r).calls;
    if calls != [] { assert calls[|calls| - 1] in calls; }
  }

  /** Discovery comes first, then at most one request for a token, then at most one registration. */
  lemma RequestsInOrder(parses: UrlParser, src: Source, data: SecretData, r: Replies)
    ensures var calls := Register(parses, src, data, r).calls;
      && |calls| <= 3
      && (forall i :: 0 <= i < |calls| ==> (calls[i].Discover? <==> i == 0))
      && (forall i :: 0 <= i < |calls| && calls[i].RegisterClient? ==> i == |calls| - 1)
      && (forall i :: 0 <= i < |calls| && calls[i].RetrieveToken? ==> i == 1)
  {
  }

  /** The last entry of a name. */
  ghost predicate LastNamed(post: seq<PostData>, name: string, i: nat) {
    i < |post| && post[i].name == name && forall j :: i < j < |post| ==> post[j].name != name
  }

  predicate Complete(p: PostData) {
    p.name != "" && (p.value != "" || p.values.Some?)
  }

  /** The body holds every name that is listed, with the single value or else the values of the last
      entry of that name; there is none if an entry lacks a name or has neither. */
  lemma {:induction false} BodyLaw(post: seq<PostData>)
    ensures BodyOf(post).Some? <==> forall i :: 0 <= i < |post| ==> Complete(post[i])
    ensures BodyOf(post).Some? ==>
      && (forall name :: name in BodyOf(post).value <==> exists i: nat :: LastNamed(post, name, i))
      && (forall name, i: nat :: LastNamed(post, name, i) ==>
            BodyOf(post).value[name] == if post[i].value != "" then One(post[i].value) else Many(post[i].values.value))
    decreases |post|
  {
    if post != [] {
      var n := |post| - 1;
      var front := post[..n];
      BodyLaw(front);
      assert forall i :: 0 <= i < n ==> front[i] == post[i];
      forall name, i: nat ensures LastNamed(post, name, i) <==>
        (if i == n then name == post[n].name else name != post[n].name && LastNamed(front, name, i)) {
      }
      if BodyOf(post).Some? {
        forall name ensures name in BodyOf(post).value <==> exists i: nat :: LastNamed(post, name, i) {
          if name == post[n].name {
            assert LastNamed(post, name, n);
          } else if name in BodyOf(front).value {
            var i: nat :| LastNamed(front, name, i);
            assert LastNamed(post, name, i);
          }
        }
      }
    }
  }

  /** The documented precedence: basic authentication, else the initial token, else a retrieved
      one, else none; a token is asked for only in the last two cases. */
  lemma AuthorizationPrecedence(parses: UrlParser, src: Source, data: SecretData, r: Replies, c: Call)
    requires c in Register(parses, src, data, r).calls
    ensures c.RegisterClient? ==>
      c.auth == (if UsesBasic(data) then Basic(Indexed(data, "baUsername"), Indexed(data, "baPassword"))
                 else if Indexed(data, "initialAccessToken") != "" then Bearer(Indexed(data, "initialAccessToken"))
                 else if r.discovery.value.token != "" && r.token.Some? && r.token.value != ""
                   then Bearer(r.token.value)
                 else Anonymous)
    ensures c.RetrieveToken? ==> !UsesBasic(data) && Indexed(data, "initialAccessToken") == "" && c.url != ""
  {
  }

  // ----- whole runs

  datatype Event =
    | Attempt(src: Source, r: Replies)
    | AdminEdit(data: SecretData)

  /** Registrations accepted by the provider, secrets cleared and filled in by an administrator,
      and registrations that are not recorded: the write fails, or the attempt panics. */
  datatype Tally = Tally(registrations: nat, clearings: nat, fillings: nat, lostWrites: nat, panics: nat)

  function After(parses: UrlParser, e: Event, data: SecretData): SecretData {
    match e
    case Attempt(src, r) => Recorded(parses, src, data, r)
    case AdminEdit(d) => d
  }

  function Count(parses: UrlParser, e: Event, data: SecretData, t: Tally): Tally {
    match e
    case Attempt(src, r) =>
      if !Accepted(parses, src, data, r) then t
      else if data == map[] then t.(registrations := t.registrations + 1, panics := t.panics + 1)
      else if !r.writable then t.(registrations := t.registrations + 1, lostWrites := t.lostWrites + 1)
      else t.(registrations := t.registrations + 1)
    case AdminEdit(d) =>
      if Registered(data) && !Registered(d) then t.(clearings := t.clearings + 1)
      else if !Registered(data) && Registered(d) then t.(fillings := t.fillings + 1)
      else t
  }

  const NOTHING := Tally(0, 0, 0, 0, 0)

  function Run(parses: UrlParser, events: seq<Event>, data: SecretData): (SecretData, Tally) {
    if events == [] then (data, NOTHING)
    else
      var (d, t) := Run(parses, events[..|events| - 1], data);
      var e := events[|events| - 1];
      (After(parses, e, d), Count(parses, e, d, t))
  }

  function OneIf(b: bool): nat {
    if b then 1 else 0
  }

  /** Over any run every registration is accounted for: the secret holds it, an administrator
      cleared it, or it was lost to a failed write or a panic. */
  lemma {:induction false} RegistrationsBalance(parses: UrlParser, events: seq<Event>, data: SecretData)
    ensures var (d, t) := Run(parses, events, data);
      t.registrations + t.fillings + OneIf(Registered(data))
        == t.clearings + t.lostWrites + t.panics + OneIf(Registered(d))
  {
    if events != [] {
      var (front, e) := (events[..|events| - 1], events[|events| - 1]);
      RegistrationsBalance(parses, front, data);
      var d := Run(parses, front, data).0;
      match e
      case Attempt(src, r) =>
        RegisteredIsLeftAlone(parses, src, d, r);
        AcceptedIsRecorded(parses, src, d, r);
      case AdminEdit(_) =>
    }
  }

  /** An attempt fills in an unregistered secret exactly when its registration is accepted and can
      be written. */
  lemma AcceptedIsRecorded(parses: UrlParser, src: Source, data: SecretData, r: Replies)
    ensures !Registered(data) ==>
      (Registered(Recorded(parses, src, data, r)) <==> Accepted(parses, src, data, r) && r.writable && data != map[])
    ensures Registered(data) ==> !Accepted(parses, src, data, r)
  {
    var o := Register(parses, src, data, r);
    if !Registered(data) && o.result.Ok? { assert o.calls[|o.calls| - 1].RegisterClient?; }
  }

  /** From a secret that only attempts fill in, a client is registered at most once more often than
      the secret was cleared or a write failed, exactly if no registration was accepted for a
      secret without data. */
  lemma RegistersOnceIff(parses: UrlParser, events: seq<Event>, data: SecretData)
    requires !Registered(data) && Run(parses, events, data).1.fillings == 0
    ensures var (d, t) := Run(parses, events, data);
      t.registrations <= t.clearings + t.lostWrites + OneIf(Registered(d)) <==> t.panics == 0
  {
    RegistrationsBalance(parses, events, data);
  }

  /** Attempts on a secret without data register a new client every time. */
  lemma {:induction false} EmptySecretRegistersAgain(parses: UrlParser, src: Source, r: Replies, n: nat)
    requires Accepted(parses, src, map[], r)
    ensures Run(parses, seq(n, i => Attempt(src, r)), map[]) == (map[], NOTHING.(registrations := n, panics := n))
  {
    if n > 0 {
      var events := seq(n, i => Attempt(src, r));
      assert events[..n - 1] == seq(n - 1, i => Attempt(src, r));
      EmptySecretRegistersAgain(parses, src, r, n - 1);
      PanicsIff(parses, src, map[], r);
    }
  }

  /** Such an attempt: a provider that needs no authorization. */
  lemma AnonymousRegistrationPanics(parses: UrlParser)
    requires parses("https://op/.well-known") && parses("https://op/register")
    ensures
      var src := Source(OIDC, "", "", "", "", [], 0, "https://op/.well-known", "client", []);
      var r := Replies(Some(Endpoints("https://op/register", "")), None, Some(ClientData("id", "pw")), true);
      Accepted(parses, src, map[], r) && Register(parses, src, map[], r).result == Panic
  {
    var src := Source(OIDC, "", "", "", "", [], 0, "https://op/.well-known", "client", []);
    var r := Replies(Some(Endpoints("https://op/register", "")), None, Some(ClientData("id", "pw")), true);
    assert Register(parses, src, map[], r).calls ==
      [Discover("https://op/.well-known"), RegisterClient("https://op/register", map[], Anonymous)];
    PanicsIff(parses, src, map[], r);
    assert Register(parses, src, map[], r).calls[1].RegisterClient?;
  }

  /** Once registered, no attempt calls the provider or touches the secret, however many follow. */
  lemma {:induction false} StaysRegistered(parses: UrlParser, events: seq<Event>, data: SecretData)
    requires Registered(data)
    requires forall i :: 0 <= i < |events| ==> events[i].Attempt?
    ensures Run(parses, events, data) == (data, NOTHING)
  {
    if events != [] {
      StaysRegistered(parses, events[..|events| - 1], data);
    }
  }
}
