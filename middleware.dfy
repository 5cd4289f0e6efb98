/**
 * The request gate (common/middleware.py). `token_required` lets every path outside `/api/`
 * through untouched; for an API path it demands an `Authorization: Bearer <token>` header
 * (section 2.1 of RFC 6750), asks the authentication service who the token belongs to,
 * synchronises that user into the local `user` table with `sync_user`, records the identity on
 * the request and only then calls the downstream handler. The authentication service is an
 * oracle: its reply is an input of the model.
 */
module Middleware {
  import opened Wrappers
  import opened Uuids
  import opened Backend

  // ---------------------------------------------------------------- strings

  predicate StartsWith(s: string, prefix: string) {
    |prefix| <= |s| && s[..|prefix|] == prefix
  }

  /** Python's `s.split(sep)` with an explicit one-character separator: every separator ends a
      part, so adjacent separators give empty parts and the result is never empty. */
  function Split(s: string, sep: char): (parts: seq<string>)
    ensures |parts| >= 1
    ensures forall i :: 0 <= i < |parts| ==> sep !in parts[i]
  {
    if s == [] then [""]
    else
      var rest := Split(s[1..], sep);
      if s[0] == sep then [""] + rest
      else [[s[0]] + rest[0]] + rest[1..]
  }

  /** `sep.join(parts)`. */
  function Join(parts: seq<string>, sep: char): string
    requires |parts| >= 1
  {
    if |parts| == 1 then parts[0] else parts[0] + [sep] + Join(parts[1..], sep)
  }

  /** Joining the parts again gives back the split string. */
  lemma {:induction false} SplitJoin(s: string, sep: char)
    ensures Join(Split(s, sep), sep) == s
  {
    if s != [] {
      var rest := Split(s[1..], sep);
      SplitJoin(s[1..], sep);
      if s[0] != sep {
        if |rest| == 1 {
          assert Split(s, sep) == [[s[0]] + rest[0]];
        } else {
          assert Split(s, sep)[1..] == rest[1..];
          assert Join(rest, sep) == rest[0] + [sep] + Join(rest[1..], sep);
        }
      }
    }
  }

  /** Splitting a join of separator-free parts gives back the parts. */
  lemma {:induction false} JoinSplit(parts: seq<string>, sep: char)
    requires |parts| >= 1 && forall i :: 0 <= i < |parts| ==> sep !in parts[i]
    ensures Split(Join(parts, sep), sep) == parts
  {
    if |parts| == 1 {
      SplitPart(parts[0], [], sep);
      assert parts[0] + [] == parts[0] == Join(parts, sep);
    } else {
      JoinSplit(parts[1..], sep);
      SplitAfterSeparator(parts[0], Join(parts[1..], sep), sep);
      assert Join(parts, sep) == parts[0] + [sep] + Join(parts[1..], sep);
      assert parts == [parts[0]] + parts[1..];
    }
  }

  /** A separator-free text followed by nothing: one part. */
  lemma {:induction false} SplitPart(x: string, empty: string, sep: char)
    requires sep !in x && empty == []
    ensures Split(x + empty, sep) == [x]
  {
    if x != [] {
      assert (x + empty)[1..] == x[1..] + empty;
      SplitPart(x[1..], empty, sep);
      assert [x[0]] + x[1..] == x;
    }
  }

  /** A separator-free text, a separator and the rest: the text is the first part. */
  lemma {:induction false} SplitAfterSeparator(x: string, y: string, sep: char)
    requires sep !in x
    ensures Split(x + [sep] + y, sep) == [x] + Split(y, sep)
  {
    if x == [] {
      assert x + [sep] + y == [sep] + y;
      assert ([sep] + y)[1..] == y;
    } else {
      assert (x + [sep] + y)[1..] == x[1..] + [sep] + y;
      SplitAfterSeparator(x[1..], y, sep);
      assert [x[0]] + x[1..] == x;
    }
  }

  // ---------------------------------------------------------------- the bearer token

  const Scheme: string := "Bearer "
  const TokenMissing: string := "Token is missing or invalid format"
  const TokenInvalid: string := "Invalid or expired token"

  /** `auth_header.split(" ")[1]`. A header that starts with the scheme always has a second
      part, so the index never raises. */
  function Token(header: string): (t: string)
    requires StartsWith(header, Scheme)
    ensures ' ' !in t
    ensures Split(header, ' ') == ["Bearer"] + Split(header[|Scheme|..], ' ') && t == Split(header[|Scheme|..], ' ')[0]
  {
    assert header == "Bearer" + [' '] + header[|Scheme|..];
    SplitAfterSeparator("Bearer", header[|Scheme|..], ' ');
    Split(header, ' ')[1]
  }

  /** The token is the text after the scheme up to the next space; a header of the scheme and
      a space-free credential yields exactly that credential. */
  lemma TokenOfCredential(credential: string)
    requires ' ' !in credential
    ensures Token(Scheme + credential) == credential
  {
    assert (Scheme + credential)[|Scheme|..] == credential;
    SplitPart(credential, [], ' ');
    assert credential + [] == credential;
  }

  // ---------------------------------------------------------------- sync_user

  /** `User.objects.get_or_create(auth_user_id=...)`, with `IntegrityError` turned into None.
      A None id filters on NULL and may find several rows, which raises. `newId` is the
      primary key the create would draw. */
  function SyncUserSpec(w: World, authUserId: Option<Uuid>, newId: Uuid): (World, Result<Option<UserRow>, Exc>) {
    match Get(w.db.users, (u: UserRow) => u.authUserId == authUserId)
    case OneRow(u) => (w, Ok(Some(u)))
    case SeveralRows => (w, Err(MultipleObjectsReturned))
    case NoRow =>
      var row := UserRow(newId, authUserId);
      var (w1, inserted) := Write(w, InsertUser(row));
      (w1, if inserted.Ok? then Ok(Some(row)) else Ok(None))
  }

  /** `sync_user`. */
  method SyncUser(env: Env, authUserId: Option<Uuid>, newId: Uuid) returns (r: Result<Option<UserRow>, Exc>)
    modifies env
    ensures (env.State(), r) == SyncUserSpec(old(env.State()), authUserId, newId)
  {
    match Get(env.db.users, (u: UserRow) => u.authUserId == authUserId)
    case OneRow(u) => r := Ok(Some(u));
    case SeveralRows => r := Err(MultipleObjectsReturned);
    case NoRow =>
      var row := UserRow(newId, authUserId);
      var inserted := env.Execute(InsertUser(row));
      r := if inserted.Ok? then Ok(Some(row)) else Ok(None);
  }

  /** An existing user is returned unchanged; otherwise exactly one row is appended for that
      auth id, unless the drawn primary key is already taken, in which case None is returned
      and nothing is written. */
  lemma SyncUserGetsOrCreates(w: World, authUserId: Option<Uuid>, newId: Uuid)
    ensures var (w', r) := SyncUserSpec(w, authUserId, newId);
      && (r.Ok? && r.value.Some? ==> r.value.value in w'.db.users && r.value.value.authUserId == authUserId)
      && (Get(w.db.users, (u: UserRow) => u.authUserId == authUserId).OneRow? ==> w' == w)
      && (Get(w.db.users, (u: UserRow) => u.authUserId == authUserId).NoRow? ==>
            if newId in UserIds(w.db.users) then w' == w && r == Ok(None)
            else r == Ok(Some(UserRow(newId, authUserId))) && w'.db == w.db.(users := w.db.users + [UserRow(newId, authUserId)]))
      && (r == Ok(None) <==> Get(w.db.users, (u: UserRow) => u.authUserId == authUserId).NoRow? && newId in UserIds(w.db.users))
  {
    if Get(w.db.users, (u: UserRow) => u.authUserId == authUserId).NoRow? && authUserId.Some? {
      assert !Exists(w.db.users, (x: UserRow) => x.authUserId == authUserId);
    }
  }

  // ---------------------------------------------------------------- the gate

  /** What `requests.get` on `/users/me` gives: a response, with its status and the `id` and
      `role` of its body, either of which may be missing; or the exception it raises when the
      service cannot be reached or does not answer in time. */
  datatype AuthReply =
    | Answered(status: int, id: Option<Uuid>, role: Option<string>)
    | TransportFailed(e: Exc)

  /** What the gate records on the request: `user_id`, `auth_user_id` and `role`. */
  datatype Identity = Identity(userId: Uuid, authUserId: Option<Uuid>, role: Option<string>)

  /** The downstream handler's response, a 401 with an error message, or an exception. */
  datatype Outcome = Forwarded | Unauthorized(message: string) | Raised(e: Exc)

  /** One run of the gate: the new world, the `Authorization` header sent to the authentication
      service (if it was called), the identity recorded (if any) and the outcome. */
  datatype Gate = Gate(w: World, authCall: Option<string>, identity: Option<Identity>, outcome: Outcome)

  function GateSpec(w: World, path: string, header: Option<string>, reply: AuthReply, newId: Uuid): Gate {
    if !StartsWith(path, "/api/") then Gate(w, None, None, Forwarded)
    else if header.None? || !StartsWith(header.value, Scheme) then Gate(w, None, None, Unauthorized(TokenMissing))
    else
      var sent := Scheme + Token(header.value);
      if reply.TransportFailed? then Gate(w, Some(sent), None, Raised(reply.e))
      else if reply.status != 200 then Gate(w, Some(sent), None, Unauthorized(TokenInvalid))
      else
        var (w1, user) := SyncUserSpec(w, reply.id, newId);
        match user
        case Err(e) => Gate(w1, Some(sent), None, Raised(e))
        case Ok(None) => Gate(w1, Some(sent), None, Raised(AttributeError("id")))
        case Ok(Some(u)) => Gate(w1, Some(sent), Some(Identity(u.id, reply.id, reply.role)), Forwarded)
  }

  /** A path outside the API is forwarded with no header check, no authentication call and no
      change to anything. */
  lemma NonApiPassesThrough(w: World, path: string, header: Option<string>, reply: AuthReply, newId: Uuid)
    requires !StartsWith(path, "/api/")
    ensures GateSpec(w, path, header, reply, newId) == Gate(w, None, None, Forwarded)
  {
  }

  /** An API request without a bearer header is refused before the authentication service is
      asked. */
  lemma MissingBearerRefused(w: World, path: string, header: Option<string>, reply: AuthReply, newId: Uuid)
    requires StartsWith(path, "/api/")
    ensures header.None? || !StartsWith(header.value, Scheme) <==>
      GateSpec(w, path, header, reply, newId) == Gate(w, None, None, Unauthorized(TokenMissing))
  {
  }

  /** A rejected token is refused after exactly one call, which carried the parsed token under
      the same scheme; nothing is written and the handler is not reached. */
  lemma RejectedTokenRefused(w: World, path: string, header: string, reply: AuthReply, newId: Uuid)
    requires StartsWith(path, "/api/") && StartsWith(header, Scheme) && reply.Answered? && reply.status != 200
    ensures GateSpec(w, path, Some(header), reply, newId) == Gate(w, Some(Scheme + Token(header)), None, Unauthorized(TokenInvalid))
  {
  }

  /** When the call to the authentication service itself raises, the exception leaves the
      gate: no 401, nothing written, no identity, and the handler is not reached. */
  lemma TransportFailureEscapes(w: World, path: string, header: string, e: Exc, newId: Uuid)
    requires StartsWith(path, "/api/") && StartsWith(header, Scheme)
    ensures GateSpec(w, path, Some(header), TransportFailed(e), newId) == Gate(w, Some(Scheme + Token(header)), None, Raised(e))
  {
  }

  /** The handler is reached exactly for paths outside the API and for accepted tokens whose
      user could be synchronised; in the second case the recorded identity is that user's row
      and the auth id and role the service returned. */
  lemma ForwardedIff(w: World, path: string, header: Option<string>, reply: AuthReply, newId: Uuid)
    ensures var g := GateSpec(w, path, header, reply, newId);
      && (g.outcome.Forwarded? <==>
            || !StartsWith(path, "/api/")
            || (header.Some? && StartsWith(header.value, Scheme) && reply.Answered? && reply.status == 200
                && SyncUserSpec(w, reply.id, newId).1.Ok? && SyncUserSpec(w, reply.id, newId).1.value.Some?))
      && (g.identity.Some? ==>
            && g.outcome.Forwarded? && g.authCall.Some? && reply.Answered?
            && g.identity.value.authUserId == reply.id && g.identity.value.role == reply.role
            && exists u :: u in g.w.db.users && u.id == g.identity.value.userId && u.authUserId == reply.id)
  {
    if StartsWith(path, "/api/") && header.Some? && StartsWith(header.value, Scheme) && reply.Answered? && reply.status == 200 {
      SyncUserGetsOrCreates(w, reply.id, newId);
    }
  }

  /** When `sync_user` swallows an `IntegrityError` the gate reads `id` from None: the request
      fails with `AttributeError` after the authentication call, with no identity recorded. */
  lemma SyncFailureRaisesAttributeError(w: World, path: string, header: string, reply: AuthReply, newId: Uuid)
    requires StartsWith(path, "/api/") && StartsWith(header, Scheme) && reply.Answered? && reply.status == 200
    requires Get(w.db.users, (u: UserRow) => u.authUserId == reply.id).NoRow? && newId in UserIds(w.db.users)
    ensures GateSpec(w, path, Some(header), reply, newId) == Gate(w, Some(Scheme + Token(header)), None, Raised(AttributeError("id")))
  {
    SyncUserGetsOrCreates(w, reply.id, newId);
  }

  // ---------------------------------------------------------------- the objects involved

  /** An incoming request: its path and `Authorization` header, and the identity the gate
      records on it. */
  class Request {
    const path: string
    const authorization: Option<string>
    var identity: Option<Identity>

    constructor (path: string, authorization: Option<string>)
      ensures this.path == path && this.authorization == authorization && identity == None
    {
      this.path := path;
      this.authorization := authorization;
      identity := None;
    }
  }

  /** One request to the authentication service. */
  datatype AuthCall = AuthCall(url: string, authorization: string)

  /** The authentication service as the gate reaches it: every `GET` gets the same reply, which
      may be a raised transport error, and the service remembers what it was asked. */
  class AuthService {
    const reply: AuthReply
    var calls: seq<AuthCall>

    constructor (reply: AuthReply)
      ensures this.reply == reply && calls == []
    {
      this.reply := reply;
      calls := [];
    }

    /** `requests.get(url, headers={"Authorization": authorization})`. */
    method Get(url: string, authorization: string) returns (r: AuthReply)
      modifies this
      ensures calls == old(calls) + [AuthCall(url, authorization)] && r == reply
    {
      calls := calls + [AuthCall(url, authorization)];
      r := reply;
    }
  }

  /** What the downstream handler saw of a request. */
  datatype Seen = Seen(path: string, identity: Option<Identity>)

  /** `get_response`: the rest of the stack, which here only records each request it receives. */
  class Handler {
    var seen: seq<Seen>

    constructor ()
      ensures seen == []
    {
      seen := [];
    }

    method Handle(request: Request)
      modifies this
      ensures seen == old(seen) + [Seen(request.path, request.identity)]
    {
      seen := seen + [Seen(request.path, request.identity)];
    }
  }

  /** `token_required(get_response, config)(request)`: `authUrl` is `config.url`. The handler is
      called at most once, and only after the identity is on the request. */
  method TokenRequired(env: Env, authUrl: string, auth: AuthService, handler: Handler, request: Request, newId: Uuid)
    returns (out: Outcome)
    modifies env, auth, handler, request
    ensures var g := GateSpec(old(env.State()), request.path, request.authorization, auth.reply, newId);
      && env.State() == g.w && out == g.outcome
      && auth.calls == old(auth.calls) + (if g.authCall.Some? then [AuthCall(authUrl + "/users/me", g.authCall.value)] else [])
      && request.identity == (if g.identity.Some? then g.identity else old(request.identity))
      && handler.seen == old(handler.seen) + (if out.Forwarded? then [Seen(request.path, request.identity)] else [])
  {
    if !StartsWith(request.path, "/api/") {
      handler.Handle(request);
      return Forwarded;
    }
    var header := request.authorization;
    if header.None? || !StartsWith(header.value, Scheme) {
      return Unauthorized(TokenMissing);
    }
    var token := Token(header.value);
    var reply := auth.Get(authUrl + "/users/me", Scheme + token);
    if reply.TransportFailed? {
      return Raised(reply.e);
    }
    if reply.status != 200 {
      return Unauthorized(TokenInvalid);
    }
    var user := SyncUser(env, reply.id, newId);
    if user.Err? {
      return Raised(user.error);
    }
    if user.value.None? {
      return Raised(AttributeError("id"));
    }
    request.identity := Some(Identity(user.value.value.id, reply.id, reply.role));
    handler.Handle(request);
    out := Forwarded;
  }
}
