/**
 The in-memory session store (InMemoryAuthSessionStore in app/auth/session.py) over any
 history of calls. Times are in ticks; the digest is any injective function; the random
 cookie and token values are parameters of `issue`.
 */
module SessionStore {
  import opened Prelude

  const DAY := 86_400_000_000

  type Digest = string -> string

  /** `revokedAt` is set once a live session is revoked. */
  datatype Stored = Stored(
    cookieDigest: string, csrfDigest: string, owner: string, createdAt: int, expiresAt: int, revokedAt: Option<int>)

  datatype Issued = Issued(cookie: string, csrf: string, owner: string, expiresAt: int)

  datatype SessionError =
    | OwnerIdInvalid | SessionTtlInvalid | SessionInvalid | SessionRevoked | SessionExpired | ActorRejected

  datatype Result<+T> = Ok(value: T) | Err(error: SessionError)

  ghost predicate Injective(digest: Digest) {
    forall a, b :: digest(a) == digest(b) ==> a == b
  }

  /** A cookie or token value without separators. */
  predicate WellFormed(value: string) {
    value != "" && forall i :: 0 <= i < |value| ==> value[i] !in "\r\n;="
  }

  // ----- the operations on the dictionary -----

  function IssueError(owner: string, ttl: int): Option<SessionError> {
    if !Trimmed(owner) then Some(OwnerIdInvalid)
    else if ttl <= 0 || ttl > DAY then Some(SessionTtlInvalid)
    else None
  }

  function Active(digest: Digest, sessions: map<string, Stored>, cookie: string, now: int): Result<Stored> {
    if !WellFormed(cookie) || digest(cookie) !in sessions then Err(SessionInvalid)
    else if sessions[digest(cookie)].revokedAt.Some? then Err(SessionRevoked)
    else if now >= sessions[digest(cookie)].expiresAt then Err(SessionExpired)
    else Ok(sessions[digest(cookie)])
  }

  /** The two calls that write. */
  datatype Op =
    | Issue(owner: string, now: int, ttl: int, cookie: string, csrf: string)
    | Revoke(cookie: string, now: int)

  function Apply(digest: Digest, sessions: map<string, Stored>, op: Op): map<string, Stored> {
    match op
    case Issue(owner, now, ttl, cookie, csrf) =>
      if IssueError(owner, ttl).Some? then sessions
      else sessions[digest(cookie) := Stored(digest(cookie), digest(csrf), owner, now, now + ttl, None)]
    case Revoke(cookie, now) =>
      match Active(digest, sessions, cookie, now)
      case Err(_) => sessions
      case Ok(stored) => sessions[stored.cookieDigest := stored.(revokedAt := Some(now))]
  }

  function After(digest: Digest, ops: seq<Op>): map<string, Stored> {
    if ops == [] then map[] else Apply(digest, After(digest, ops[..|ops| - 1]), ops[|ops| - 1])
  }

  class InMemoryAuthSessionStore {
    const digest: Digest
    var sessions: map<string, Stored>
    ghost var ops: seq<Op>

    ghost predicate Valid()
      reads this
    {
      Injective(digest) && sessions == After(digest, ops)
    }

    constructor (digest: Digest)
      requires Injective(digest)
      ensures Valid() && this.digest == digest && ops == []
    {
      this.digest, sessions, ops := digest, map[], [];
    }

    method IssueSession(owner: string, now: int, ttl: int, cookie: string, csrf: string) returns (r: Result<Issued>)
      requires Valid()
      modifies this
      ensures Valid() && ops == old(ops) + [Issue(owner, now, ttl, cookie, csrf)]
      ensures sessions == Apply(digest, old(sessions), Issue(owner, now, ttl, cookie, csrf))
      ensures IssueError(owner, ttl).Some? ==> r == Err(IssueError(owner, ttl).value)
      ensures IssueError(owner, ttl).None? ==> r == Ok(Issued(cookie, csrf, owner, now + ttl))
    {
      Record(Issue(owner, now, ttl, cookie, csrf));
      if !Trimmed(owner) {
        return Err(OwnerIdInvalid);
      }
      if ttl <= 0 || ttl > DAY {
        return Err(SessionTtlInvalid);
      }
      sessions := sessions[digest(cookie) := Stored(digest(cookie), digest(csrf), owner, now, now + ttl, None)];
      r := Ok(Issued(cookie, csrf, owner, now + ttl));
    }

    /** Notes a call in the ghost history. */
    ghost method Record(op: Op)
      modifies this`ops
      ensures ops == old(ops) + [op]
      ensures After(digest, ops) == Apply(digest, After(digest, old(ops)), op)
    {
      assert (ops + [op])[..|ops|] == ops;
      ops := ops + [op];
    }

    method FindActive(cookie: string, now: int) returns (r: Result<Stored>)
      ensures r == Active(digest, sessions, cookie, now)
    {
      if !WellFormed(cookie) {
        return Err(SessionInvalid);
      }
      if digest(cookie) !in sessions {
        return Err(SessionInvalid);
      }
      var stored := sessions[digest(cookie)];
      if stored.revokedAt.Some? {
        return Err(SessionRevoked);
      }
      if now >= stored.expiresAt {
        return Err(SessionExpired);
      }
      return Ok(stored);
    }

    method Resolve(cookie: string, now: int) returns (r: Result<string>)
      requires Valid()
      ensures r == Resolves(digest, ops, cookie, now)
    {
      var found := FindActive(cookie, now);
      if found.Err? {
        return Err(found.error);
      }
      r := if ValidOwner(found.value.owner) then Ok(found.value.owner) else Err(ActorRejected);
    }

    method VerifyCsrf(cookie: string, token: string, now: int) returns (r: Result<bool>)
      requires Valid()
      ensures r == Verifies(digest, ops, cookie, token, now)
    {
      var found := FindActive(cookie, now);
      if found.Err? {
        return Err(found.error);
      }
      if !WellFormed(token) {
        return Ok(false);
      }
      r := Ok(found.value.csrfDigest == digest(token));
    }

    method RevokeSession(cookie: string, now: int) returns (r: Result<bool>)
      requires Valid()
      modifies this
      ensures Valid() && ops == old(ops) + [Revoke(cookie, now)]
      ensures sessions == Apply(digest, old(sessions), Revoke(cookie, now))
      ensures var found := Active(digest, old(sessions), cookie, now);
        r == if found.Err? then Err(found.error) else Ok(true)
    {
      Record(Revoke(cookie, now));
      var found := FindActive(cookie, now);
      if found.Err? {
        return Err(found.error);
      }
      var stored := found.value;
      sessions := sessions[stored.cookieDigest := Stored(stored.cookieDigest, stored.csrfDigest, stored.owner,
                                                         stored.createdAt, stored.expiresAt, Some(now))];
      r := Ok(true);
    }
  }

  // ----- the reads -----

  function Resolves(digest: Digest, ops: seq<Op>, cookie: string, now: int): Result<string> {
    match Active(digest, After(digest, ops), cookie, now)
    case Err(e) => Err(e)
    case Ok(stored) => if ValidOwner(stored.owner) then Ok(stored.owner) else Err(ActorRejected)
  }

  function Verifies(digest: Digest, ops: seq<Op>, cookie: string, token: string, now: int): Result<bool> {
    match Active(digest, After(digest, ops), cookie, now)
    case Err(e) => Err(e)
    case Ok(stored) => Ok(WellFormed(token) && stored.csrfDigest == digest(token))
  }

  // ----- what is refused -----

  /** Why a session is not issued: the owner is empty or has white space around it, else the lifetime is not within a day. */
  lemma {:induction false} IssueErrorMeans(owner: string, ttl: int)
    ensures IssueError(owner, ttl) == Some(OwnerIdInvalid) <==> owner == "" || Strip(owner) != owner
    ensures IssueError(owner, ttl) == Some(SessionTtlInvalid) <==>
      owner != "" && Strip(owner) == owner && !(0 < ttl <= 24 * 60 * 60 * 1_000_000)
    ensures IssueError(owner, ttl).None? <==> owner != "" && Strip(owner) == owner && 0 < ttl <= 24 * 60 * 60 * 1_000_000
  {
    TrimmedIff(owner);
  }

  lemma {:induction false} WellFormedMeans(value: string)
    ensures WellFormed(value) <==> value != "" && '\r' !in value && '\n' !in value && ';' !in value && '=' !in value
  {
    forall i | 0 <= i < |value| ensures value[i] in value {}
    if value != "" && '\r' !in value && '\n' !in value && ';' !in value && '=' !in value {
      forall i | 0 <= i < |value| ensures value[i] !in "\r\n;=" {
        assert value[i] in value;
      }
    }
  }

  // ----- what a history means for one cookie -----

  predicate Issues(op: Op, cookie: string) {
    op.Issue? && op.cookie == cookie && IssueError(op.owner, op.ttl).None?
  }

  /** The position of the last successful issue of the cookie. */
  function LastIssue(ops: seq<Op>, cookie: string): (i: Option<nat>)
    ensures i.Some? ==> i.value < |ops| && Issues(ops[i.value], cookie)
  {
    if ops == [] then None
    else if Issues(ops[|ops| - 1], cookie) then Some(|ops| - 1)
    else LastIssue(ops[..|ops| - 1], cookie)
  }

  predicate Expires(issue: Op, now: int) {
    issue.Issue? && now >= issue.now + issue.ttl
  }

  /** A revocation that came after the issue and before it expired. */
  predicate RevokedSince(ops: seq<Op>, cookie: string, i: nat)
    requires i < |ops|
  {
    exists j :: i < j < |ops| && ops[j].Revoke? && ops[j].cookie == cookie && WellFormed(cookie) && !Expires(ops[i], ops[j].now)
  }

  /** The record a history must have left for the cookie. */
  predicate RecordMeans(digest: Digest, ops: seq<Op>, cookie: string, sessions: map<string, Stored>) {
    match LastIssue(ops, cookie)
    case None => digest(cookie) !in sessions
    case Some(i) =>
      digest(cookie) in sessions &&
      var s := sessions[digest(cookie)];
      && s.cookieDigest == digest(cookie) && s.csrfDigest == digest(ops[i].csrf) && s.owner == ops[i].owner
      && s.createdAt == ops[i].now && s.expiresAt == ops[i].now + ops[i].ttl
      && (s.revokedAt.Some? <==> RevokedSince(ops, cookie, i))
  }

  /** Revoking changes nothing but the revocation time of a session that was issued and neither revoked nor expired. */
  lemma {:induction false} RevokeRecords(digest: Digest, ops: seq<Op>, cookie: string, now: int)
    requires Injective(digest)
    ensures var before, after := After(digest, ops), After(digest, ops + [Revoke(cookie, now)]);
      && after.Keys == before.Keys
      && (forall key :: key in before && key != digest(cookie) ==> after[key] == before[key])
      && (Standing(ops, cookie, now).Some? ==> after == before)
      && (Standing(ops, cookie, now).None? ==>
            && digest(cookie) in before && before[digest(cookie)].revokedAt.None?
            && after[digest(cookie)] == before[digest(cookie)].(revokedAt := Some(now)))
  {
    assert (ops + [Revoke(cookie, now)])[..|ops|] == ops;
    HistoryMeans(digest, ops, cookie);
  }

  predicate KeysMatch(sessions: map<string, Stored>) {
    forall k :: k in sessions ==> sessions[k].cookieDigest == k
  }

  /** Every key is the cookie digest of the record it holds. */
  lemma {:induction false} KeyIsRecordDigest(digest: Digest, ops: seq<Op>)
    ensures KeysMatch(After(digest, ops))
  {
    if ops != [] {
      KeyIsRecordDigest(digest, ops[..|ops| - 1]);
    }
  }

  predicate SameEntry(a: map<string, Stored>, b: map<string, Stored>, key: string) {
    (key in a <==> key in b) && (key in a ==> a[key] == b[key])
  }

  /** A call with one cookie leaves every other cookie's record alone. */
  lemma {:induction false} OtherCookieUntouched(digest: Digest, sessions: map<string, Stored>, op: Op, cookie: string)
    requires Injective(digest) && KeysMatch(sessions) && op.cookie != cookie
    ensures SameEntry(sessions, Apply(digest, sessions, op), digest(cookie))
  {
    assert digest(op.cookie) != digest(cookie);
  }

  lemma {:induction false} HistoryMeans(digest: Digest, ops: seq<Op>, cookie: string)
    requires Injective(digest)
    ensures RecordMeans(digest, ops, cookie, After(digest, ops))
  {
    if ops != [] {
      var n := |ops| - 1;
      HistoryMeans(digest, ops[..n], cookie);
      KeyIsRecordDigest(digest, ops[..n]);
      var before := After(digest, ops[..n]);
      if ops[n].cookie != cookie {
        OtherCookieUntouched(digest, before, ops[n], cookie);
        OtherCallMeans(digest, ops, cookie, before, After(digest, ops));
      } else if ops[n].Issue? {
        IssueMeans(digest, ops, cookie, before);
      } else {
        RevokeMeans(digest, ops, cookie, before);
      }
    }
  }

  lemma {:induction false} OtherCallMeans(digest: Digest, ops: seq<Op>, cookie: string, before: map<string, Stored>,
                                          after: map<string, Stored>)
    requires ops != [] && ops[|ops| - 1].cookie != cookie
    requires RecordMeans(digest, ops[..|ops| - 1], cookie, before) && SameEntry(before, after, digest(cookie))
    ensures RecordMeans(digest, ops, cookie, after)
  {
    var front := ops[..|ops| - 1];
    var i := LastIssue(front, cookie);
    if i.Some? {
      RevocationsKept(ops, cookie, i.value);
    }
  }

  /** Unless the last call is an effective revocation, revocations are those of the calls before it. */
  lemma {:induction false} RevocationsKept(ops: seq<Op>, cookie: string, i: nat)
    requires i < |ops| - 1
    ensures var last := ops[|ops| - 1];
      RevokedSince(ops, cookie, i) <==>
        RevokedSince(ops[..|ops| - 1], cookie, i)
        || (last.Revoke? && last.cookie == cookie && WellFormed(cookie) && !Expires(ops[i], last.now))
  {
    var front := ops[..|ops| - 1];
    assert front[i] == ops[i];
    if RevokedSince(front, cookie, i) {
      var j :| i < j < |front| && front[j].Revoke? && front[j].cookie == cookie && WellFormed(cookie) && !Expires(front[i], front[j].now);
      assert ops[j] == front[j];
    }
    if RevokedSince(ops, cookie, i) {
      var j :| i < j < |ops| && ops[j].Revoke? && ops[j].cookie == cookie && WellFormed(cookie) && !Expires(ops[i], ops[j].now);
      assert j < |front| ==> front[j] == ops[j];
    }
  }

  lemma {:induction false} IssueMeans(digest: Digest, ops: seq<Op>, cookie: string, before: map<string, Stored>)
    requires ops != [] && ops[|ops| - 1].Issue? && ops[|ops| - 1].cookie == cookie
    requires RecordMeans(digest, ops[..|ops| - 1], cookie, before)
    ensures RecordMeans(digest, ops, cookie, Apply(digest, before, ops[|ops| - 1]))
  {
    var i := LastIssue(ops[..|ops| - 1], cookie);
    if i.Some? {
      RevocationsKept(ops, cookie, i.value);
    }
  }

  lemma {:induction false} RevokeMeans(digest: Digest, ops: seq<Op>, cookie: string, before: map<string, Stored>)
    requires ops != [] && ops[|ops| - 1].Revoke? && ops[|ops| - 1].cookie == cookie
    requires RecordMeans(digest, ops[..|ops| - 1], cookie, before)
    ensures RecordMeans(digest, ops, cookie, Apply(digest, before, ops[|ops| - 1]))
  {
    var i := LastIssue(ops[..|ops| - 1], cookie);
    if i.Some? {
      RevocationsKept(ops, cookie, i.value);
    }
  }

  // ----- when a cookie resolves -----

  /** The outcome of looking a cookie up, in terms of the calls made so far. */
  function Standing(ops: seq<Op>, cookie: string, now: int): Option<SessionError> {
    var i := LastIssue(ops, cookie);
    if !WellFormed(cookie) || i.None? then Some(SessionInvalid)
    else if RevokedSince(ops, cookie, i.value) then Some(SessionRevoked)
    else if Expires(ops[i.value], now) then Some(SessionExpired)
    else None
  }

  /**
   A cookie resolves iff it was issued and neither revoked since nor expired, always to the
   owner of its last issue. The store issues for owners the actor context then rejects, so
   such a cookie never resolves.
   */
  lemma {:induction false} ResolvesIff(digest: Digest, ops: seq<Op>, cookie: string, now: int)
    requires Injective(digest)
    ensures var e := Standing(ops, cookie, now);
      Resolves(digest, ops, cookie, now) ==
        if e.Some? then Err(e.value)
        else if ValidOwner(ops[LastIssue(ops, cookie).value].owner) then Ok(ops[LastIssue(ops, cookie).value].owner)
        else Err(ActorRejected)
  {
    HistoryMeans(digest, ops, cookie);
  }

  /** A token verifies iff the cookie stands and the token is the one issued with it. */
  lemma {:induction false} VerifiesIff(digest: Digest, ops: seq<Op>, cookie: string, token: string, now: int)
    requires Injective(digest)
    ensures var e := Standing(ops, cookie, now);
      Verifies(digest, ops, cookie, token, now) ==
        if e.Some? then Err(e.value)
        else Ok(WellFormed(token) && token == ops[LastIssue(ops, cookie).value].csrf)
  {
    HistoryMeans(digest, ops, cookie);
  }

  // ----- once gone, gone for good -----

  predicate NeverReissued(later: seq<Op>, cookie: string) {
    forall j :: 0 <= j < |later| ==> !Issues(later[j], cookie)
  }

  lemma {:induction false} LastIssueKept(ops: seq<Op>, later: seq<Op>, cookie: string)
    requires NeverReissued(later, cookie)
    ensures LastIssue(ops + later, cookie) == LastIssue(ops, cookie)
  {
    if later == [] {
      assert ops + later == ops;
    } else {
      var n := |later| - 1;
      assert (ops + later)[..|ops| + n] == ops + later[..n];
      LastIssueKept(ops, later[..n], cookie);
    }
  }

  /**
   Whatever calls follow, a cookie that failed to stand does not stand at any later reading
   unless it is issued again; a revoked one stays revoked.
   */
  lemma {:induction false} OnceGoneForGood(ops: seq<Op>, later: seq<Op>, cookie: string, now: int, afterwards: int)
    requires NeverReissued(later, cookie) && now <= afterwards
    requires Standing(ops, cookie, now).Some?
    ensures Standing(ops + later, cookie, afterwards).Some?
    ensures Standing(ops, cookie, now) == Some(SessionRevoked) ==> Standing(ops + later, cookie, afterwards) == Some(SessionRevoked)
  {
    LastIssueKept(ops, later, cookie);
    var i := LastIssue(ops, cookie);
    if i.Some? {
      assert (ops + later)[i.value] == ops[i.value];
      if RevokedSince(ops, cookie, i.value) {
        var j :| i.value < j < |ops| && ops[j].Revoke? && ops[j].cookie == cookie && WellFormed(cookie) && !Expires(ops[i.value], ops[j].now);
        assert (ops + later)[j] == ops[j];
      }
    }
  }

  /** Calls with other cookies never change how a cookie stands. */
  lemma {:induction false} OthersDoNotMatter(ops: seq<Op>, op: Op, cookie: string, now: int)
    requires op.cookie != cookie
    ensures Standing(ops + [op], cookie, now) == Standing(ops, cookie, now)
  {
    assert (ops + [op])[..|ops|] == ops;
    var i := LastIssue(ops, cookie);
    if i.Some? {
      RevocationsKept(ops + [op], cookie, i.value);
    }
  }

  /** A live cookie can be revoked, and from then on it is. */
  lemma {:induction false} RevokeTakesEffect(ops: seq<Op>, cookie: string, now: int, afterwards: int)
    requires Standing(ops, cookie, now).None?
    ensures Standing(ops + [Revoke(cookie, now)], cookie, afterwards) == Some(SessionRevoked)
  {
    assert (ops + [Revoke(cookie, now)])[..|ops|] == ops;
    RevocationsKept(ops + [Revoke(cookie, now)], cookie, LastIssue(ops, cookie).value);
  }

  // ----- owners that can never be resolved -----

  /**
   After a session was issued for an owner the actor context rejects, its cookie resolves
   at no reading and after no further calls, unless it is issued again.
   */
  lemma {:induction false} IssuedButNeverResolved(digest: Digest, ops: seq<Op>, issue: Op, later: seq<Op>, now: int)
    requires Injective(digest) && issue.Issue? && Issues(issue, issue.cookie) && !ValidOwner(issue.owner)
    requires NeverReissued(later, issue.cookie)
    ensures Resolves(digest, ops + [issue] + later, issue.cookie, now).Err?
    ensures Standing(ops + [issue] + later, issue.cookie, now).None? ==>
      Resolves(digest, ops + [issue] + later, issue.cookie, now) == Err(ActorRejected)
  {
    var all := ops + [issue] + later;
    ResolvesIff(digest, all, issue.cookie, now);
    LastIssueKept(ops + [issue], later, issue.cookie);
    assert all[|ops|] == issue;
  }

  /** `issue` accepts such owners: one with an inner space, for example. */
  lemma {:induction false} RejectedOwnerIsIssued(now: int, cookie: string, csrf: string)
    ensures var issue := Issue("a b", now, 1, cookie, csrf); Issues(issue, cookie) && !ValidOwner(issue.owner)
  {
    assert "a b"[1] == ' ';
  }
}
