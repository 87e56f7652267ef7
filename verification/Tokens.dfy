/**
 Refresh-token rotation, logout and password reset. Tokens are kept under
 their text, which stands for its hash; a password is represented by its
 stored hash, which is also what a reset link carries a fingerprint of.
 */
module Tokens {
  import opened Calendar
  import opened References

  const LIFETIME := 30 * 24 * 60

  datatype User = User(tenant: Id, active: bool, password: nat)

  datatype TokenRow = TokenRow(tenant: Id, user: Id, expires: int, revoked: bool)

  datatype AuthDb = AuthDb(users: map<Id, User>, tokens: map<string, TokenRow>)

  /** The claims of a reset link. */
  datatype Link = Link(tenant: Id, user: Id, password: nat, expires: int)

  /** What a call leaves and, when it issues one, the new refresh token. */
  datatype Result = Result(db: AuthDb, ok: bool, issued: Option<string>)

  function Denied(db: AuthDb): Result { Result(db, false, None) }

  predicate Valid(db: AuthDb, tenant: Id, raw: string, now: int) {
    raw in db.tokens && db.tokens[raw].tenant == tenant && !db.tokens[raw].revoked && db.tokens[raw].expires > now
  }

  function FindUser(db: AuthDb, tenant: Id, id: Id): Option<User> {
    if id in db.users && db.users[id].tenant == tenant then Some(db.users[id]) else None
  }

  /** Adds a fresh token; a text that was issued before violates the unique column and the call fails. */
  function Issue(db: AuthDb, tenant: Id, user: Id, secret: string, now: int): Result {
    var raw := RefreshTokenText(tenant, secret);
    if raw in db.tokens then Denied(db)
    else Result(db.(tokens := db.tokens[raw := TokenRow(tenant, user, now + LIFETIME, false)]), true, Some(raw))
  }

  function Revoke(db: AuthDb, raw: string): AuthDb
    requires raw in db.tokens
  {
    db.(tokens := db.tokens[raw := db.tokens[raw].(revoked := true)])
  }

  function Login(db: AuthDb, user: Id, verified: bool, secret: string, now: int): Result {
    if user !in db.users || !db.users[user].active || !verified then Denied(db)
    else Issue(db, db.users[user].tenant, user, secret, now)
  }

  function Refresh(db: AuthDb, raw: string, secret: string, now: int): Result {
    var tenant := TokenTenant(raw);
    if tenant.None? || !Valid(db, tenant.value, raw, now) then Denied(db)
    else
      var user := FindUser(db, tenant.value, db.tokens[raw].user);
      if user.None? || !user.value.active then Denied(db)
      else
        var out := Issue(Revoke(db, raw), tenant.value, db.tokens[raw].user, secret, now);
        if out.ok then out else Denied(db)
  }

  function Logout(db: AuthDb, raw: string, now: int): Result {
    var tenant := TokenTenant(raw);
    if tenant.Some? && Valid(db, tenant.value, raw, now) then Result(Revoke(db, raw), true, None)
        else Result(db, true, None)
  }

  function RevokeAll(tokens: map<string, TokenRow>, tenant: Id, user: Id): map<string, TokenRow> {
    map raw | raw in tokens ::
      if tokens[raw].tenant == tenant && tokens[raw].user == user then tokens[raw].(revoked := true) else tokens[raw]
  }

  function ResetPassword(db: AuthDb, link: Link, password: nat, now: int): Result {
    var user := FindUser(db, link.tenant, link.user);
    if link.expires <= now || user.None? || link.password != user.value.password then Denied(db)
    else Result(AuthDb(db.users[link.user := user.value.(password := password)],
        RevokeAll(db.tokens, link.tenant, link.user)), true, None)
  }

  // ----- what each call comes to

  /** The row of a token issued now: 30 days, in minutes. */
  function Fresh(tenant: Id, user: Id, now: int): TokenRow {
    TokenRow(tenant, user, now + 43200, false)
  }

  /** A login issues one token exactly for an existing, active user whose password was verified, and a new secret. */
  lemma LoginOutcome(db: AuthDb, user: Id, verified: bool, secret: string, now: int)
    ensures var out := Login(db, user, verified, secret, now);
            if user in db.users && db.users[user].active && verified
               && RefreshTokenText(db.users[user].tenant, secret) !in db.tokens
            then
              var raw := RefreshTokenText(db.users[user].tenant, secret);
              out == Result(AuthDb(db.users, db.tokens[raw := Fresh(db.users[user].tenant, user, now)]), true,
                  Some(raw))
            else out == Result(db, false, None)
  {
  }

  /** The text names a tenant, and is a token of it that is neither revoked nor expired. */
  predicate Good(db: AuthDb, raw: string, now: int) {
    && raw in db.tokens && TokenTenant(raw) == Some(db.tokens[raw].tenant)
    && !db.tokens[raw].revoked && now < db.tokens[raw].expires
  }

  /**
   A refresh revokes the token it was given and issues one to the same user of the
   same tenant, if that user is active.
   */
  lemma RefreshOutcome(db: AuthDb, raw: string, secret: string, now: int)
    ensures var out := Refresh(db, raw, secret, now);
            if Good(db, raw, now)
               && db.tokens[raw].user in db.users && db.users[db.tokens[raw].user].tenant == db.tokens[raw].tenant
               && db.users[db.tokens[raw].user].active
               && RefreshTokenText(db.tokens[raw].tenant, secret) !in db.tokens
            then
              var row := db.tokens[raw];
              var next := RefreshTokenText(row.tenant, secret);
              out == Result(AuthDb(db.users,
                  db.tokens[raw := row.(revoked := true)][next := Fresh(row.tenant, row.user, now)]),
                            true, Some(next))
            else out == Result(db, false, None)
  {
  }

  /** A logout revokes a good token and nothing else, and always succeeds. */
  lemma LogoutOutcome(db: AuthDb, raw: string, now: int)
    ensures Logout(db, raw, now) ==
              Result(if Good(db, raw, now)
                  then AuthDb(db.users, db.tokens[raw := db.tokens[raw].(revoked := true)]) else db,
                     true, None)
  {
  }

  /**
   A reset needs an unexpired link of an existing user with the password hash it
   was made for; it then changes both tables.
   */
  lemma ResetOutcome(db: AuthDb, link: Link, password: nat, now: int)
    ensures var out := ResetPassword(db, link, password, now);
            if now < link.expires && link.user in db.users && db.users[link.user].tenant == link.tenant
               && db.users[link.user].password == link.password
            then
              && out.ok && out.issued == None
              && out.db.users == db.users[link.user := db.users[link.user].(password := password)]
              && out.db.tokens.Keys == db.tokens.Keys
              && forall raw :: raw in db.tokens ==>
                   out.db.tokens[raw] == if db.tokens[raw].user == link.user && db.tokens[raw].tenant == link.tenant
                                         then db.tokens[raw].(revoked := true) else db.tokens[raw]
            else out == Result(db, false, None)
  {
  }

  // ----- the service on its store

  /** The rows a statement sees under the row policy. */
  function Visible(db: AuthDb, setting: Id): AuthDb {
    AuthDb(map id | id in db.users && db.users[id].tenant == setting :: db.users[id],
           map raw | raw in db.tokens && db.tokens[raw].tenant == setting :: db.tokens[raw])
  }

  /** Under its own setting a tenant finds its rows as if there were no policy; under another one it finds none. */
  lemma RowsUnderPolicy(db: AuthDb, setting: Id, t: Id, raw: string, user: Id, now: int)
    ensures Valid(Visible(db, setting), t, raw, now) <==> setting == t && Valid(db, t, raw, now)
    ensures FindUser(Visible(db, setting), t, user) == if setting == t then FindUser(db, t, user) else None
  {
  }

  /** Rows changed or added by the open transaction and still in memory. */
  datatype Changes = Changes(user: Option<(Id, User)>, tokens: map<string, TokenRow>, added: Option<(string, TokenRow)>)

  const UNCHANGED := Changes(None, map[], None)

  /** The policy's check on written rows. */
  predicate OwnedBy(c: Changes, t: Id) {
    && (c.user.Some? ==> c.user.value.1.tenant == t)
    && (forall raw :: raw in c.tokens ==> c.tokens[raw].tenant == t)
    && (c.added.Some? ==> c.added.value.1.tenant == t)
  }

  function Applied(db: AuthDb, c: Changes): AuthDb {
    var tokens := db.tokens + c.tokens;
    AuthDb(if c.user.Some? then db.users[c.user.value.0 := c.user.value.1] else db.users,
           if c.added.Some? then tokens[c.added.value.0 := c.added.value.1] else tokens)
  }

  /** The two tables, what is in memory, and the tenant setting of the session that works on them. */
  class AuthStore {
    var users: map<Id, User>
    var tokens: map<string, TokenRow>
    var memory: Changes
    var tenant: Option<Id>

    /** The committed tables. */
    function Contents(): AuthDb
      reads this
    {
      AuthDb(users, tokens)
    }

    /** What a statement reads from; without a setting it fails. */
    function View(): AuthDb
      requires tenant.Some?
      reads this
    {
      Visible(Contents(), tenant.value)
    }

    method SetTenantContext(t: Id)
      modifies this`tenant
      ensures tenant == Some(t)
    {
      tenant := Some(t);
    }

    /** Writes what is in memory, under the policy, and drops the setting; a token text that exists is refused. */
    method Commit() returns (ok: bool)
      requires memory == UNCHANGED || (tenant.Some? && OwnedBy(memory, tenant.value))
      modifies this
      ensures ok <==> old(memory).added.None? || old(memory).added.value.0 !in old(tokens)
      ensures Contents() == if ok then Applied(old(Contents()), old(memory)) else old(Contents())
      ensures memory == UNCHANGED && tenant.None?
    {
      ok := memory.added.None? || memory.added.value.0 !in tokens;
      if ok {
        var after := Applied(Contents(), memory);
        users, tokens := after.users, after.tokens;
      }
      memory, tenant := UNCHANGED, None;
    }

    /** The row of a text that the token repository of t accepts. */
    method GetValidByHash(t: Id, raw: string, now: int) returns (row: Option<TokenRow>)
      requires tenant.Some?
      ensures row == if tenant == Some(t) && Valid(Contents(), t, raw, now) then Some(tokens[raw]) else None
    {
      RowsUnderPolicy(Contents(), tenant.value, t, raw, 0, now);
      var seen := View();
      row := if Valid(seen, t, raw, now) then Some(seen.tokens[raw]) else None;
    }

    method LoadUser(t: Id, id: Id) returns (user: Option<User>)
      requires tenant.Some?
      ensures user == if tenant == Some(t) then FindUser(Contents(), t, id) else None
    {
      RowsUnderPolicy(Contents(), tenant.value, t, "", id, 0);
      user := FindUser(View(), t, id);
    }

    /** Adds a fresh token to what is in memory and commits. */
    method IssueTokenPair(t: Id, user: Id, secret: string, now: int) returns (issued: Option<string>)
      requires tenant == Some(t) && OwnedBy(memory, t) && memory.added.None?
      requires memory.tokens.Keys <= tokens.Keys
      modifies this
      ensures var out := Issue(Applied(old(Contents()), old(memory)), t, user, secret, now);
              issued == out.issued && Contents() == if out.ok then out.db else old(Contents())
      ensures memory == UNCHANGED && tenant.None?
    {
      var raw := RefreshTokenText(t, secret);
      memory := memory.(added := Some((raw, TokenRow(t, user, now + LIFETIME, false))));
      var ok := Commit();
      issued := if ok then Some(raw) else None;
    }

    method RefreshToken(raw: string, secret: string, now: int) returns (issued: Option<string>)
      requires memory == UNCHANGED
      modifies this
      ensures issued == Refresh(old(Contents()), raw, secret, now).issued
      ensures Contents() == Refresh(old(Contents()), raw, secret, now).db
    {
      var t := TokenTenant(raw);
      if t.None? {
        return None;
      }
      SetTenantContext(t.value);
      var row := GetValidByHash(t.value, raw, now);
      if row.None? {
        return None;
      }
      var user := LoadUser(t.value, row.value.user);
      if user.None? || !user.value.active {
        return None;
      }
      memory := memory.(tokens := map[raw := row.value.(revoked := true)]);
      assert Applied(Contents(), memory) == Revoke(Contents(), raw);
      issued := IssueTokenPair(t.value, row.value.user, secret, now);
    }

    /** user is what the lookup by email found, outside the policy; verified is the answer of the password check. */
    method SignIn(user: Id, verified: bool, secret: string, now: int) returns (issued: Option<string>)
      requires memory == UNCHANGED
      modifies this
      ensures issued == Login(old(Contents()), user, verified, secret, now).issued
      ensures Contents() == Login(old(Contents()), user, verified, secret, now).db
    {
      if user !in users || !users[user].active || !verified {
        return None;
      }
      SetTenantContext(users[user].tenant);
      assert Applied(Contents(), memory) == Contents();
      issued := IssueTokenPair(users[user].tenant, user, secret, now);
    }

    method SignOut(raw: string, now: int)
      requires memory == UNCHANGED
      modifies this
      ensures Contents() == Logout(old(Contents()), raw, now).db
    {
      var t := TokenTenant(raw);
      if t.None? {
        return;
      }
      SetTenantContext(t.value);
      var row := GetValidByHash(t.value, raw, now);
      if row.Some? {
        memory := memory.(tokens := map[raw := row.value.(revoked := true)]);
        assert Applied(Contents(), memory) == Revoke(Contents(), raw);
        var ok := Commit();
      }
    }

    /** The live tokens of a user that the token repository of t lists. */
    method ListLive(t: Id, user: Id) returns (rows: map<string, TokenRow>)
      requires tenant.Some?
      ensures rows == map raw | raw in tokens && tenant == Some(t) && tokens[raw].tenant == t &&
                tokens[raw].user == user
                                && !tokens[raw].revoked :: tokens[raw]
    {
      var seen := View().tokens;
      rows := map raw | raw in seen && seen[raw].tenant == t && seen[raw].user == user && !seen[raw].revoked ::
          seen[raw];
    }

    /** Every live token of the user is revoked in memory, one after the other. */
    method RevokeAllForUser(t: Id, user: Id)
      requires tenant == Some(t) && memory.tokens == map[]
      modifies this`memory
      ensures memory == old(memory).(tokens := memory.tokens)
      ensures forall raw :: raw in memory.tokens ==> raw in tokens && tokens[raw].tenant == t
      ensures tokens + memory.tokens == RevokeAll(tokens, t, user)
    {
      var live := ListLive(t, user);
      var rest, changed := live.Keys, map[];
      while rest != {}
        invariant rest <= live.Keys && changed.Keys == live.Keys - rest
        invariant forall raw :: raw in changed ==> changed[raw] == live[raw].(revoked := true)
        decreases rest
      {
        var raw :| raw in rest;
        changed := changed[raw := live[raw].(revoked := true)];
        rest := rest - {raw};
      }
      memory := memory.(tokens := changed);
    }

    method Reset(link: Link, password: nat, now: int) returns (ok: bool)
      requires memory == UNCHANGED
      modifies this
      ensures ok == ResetPassword(old(Contents()), link, password, now).ok
      ensures Contents() == ResetPassword(old(Contents()), link, password, now).db
    {
      if link.expires <= now {
        return false;
      }
      SetTenantContext(link.tenant);
      var user := LoadUser(link.tenant, link.user);
      if user.None? || link.password != user.value.password {
        return false;
      }
      memory := memory.(user := Some((link.user, user.value.(password := password))));
      RevokeAllForUser(link.tenant, link.user);
      assert OwnedBy(memory, link.tenant);
      ok := Commit();
    }
  }

  // ----- runs

  datatype Call =
    | SigningIn(user: Id, verified: bool, secret: string, now: int)
    | Refreshing(raw: string, secret: string, now: int)
    | SigningOut(raw: string, now: int)
    | Resetting(link: Link, password: nat, now: int)
    | AddingUser(id: Id, data: User)
    | Switching(id: Id, active: bool)

  function Exec(db: AuthDb, call: Call): Result {
    match call
    case SigningIn(user, verified, secret, now) => Login(db, user, verified, secret, now)
    case Refreshing(raw, secret, now) => Refresh(db, raw, secret, now)
    case SigningOut(raw, now) => Logout(db, raw, now)
    case Resetting(link, password, now) => ResetPassword(db, link, password, now)
    case AddingUser(id, data) => if id in db.users then Denied(db)
        else Result(db.(users := db.users[id := data]), true, None)
    case Switching(id, active) =>
      if id in db.users then Result(db.(users := db.users[id := db.users[id].(active := active)]), true, None)
          else Denied(db)
  }

  const EMPTY := AuthDb(map[], map[])

  function From(db: AuthDb, calls: seq<Call>): AuthDb
    decreases |calls|
  {
    if calls == [] then db else Exec(From(db, calls[..|calls| - 1]), calls[|calls| - 1]).db
  }

  /** The login a token descends from, as the position of that call in the run. */
  function Origin(calls: seq<Call>, raw: string): Option<nat>
    decreases |calls|
  {
    if calls == [] then None
    else
      var before, call := calls[..|calls| - 1], calls[|calls| - 1];
      if Exec(From(EMPTY, before), call).issued != Some(raw) then Origin(before, raw)
      else if call.Refreshing? then Origin(before, call.raw)
      else Some(|before|)
  }

  /** How often refresh accepted this token. */
  function Accepted(calls: seq<Call>, raw: string): nat
    decreases |calls|
  {
    if calls == [] then 0
    else
      var before, call := calls[..|calls| - 1], calls[|calls| - 1];
      Accepted(before, raw) +
      (if call.Refreshing? && call.raw == raw && Refresh(From(EMPTY, before), raw, call.secret, call.now).ok then 1
          else 0)
  }

  predicate Live(db: AuthDb, raw: string) {
    raw in db.tokens && !db.tokens[raw].revoked
  }

  /** What one call does to the live tokens: it issues at most one, and a refresh trades its own token for it. */
  lemma TokenStep(db: AuthDb, call: Call)
    ensures var out := Exec(db, call);
            && (forall raw :: raw in out.db.tokens <==> raw in db.tokens || out.issued == Some(raw))
            && (forall raw :: raw in db.tokens ==> out.issued != Some(raw) && (Live(out.db, raw) ==> Live(db, raw)))
            && (call.Refreshing? && out.ok ==> Live(db, call.raw) && !Live(out.db, call.raw) && out.issued.Some?)
            && (call.Refreshing? && !out.ok ==> out.issued.None?)
  {
  }

  /** In every run each login's chain has at most one live token. */
  lemma {:induction false} OneLiveTokenPerLogin(calls: seq<Call>, a: string, b: string)
    ensures a in From(EMPTY, calls).tokens <==> Origin(calls, a).Some?
    ensures b in From(EMPTY, calls).tokens <==> Origin(calls, b).Some?
    ensures Origin(calls, a).Some? ==> Origin(calls, a).value < |calls|
    ensures Live(From(EMPTY, calls), a) && Live(From(EMPTY, calls), b) && Origin(calls, a) == Origin(calls, b) ==>
              a == b
    decreases |calls|
  {
    if calls != [] {
      var before, call := calls[..|calls| - 1], calls[|calls| - 1];
      var db := From(EMPTY, before);
      TokenStep(db, call);
      OneLiveTokenPerLogin(before, a, b);
      OneLiveTokenPerLogin(before, b, a);
      if call.Refreshing? {
        OneLiveTokenPerLogin(before, call.raw, a);
        OneLiveTokenPerLogin(before, call.raw, b);
      }
    }
  }

  /** In every run no refresh token is accepted twice. */
  lemma {:induction false} NoTokenAcceptedTwice(calls: seq<Call>, raw: string)
    ensures Accepted(calls, raw) <= 1
    ensures Accepted(calls, raw) == 1 ==> raw in From(EMPTY, calls).tokens && !Live(From(EMPTY, calls), raw)
    decreases |calls|
  {
    if calls != [] {
      NoTokenAcceptedTwice(calls[..|calls| - 1], raw);
      TokenStep(From(EMPTY, calls[..|calls| - 1]), calls[|calls| - 1]);
    }
  }

  /** A token that is no longer live stays so, and refresh refuses it. */
  lemma {:induction false} DeadTokensStayDead(db: AuthDb, calls: seq<Call>, raw: string, secret: string, now: int)
    requires raw in db.tokens && !Live(db, raw)
    ensures raw in From(db, calls).tokens && !Live(From(db, calls), raw)
    ensures !Refresh(From(db, calls), raw, secret, now).ok
    decreases |calls|
  {
    if calls != [] {
      DeadTokensStayDead(db, calls[..|calls| - 1], raw, secret, now);
      TokenStep(From(db, calls[..|calls| - 1]), calls[|calls| - 1]);
    }
  }

  /** After a reset no token the user had before is ever accepted again. */
  lemma ResetEndsOldSessions(db: AuthDb, link: Link, password: nat, now: int, calls: seq<Call>, raw: string,
                             secret: string, later: int)
    requires ResetPassword(db, link, password, now).ok
    requires raw in db.tokens && db.tokens[raw].tenant == link.tenant && db.tokens[raw].user == link.user
    ensures !Refresh(From(ResetPassword(db, link, password, now).db, calls), raw, secret, later).ok
  {
    DeadTokensStayDead(ResetPassword(db, link, password, now).db, calls, raw, secret, later);
  }

  // ----- exactly when a token is accepted

  /** The calls that end a token: its own trade, its logout, a reset of its user. */
  predicate Ends(db: AuthDb, call: Call, raw: string)
    requires raw in db.tokens
  {
    match call
    case Refreshing(used, secret, now) => used == raw && Refresh(db, raw, secret, now).ok
    case SigningOut(used, now) => used == raw && now < db.tokens[raw].expires
    case Resetting(link, password, now) =>
      ResetPassword(db, link, password, now).ok && db.tokens[raw].tenant == link.tenant &&
          db.tokens[raw].user == link.user
    case _ => false
  }

  /** Did some call of the run end this token? */
  predicate Ended(calls: seq<Call>, raw: string)
    decreases |calls|
  {
    calls != [] &&
    var before := calls[..|calls| - 1];
    Ended(before, raw) || (raw in From(EMPTY, before).tokens && Ends(From(EMPTY, before), calls[|calls| - 1], raw))
  }

  /** A token row names the tenant its text names, and a user of that tenant. */
  predicate RowSound(db: AuthDb, raw: string)
    requires raw in db.tokens
  {
    && TokenTenant(raw) == Some(db.tokens[raw].tenant)
    && db.tokens[raw].user in db.users
    && db.users[db.tokens[raw].user].tenant == db.tokens[raw].tenant
  }

  lemma NewTokenIsSound(db: AuthDb, call: Call, raw: string)
    requires Exec(db, call).issued == Some(raw)
    ensures RowSound(Exec(db, call).db, raw)
  {
    if call.SigningIn? {
      TokenTenantRoundTrip(db.users[call.user].tenant, call.secret);
    } else {
      TokenTenantRoundTrip(TokenTenant(call.raw).value, call.secret);
    }
  }

  lemma RefreshAndOldToken(db: AuthDb, call: Call, raw: string)
    requires raw in db.tokens && RowSound(db, raw) && call.Refreshing?
    ensures raw in Exec(db, call).db.tokens && RowSound(Exec(db, call).db, raw)
    ensures Live(Exec(db, call).db, raw) <==> Live(db, raw) && !Ends(db, call, raw)
  {
    RefreshOutcome(db, call.raw, call.secret, call.now);
  }

  lemma OthersAndOldToken(db: AuthDb, call: Call, raw: string)
    requires raw in db.tokens && RowSound(db, raw) && !call.Refreshing?
    ensures raw in Exec(db, call).db.tokens && RowSound(Exec(db, call).db, raw)
    ensures Live(Exec(db, call).db, raw) <==> Live(db, raw) && !Ends(db, call, raw)
  {
  }

  lemma OldTokenStaysSound(db: AuthDb, call: Call, raw: string)
    requires raw in db.tokens && RowSound(db, raw)
    ensures raw in Exec(db, call).db.tokens && RowSound(Exec(db, call).db, raw)
    ensures Live(Exec(db, call).db, raw) <==> Live(db, raw) && !Ends(db, call, raw)
  {
    if call.Refreshing? { RefreshAndOldToken(db, call, raw); } else { OthersAndOldToken(db, call, raw); }
  }

  /** In every run a token is live exactly until one of these calls ends it. */
  lemma {:induction false} LiveUntilEnded(calls: seq<Call>, raw: string)
    ensures raw in From(EMPTY, calls).tokens ==>
              RowSound(From(EMPTY, calls), raw) && (Live(From(EMPTY, calls), raw) <==> !Ended(calls, raw))
    ensures raw !in From(EMPTY, calls).tokens ==> !Ended(calls, raw)
    decreases |calls|
  {
    if calls != [] {
      var before, call := calls[..|calls| - 1], calls[|calls| - 1];
      var db := From(EMPTY, before);
      LiveUntilEnded(before, raw);
      TokenStep(db, call);
      if raw in db.tokens {
        OldTokenStaysSound(db, call, raw);
      } else if Exec(db, call).issued == Some(raw) {
        NewTokenIsSound(db, call, raw);
        NewTokenIsLive(db, call, raw);
      }
    }
  }

  lemma NewTokenIsLive(db: AuthDb, call: Call, raw: string)
    requires Exec(db, call).issued == Some(raw)
    ensures Live(Exec(db, call).db, raw)
  {
  }

  /**
   In every run refresh accepts a text exactly when it was issued, no call has
   ended it, it has not expired, its user is active and the new secret is new.
   */
  lemma AcceptedExactlyWhen(calls: seq<Call>, raw: string, secret: string, now: int)
    ensures var db := From(EMPTY, calls);
            Refresh(db, raw, secret, now).ok <==>
              && raw in db.tokens && !Ended(calls, raw) && now < db.tokens[raw].expires
              && db.tokens[raw].user in db.users && db.users[db.tokens[raw].user].active
              && RefreshTokenText(db.tokens[raw].tenant, secret) !in db.tokens
  {
    LiveUntilEnded(calls, raw);
  }

  /**
   A call leaves the owner of every token alone; a new token belongs to who signs
   in, or to the owner of the traded one.
   */
  lemma OwnersStay(db: AuthDb, call: Call, raw: string)
    ensures var out := Exec(db, call);
            && (raw in db.tokens ==> raw in out.db.tokens && out.db.tokens[raw].user == db.tokens[raw].user)
            && (out.issued == Some(raw) ==>
                  && raw in out.db.tokens
                  && (call.SigningIn? || (call.Refreshing? && call.raw in db.tokens))
                  && out.db.tokens[raw].user == if call.SigningIn? then call.user else db.tokens[call.raw].user)
  {
  }

  /** All tokens that descend from a login belong to the user who logged in. */
  lemma {:induction false} LineageKeepsItsUser(calls: seq<Call>, raw: string)
    requires Origin(calls, raw).Some?
    ensures var db, login := From(EMPTY, calls), Origin(calls, raw).value;
            && login < |calls| && calls[login].SigningIn?
            && raw in db.tokens && db.tokens[raw].user == calls[login].user
    decreases |calls|
  {
    var before, call := calls[..|calls| - 1], calls[|calls| - 1];
    OwnersStay(From(EMPTY, before), call, raw);
    if Exec(From(EMPTY, before), call).issued != Some(raw) {
      LineageKeepsItsUser(before, raw);
    } else if call.Refreshing? {
      LineageKeepsItsUser(before, call.raw);
    }
  }

  predicate NeverRestores(calls: seq<Call>, user: Id, password: nat) {
    forall k :: 0 <= k < |calls| && calls[k].Resetting? && calls[k].link.user == user ==> calls[k].password != password
  }

  lemma {:induction false} OldPasswordStaysAway(db: AuthDb, calls: seq<Call>, user: Id, password: nat)
    requires user in db.users && db.users[user].password != password
    requires NeverRestores(calls, user, password)
    ensures user in From(db, calls).users && From(db, calls).users[user].password != password
    decreases |calls|
  {
    if calls != [] {
      var before := calls[..|calls| - 1];
      assert NeverRestores(before, user, password) by {
        assert forall k :: 0 <= k < |before| ==> before[k] == calls[k];
      }
      OldPasswordStaysAway(db, before, user, password);
    }
  }

  /** A reset link works at most once while no later reset brings its old password hash back. */
  lemma ResetLinkWorksOnce(db: AuthDb, link: Link, password: nat, now: int, calls: seq<Call>, again: nat, later: int)
    requires ResetPassword(db, link, password, now).ok && password != link.password
    requires NeverRestores(calls, link.user, link.password)
    ensures !ResetPassword(From(ResetPassword(db, link, password, now).db, calls), link, again, later).ok
  {
    OldPasswordStaysAway(ResetPassword(db, link, password, now).db, calls, link.user, link.password);
  }

  /** Right after its use, an unexpired link works again exactly when the new hash is the old one. */
  lemma ResetLinkReusableExactlyWhenHashRepeats(db: AuthDb, link: Link, password: nat, now: int, again: nat, later: int)
    requires ResetPassword(db, link, password, now).ok && later < link.expires
    ensures ResetPassword(ResetPassword(db, link, password, now).db, link, again, later).ok <==>
              password == link.password
  {
  }
}
