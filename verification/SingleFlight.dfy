/**
 The browser side of refresh: concurrent requests that meet a 401 share one
 refresh. Any number of requests, in any interleaving, for the tabs that share
 one token store; a tab is one instance of the request module.
 */
module SingleFlight {
  import opened Calendar
  import opened Tokens

  /** A refresh on the network: on its way to the server, or its answer on the way back. */
  datatype Flight = Sent(tab: nat, token: string) | Reply(tab: nat, reply: Option<string>)

  /** refreshing: the shared promise exists; settled: it has resolved and is about to be cleared. */
  datatype Tab = Tab(refreshing: bool, settled: Option<bool>, waiting: set<nat>)

  /** asked: the requests that met a 401 once and may repeat their call; sent: how many refreshes went out. */
  datatype World = World(
    server: AuthDb, stored: Option<string>, tabs: seq<Tab>, flights: seq<Flight>, rejected: bool, asked: set<nat>,
        sent: nat)

  datatype Step =
    | Unauthorized(tab: nat, request: nat)
    | Handle(k: nat, secret: string, now: int)
    | Deliver(k: nat)
    | Finish(tab: nat)

  const NEW_TAB := Tab(false, None, {})

  function Without(flights: seq<Flight>, k: nat): seq<Flight>
    requires k < |flights|
  {
    flights[..k] + flights[k + 1..]
  }

  /** A request got a 401: it joins the refresh under way, or starts one. At its repeated call a 401 is final. */
  function Join(w: World, tab: nat, request: nat): World
    requires tab < |w.tabs|
  {
    if request in w.asked then w
    else
      var t := w.tabs[tab].(waiting := w.tabs[tab].waiting + {request});
      var joined := w.(asked := w.asked + {request});
      if t.refreshing then joined.(tabs := w.tabs[tab := t])
      else if w.stored.None? then joined.(tabs := w.tabs[tab := t.(refreshing := true, settled := Some(false))])
      else joined.(tabs := w.tabs[tab := t.(refreshing := true)], flights := w.flights + [Sent(tab, w.stored.value)],
          sent := w.sent + 1)
  }

  /** The server answers a refresh. */
  function Answer(w: World, k: nat, secret: string, now: int): World
    requires k < |w.flights| && w.flights[k].Sent?
  {
    var out := Refresh(w.server, w.flights[k].token, secret, now);
    w.(server := out.db, flights := w.flights[k := Reply(w.flights[k].tab, out.issued)], rejected := w.rejected ||
        out.issued.None?)
  }

  /** The answer arrives: new tokens are stored and the promise resolves. */
  function Arrive(w: World, k: nat): World
    requires k < |w.flights| && w.flights[k].Reply? && w.flights[k].tab < |w.tabs|
  {
    var f := w.flights[k];
    w.(flights := Without(w.flights, k), stored := if f.reply.Some? then f.reply else w.stored,
       tabs := w.tabs[f.tab := w.tabs[f.tab].(settled := Some(f.reply.Some?))])
  }

  /** The promise is cleared and its waiters go on: they retry, or log out and clear the store. */
  function Resume(w: World, tab: nat): World
    requires tab < |w.tabs| && w.tabs[tab].settled.Some?
  {
    w.(tabs := w.tabs[tab := NEW_TAB], stored := if w.tabs[tab].settled.value then w.stored else None)
  }

  /** Neither expiry nor a repeated random secret spoils the answer. */
  predicate Fortunate(w: World, k: nat, secret: string, now: int)
    requires k < |w.flights| && w.flights[k].Sent?
  {
    var token := w.flights[k].token;
    token in w.server.tokens ==>
      && now < w.server.tokens[token].expires
      && References.RefreshTokenText(w.server.tokens[token].tenant, secret) !in w.server.tokens
  }

  function Next(w: World, step: Step): World {
    match step
    case Unauthorized(tab, request) => if tab < |w.tabs| then Join(w, tab, request) else w
    case Handle(k, secret, now) =>
      if k < |w.flights| && w.flights[k].Sent? && Fortunate(w, k, secret, now) then Answer(w, k, secret, now) else w
    case Deliver(k) => if k < |w.flights| && w.flights[k].Reply? && w.flights[k].tab < |w.tabs| then Arrive(w, k) else w
    case Finish(tab) => if tab < |w.tabs| && w.tabs[tab].settled.Some? then Resume(w, tab) else w
  }

  function Run(w: World, steps: seq<Step>): World
    decreases |steps|
  {
    if steps == [] then w else Next(Run(w, steps[..|steps| - 1]), steps[|steps| - 1])
  }

  /** The server would accept this token now, expiry aside. */
  predicate Usable(db: AuthDb, token: string) {
    && Live(db, token)
    && References.TokenTenant(token) == Some(db.tokens[token].tenant)
    && FindUser(db, db.tokens[token].tenant, db.tokens[token].user).Some?
    && FindUser(db, db.tokens[token].tenant, db.tokens[token].user).value.active
  }

  /** A tab whose refresh is on the network. */
  predicate InFlight(t: Tab) {
    t.refreshing && t.settled.None?
  }

  /** At most one flight, of the one tab that waits for it, and the newest token, wherever it is, is usable. */
  ghost predicate Good(w: World) {
    && !w.rejected && w.stored.Some? && |w.flights| <= 1
    && (forall k :: 0 <= k < |w.tabs| ==> (w.tabs[k].settled.Some? ==> w.tabs[k].refreshing && w.tabs[k].settled.value))
    && (if |w.flights| == 1 then
          && w.flights[0].tab < |w.tabs|
          && (forall k :: 0 <= k < |w.tabs| ==> (InFlight(w.tabs[k]) <==> k == w.flights[0].tab))
          && match w.flights[0]
             case Sent(_, token) => token == w.stored.value && Usable(w.server, token)
             case Reply(_, token) => token.Some? && Usable(w.server, token.value)
        else
          && (forall k :: 0 <= k < |w.tabs| ==> !InFlight(w.tabs[k]))
          && Usable(w.server, w.stored.value))
  }

  /** The step starts a refresh in one tab while another tab's is unsettled. */
  predicate Collides(w: World, step: Step) {
    && step.Unauthorized? && step.tab < |w.tabs| && step.request !in w.asked && !w.tabs[step.tab].refreshing
    && exists k :: 0 <= k < |w.tabs| && k != step.tab && InFlight(w.tabs[k])
  }

  /** No step of the run starts a refresh while another tab's is unsettled. */
  predicate TakesTurns(w: World, steps: seq<Step>)
    decreases |steps|
  {
    steps == [] ||
    var before := steps[..|steps| - 1];
    TakesTurns(w, before) && !Collides(Run(w, before), steps[|steps| - 1])
  }

  lemma AnswerIsAcceptance(db: AuthDb, token: string, secret: string, now: int)
    requires Usable(db, token) && now < db.tokens[token].expires
    requires References.RefreshTokenText(db.tokens[token].tenant, secret) !in db.tokens
    ensures var out := Refresh(db, token, secret, now);
            out.issued.Some? && Usable(out.db, out.issued.value)
  {
    References.TokenTenantRoundTrip(db.tokens[token].tenant, secret);
  }

  lemma OneTabWaits(w: World)
    requires Good(w)
    ensures |w.flights| == 1 ==> exists k :: 0 <= k < |w.tabs| && InFlight(w.tabs[k])
  {
    assert |w.flights| == 1 ==> InFlight(w.tabs[w.flights[0].tab]);
  }

  lemma JoinIsGood(w: World, tab: nat, request: nat)
    requires Good(w) && tab < |w.tabs| && !Collides(w, Unauthorized(tab, request))
    ensures Good(Join(w, tab, request))
  {
    OneTabWaits(w);
  }

  lemma AnswerIsGood(w: World, k: nat, secret: string, now: int)
    requires Good(w) && k < |w.flights| && w.flights[k].Sent? && Fortunate(w, k, secret, now)
    ensures Good(Answer(w, k, secret, now))
  {
    AnswerIsAcceptance(w.server, w.flights[k].token, secret, now);
  }

  lemma ArrivalIsGood(w: World, k: nat)
    requires Good(w) && k < |w.flights| && w.flights[k].Reply? && w.flights[k].tab < |w.tabs|
    ensures Good(Arrive(w, k))
  {
  }

  lemma ResumptionIsGood(w: World, tab: nat)
    requires Good(w) && tab < |w.tabs| && w.tabs[tab].settled.Some?
    ensures Good(Resume(w, tab))
  {
  }

  lemma StepIsGood(w: World, step: Step)
    requires Good(w) && !Collides(w, step)
    ensures Good(Next(w, step))
  {
    match step
    case Unauthorized(tab, request) => if tab < |w.tabs| { JoinIsGood(w, tab, request); }
    case Handle(k, secret, now) =>
      if k < |w.flights| && w.flights[k].Sent? && Fortunate(w, k, secret, now) { AnswerIsGood(w, k, secret, now); }
    case Deliver(k) => if k < |w.flights| && w.flights[k].Reply? && w.flights[k].tab < |w.tabs| { ArrivalIsGood(w, k); }
    case Finish(tab) => if tab < |w.tabs| && w.tabs[tab].settled.Some? { ResumptionIsGood(w, tab); }
  }

  /**
   Main result: however requests interleave, over any number of tabs that never
   start a refresh while another tab's is unsettled, there is never a second
   refresh in flight and none is rejected.
   */
  lemma {:induction false} OneRefreshAtATime(w: World, steps: seq<Step>)
    requires Good(w) && TakesTurns(w, steps)
    ensures Good(Run(w, steps))
    ensures |Run(w, steps).flights| <= 1 && !Run(w, steps).rejected
    decreases |steps|
  {
    if steps != [] {
      OneRefreshAtATime(w, steps[..|steps| - 1]);
      StepIsGood(Run(w, steps[..|steps| - 1]), steps[|steps| - 1]);
    }
  }

  lemma {:induction false} TabsStay(w: World, steps: seq<Step>)
    ensures |Run(w, steps).tabs| == |w.tabs|
    decreases |steps|
  {
    if steps != [] { TabsStay(w, steps[..|steps| - 1]); }
  }

  /** A single tab always takes turns. */
  lemma {:induction false} OneTabTakesTurns(w: World, steps: seq<Step>)
    requires |w.tabs| <= 1
    ensures TakesTurns(w, steps)
    decreases |steps|
  {
    if steps != [] {
      OneTabTakesTurns(w, steps[..|steps| - 1]);
      TabsStay(w, steps[..|steps| - 1]);
    }
  }

  /**
   However many tabs there are and whatever the answers, no more refreshes go out
   than requests met a 401 at their first call.
   */
  lemma {:induction false} AtMostOneRefreshPerRequest(w: World, steps: seq<Step>)
    requires w.sent <= |w.asked|
    ensures Run(w, steps).sent <= |Run(w, steps).asked|
    decreases |steps|
  {
    if steps != [] {
      var before, step := Run(w, steps[..|steps| - 1]), steps[|steps| - 1];
      AtMostOneRefreshPerRequest(w, steps[..|steps| - 1]);
      if step.Unauthorized? && step.request !in before.asked {
        assert |before.asked + {step.request}| == |before.asked| + 1;
      }
    }
  }

  /** The tabs as they are opened, with one token store that holds this token. */
  function Fresh(db: AuthDb, token: string, n: nat): World {
    World(db, Some(token), seq(n, _ => NEW_TAB), [], false, {}, 0)
  }

  /**
   The promise is per tab and the token store is not: from open tabs with a
   usable token no run rejects a refresh exactly when there is at most one tab.
   */
  lemma NoRejectionExactlyWithOneTab(db: AuthDb, token: string, n: nat)
    requires Usable(db, token)
    ensures (forall steps :: !Run(Fresh(db, token, n), steps).rejected) <==> n <= 1
  {
    var w := Fresh(db, token, n);
    if n <= 1 {
      forall steps ensures !Run(w, steps).rejected {
        OneTabTakesTurns(w, steps);
        OneRefreshAtATime(w, steps);
      }
    } else {
      var secret := FreshSecret(db.tokens, db.tokens[token].tenant);
      var now := db.tokens[token].expires - 1;
      var steps := CollidingSteps(secret, now);
      TwoTabsRejectOneRefresh(db, token, n, secret, now);
      assert Run(w, steps).rejected;
    }
  }

  /** Some secret has never been used, nor has its extension. */
  lemma {:induction false} FreshSecret(tokens: map<string, TokenRow>, tenant: Id) returns (secret: string)
    ensures forall longer: string :: |longer| >= |secret| ==> References.RefreshTokenText(tenant, longer) !in tokens
    decreases |tokens|
  {
    secret := "";
    if tokens != map[] {
      var raw :| raw in tokens;
      var rest := tokens - {raw};
      assert |rest| < |tokens| by { assert rest.Keys == tokens.Keys - {raw}; }
      var other := FreshSecret(rest, tenant);
      secret := other + raw;
      forall longer: string | |longer| >= |secret| ensures References.RefreshTokenText(tenant, longer) !in tokens {
        assert |References.RefreshTokenText(tenant, longer)| > |longer| >= |raw|;
        assert References.RefreshTokenText(tenant, longer) !in rest;
      }
    }
  }

  /** Two tabs read the store before either is answered; the second refresh comes with a token already traded. */
  function CollidingSteps(secret: string, now: int): seq<Step> {
    [Unauthorized(0, 0), Unauthorized(1, 1), Handle(0, secret, now), Deliver(0), Handle(0, secret + "x", now)]
  }

  /** With two tabs or more the second refresh is rejected and the tabs log out. */
  lemma TwoTabsRejectOneRefresh(db: AuthDb, token: string, n: nat, secret: string, now: int)
    requires Usable(db, token) && now < db.tokens[token].expires && n >= 2
    requires References.RefreshTokenText(db.tokens[token].tenant, secret) !in db.tokens
    requires References.RefreshTokenText(db.tokens[token].tenant, secret + "x") !in db.tokens
    ensures Run(Fresh(db, token, n), CollidingSteps(secret, now)).rejected
  {
    var w, steps := Fresh(db, token, n), CollidingSteps(secret, now);
    var w2 := BothSent(db, token, n);
    var w3 := Next(w2, steps[2]);
    var w4 := Next(w3, steps[3]);
    SecondIsTooLate(db, token, secret, now, w2);
    RunFollows([w, Next(w, steps[0]), w2, w3, w4, Next(w4, steps[4])], steps, |steps|);
    assert steps[..|steps|] == steps;
  }

  lemma BothSent(db: AuthDb, token: string, n: nat) returns (w2: World)
    requires n >= 2
    ensures w2 == Next(Next(Fresh(db, token, n), Unauthorized(0, 0)), Unauthorized(1, 1))
    ensures w2.server == db && w2.flights == [Sent(0, token), Sent(1, token)] && |w2.tabs| == n
  {
    var w1 := Next(Fresh(db, token, n), Unauthorized(0, 0));
    assert w1.flights == [Sent(0, token)] && w1.tabs[1] == NEW_TAB;
    w2 := Next(w1, Unauthorized(1, 1));
  }

  lemma SecondIsTooLate(db: AuthDb, token: string, secret: string, now: int, w2: World)
    requires Usable(db, token) && now < db.tokens[token].expires
    requires References.RefreshTokenText(db.tokens[token].tenant, secret) !in db.tokens
    requires References.RefreshTokenText(db.tokens[token].tenant, secret + "x") !in db.tokens
    requires w2.server == db && w2.flights == [Sent(0, token), Sent(1, token)] && |w2.tabs| >= 2
    ensures Next(Next(Next(w2, Handle(0, secret, now)), Deliver(0)), Handle(0, secret + "x", now)).rejected
  {
    DifferentSecrets(db.tokens[token].tenant, secret);
    FirstIsTraded(db, token, secret, now);
    var w3 := Next(w2, Handle(0, secret, now));
    var w4 := Next(w3, Deliver(0));
    assert w4.flights == [Sent(1, token)] && w4.server == Refresh(db, token, secret, now).db;
  }

  /** The first refresh trades the token, and only the new one is added. */
  lemma FirstIsTraded(db: AuthDb, token: string, secret: string, now: int)
    requires Usable(db, token) && now < db.tokens[token].expires
    requires References.RefreshTokenText(db.tokens[token].tenant, secret) !in db.tokens
    ensures var after := Refresh(db, token, secret, now).db;
            && !Live(after, token) && token in after.tokens
            && after.tokens[token] == db.tokens[token].(revoked := true)
            && forall raw :: raw in after.tokens ==>
                 raw in db.tokens || raw == References.RefreshTokenText(db.tokens[token].tenant, secret)
  {
  }

  lemma DifferentSecrets(tenant: Id, secret: string)
    ensures References.RefreshTokenText(tenant, secret + "x") != References.RefreshTokenText(tenant, secret)
  {
    assert |References.RefreshTokenText(tenant, secret + "x")| == |References.RefreshTokenText(tenant, secret)| + 1;
  }

  lemma {:induction false} RunFollows(worlds: seq<World>, steps: seq<Step>, n: nat)
    requires n <= |steps| && |worlds| == |steps| + 1
    requires forall k :: 0 <= k < |steps| ==> Next(worlds[k], steps[k]) == worlds[k + 1]
    ensures Run(worlds[0], steps[..n]) == worlds[n]
  {
    if n > 0 {
      RunFollows(worlds, steps, n - 1);
      assert steps[..n][..n - 1] == steps[..n - 1];
    }
  }

  /**
   A refused refresh, once delivered and finished, clears the shared store and lets
   the waiting requests of its tab go.
   */
  lemma RefusedRefreshLogsOut(w: World, k: nat)
    requires k < |w.flights| && w.flights[k] == Reply(w.flights[k].tab, None) && w.flights[k].tab < |w.tabs|
    ensures var after := Next(Next(w, Deliver(k)), Finish(w.flights[k].tab));
            && after.stored == None && after.server == w.server
            && after.tabs == w.tabs[w.flights[k].tab := Tab(false, None, {})]
            && after.flights == w.flights[..k] + w.flights[k + 1..]
  {
  }

  /** An accepted one stores its token instead, for all tabs. */
  lemma AcceptedRefreshIsStored(w: World, k: nat, token: string)
    requires k < |w.flights| && w.flights[k] == Reply(w.flights[k].tab, Some(token)) && w.flights[k].tab < |w.tabs|
    ensures var after := Next(Next(w, Deliver(k)), Finish(w.flights[k].tab));
            && after.stored == Some(token) && after.server == w.server
            && after.tabs == w.tabs[w.flights[k].tab := Tab(false, None, {})]
  {
  }
}
