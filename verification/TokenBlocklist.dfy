/**
 The refresh-token block list: a process-wide cache over the table of revoked tokens, and the rotation that accepts
 each refresh token once. Times are readings of one time line, which the wall clock, the monotonic clock and the
 database clock share; a restart loses the cache.
 */
module TokenBlocklist {
  type Jti = string

  type Expiries = map<Jti, real>

  datatype Token = Token(jti: Jti, exp: real)

  function Evicted(memory: Expiries, now: real): Expiries {
    map j | j in memory && memory[j] > now :: memory[j]
  }

  /** Inserting keeps a row that is already there; the rows that have expired go in the same transaction. */
  function Persisted(table: Expiries, jti: Jti, exp: real, now: real): Expiries {
    var inserted := if jti in table then table else table[jti := exp];
    map j | j in inserted && inserted[j] >= now :: inserted[j]
  }

  predicate Listed(table: Expiries, jti: Jti, now: real) { jti in table && table[jti] > now }

  /** The process and the database, and when anything last happened. */
  datatype State = State(memory: Expiries, table: Expiries, now: real)

  datatype Answer = Answer(state: State, revoked: bool)

  /** Whether a token is refused: one that is known, one the table lists, and any token while the table is out of reach. */
  function AskRevoked(s: State, jti: Jti, checked: real, looked: real, up: bool): Answer {
    var memory := Evicted(s.memory, checked);
    if jti in memory then Answer(State(memory, s.table, looked), true)
    else if !up then Answer(State(memory, s.table, looked), true)
    else if Listed(s.table, jti, looked) then Answer(State(memory[jti := checked + 60.0], s.table, looked), true)
    else Answer(State(memory, s.table, looked), false)
  }

  /** Revoking for a time to live: in the cache, and in the table when it can be written. */
  function Revoke(s: State, jti: Jti, ttl: real, cached: real, stamped: real, stored: real, up: bool): State {
    State(Evicted(s.memory, cached)[jti := cached + ttl],
          if up then Persisted(s.table, jti, stamped + ttl, stored) else s.table, stored)
  }

  /** The clock readings of one refresh, in the order it takes them. */
  datatype Readings =
    Readings(verified: real, checked: real, looked: real, measured: real, cached: real, stamped: real, stored: real)

  predicate InOrder(r: Readings) {
    r.verified <= r.checked <= r.looked <= r.measured <= r.cached <= r.stamped <= r.stored
  }

  /** What becomes of the parts of a request that the database or the user's row decides. */
  datatype Weather = Weather(lookupUp: bool, userGood: bool, storeUp: bool)

  datatype Outcome = Outcome(state: State, accepted: bool)

  function Remaining(t: Token, now: real): real { if t.exp - now > 0.0 then t.exp - now else 0.0 }

  /** A token verifies only before its expiry. */
  function Refresh(s: State, t: Token, r: Readings, w: Weather): Outcome {
    if t.exp <= r.verified then Outcome(s.(now := r.verified), false)
    else
      var asked := AskRevoked(s, t.jti, r.checked, r.looked, w.lookupUp);
      if asked.revoked || !w.userGood then Outcome(asked.state, false)
      else Outcome(Revoke(asked.state, t.jti, Remaining(t, r.measured), r.cached, r.stamped, r.stored, w.storeUp), true)
  }

  function Logout(s: State, t: Token, r: Readings, storeUp: bool): State {
    if t.exp <= r.verified then s.(now := r.verified)
    else Revoke(s, t.jti, Remaining(t, r.measured), r.cached, r.stamped, r.stored, storeUp)
  }

  // ----- What a refresh and a revocation do ----------------------------------------------------------

  /**
   A refresh is accepted exactly when the token has not expired, the user is still good, the table can be asked, and
   neither the cache nor the table holds a revocation that has not run out.
   */
  lemma RefreshAcceptedIff(s: State, t: Token, r: Readings, w: Weather)
    ensures Refresh(s, t, r, w).accepted <==>
              && r.verified < t.exp && w.userGood && w.lookupUp
              && !(t.jti in s.memory && s.memory[t.jti] > r.checked)
              && !(t.jti in s.table && s.table[t.jti] > r.looked)
  {
  }

  /** Entry by entry: the cache loses what has run out by then, and nothing else. */
  predicate Runs(entries: Expiries, entries': Expiries, j: Jti, at: real) {
    if j in entries && entries[j] > at then j in entries' && entries'[j] == entries[j] else j !in entries'
  }

  /** Asking touches the cache alone: what has run out goes, and a revocation found in the table is remembered for a minute. */
  lemma AskSays(s: State, jti: Jti, checked: real, looked: real, up: bool)
    ensures var a := AskRevoked(s, jti, checked, looked, up);
            && a.state.table == s.table && a.state.now == looked
            && (forall j :: j != jti ==> Runs(s.memory, a.state.memory, j, checked))
            && if jti in s.memory && s.memory[jti] > checked then a.revoked && a.state.memory[jti] == s.memory[jti]
               else if up && jti in s.table && s.table[jti] > looked then a.revoked && jti in a.state.memory && a.state.memory[jti] == checked + 60.0
               else a.revoked == !up && jti !in a.state.memory
  {
  }

  /**
   Revoking puts the identifier into the cache for its time to live; and into the table, when it can be written and has no
   row of it, from which rows that expired before go at the same time.
   */
  lemma RevokeSays(s: State, jti: Jti, ttl: real, cached: real, stamped: real, stored: real, up: bool)
    ensures var s' := Revoke(s, jti, ttl, cached, stamped, stored, up);
            && s'.now == stored && jti in s'.memory && s'.memory[jti] == cached + ttl
            && (forall j :: j != jti ==> Runs(s.memory, s'.memory, j, cached))
            && (!up ==> s'.table == s.table)
            && (up ==> forall j :: j in s.table ==>
                  if s.table[j] >= stored then j in s'.table && s'.table[j] == s.table[j] else j !in s'.table)
            && (up && jti !in s.table ==> if stamped + ttl >= stored then jti in s'.table && s'.table[jti] == stamped + ttl else jti !in s'.table)
            && (up ==> forall j :: j in s'.table ==> j in s.table || j == jti)
  {
  }

  /**
   Accepting a refresh and logging out revoke the token for what is left of its life by the clock as it was measured;
   a refresh that is refused only asks, and an expired token changes nothing at all.
   */
  lemma UsedUpForItsLife(s: State, t: Token, r: Readings, w: Weather, up: bool)
    ensures var life, asked := if t.exp > r.measured then t.exp - r.measured else 0.0, AskRevoked(s, t.jti, r.checked, r.looked, w.lookupUp).state;
            if t.exp <= r.verified then Refresh(s, t, r, w).state == s.(now := r.verified) && Logout(s, t, r, up) == s.(now := r.verified)
            else
              && Refresh(s, t, r, w).state == (if Refresh(s, t, r, w).accepted
                                               then Revoke(asked, t.jti, life, r.cached, r.stamped, r.stored, w.storeUp) else asked)
              && Logout(s, t, r, up) == Revoke(s, t.jti, life, r.cached, r.stamped, r.stored, up)
  {
  }

  // ----- Runs ----------------------------------------------------------------------------------------

  datatype Event =
    | Refreshing(token: Token, readings: Readings, weather: Weather)
    | LoggingOut(token: Token, readings: Readings, storeUp: bool)
    | Restart(at: real)

  function Apply(s: State, e: Event): Outcome {
    match e
    case Refreshing(t, r, w) => Refresh(s, t, r, w)
    case LoggingOut(t, r, up) => Outcome(Logout(s, t, r, up), false)
    case Restart(at) => Outcome(State(map[], s.table, at), false)
  }

  /** The event's clock readings are in order and none lies before the last one taken. */
  predicate Timely(s: State, e: Event) {
    match e
    case Refreshing(_, r, _) => InOrder(r) && s.now <= r.verified
    case LoggingOut(_, r, _) => InOrder(r) && s.now <= r.verified
    case Restart(at) => s.now <= at
  }

  function After(s: State, events: seq<Event>): State
    decreases |events|
  {
    if events == [] then s else Apply(After(s, events[..|events| - 1]), events[|events| - 1]).state
  }

  ghost predicate Timed(s: State, events: seq<Event>) {
    forall k :: 0 <= k < |events| ==> Timely(After(s, events[..k]), events[k])
  }

  /** Event k uses the token up: it is a refresh with it, and it is accepted. */
  predicate Accepts(s: State, events: seq<Event>, k: int, t: Token) {
    0 <= k < |events| && events[k].Refreshing? && events[k].token == t && Apply(After(s, events[..k]), events[k]).accepted
  }

  /** Event k ends the token's use: it is a logout with it, or a refresh with it that is accepted. */
  predicate Ends(s: State, events: seq<Event>, k: int, t: Token) {
    Accepts(s, events, k, t) || (0 <= k < |events| && events[k].LoggingOut? && events[k].token == t)
  }

  /** The event's revocation reaches the table. */
  predicate Stores(e: Event) {
    match e
    case Refreshing(_, _, w) => w.storeUp
    case LoggingOut(_, _, up) => up
    case Restart(_) => false
  }

  /** After event i the process does not restart, unless the event's revocation reached the table. */
  ghost predicate RestartsAreSafe(events: seq<Event>, i: int, j: int)
    requires 0 <= i < |events|
  {
    Stores(events[i]) || forall k :: i < k < j && k < |events| ==> !events[k].Restart?
  }

  // ----- A used token stays used ---------------------------------------------------------------------

  predicate InTable(s: State, t: Token) { t.jti in s.table && s.table[t.jti] >= t.exp }

  /** The token will be refused until it expires by itself. */
  predicate Blocked(s: State, t: Token) { InTable(s, t) || (t.jti in s.memory && s.memory[t.jti] >= t.exp) }

  lemma BlockedIsRefused(s: State, t: Token, checked: real, looked: real, up: bool)
    requires Blocked(s, t) && checked <= looked < t.exp
    ensures AskRevoked(s, t.jti, checked, looked, up).revoked
  {
  }

  /** Tokens that share an identifier are one token. */
  predicate Distinct(t: Token, e: Event) { !e.Restart? ==> e.token.jti == t.jti ==> e.token == t }

  lemma ApplyKeepsBlocked(s: State, e: Event, t: Token)
    requires Timely(s, e) && Distinct(t, e) && Blocked(s, t) && Apply(s, e).state.now < t.exp
    requires InTable(s, t) || !e.Restart?
    ensures Blocked(Apply(s, e).state, t) && (InTable(s, t) ==> InTable(Apply(s, e).state, t))
  {
  }

  lemma AcceptBlocks(s: State, e: Event)
    requires e.Refreshing? && InOrder(e.readings) && Apply(s, e).accepted
    requires RowsLast(s, e.token) && Apply(s, e).state.now < e.token.exp
    ensures Blocked(Apply(s, e).state, e.token)
    ensures e.weather.storeUp ==> InTable(Apply(s, e).state, e.token)
  {
  }

  /** A logout blocks the token as an accepted refresh does. */
  lemma LogoutBlocks(s: State, t: Token, r: Readings, up: bool)
    requires InOrder(r) && RowsLast(s, t) && r.stored < t.exp
    ensures Blocked(Logout(s, t, r, up), t) && (up ==> InTable(Logout(s, t, r, up), t))
  {
  }

  /** The rows of the table never expire before their tokens do. */
  predicate RowsLast(s: State, t: Token) { t.jti in s.table ==> s.table[t.jti] >= t.exp }

  lemma ApplyKeepsRows(s: State, e: Event, t: Token)
    requires Timely(s, e) && Distinct(t, e) && RowsLast(s, t)
    ensures RowsLast(Apply(s, e).state, t)
  {
  }

  lemma TimeGoesOn(s: State, e: Event)
    requires Timely(s, e)
    ensures Apply(s, e).state.now >= s.now
  {
  }

  lemma {:induction false} RunKeepsRows(s: State, events: seq<Event>, t: Token)
    requires Timed(s, events) && RowsLast(s, t) && forall k :: 0 <= k < |events| ==> Distinct(t, events[k])
    ensures RowsLast(After(s, events), t)
    decreases |events|
  {
    hide Apply;
    if events != [] {
      TimedPrefix(s, events, |events| - 1);
      RunKeepsRows(s, events[..|events| - 1], t);
      ApplyKeepsRows(After(s, events[..|events| - 1]), events[|events| - 1], t);
    }
  }

  lemma TimedPrefix(s: State, events: seq<Event>, n: nat)
    requires Timed(s, events) && n <= |events|
    ensures Timed(s, events[..n])
  {
    forall k | 0 <= k < n ensures Timely(After(s, events[..n][..k]), events[..n][k]) {
      assert events[..n][..k] == events[..k];
    }
  }

  lemma AfterPrefix(s: State, events: seq<Event>, n: nat)
    requires n < |events|
    ensures After(s, events[..n + 1]) == Apply(After(s, events[..n]), events[n]).state
  {
    assert events[..n + 1][..n] == events[..n];
  }

  lemma UseBlocks(s: State, events: seq<Event>, i: nat, t: Token)
    requires i < |events| && Ends(s, events, i, t) && Timely(After(s, events[..i]), events[i]) && RowsLast(After(s, events[..i]), t)
    requires Apply(After(s, events[..i]), events[i]).state.now < t.exp
    ensures var s' := Apply(After(s, events[..i]), events[i]).state; Blocked(s', t) && (Stores(events[i]) ==> InTable(s', t))
  {
    hide After;
    hide Blocked;
    hide InTable;
    var before := After(s, events[..i]);
    match events[i]
    case Refreshing(_, _, _) => AcceptBlocks(before, events[i]);
    case LoggingOut(_, r, up) =>
      LogoutEnds(before, t, r, up);
      LogoutBlocks(before, t, r, up);
    case Restart(_) =>
  }

  lemma LogoutEnds(s: State, t: Token, r: Readings, up: bool)
    requires InOrder(r) && Logout(s, t, r, up).now < t.exp
    ensures r.stored < t.exp
  {
  }

  lemma {:induction false} StaysBlocked(s: State, events: seq<Event>, i: nat, j: nat, t: Token)
    requires i < j <= |events| && Timed(s, events) && forall k :: 0 <= k < |events| ==> Distinct(t, events[k])
    requires RowsLast(s, t) && Ends(s, events, i, t) && RestartsAreSafe(events, i, j)
    requires After(s, events[..j]).now < t.exp
    ensures Blocked(After(s, events[..j]), t) && (Stores(events[i]) ==> InTable(After(s, events[..j]), t))
    decreases j
  {
    hide Apply;
    hide After;
    hide Blocked;
    AfterPrefix(s, events, j - 1);
    var before := After(s, events[..j - 1]);
    assert Timely(before, events[j - 1]);
    if j == i + 1 {
      TimedPrefix(s, events, i);
      RunKeepsRows(s, events[..i], t);
      UseBlocks(s, events, i, t);
    } else {
      TimeGoesOn(before, events[j - 1]);
      StaysBlocked(s, events, i, j - 1, t);
      ApplyKeepsBlocked(before, events[j - 1], t);
    }
  }

  lemma RefusedAfterUse(s: State, events: seq<Event>, i: nat, j: nat, t: Token)
    requires i < j < |events| && Timed(s, events) && forall k :: 0 <= k < |events| ==> Distinct(t, events[k])
    requires RowsLast(s, t) && Ends(s, events, i, t) && RestartsAreSafe(events, i, j)
    requires events[j].Refreshing? && events[j].token == t && events[j].readings.looked < t.exp
    ensures !Accepts(s, events, j, t)
  {
    hide Blocked;
    var before := After(s, events[..j]);
    assert Timely(before, events[j]);
    StaysBlocked(s, events, i, j, t);
    BlockedIsRefused(before, t, events[j].readings.checked, events[j].readings.looked, events[j].weather.lookupUp);
  }

  /**
   Over any run of refreshes, logouts, evictions, database outages and restarts a token is accepted at most once,
   given that its revocation reached the table before any restart, and that a later refresh looks the token up
   before the token expires.
   */
  lemma AcceptedOnce(s: State, events: seq<Event>, i: nat, j: nat, t: Token)
    requires i < j < |events| && Timed(s, events) && forall k :: 0 <= k < |events| ==> Distinct(t, events[k])
    requires RowsLast(s, t) && Accepts(s, events, i, t) && RestartsAreSafe(events, i, j)
    requires events[j].Refreshing? && events[j].token == t
    requires events[j].readings.looked < t.exp
    ensures !Accepts(s, events, j, t)
  {
    RefusedAfterUse(s, events, i, j, t);
  }

  /** And under the same conditions a token that was logged out with is not accepted at all any more. */
  lemma RefusedAfterLogout(s: State, events: seq<Event>, i: nat, j: nat, t: Token)
    requires i < j < |events| && Timed(s, events) && forall k :: 0 <= k < |events| ==> Distinct(t, events[k])
    requires RowsLast(s, t) && events[i].LoggingOut? && events[i].token == t && RestartsAreSafe(events, i, j)
    requires events[j].Refreshing? && events[j].token == t
    requires events[j].readings.looked < t.exp
    ensures !Accepts(s, events, j, t)
  {
    RefusedAfterUse(s, events, i, j, t);
  }

  // ----- Where it fails ------------------------------------------------------------------------------

  function At(now: real): Readings { Readings(now, now, now, now, now, now, now) }

  const FAIR := Weather(true, true, true)

  /** The token is used at one moment, and a second refresh verifies it at another and looks it up at a third. */
  function UsedTwice(t: Token, used: real, verified: real, looked: real): seq<Event> {
    [Refreshing(t, At(used), FAIR), Refreshing(t, Readings(verified, looked, looked, looked, looked, looked, looked), FAIR)]
  }

  /**
   When the second refresh verifies the token before its expiry, it is refused exactly when it also looks the token up
   before the expiry: a token whose expiry falls between the two is accepted again.
   */
  lemma AcceptedAgainIff(t: Token, used: real, verified: real, looked: real)
    requires used <= verified <= looked && verified < t.exp
    ensures var s, events := State(map[], map[], used), UsedTwice(t, used, verified, looked);
            && Timed(s, events) && Accepts(s, events, 0, t)
            && (Accepts(s, events, 1, t) <==> t.exp <= looked)
  {
    var s, events := State(map[], map[], used), UsedTwice(t, used, verified, looked);
    assert events[..0] == [];
    AfterPrefix(s, events, 0);
    var s1 := After(s, events[..1]);
    assert s1 == State(map[t.jti := t.exp], map[t.jti := t.exp], used);
  }

  /** The token is used while the table cannot be written, the process restarts, and the token is tried again. */
  function UsedAcrossRestart(t: Token, used: real, restarted: real, tried: real, storeUp: bool): seq<Event> {
    [Refreshing(t, At(used), Weather(true, true, storeUp)), Restart(restarted), Refreshing(t, At(tried), FAIR)]
  }

  /** After a restart it is refused exactly when the revocation had been stored. */
  lemma AcceptedAfterRestartIff(t: Token, used: real, restarted: real, tried: real, storeUp: bool)
    requires used <= restarted <= tried < t.exp
    ensures var s, events := State(map[], map[], used), UsedAcrossRestart(t, used, restarted, tried, storeUp);
            && Timed(s, events) && Accepts(s, events, 0, t)
            && (Accepts(s, events, 2, t) <==> !storeUp)
  {
    var s, events := State(map[], map[], used), UsedAcrossRestart(t, used, restarted, tried, storeUp);
    assert events[..0] == [];
    AfterPrefix(s, events, 0);
    AfterPrefix(s, events, 1);
    var s1 := After(s, events[..1]);
    assert s1 == State(map[t.jti := t.exp], if storeUp then map[t.jti := t.exp] else map[], used);
  }

  // ----- The service ---------------------------------------------------------------------------------

  class Blocklist {
    var memory: Expiries
    var table: Expiries
    ghost var now: real

    ghost function Contents(): State
      reads this
    {
      State(memory, table, now)
    }

    constructor (table: Expiries, now: real)
      ensures Contents() == State(map[], table, now)
    {
      this.memory, this.table, this.now := map[], table, now;
    }

    /** Deletes the expired entries of the cache one by one. */
    method Evict(at: real)
      modifies this`memory
      ensures memory == Evicted(old(memory), at)
    {
      var expired := set j | j in memory && memory[j] <= at;
      while expired != {}
        invariant forall j :: j in expired ==> j in memory && memory[j] <= at
        invariant forall j :: j in memory && memory[j] <= at ==> j in expired
        invariant forall j :: j in memory ==> j in old(memory) && memory[j] == old(memory)[j]
        invariant forall j :: j in old(memory) && old(memory)[j] > at ==> j in memory
        decreases |expired|
      {
        var j :| j in expired;
        memory := memory - {j};
        expired := expired - {j};
      }
    }

    method Store(jti: Jti, exp: real, at: real)
      modifies this`table
      ensures table == Persisted(old(table), jti, exp, at)
    {
      if jti !in table { table := table[jti := exp]; }
      table := map j | j in table && table[j] >= at :: table[j];
    }

    method RevokeJti(jti: Jti, ttl: real, cached: real, stamped: real, stored: real, up: bool)
      modifies this
      ensures Contents() == Revoke(old(Contents()), jti, ttl, cached, stamped, stored, up)
    {
      Evict(cached);
      memory := memory[jti := cached + ttl];
      if up { Store(jti, stamped + ttl, stored); }
      now := stored;
    }

    method IsRevoked(jti: Jti, checked: real, looked: real, up: bool) returns (revoked: bool)
      modifies this
      ensures Answer(Contents(), revoked) == AskRevoked(old(Contents()), jti, checked, looked, up)
    {
      Evict(checked);
      now := looked;
      if jti in memory { return true; }
      if !up { return true; }
      revoked := jti in table && table[jti] > looked;
      if revoked { memory := memory[jti := checked + 60.0]; }
    }

    /** The refresh endpoint: verify, ask, check the user, and revoke what was used before issuing anew. */
    method RefreshTokens(t: Token, r: Readings, w: Weather) returns (accepted: bool)
      modifies this
      ensures Outcome(Contents(), accepted) == Refresh(old(Contents()), t, r, w)
    {
      if t.exp <= r.verified {
        now := r.verified;
        return false;
      }
      var revoked := IsRevoked(t.jti, r.checked, r.looked, w.lookupUp);
      if revoked { return false; }
      if !w.userGood { return false; }
      RevokeJti(t.jti, if t.exp - r.measured > 0.0 then t.exp - r.measured else 0.0, r.cached, r.stamped, r.stored, w.storeUp);
      accepted := true;
    }

    method LogOut(t: Token, r: Readings, up: bool)
      modifies this
      ensures Contents() == Logout(old(Contents()), t, r, up)
    {
      if t.exp <= r.verified {
        now := r.verified;
        return;
      }
      RevokeJti(t.jti, if t.exp - r.measured > 0.0 then t.exp - r.measured else 0.0, r.cached, r.stamped, r.stored, up);
    }
  }
}
