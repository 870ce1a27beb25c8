/**
 The two caches in front of the database: which devices are registered, and which sessions are still good.
 Times are readings of the monotonic clock. Lookups, database changes and forgets interleave: a lookup reads the
 clock, checks the cache, reads the database and stores its answer in four separate steps.
 */
module TtlCache {
  import opened Basics

  datatype Key = Device(tenant: string, device: string) | User(tenant: string, user: string)

  datatype Answer = Nothing | Registered | Session(role: string, pwv: string)

  /** What a committed database would answer; a key it does not hold is unregistered or has no valid session. */
  type Database = map<Key, Answer>

  function Shown(db: Database, key: Key): Answer { if key in db then db[key] else Nothing }

  /** How long an answer may be served again; an invalid session is not stored at all. */
  function Lifetime(key: Key, a: Answer): Option<real> {
    if key.Device? then Some(if a.Nothing? then 5.0 else 30.0)
    else if a.Nothing? then None
    else Some(10.0)
  }

  datatype Entry = Entry(answer: Answer, expiry: real)

  type Cache = map<Key, Entry>

  function Hit(cache: Cache, key: Key, now: real): Option<Answer> {
    if key in cache && cache[key].expiry > now then Some(cache[key].answer) else None
  }

  function Stored(cache: Cache, key: Key, a: Answer, now: real): Cache {
    match Lifetime(key, a)
    case None => cache
    case Some(ttl) => cache[key := Entry(a, now + ttl)]
  }

  // ----- The interleaved system ----------------------------------------------------------------------

  datatype Phase = Clocked | Reading | Found(answer: Answer)

  datatype Lookup = Lookup(key: Key, began: real, phase: Phase)

  datatype Source = FromCache | FromRead | FromFailure

  /** An answer given to a caller: the clock reading the lookup started with, and the moment it returned. */
  datatype Served = Served(key: Key, began: real, finished: real, answer: Answer, source: Source)

  /** The database from a moment on, until the next version. */
  datatype Version = Version(since: real, db: Database)

  datatype System =
    System(now: real, history: seq<Version>, cache: Cache, lookups: map<nat, Lookup>, served: seq<Served>)

  predicate Started(s: System) { s.history != [] }

  function Current(s: System): Database
    requires Started(s)
  {
    s.history[|s.history| - 1].db
  }

  datatype Label =
    | Tick(now: real)
    | Change(db: Database)
    | Begin(id: nat, key: Key)
    | Check(id: nat)
    | ReadRow(id: nat)
    | FailRead(id: nat)
    | Store(id: nat)
    | Forget(key: Key)

  predicate InPhase(s: System, id: nat, phase: Phase) { id in s.lookups && s.lookups[id].phase == phase }

  function Serve(s: System, id: nat, a: Answer, source: Source): System
    requires id in s.lookups
  {
    var l := s.lookups[id];
    s.(lookups := s.lookups - {id}, served := s.served + [Served(l.key, l.began, s.now, a, source)])
  }

  /** One step; a label that is not possible in a state changes nothing. */
  function Step(s: System, l: Label): System
    requires Started(s)
  {
    match l
    case Tick(now) => if now >= s.now then s.(now := now) else s
    case Change(db) => s.(history := s.history + [Version(s.now, db)])
    case Begin(id, key) => if id in s.lookups then s else s.(lookups := s.lookups[id := Lookup(key, s.now, Clocked)])
    case Check(id) =>
      if !InPhase(s, id, Clocked) then s
      else
        (match Hit(s.cache, s.lookups[id].key, s.lookups[id].began)
         case Some(a) => Serve(s, id, a, FromCache)
         case None => s.(lookups := s.lookups[id := s.lookups[id].(phase := Reading)]))
    case ReadRow(id) =>
      if !InPhase(s, id, Reading) then s
      else s.(lookups := s.lookups[id := s.lookups[id].(phase := Found(Shown(Current(s), s.lookups[id].key)))])
    case FailRead(id) => if InPhase(s, id, Reading) then Serve(s, id, Nothing, FromFailure) else s
    case Store(id) =>
      if id in s.lookups && s.lookups[id].phase.Found? then
        var l := s.lookups[id];
        Serve(s, id, l.phase.answer, FromRead).(cache := Stored(s.cache, l.key, l.phase.answer, l.began))
      else s
    case Forget(key) => s.(cache := s.cache - {key})
  }

  function After(s: System, labels: seq<Label>): (s': System)
    requires Started(s)
    ensures Started(s')
    decreases |labels|
  {
    if labels == [] then s else Step(After(s, labels[..|labels| - 1]), labels[|labels| - 1])
  }

  /** A process that has just started, with nothing cached. */
  function Fresh(now: real, db: Database): System { System(now, [Version(now, db)], map[], map[], []) }

  // ----- A cached answer is a recent answer ----------------------------------------------------------

  predicate InForce(history: seq<Version>, i: int, u: real) {
    0 <= i < |history| && history[i].since <= u && (i + 1 < |history| ==> u <= history[i + 1].since)
  }

  /** The database gave this answer at moment u. */
  ghost predicate Held(history: seq<Version>, key: Key, a: Answer, u: real) {
    exists i :: InForce(history, i, u) && Shown(history[i].db, key) == a
  }

  ghost predicate HeldBetween(history: seq<Version>, key: Key, a: Answer, lo: real, hi: real) {
    exists u :: lo <= u <= hi && Held(history, key, a, u)
  }

  /** Less than a lifetime before the caller's clock reading the database gave this very answer. */
  ghost predicate RecentlyHeld(history: seq<Version>, key: Key, a: Answer, began: real, hi: real) {
    && Lifetime(key, a).Some?
    && exists u :: began - Lifetime(key, a).value < u <= hi && Held(history, key, a, u)
  }

  ghost predicate Truthful(history: seq<Version>, r: Served) {
    match r.source
    case FromCache => RecentlyHeld(history, r.key, r.answer, r.began, r.finished)
    case FromRead => HeldBetween(history, r.key, r.answer, r.began, r.finished)
    case FromFailure => r.answer == Nothing
  }

  ghost predicate SoundEntry(history: seq<Version>, key: Key, e: Entry, now: real) {
    Lifetime(key, e.answer).Some? && HeldBetween(history, key, e.answer, e.expiry - Lifetime(key, e.answer).value, now)
  }

  ghost predicate Sound(s: System) {
    && Started(s)
    && s.history[|s.history| - 1].since <= s.now
    && (forall key :: key in s.cache ==> SoundEntry(s.history, key, s.cache[key], s.now))
    && (forall id :: id in s.lookups ==> s.lookups[id].began <= s.now)
    && (forall id :: id in s.lookups && s.lookups[id].phase.Found? ==>
          HeldBetween(s.history, s.lookups[id].key, s.lookups[id].phase.answer, s.lookups[id].began, s.now))
    && (forall k :: 0 <= k < |s.served| ==> s.served[k].finished <= s.now && Truthful(s.history, s.served[k]))
  }

  lemma HeldLater(history: seq<Version>, v: Version, key: Key, a: Answer, lo: real, hi: real)
    requires HeldBetween(history, key, a, lo, hi) && hi <= v.since
    ensures HeldBetween(history + [v], key, a, lo, hi)
  {
    var u :| lo <= u <= hi && Held(history, key, a, u);
    HeldStill(history, v, key, a, u);
  }

  lemma HeldStill(history: seq<Version>, v: Version, key: Key, a: Answer, u: real)
    requires Held(history, key, a, u) && u <= v.since
    ensures Held(history + [v], key, a, u)
  {
    var i :| InForce(history, i, u) && Shown(history[i].db, key) == a;
    assert InForce(history + [v], i, u);
  }

  lemma HeldNow(s: System, key: Key)
    requires Started(s) && s.history[|s.history| - 1].since <= s.now
    ensures Held(s.history, key, Shown(Current(s), key), s.now)
  {
    assert InForce(s.history, |s.history| - 1, s.now);
  }

  lemma ChangeSound(s: System, db: Database)
    requires Sound(s)
    ensures Sound(Step(s, Change(db)))
  {
    var v := Version(s.now, db);
    var s' := Step(s, Change(db));
    forall key | key in s.cache ensures SoundEntry(s'.history, key, s.cache[key], s.now) {
      HeldLater(s.history, v, key, s.cache[key].answer, s.cache[key].expiry - Lifetime(key, s.cache[key].answer).value, s.now);
    }
    forall id | id in s.lookups && s.lookups[id].phase.Found?
      ensures HeldBetween(s'.history, s.lookups[id].key, s.lookups[id].phase.answer, s.lookups[id].began, s.now)
    {
      HeldLater(s.history, v, s.lookups[id].key, s.lookups[id].phase.answer, s.lookups[id].began, s.now);
    }
    forall k | 0 <= k < |s.served| ensures Truthful(s'.history, s.served[k]) {
      TruthfulStill(s.history, v, s.served[k]);
    }
  }

  lemma TruthfulStill(history: seq<Version>, v: Version, r: Served)
    requires Truthful(history, r) && r.finished <= v.since
    ensures Truthful(history + [v], r)
  {
    if r.source == FromRead {
      HeldLater(history, v, r.key, r.answer, r.began, r.finished);
    } else if r.source == FromCache {
      var u :| r.began - Lifetime(r.key, r.answer).value < u <= r.finished && Held(history, r.key, r.answer, u);
      HeldStill(history, v, r.key, r.answer, u);
    }
  }

  lemma TickSound(s: System, now: real)
    requires Sound(s) && now >= s.now
    ensures Sound(s.(now := now))
  {
    forall key | key in s.cache ensures SoundEntry(s.history, key, s.cache[key], now) {
      var u :| s.cache[key].expiry - Lifetime(key, s.cache[key].answer).value <= u <= s.now && Held(s.history, key, s.cache[key].answer, u);
    }
    forall id | id in s.lookups && s.lookups[id].phase.Found?
      ensures HeldBetween(s.history, s.lookups[id].key, s.lookups[id].phase.answer, s.lookups[id].began, now)
    {
      var u :| s.lookups[id].began <= u <= s.now && Held(s.history, s.lookups[id].key, s.lookups[id].phase.answer, u);
    }
  }

  lemma HitIsRecent(s: System, key: Key, began: real)
    requires Sound(s) && Hit(s.cache, key, began).Some?
    ensures RecentlyHeld(s.history, key, s.cache[key].answer, began, s.now)
  {
    var e := s.cache[key];
    assert SoundEntry(s.history, key, e, s.now);
    var u :| e.expiry - Lifetime(key, e.answer).value <= u <= s.now && Held(s.history, key, e.answer, u);
  }

  lemma ServeSound(s: System, id: nat, a: Answer, source: Source)
    requires Sound(s) && id in s.lookups
    requires Truthful(s.history, Served(s.lookups[id].key, s.lookups[id].began, s.now, a, source))
    ensures Sound(Serve(s, id, a, source))
  {
    hide Truthful;
    hide SoundEntry;
    hide HeldBetween;
  }

  lemma CheckSound(s: System, id: nat)
    requires Sound(s)
    ensures Sound(Step(s, Check(id)))
  {
    hide SoundEntry;
    hide HeldBetween;
    hide RecentlyHeld;
    if InPhase(s, id, Clocked) {
      var l := s.lookups[id];
      if Hit(s.cache, l.key, l.began).Some? {
        HitIsRecent(s, l.key, l.began);
        ServeSound(s, id, s.cache[l.key].answer, FromCache);
      }
    }
  }

  lemma ReadSound(s: System, id: nat)
    requires Sound(s)
    ensures Sound(Step(s, ReadRow(id)))
  {
    if InPhase(s, id, Reading) {
      var key := s.lookups[id].key;
      HeldNow(s, key);
      assert HeldBetween(s.history, key, Shown(Current(s), key), s.lookups[id].began, s.now);
    }
  }

  lemma StepSound(s: System, l: Label)
    requires Sound(s)
    ensures Sound(Step(s, l))
  {
    match l
    case Tick(now) => if now >= s.now { TickSound(s, now); }
    case Change(db) => ChangeSound(s, db);
    case Check(id) => CheckSound(s, id);
    case ReadRow(id) => ReadSound(s, id);
    case Store(id) => StoreSound(s, id);
    case _ =>
  }

  lemma StoreSound(s: System, id: nat)
    requires Sound(s)
    ensures Sound(Step(s, Store(id)))
  {
  }

  lemma {:induction false} RunSound(s: System, labels: seq<Label>)
    requires Sound(s)
    ensures Sound(After(s, labels))
    decreases |labels|
  {
    if labels != [] {
      RunSound(s, labels[..|labels| - 1]);
      StepSound(After(s, labels[..|labels| - 1]), labels[|labels| - 1]);
    }
  }

  /**
   In every interleaving: an answer from the cache is what the database gave at some moment less than the answer's
   lifetime before the caller read the clock, an answer from the database is what it gave while the lookup ran,
   and after a failed read the caller is turned away.
   */
  lemma EveryAnswerIsTruthful(now: real, db: Database, labels: seq<Label>, k: nat)
    requires k < |After(Fresh(now, db), labels).served|
    ensures var s := After(Fresh(now, db), labels);
            Truthful(s.history, s.served[k])
  {
    RunSound(Fresh(now, db), labels);
  }

  /** How many seconds old a cached answer can be. */
  function Age(key: Key, a: Answer): real { if key.User? then 10.0 else if a.Nothing? then 5.0 else 30.0 }

  /**
   In plain seconds: from the cache, a device is called registered on what the database said less than thirty seconds
   before, and unregistered on less than five; a session is good on less than ten, and never bad.
   */
  lemma CachedAnswersAreYoung(now: real, db: Database, labels: seq<Label>, k: nat)
    requires k < |After(Fresh(now, db), labels).served| && After(Fresh(now, db), labels).served[k].source == FromCache
    ensures var s := After(Fresh(now, db), labels);
            var r := s.served[k];
            && (r.key.User? ==> !r.answer.Nothing?)
            && exists u :: r.began - Age(r.key, r.answer) < u <= r.finished && Held(s.history, r.key, r.answer, u)
  {
    hide After;
    hide Held;
    EveryAnswerIsTruthful(now, db, labels, k);
  }

  // ----- What forgetting achieves --------------------------------------------------------------------

  /** An entry that would expire then cannot be served to any lookup, running or still to come. */
  predicate Spent(s: System, key: Key, expiry: real) {
    && s.now >= expiry
    && forall id :: id in s.lookups && s.lookups[id].key == key && s.lookups[id].phase.Clocked? ==> s.lookups[id].began >= expiry
  }

  /** A running lookup of the key has read something else, and will store it for long enough to be served. */
  predicate Threatens(s: System, key: Key, a: Answer, id: nat) {
    && id in s.lookups && s.lookups[id].key == key && s.lookups[id].phase.Found? && s.lookups[id].phase.answer != a
    && Lifetime(key, s.lookups[id].phase.answer).Some?
    && !Spent(s, key, s.lookups[id].began + Lifetime(key, s.lookups[id].phase.answer).value)
  }

  ghost predicate Settled(s: System, key: Key) {
    && Started(s)
    && (key in s.cache && s.cache[key].answer != Shown(Current(s), key) ==> Spent(s, key, s.cache[key].expiry))
    && (forall id :: !Threatens(s, key, Shown(Current(s), key), id))
  }

  /** No step tells the database anything new about the key. */
  ghost predicate Steady(labels: seq<Label>, key: Key, a: Answer) {
    forall k :: 0 <= k < |labels| && labels[k].Change? ==> Shown(labels[k].db, key) == a
  }

  /** Every answer about the key served from the cache since then is the one given. */
  predicate CachedSince(s: System, s': System, key: Key, a: Answer) {
    |s.served| <= |s'.served| &&
    forall k :: |s.served| <= k < |s'.served| && s'.served[k].key == key && s'.served[k].source == FromCache ==> s'.served[k].answer == a
  }

  lemma SpentStays(s: System, l: Label, key: Key, expiry: real)
    requires Started(s) && Spent(s, key, expiry)
    ensures Spent(Step(s, l), key, expiry)
  {
  }

  /** A settled cache serves nothing but the present answer about the key. */
  lemma SettledServes(s: System, l: Label, key: Key)
    requires Settled(s, key)
    ensures CachedSince(s, Step(s, l), key, Shown(Current(s), key))
  {
  }

  lemma SettledCache(s: System, l: Label, key: Key)
    requires Settled(s, key)
    ensures var s', a := Step(s, l), Shown(Current(s), key);
            key in s'.cache && s'.cache[key].answer != a ==> Spent(s', key, s'.cache[key].expiry)
  {
    var a, s' := Shown(Current(s), key), Step(s, l);
    if key in s'.cache && s'.cache[key].answer != a {
      if key in s.cache && s'.cache[key] == s.cache[key] {
        SpentStays(s, l, key, s.cache[key].expiry);
      } else {
        var found := s.lookups[l.id];
        assert !Threatens(s, key, a, l.id);
        SpentStays(s, l, key, found.began + Lifetime(key, found.phase.answer).value);
      }
    }
  }

  lemma SettledThreats(s: System, l: Label, key: Key, id: nat)
    requires Settled(s, key)
    ensures !Threatens(Step(s, l), key, Shown(Current(s), key), id)
  {
    var a, s' := Shown(Current(s), key), Step(s, l);
    if id in s'.lookups && s'.lookups[id].phase.Found? && id in s.lookups && s.lookups[id] == s'.lookups[id] {
      assert !Threatens(s, key, a, id);
      if s.lookups[id].key == key && s.lookups[id].phase.answer != a && Lifetime(key, s.lookups[id].phase.answer).Some? {
        SpentStays(s, l, key, s.lookups[id].began + Lifetime(key, s.lookups[id].phase.answer).value);
      }
    }
  }

  lemma SettledStep(s: System, l: Label, key: Key)
    requires Settled(s, key)
    requires l.Change? ==> Shown(l.db, key) == Shown(Current(s), key)
    ensures Settled(Step(s, l), key) && Shown(Current(Step(s, l)), key) == Shown(Current(s), key)
    ensures CachedSince(s, Step(s, l), key, Shown(Current(s), key))
  {
    hide Threatens;
    hide Spent;
    hide CachedSince;
    SettledServes(s, l, key);
    SettledCache(s, l, key);
    forall id ensures !Threatens(Step(s, l), key, Shown(Current(s), key), id) { SettledThreats(s, l, key, id); }
  }

  lemma {:induction false} SettledRun(s: System, labels: seq<Label>, key: Key)
    requires Settled(s, key) && Steady(labels, key, Shown(Current(s), key))
    ensures Settled(After(s, labels), key) && Shown(Current(After(s, labels)), key) == Shown(Current(s), key)
    ensures CachedSince(s, After(s, labels), key, Shown(Current(s), key))
    decreases |labels|
  {
    if labels != [] {
      SettledRun(s, labels[..|labels| - 1], key);
      SettledStep(After(s, labels[..|labels| - 1]), labels[|labels| - 1], key);
    }
  }

  lemma AfterOneMore(s: System, labels: seq<Label>, l: Label)
    requires Started(s)
    ensures After(s, labels + [l]) == Step(After(s, labels), l)
  {
    assert (labels + [l])[..|labels|] == labels;
  }

  lemma AfterTwo(s: System, l1: Label, l2: Label)
    requires Started(s)
    ensures After(s, [l1, l2]) == Step(Step(s, l1), l2)
  {
    AfterOneMore(s, [], l1);
    AfterOneMore(s, [l1], l2);
    assert [] + [l1] == [l1] && [l1] + [l2] == [l1, l2];
  }

  /** A lookup that read the old answer stores it after the forget, and a later check is served the old answer. */
  lemma ThreatComesTrue(s: System, key: Key, id: nat)
    requires Started(s) && Threatens(s, key, Shown(Current(s), key), id)
    ensures exists labels: seq<Label> :: Steady(labels, key, Shown(Current(s), key))
                                      && !CachedSince(s, After(s, labels), key, Shown(Current(s), key))
  {
    hide After;
    hide CachedSince;
    hide Steady;
    var expiry := s.lookups[id].began + Lifetime(key, s.lookups[id].phase.answer).value;
    if s.now < expiry {
      ServedToTheNext(s, key, id);
    } else {
      var late :| late in s.lookups && s.lookups[late].key == key && s.lookups[late].phase.Clocked? && s.lookups[late].began < expiry;
      ServedToTheLate(s, key, id, late);
    }
  }

  /** Storing what a lookup has found. */
  lemma StoreLeaves(s: System, id: nat)
    requires Started(s) && id in s.lookups && s.lookups[id].phase.Found?
    requires Lifetime(s.lookups[id].key, s.lookups[id].phase.answer).Some?
    ensures var t, found := Step(s, Store(id)), s.lookups[id];
            && Started(t) && t.now == s.now && t.lookups == s.lookups - {id} && |t.served| == |s.served| + 1
            && found.key in t.cache
            && t.cache[found.key] == Entry(found.phase.answer, found.began + Lifetime(found.key, found.phase.answer).value)
  {
  }

  lemma CheckServes(s: System, id: nat)
    requires Started(s) && InPhase(s, id, Clocked) && Hit(s.cache, s.lookups[id].key, s.lookups[id].began).Some?
    ensures var l := s.lookups[id];
            Step(s, Check(id)).served == s.served + [Served(l.key, l.began, s.now, Hit(s.cache, l.key, l.began).value, FromCache)]
  {
  }

  lemma BeginStarts(s: System, id: nat, key: Key)
    requires Started(s) && id !in s.lookups
    ensures Step(s, Begin(id, key)) == s.(lookups := s.lookups[id := Lookup(key, s.now, Clocked)])
  {
  }

  lemma LastOneDiffers(s: System, s': System, key: Key, a: Answer)
    requires |s'.served| > |s.served|
    requires var last := s'.served[|s'.served| - 1]; last.key == key && last.source == FromCache && last.answer != a
    ensures !CachedSince(s, s', key, a)
  {
  }

  lemma ServedToTheLate(s: System, key: Key, id: nat, late: nat)
    requires Started(s) && Threatens(s, key, Shown(Current(s), key), id)
    requires late in s.lookups && s.lookups[late].key == key && s.lookups[late].phase.Clocked?
    requires s.lookups[late].began < s.lookups[id].began + Lifetime(key, s.lookups[id].phase.answer).value
    ensures Steady([Store(id), Check(late)], key, Shown(Current(s), key))
    ensures !CachedSince(s, After(s, [Store(id), Check(late)]), key, Shown(Current(s), key))
  {
    hide Step;
    hide After;
    hide CachedSince;
    AfterTwo(s, Store(id), Check(late));
    StoreLeaves(s, id);
    CheckServes(Step(s, Store(id)), late);
    LastOneDiffers(s, After(s, [Store(id), Check(late)]), key, Shown(Current(s), key));
  }

  lemma ServedToTheNext(s: System, key: Key, id: nat)
    requires Started(s) && Threatens(s, key, Shown(Current(s), key), id)
    requires s.now < s.lookups[id].began + Lifetime(key, s.lookups[id].phase.answer).value
    ensures Steady([Store(id), Begin(id, key), Check(id)], key, Shown(Current(s), key))
    ensures !CachedSince(s, After(s, [Store(id), Begin(id, key), Check(id)]), key, Shown(Current(s), key))
  {
    hide Step;
    hide After;
    hide CachedSince;
    AfterTwo(s, Store(id), Begin(id, key));
    AfterOneMore(s, [Store(id), Begin(id, key)], Check(id));
    assert [Store(id), Begin(id, key)] + [Check(id)] == [Store(id), Begin(id, key), Check(id)];
    var s1 := Step(s, Store(id));
    StoreLeaves(s, id);
    BeginStarts(s1, id, key);
    CheckServes(Step(s1, Begin(id, key)), id);
    LastOneDiffers(s, After(s, [Store(id), Begin(id, key), Check(id)]), key, Shown(Current(s), key));
  }

  /**
   A change of the database followed by a forget takes effect at once - nothing but the present answer is served from
   the cache for as long as it stays - exactly when no running lookup has read another answer that it will store alive.
   */
  lemma ForgetIsImmediateIff(s: System, key: Key)
    requires Started(s)
    ensures var s' := Step(s, Forget(key));
            var a := Shown(Current(s'), key);
            (forall labels: seq<Label> :: Steady(labels, key, a) ==> CachedSince(s', After(s', labels), key, a))
            <==> (forall id :: !Threatens(s', key, a, id))
  {
    var s' := Step(s, Forget(key));
    var a := Shown(Current(s'), key);
    if forall id :: !Threatens(s', key, a, id) {
      assert Settled(s', key);
      forall labels: seq<Label> | Steady(labels, key, a) ensures CachedSince(s', After(s', labels), key, a) {
        SettledRun(s', labels, key);
      }
    } else {
      var id :| Threatens(s', key, a, id);
      ThreatComesTrue(s', key, id);
    }
  }

  // ----- One caller at a time ------------------------------------------------------------------------

  /** A lookup that nothing interrupts. */
  function Alone(cache: Cache, key: Key, now: real, db: Database, up: bool): System {
    After(System(now, [Version(now, db)], cache, map[], []), [Begin(0, key), Check(0), if up then ReadRow(0) else FailRead(0), Store(0)])
  }

  lemma AloneUnfolds(cache: Cache, key: Key, now: real, db: Database, up: bool)
    ensures var s := Alone(cache, key, now, db, up);
            && s.lookups == map[]
            && (match Hit(cache, key, now)
                case Some(a) => s.cache == cache && s.served == [Served(key, now, now, a, FromCache)]
                case None =>
                  if up then s.cache == Stored(cache, key, Shown(db, key), now) && s.served == [Served(key, now, now, Shown(db, key), FromRead)]
                  else s.cache == cache && s.served == [Served(key, now, now, Nothing, FromFailure)])
  {
    var s0 := System(now, [Version(now, db)], cache, map[], []);
    var read := if up then ReadRow(0) else FailRead(0);
    AfterTwo(s0, Begin(0, key), Check(0));
    AfterOneMore(s0, [Begin(0, key), Check(0)], read);
    assert [Begin(0, key), Check(0)] + [read] == [Begin(0, key), Check(0), read];
    AfterOneMore(s0, [Begin(0, key), Check(0), read], Store(0));
    assert [Begin(0, key), Check(0), read] + [Store(0)] == [Begin(0, key), Check(0), read, Store(0)];
  }

  /**
   A lookup that found the cache empty, and a later one of the same key: exactly until the answer's seconds are over the
   later one is served the first one's answer; then, and at once when that was no valid session, it reads anew. A read
   that fails stores nothing and turns the caller away.
   */
  lemma ServedForItsSeconds(key: Key, now: real, db: Database, later: real, db': Database, up: bool)
    requires now <= later
    ensures var first := Alone(map[], key, now, db, true);
            var second := Alone(first.cache, key, later, db', up);
            && |first.served| == |second.served| == 1
            && first.served[0].answer == Shown(db, key)
            && var cached := later < now + Age(key, Shown(db, key)) && !(key.User? && Shown(db, key).Nothing?);
               && (second.served[0].source == FromCache <==> cached)
               && second.served[0].answer == (if cached then Shown(db, key) else if up then Shown(db', key) else Nothing)
               && (!cached && !up ==> second.cache == first.cache)
  {
    hide Alone;
    AloneUnfolds(map[], key, now, db, true);
    AloneUnfolds(Alone(map[], key, now, db, true).cache, key, later, db', up);
  }

  /** The claims of a session token; a token from before fingerprints carries the empty one. */
  datatype Payload = Payload(tenant: string, user: string, role: string, pwv: string)

  class AccessCache {
    var cache: Cache

    constructor ()
      ensures cache == map[]
    {
      cache := map[];
    }

    /** The device check of the broker's hooks: a malformed tenant or an unreachable database turns the device away. */
    method IsDeviceRegistered(wellFormed: bool, tenant: string, device: string, now: real, db: Database, up: bool)
      returns (registered: bool)
      modifies this
      ensures var s := Alone(old(cache), Device(tenant, device), now, db, up);
              if wellFormed then cache == s.cache && s.served != [] && registered == !s.served[0].answer.Nothing?
              else cache == old(cache) && !registered
    {
      if !wellFormed { return false; }
      var key := Device(tenant, device);
      AloneUnfolds(cache, key, now, db, up);
      if key in cache && cache[key].expiry > now { return !cache[key].answer.Nothing?; }
      if !up { return false; }
      registered := key in db && !db[key].Nothing?;
      cache := cache[key := Entry(Shown(db, key), now + if registered then 30.0 else 5.0)];
    }

    /** From then on the cache answers nothing for this key, and for every other key what it answered before. */
    method ForgetDevice(tenant: string, device: string)
      modifies this
      ensures forall now :: Hit(cache, Device(tenant, device), now).None?
      ensures forall key, now :: key != Device(tenant, device) ==> Hit(cache, key, now) == Hit(old(cache), key, now)
    {
      cache := cache - {Device(tenant, device)};
    }

    /** The state of a user's session; an invalid or unknown one is never stored. */
    method CurrentState(tenant: string, user: string, now: real, db: Database, up: bool) returns (state: Answer)
      modifies this
      ensures var s := Alone(old(cache), User(tenant, user), now, db, up);
              cache == s.cache && s.served != [] && state == s.served[0].answer
    {
      var key := User(tenant, user);
      AloneUnfolds(cache, key, now, db, up);
      if key in cache && cache[key].expiry > now { return cache[key].answer; }
      state := if up && key in db then db[key] else Nothing;
      if !state.Nothing? {
        cache := cache[key := Entry(state, now + 10.0)];
      }
    }

    /** From then on the cache answers nothing for this key, and for every other key what it answered before. */
    method ForgetSession(tenant: string, user: string)
      modifies this
      ensures forall now :: Hit(cache, User(tenant, user), now).None?
      ensures forall key, now :: key != User(tenant, user) ==> Hit(cache, key, now) == Hit(old(cache), key, now)
    {
      cache := cache - {User(tenant, user)};
    }

    /**
     A token is accepted exactly when its owner's session is valid and its fingerprint is the current one, and then
     it carries the current role whatever role it was issued with.
     */
    method RevalidateSession(wellFormed: bool, payload: Payload, now: real, db: Database, up: bool)
      returns (result: Option<Payload>)
      modifies this
      ensures var s := Alone(old(cache), User(payload.tenant, payload.user), now, db, up);
              if !wellFormed then cache == old(cache) && result == None
              else
                && cache == s.cache && s.served != []
                && (result.Some? <==> s.served[0].answer.Session? && s.served[0].answer.pwv == payload.pwv)
                && (result.Some? ==> result.value == Payload(payload.tenant, payload.user, s.served[0].answer.role, payload.pwv))
    {
      if !wellFormed { return None; }
      var state := CurrentState(payload.tenant, payload.user, now, db, up);
      match state
      case Session(role, pwv) => if payload.pwv == pwv { return Some(payload.(role := role)); } else { return None; }
      case _ => return None;
    }
  }
}
