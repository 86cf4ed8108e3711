/**
  Portal logins (auth/auth.go): the pruned `attempts` and `sessions` maps against the full history.
  SHA-256 is taken to be injective, so tokens and session ids stand for their hashes.
*/
module LoginLimiter {
  import opened Wrappers

  type Time = int  // seconds
  type Client = string
  type SessionId = string

  const MINUTE := 60
  const SESSION_DURATION := 12 * 60 * 60
  const MAX_ATTEMPTS := 5

  /** Everything that ever happened. A rate-limited attempt is not recorded. */
  datatype Event = Attempt(client: Client, at: Time) | Success(client: Client) | Issued(id: SessionId, at: Time) | LoggedOut(id: SessionId)

  type History = seq<Event>

  // ---- what the full history says --------------------------------------------------------------

  /** Event `k` is a recorded attempt of `client` after `cutoff`, with no later success of that client. */
  predicate Counts(log: History, client: Client, cutoff: Time, k: nat)
    requires k < |log|
  {
    log[k].Attempt? && log[k].client == client && cutoff < log[k].at && forall j | k < j < |log| :: log[j] != Success(client)
  }

  function Recent(log: History, client: Client, cutoff: Time): set<nat> {
    set k: nat | k < |log| && Counts(log, client, cutoff, k)
  }

  predicate Limited(log: History, client: Client, now: Time) {
    |Recent(log, client, now - MINUTE)| >= MAX_ATTEMPTS
  }

  /** When the session was last issued, unless it has been logged out since. */
  function IssuedAt(log: History, id: SessionId): Option<Time> {
    if log == [] then None
    else
      match log[|log| - 1]
      case Issued(i, at) => if i == id then Some(at) else IssuedAt(log[..|log| - 1], id)
      case LoggedOut(i) => if i == id then None else IssuedAt(log[..|log| - 1], id)
      case _ => IssuedAt(log[..|log| - 1], id)
  }

  predicate Live(log: History, id: SessionId, now: Time) {
    IssuedAt(log, id).Some? && now < IssuedAt(log, id).value + SESSION_DURATION
  }

  // ---- the same as lists -----------------------------------------------------------------------

  /** The recorded attempts since the last success, oldest first. */
  function AttemptsOf(log: History, client: Client): seq<Time> {
    if log == [] then []
    else
      match log[|log| - 1]
      case Attempt(c, at) => if c == client then AttemptsOf(log[..|log| - 1], client) + [at] else AttemptsOf(log[..|log| - 1], client)
      case Success(c) => if c == client then [] else AttemptsOf(log[..|log| - 1], client)
      case _ => AttemptsOf(log[..|log| - 1], client)
  }

  function After(times: seq<Time>, cutoff: Time): seq<Time> {
    if times == [] then []
    else
      var before, last := After(times[..|times| - 1], cutoff), times[|times| - 1];
      if cutoff < last then before + [last] else before
  }

  lemma AfterPush(times: seq<Time>, at: Time, cutoff: Time)
    ensures After(times + [at], cutoff) == if cutoff < at then After(times, cutoff) + [at] else After(times, cutoff)
  {
    assert (times + [at])[..|times|] == times;
  }

  /** Pruning now and pruning again later keeps what pruning later keeps. */
  lemma {:induction false} AfterAfter(times: seq<Time>, early: Time, late: Time)
    requires early <= late
    ensures After(After(times, early), late) == After(times, late)
  {
    if times != [] {
      var n := |times| - 1;
      AfterAfter(times[..n], early, late);
      AfterPush(After(times[..n], early), times[n], late);
    }
  }

  lemma HistoryPush(log: History, e: Event, client: Client, id: SessionId)
    ensures AttemptsOf(log + [e], client) ==
            if e.Attempt? && e.client == client then AttemptsOf(log, client) + [e.at]
            else if e == Success(client) then [] else AttemptsOf(log, client)
    ensures IssuedAt(log + [e], id) ==
            if e.Issued? && e.id == id then Some(e.at) else if e == LoggedOut(id) then None else IssuedAt(log, id)
  {
    assert (log + [e])[..|log|] == log;
  }

  lemma RecentStep(log: History, client: Client, cutoff: Time)
    requires log != []
    ensures var n, last := |log| - 1, log[|log| - 1];
            Recent(log, client, cutoff) ==
              if last == Success(client) then {}
              else if last.Attempt? && last.client == client && cutoff < last.at then Recent(log[..n], client, cutoff) + {n}
              else Recent(log[..n], client, cutoff)
  {
    var n, last := |log| - 1, log[|log| - 1];
    if last != Success(client) {
      forall k: nat | k < n ensures Counts(log, client, cutoff, k) <==> Counts(log[..n], client, cutoff, k) {
        assert forall j | k < j < n :: log[..n][j] == log[j];
      }
    } else {
      assert forall k: nat | k < n :: !Counts(log, client, cutoff, k);
    }
  }

  /** The list counts what the set counts. */
  lemma {:induction false} RecentIsAfter(log: History, client: Client, cutoff: Time)
    ensures |Recent(log, client, cutoff)| == |After(AttemptsOf(log, client), cutoff)|
  {
    if log == [] {
      assert Recent(log, client, cutoff) == {};
    } else {
      var n, last := |log| - 1, log[|log| - 1];
      RecentIsAfter(log[..n], client, cutoff);
      RecentStep(log, client, cutoff);
      if last.Attempt? && last.client == client {
        AfterPush(AttemptsOf(log[..n], client), last.at, cutoff);
      }
    }
  }

  // ---- the maps --------------------------------------------------------------------------------

  function Stored(attempts: map<Client, seq<Time>>, client: Client): seq<Time> {
    if client in attempts then attempts[client] else []
  }

  /** The attempts map is the history pruned at `cutoff`. */
  ghost predicate AttemptsOk(attempts: map<Client, seq<Time>>, log: History, cutoff: Time) {
    forall client: Client :: Stored(attempts, client) == After(AttemptsOf(log, client), cutoff)
  }

  /** The sessions map holds the issued ones; those it lacks are logged out, never issued, or over. */
  ghost predicate SessionsOk(sessions: map<SessionId, Time>, log: History, clock: Time) {
    && (forall id | id in sessions :: IssuedAt(log, id) == Some(sessions[id] - SESSION_DURATION))
    && (forall id: SessionId | id !in sessions :: !Live(log, id, clock))
  }

  datatype Login = RateLimited | InvalidCredentials | NoRandom | LoggedIn(id: SessionId, expires: Time)

  function Answer(log: History, token: string, client: Client, candidate: string, now: Time, random: Option<SessionId>): Login {
    if Limited(log, client, now) then RateLimited
    else if candidate != token then InvalidCredentials
    else if random.None? then NoRandom
    else LoggedIn(random.value, now + SESSION_DURATION)
  }

  function Recorded(log: History, client: Client, now: Time, answer: Login): History {
    match answer
    case RateLimited => log
    case InvalidCredentials => log + [Attempt(client, now)]
    case NoRandom => log + [Attempt(client, now)] + [Success(client)]
    case LoggedIn(id, _) => log + [Attempt(client, now)] + [Success(client)] + [Issued(id, now)]
  }

  /** When each answer is given. */
  lemma AnswerIs(log: History, token: string, client: Client, candidate: string, now: Time, random: Option<SessionId>)
    ensures var answer := Answer(log, token, client, candidate, now, random);
            && (answer.RateLimited? <==> Limited(log, client, now))
            && (answer.LoggedIn? <==> candidate == token && random.Some? && !Limited(log, client, now))
            && (answer.InvalidCredentials? <==> candidate != token && !Limited(log, client, now))
            && (answer.LoggedIn? ==> Some(answer.id) == random && answer.expires == now + SESSION_DURATION)
  {
    hide Limited;
  }

  /** One more event, as far as counts and sessions go. */
  lemma OneEvent(log: History, e: Event, c: Client, cut: Time, id: SessionId)
    ensures |Recent(log + [e], c, cut)| ==
            if e == Success(c) then 0
            else if e.Attempt? && e.client == c && cut < e.at then |Recent(log, c, cut)| + 1 else |Recent(log, c, cut)|
    ensures forall t: Time :: Live(log + [e], id, t) <==>
              if e.Issued? && e.id == id then t < e.at + SESSION_DURATION else e != LoggedOut(id) && Live(log, id, t)
  {
    HistoryPush(log, e, c, id);
    RecentStep(log + [e], c, cut);
    assert (log + [e])[..|log|] == log;
    assert |log| !in Recent(log, c, cut);
    hide Recent, IssuedAt;
  }

  /** What is on record after a login: one more failure, or none and perhaps a session. */
  lemma RecordedEffects(log: History, client: Client, now: Time, answer: Login)
    ensures forall c: Client, cut: Time | cut < now :: |Recent(Recorded(log, client, now, answer), c, cut)| ==
              if c != client || answer.RateLimited? then |Recent(log, c, cut)|
              else if answer.InvalidCredentials? then |Recent(log, c, cut)| + 1 else 0
    ensures forall id: SessionId, t: Time :: Live(Recorded(log, client, now, answer), id, t) <==>
              if answer.LoggedIn? && answer.id == id then t < now + SESSION_DURATION else Live(log, id, t)
  {
    hide Recent, Live;
    var attempted := log + [Attempt(client, now)];
    var succeeded := attempted + [Success(client)];
    forall c: Client, cut: Time | cut < now
      ensures |Recent(Recorded(log, client, now, answer), c, cut)| ==
              if c != client || answer.RateLimited? then |Recent(log, c, cut)|
              else if answer.InvalidCredentials? then |Recent(log, c, cut)| + 1 else 0
    {
      OneEvent(log, Attempt(client, now), c, cut, "");
      OneEvent(attempted, Success(client), c, cut, "");
      if answer.LoggedIn? {
        OneEvent(succeeded, Issued(answer.id, now), c, cut, "");
      }
    }
    forall id: SessionId, t: Time
      ensures Live(Recorded(log, client, now, answer), id, t) <==>
              if answer.LoggedIn? && answer.id == id then t < now + SESSION_DURATION else Live(log, id, t)
    {
      OneEvent(log, Attempt(client, now), "", 0, id);
      OneEvent(attempted, Success(client), "", 0, id);
      if answer.LoggedIn? {
        OneEvent(succeeded, Issued(answer.id, now), "", 0, id);
      }
    }
  }

  function PrunedAttempts(attempts: map<Client, seq<Time>>, cutoff: Time): map<Client, seq<Time>> {
    map c | c in attempts && After(attempts[c], cutoff) != [] :: After(attempts[c], cutoff)
  }

  function PrunedSessions(sessions: map<SessionId, Time>, now: Time): map<SessionId, Time> {
    map id | id in sessions && now < sessions[id] :: sessions[id]
  }

  lemma PruneKeeps(attempts: map<Client, seq<Time>>, log: History, early: Time, late: Time)
    requires AttemptsOk(attempts, log, early) && early <= late
    ensures AttemptsOk(PrunedAttempts(attempts, late), log, late)
  {
    forall client: Client ensures Stored(PrunedAttempts(attempts, late), client) == After(AttemptsOf(log, client), late) {
      AfterAfter(AttemptsOf(log, client), early, late);
      assert Stored(attempts, client) == After(AttemptsOf(log, client), early);
    }
  }

  lemma PruneSessionsKeeps(sessions: map<SessionId, Time>, log: History, early: Time, late: Time)
    requires SessionsOk(sessions, log, early) && early <= late
    ensures SessionsOk(PrunedSessions(sessions, late), log, late)
  {
  }

  lemma AttemptRecorded(attempts: map<Client, seq<Time>>, log: History, cutoff: Time, client: Client, now: Time)
    requires AttemptsOk(attempts, log, cutoff) && cutoff < now
    ensures AttemptsOk(attempts[client := Stored(attempts, client) + [now]], log + [Attempt(client, now)], cutoff)
  {
    forall c: Client
      ensures Stored(attempts[client := Stored(attempts, client) + [now]], c) == After(AttemptsOf(log + [Attempt(client, now)], c), cutoff)
    {
      HistoryPush(log, Attempt(client, now), c, "");
      AfterPush(AttemptsOf(log, c), now, cutoff);
    }
  }

  lemma SuccessRecorded(attempts: map<Client, seq<Time>>, log: History, cutoff: Time, client: Client)
    requires AttemptsOk(attempts, log, cutoff)
    ensures AttemptsOk(attempts - {client}, log + [Success(client)], cutoff)
  {
    forall c: Client ensures Stored(attempts - {client}, c) == After(AttemptsOf(log + [Success(client)], c), cutoff) {
      HistoryPush(log, Success(client), c, "");
      assert c != client ==> Stored(attempts - {client}, c) == Stored(attempts, c);
    }
  }

  lemma SessionEvent(attempts: map<Client, seq<Time>>, log: History, cutoff: Time, e: Event)
    requires AttemptsOk(attempts, log, cutoff) && (e.Issued? || e.LoggedOut?)
    ensures AttemptsOk(attempts, log + [e], cutoff)
  {
    forall c: Client ensures AttemptsOf(log + [e], c) == AttemptsOf(log, c) {
      HistoryPush(log, e, c, "");
    }
  }

  lemma AttemptEvent(sessions: map<SessionId, Time>, log: History, clock: Time, e: Event)
    requires SessionsOk(sessions, log, clock) && (e.Attempt? || e.Success?)
    ensures SessionsOk(sessions, log + [e], clock)
  {
    forall id: SessionId ensures IssuedAt(log + [e], id) == IssuedAt(log, id) {
      HistoryPush(log, e, "", id);
    }
  }

  lemma IssueKeeps(sessions: map<SessionId, Time>, log: History, now: Time, id: SessionId)
    requires SessionsOk(sessions, log, now)
    ensures SessionsOk(sessions[id := now + SESSION_DURATION], log + [Issued(id, now)], now)
  {
    forall i: SessionId ensures IssuedAt(log + [Issued(id, now)], i) == if i == id then Some(now) else IssuedAt(log, i) {
      HistoryPush(log, Issued(id, now), "", i);
    }
  }

  lemma LogoutKeeps(sessions: map<SessionId, Time>, log: History, now: Time, id: SessionId)
    requires SessionsOk(sessions, log, now)
    ensures SessionsOk(sessions - {id}, log + [LoggedOut(id)], now)
  {
    forall i: SessionId ensures IssuedAt(log + [LoggedOut(id)], i) == if i == id then None else IssuedAt(log, i) {
      HistoryPush(log, LoggedOut(id), "", i);
    }
  }

  /** Whatever the pruned maps still hold, they answer as the whole history would. */
  lemma PrunedMapsAnswer(attempts: map<Client, seq<Time>>, sessions: map<SessionId, Time>, log: History, cutoff: Time, clock: Time,
                         client: Client, id: SessionId, now: Time)
    requires AttemptsOk(attempts, log, cutoff) && cutoff <= now - MINUTE
    requires SessionsOk(sessions, log, clock) && clock <= now
    ensures |After(Stored(attempts, client), now - MINUTE)| >= MAX_ATTEMPTS <==> Limited(log, client, now)
    ensures id in sessions && now < sessions[id] <==> Live(log, id, now)
  {
    RecentIsAfter(log, client, now - MINUTE);
    AfterAfter(AttemptsOf(log, client), cutoff, now - MINUTE);
  }

  // ---- the object ------------------------------------------------------------------------------

  class Manager {
    const token: string
    var sessions: map<SessionId, Time>
    var attempts: map<Client, seq<Time>>

    ghost var log: History
    ghost var cutoff: Time
    ghost var clock: Time

    ghost predicate Valid()
      reads this
    {
      cutoff <= clock - MINUTE && AttemptsOk(attempts, log, cutoff) && SessionsOk(sessions, log, clock)
    }

    constructor (secret: string, ghost start: Time)
      ensures Valid() && token == secret && log == [] && clock == start
    {
      token, sessions, attempts := secret, map[], map[];
      log, cutoff, clock := [], start - MINUTE, start;
    }

    /** The first loop of `Login`. */
    method ExpireSessions(now: Time)
      modifies this`sessions
      ensures sessions == PrunedSessions(old(sessions), now)
    {
      var pending := sessions.Keys;
      while pending != {}
        invariant pending <= sessions.Keys
        invariant sessions == map id | id in old(sessions) && (id in pending || now < old(sessions)[id]) :: old(sessions)[id]
      {
        var id :| id in pending;
        if !(now < sessions[id]) {
          sessions := sessions - {id};
        }
        pending := pending - {id};
      }
    }

    static method Filter(times: seq<Time>, cutoff: Time) returns (kept: seq<Time>)
      ensures kept == After(times, cutoff)
    {
      kept := [];
      for k := 0 to |times|
        invariant kept == After(times[..k], cutoff)
      {
        assert times[..k + 1] == times[..k] + [times[k]];
        AfterPush(times[..k], times[k], cutoff);
        if cutoff < times[k] {
          kept := kept + [times[k]];
        }
      }
      assert times[..|times|] == times;
    }

    /** The second loop of `Login`. */
    method PruneAttempts(late: Time)
      modifies this`attempts
      ensures attempts == PrunedAttempts(old(attempts), late)
    {
      var pending := attempts.Keys;
      while pending != {}
        invariant pending <= attempts.Keys
        invariant attempts == map c | c in old(attempts) && (c in pending || After(old(attempts)[c], late) != []) ::
                    if c in pending then old(attempts)[c] else After(old(attempts)[c], late)
      {
        var c :| c in pending;
        var kept := Filter(attempts[c], late);
        if kept == [] {
          attempts := attempts - {c};
        } else {
          attempts := attempts[c := kept];
        }
        pending := pending - {c};
      }
    }

    /** Both loops: the maps now answer for `now`. */
    method Prune(now: Time)
      requires Valid() && clock <= now
      modifies this
      ensures Valid() && log == old(log) && clock == now && cutoff == now - MINUTE
    {
      hide AttemptsOk, SessionsOk, PrunedAttempts, PrunedSessions;
      PruneKeeps(attempts, log, cutoff, now - MINUTE);
      PruneSessionsKeeps(sessions, log, clock, now);
      ExpireSessions(now);
      PruneAttempts(now - MINUTE);
      cutoff, clock := now - MINUTE, now;
    }

    method RecordAttempt(client: Client, now: Time, recent: seq<Time>)
      requires Valid() && cutoff < now && recent == Stored(attempts, client) + [now]
      modifies this
      ensures Valid() && log == old(log) + [Attempt(client, now)] && clock == old(clock) && cutoff == old(cutoff)
    {
      hide AttemptsOk, SessionsOk, Stored;
      AttemptRecorded(attempts, log, cutoff, client, now);
      AttemptEvent(sessions, log, clock, Attempt(client, now));
      attempts := attempts[client := recent];
      log := log + [Attempt(client, now)];
    }

    method RecordSuccess(client: Client)
      requires Valid()
      modifies this
      ensures Valid() && log == old(log) + [Success(client)] && clock == old(clock) && cutoff == old(cutoff)
    {
      hide AttemptsOk, SessionsOk;
      SuccessRecorded(attempts, log, cutoff, client);
      AttemptEvent(sessions, log, clock, Success(client));
      attempts := attempts - {client};
      log := log + [Success(client)];
    }

    method Issue(id: SessionId, now: Time) returns (expires: Time)
      requires Valid() && clock == now
      modifies this
      ensures Valid() && log == old(log) + [Issued(id, now)] && clock == now && expires == now + SESSION_DURATION
    {
      hide AttemptsOk, SessionsOk;
      expires := now + SESSION_DURATION;
      SessionEvent(attempts, log, cutoff, Issued(id, now));
      IssueKeeps(sessions, log, now, id);
      sessions := sessions[id := expires];
      log := log + [Issued(id, now)];
    }

    /** What the pruned entry of `client` says; it is stored back even when empty. */
    method RecentAttempts(client: Client, now: Time) returns (recent: seq<Time>)
      requires Valid() && clock == now && cutoff == now - MINUTE
      ensures recent == Stored(attempts, client)
      ensures |recent| >= MAX_ATTEMPTS <==> Limited(log, client, now)
    {
      hide AttemptsOk, SessionsOk, Limited;
      PrunedMapsAnswer(attempts, sessions, log, cutoff, clock, client, "", now);
      PrunedTwice(attempts, log, cutoff, client);
      recent := Filter(Stored(attempts, client), now - MINUTE);
    }

    /**
      A login is refused for its rate exactly when the full history holds five or more recorded
      attempts of that client in the last minute since its last success.
    */
    method TryLogin(client: Client, candidate: string, now: Time, random: Option<SessionId>) returns (answer: Login)
      requires Valid() && clock <= now
      modifies this
      ensures Valid() && clock == now
      ensures answer == Answer(old(log), token, client, candidate, now, random)
      ensures log == Recorded(old(log), client, now, answer)
      ensures answer.RateLimited? <==> Limited(old(log), client, now)
      ensures answer.LoggedIn? <==> candidate == token && random.Some? && !Limited(old(log), client, now)
      ensures answer.InvalidCredentials? <==> candidate != token && !Limited(old(log), client, now)
      ensures answer.LoggedIn? ==> Some(answer.id) == random && answer.expires == now + SESSION_DURATION
      ensures answer.LoggedIn? ==> forall t: Time :: Live(log, answer.id, t) <==> t < now + SESSION_DURATION
      ensures forall id: SessionId, t: Time ::
                !(answer.LoggedIn? && answer.id == id) ==> (Live(log, id, t) <==> Live(old(log), id, t))
      ensures forall c: Client, cut: Time | cut < now :: |Recent(log, c, cut)| ==
                if c != client || answer.RateLimited? then |Recent(old(log), c, cut)|
                else if answer.InvalidCredentials? then |Recent(old(log), c, cut)| + 1 else 0
    {
      hide AttemptsOk, SessionsOk, Limited, Stored, Recent, Live, IssuedAt, Answer;
      AnswerIs(log, token, client, candidate, now, random);
      RecordedEffects(log, client, now, Answer(log, token, client, candidate, now, random));
      Prune(now);
      var recent := RecentAttempts(client, now);
      if |recent| >= MAX_ATTEMPTS {
        PrunedTwice(attempts, log, cutoff, client);
        attempts := attempts[client := recent];
        return RateLimited;
      }
      RecordAttempt(client, now, recent + [now]);
      if candidate != token {
        return InvalidCredentials;
      }
      RecordSuccess(client);
      if random.None? {
        return NoRandom;
      }
      var expires := Issue(random.value, now);
      answer := LoggedIn(random.value, expires);
    }

    /** A session is valid exactly when it was issued, not logged out since, and is under twelve hours old. */
    method IsValid(id: SessionId, now: Time) returns (ok: bool)
      requires Valid() && clock <= now
      modifies this
      ensures Valid() && log == old(log)
      ensures ok <==> id != "" && Live(log, id, now)
    {
      if id == "" {
        return false;
      }
      if id !in sessions || !(now < sessions[id]) {
        sessions := sessions - {id};
        clock := now;
        return false;
      }
      clock := now;
      ok := true;
    }

    method Logout(id: SessionId)
      requires Valid()
      modifies this
      ensures Valid() && log == old(log) + [LoggedOut(id)]
      ensures forall i: SessionId, t: Time :: Live(log, i, t) <==> i != id && Live(old(log), i, t)
    {
      forall i: SessionId, t: Time ensures Live(log + [LoggedOut(id)], i, t) <==> i != id && Live(log, i, t) {
        OneEvent(log, LoggedOut(id), "", 0, i);
      }
      hide Live;
      LogoutKeeps(sessions, log, clock, id);
      SessionEvent(attempts, log, cutoff, LoggedOut(id));
      sessions := sessions - {id};
      log := log + [LoggedOut(id)];
    }
  }

  /** Filtering a pruned entry again changes nothing, except that it may store an empty list. */
  lemma PrunedTwice(attempts: map<Client, seq<Time>>, log: History, cutoff: Time, client: Client)
    requires AttemptsOk(attempts, log, cutoff)
    ensures After(Stored(attempts, client), cutoff) == Stored(attempts, client)
    ensures AttemptsOk(attempts[client := Stored(attempts, client)], log, cutoff)
  {
    AfterAfter(AttemptsOf(log, client), cutoff, cutoff);
    forall c: Client ensures Stored(attempts[client := Stored(attempts, client)], c) == Stored(attempts, c) {
    }
  }
}
