/** Logins over whole sequences of calls: who is let in, who is limited, and which sessions live. */
module LoginRuns {
  import opened LoginLimiter
  import opened Wrappers
  import Collections

  datatype Call = TriesLogin(client: Client, candidate: string, now: Time, random: Option<SessionId>) | LogsOut(id: SessionId)

  function CallEffect(log: History, token: string, call: Call): History {
    match call
    case TriesLogin(client, candidate, now, random) => Recorded(log, client, now, Answer(log, token, client, candidate, now, random))
    case LogsOut(id) => log + [LoggedOut(id)]
  }

  /** The log a manager has after these calls. */
  function LogAfter(token: string, calls: seq<Call>): History {
    if calls == [] then [] else CallEffect(LogAfter(token, calls[..|calls| - 1]), token, calls[|calls| - 1])
  }

  /** What call `j` was answered. */
  function AnswerTo(token: string, calls: seq<Call>, j: nat): Login
    requires j < |calls| && calls[j].TriesLogin?
  {
    Answer(LogAfter(token, calls[..j]), token, calls[j].client, calls[j].candidate, calls[j].now, calls[j].random)
  }

  predicate Failed(token: string, calls: seq<Call>, i: nat, client: Client) {
    i < |calls| && calls[i].TriesLogin? && calls[i].client == client && AnswerTo(token, calls, i).InvalidCredentials?
  }

  /** The right token was given, whether or not a session could be made. */
  predicate Passed(token: string, calls: seq<Call>, i: nat, client: Client) {
    i < |calls| && calls[i].TriesLogin? && calls[i].client == client
    && (AnswerTo(token, calls, i).LoggedIn? || AnswerTo(token, calls, i).NoRandom?)
  }

  /** Call `i` is a wrong guess of `client` after `cutoff`, and no later one gave the right token. */
  predicate StillCounts(token: string, calls: seq<Call>, i: nat, client: Client, cutoff: Time) {
    Failed(token, calls, i, client) && cutoff < calls[i].now && forall k: nat | i < k < |calls| :: !Passed(token, calls, k, client)
  }

  function Failures(token: string, calls: seq<Call>, client: Client, cutoff: Time): set<nat> {
    set i: nat | i < |calls| && StillCounts(token, calls, i, client, cutoff)
  }

  lemma Earlier(token: string, calls: seq<Call>, n: nat, i: nat, client: Client)
    requires i < n <= |calls|
    ensures Failed(token, calls[..n], i, client) <==> Failed(token, calls, i, client)
    ensures Passed(token, calls[..n], i, client) <==> Passed(token, calls, i, client)
  {
    assert calls[..n][..i] == calls[..i];
  }

  lemma CountsStep(token: string, calls: seq<Call>, i: nat, client: Client, cutoff: Time)
    requires i < |calls| - 1
    ensures var n := |calls| - 1;
            StillCounts(token, calls, i, client, cutoff) <==>
            StillCounts(token, calls[..n], i, client, cutoff) && !Passed(token, calls, n, client)
  {
    hide AnswerTo;
    var n := |calls| - 1;
    Earlier(token, calls, n, i, client);
    forall k: nat | i < k < n ensures Passed(token, calls[..n], k, client) <==> Passed(token, calls, k, client) {
      Earlier(token, calls, n, k, client);
    }
  }

  lemma FailuresStep(token: string, calls: seq<Call>, client: Client, cutoff: Time)
    requires calls != []
    ensures var n := |calls| - 1;
            Failures(token, calls, client, cutoff) ==
              if Passed(token, calls, n, client) then {}
              else if Failed(token, calls, n, client) && cutoff < calls[n].now then Failures(token, calls[..n], client, cutoff) + {n}
              else Failures(token, calls[..n], client, cutoff)
  {
    var n := |calls| - 1;
    NotBoth(token, calls, n, client);
    assert StillCounts(token, calls, n, client, cutoff) <==> Failed(token, calls, n, client) && cutoff < calls[n].now;
    hide StillCounts, Passed, Failed;
    forall i: nat | i < n
      ensures StillCounts(token, calls, i, client, cutoff) <==>
              StillCounts(token, calls[..n], i, client, cutoff) && !Passed(token, calls, n, client)
    {
      CountsStep(token, calls, i, client, cutoff);
    }
  }

  lemma NotBoth(token: string, calls: seq<Call>, i: nat, client: Client)
    ensures !(Failed(token, calls, i, client) && Passed(token, calls, i, client))
  {
  }

  lemma LogStep(token: string, calls: seq<Call>)
    requires calls != []
    ensures LogAfter(token, calls) == CallEffect(LogAfter(token, calls[..|calls| - 1]), token, calls[|calls| - 1])
  {
  }

  /** What one call does to the count of recorded attempts. */
  lemma CallCounts(log: History, token: string, call: Call, c: Client, cut: Time)
    ensures |Recent(CallEffect(log, token, call), c, cut)| ==
            if call.LogsOut? || call.client != c then |Recent(log, c, cut)|
            else
              match Answer(log, token, call.client, call.candidate, call.now, call.random)
              case RateLimited => |Recent(log, c, cut)|
              case InvalidCredentials => if cut < call.now then |Recent(log, c, cut)| + 1 else |Recent(log, c, cut)|
              case _ => 0
  {
    hide Recent;
    if call.LogsOut? {
      OneEvent(log, LoggedOut(call.id), c, cut, "");
    } else {
      var client, now := call.client, call.now;
      var answer := Answer(log, token, client, call.candidate, now, call.random);
      var attempted := log + [Attempt(client, now)];
      OneEvent(log, Attempt(client, now), c, cut, "");
      OneEvent(attempted, Success(client), c, cut, "");
      if answer.LoggedIn? {
        OneEvent(attempted + [Success(client)], Issued(answer.id, now), c, cut, "");
      }
    }
  }

  /** The attempts on record are the wrong guesses. */
  lemma {:induction false} RecentIsFailures(token: string, calls: seq<Call>, c: Client, cut: Time)
    ensures |Recent(LogAfter(token, calls), c, cut)| == |Failures(token, calls, c, cut)|
  {
    if calls == [] {
      assert Recent([], c, cut) == {};
    } else {
      hide Recent, Failures, CallEffect, Answer;
      var n := |calls| - 1;
      RecentIsFailures(token, calls[..n], c, cut);
      LogStep(token, calls);
      CallCounts(LogAfter(token, calls[..n]), token, calls[n], c, cut);
      FailuresStep(token, calls, c, cut);
      NotYet(token, calls[..n], c, cut);
    }
  }

  lemma NotYet(token: string, calls: seq<Call>, c: Client, cut: Time)
    ensures |calls| !in Failures(token, calls, c, cut)
  {
  }

  /**
    A call is refused for its rate iff its client has made five wrong guesses in the last minute since
    it last gave the right token; a login succeeds iff it is not refused, its token is right, and
    random bytes are at hand; a wrong token that is not refused is told so.
  */
  lemma AnsweredIff(token: string, calls: seq<Call>, j: nat)
    requires j < |calls| && calls[j].TriesLogin?
    ensures var failures := Failures(token, calls[..j], calls[j].client, calls[j].now - MINUTE);
            && (AnswerTo(token, calls, j).RateLimited? <==> |failures| >= MAX_ATTEMPTS)
            && (AnswerTo(token, calls, j).LoggedIn? <==> |failures| < MAX_ATTEMPTS && calls[j].candidate == token && calls[j].random.Some?)
            && (AnswerTo(token, calls, j).InvalidCredentials? <==> |failures| < MAX_ATTEMPTS && calls[j].candidate != token)
  {
    RecentIsFailures(token, calls[..j], calls[j].client, calls[j].now - MINUTE);
    AnswerIs(LogAfter(token, calls[..j]), token, calls[j].client, calls[j].candidate, calls[j].now, calls[j].random);
    hide Answer, Failures, Recent, LogAfter;
  }

  /**
    Five calls with a wrong token within a minute, with no right token of the same client since the
    first, make the next call refused, also if its token is right.
  */
  lemma SixthIsLimited(token: string, calls: seq<Call>, j: nat, five: set<nat>)
    requires j < |calls| && calls[j].TriesLogin? && |five| == MAX_ATTEMPTS
    requires forall i | i in five :: i < j && Failed(token, calls, i, calls[j].client) && calls[j].now - MINUTE < calls[i].now
    requires forall i, k | i in five && i < k < j :: !Passed(token, calls, k, calls[j].client)
    ensures AnswerTo(token, calls, j) == RateLimited
  {
    var client := calls[j].client;
    AnsweredIff(token, calls, j);
    hide Passed, AnswerTo;
    forall i | i in five ensures i in Failures(token, calls[..j], client, calls[j].now - MINUTE) {
      Earlier(token, calls, j, i, client);
      forall k | i < k < j ensures !Passed(token, calls[..j], k, client) {
        Earlier(token, calls, j, k, client);
      }
    }
    Collections.SubsetIsSmaller(five, Failures(token, calls[..j], client, calls[j].now - MINUTE));
  }

  // ---- sessions --------------------------------------------------------------------------------

  /** Call `i` made session `id`. */
  predicate Made(token: string, calls: seq<Call>, i: nat, id: SessionId) {
    i < |calls| && calls[i].TriesLogin? && AnswerTo(token, calls, i).LoggedIn? && AnswerTo(token, calls, i).id == id
  }

  /** A call made the session less than twelve hours before `t`, and no later one made it again or ended it. */
  ghost predicate Lasts(token: string, calls: seq<Call>, id: SessionId, t: Time) {
    exists i: nat :: Made(token, calls, i, id) && t < calls[i].now + SESSION_DURATION
                     && forall k: nat | i < k < |calls| :: calls[k] != LogsOut(id) && !Made(token, calls, k, id)
  }

  lemma MadeEarlier(token: string, calls: seq<Call>, n: nat, i: nat, id: SessionId)
    requires i < n <= |calls|
    ensures Made(token, calls[..n], i, id) <==> Made(token, calls, i, id)
  {
    assert calls[..n][..i] == calls[..i];
  }

  lemma LastsStep(token: string, calls: seq<Call>, id: SessionId, t: Time)
    requires calls != []
    ensures var n := |calls| - 1;
            Lasts(token, calls, id, t) <==>
              if Made(token, calls, n, id) then t < calls[n].now + SESSION_DURATION
              else calls[n] != LogsOut(id) && Lasts(token, calls[..n], id, t)
  {
    hide AnswerTo;
    var n := |calls| - 1;
    var before := calls[..n];
    forall i: nat | i < n ensures Made(token, before, i, id) <==> Made(token, calls, i, id) {
      MadeEarlier(token, calls, n, i, id);
    }
    if Lasts(token, before, id, t) && !Made(token, calls, n, id) && calls[n] != LogsOut(id) {
      var i: nat :| Made(token, before, i, id) && t < before[i].now + SESSION_DURATION
                    && forall k: nat | i < k < n :: before[k] != LogsOut(id) && !Made(token, before, k, id);
      assert Made(token, calls, i, id) && t < calls[i].now + SESSION_DURATION;
    }
    if Lasts(token, calls, id, t) && !Made(token, calls, n, id) {
      var i: nat :| Made(token, calls, i, id) && t < calls[i].now + SESSION_DURATION
                    && forall k: nat | i < k < |calls| :: calls[k] != LogsOut(id) && !Made(token, calls, k, id);
      assert Made(token, before, i, id) && t < before[i].now + SESSION_DURATION;
    }
  }

  lemma CallSessions(log: History, token: string, call: Call, id: SessionId, t: Time)
    ensures Live(CallEffect(log, token, call), id, t) <==>
            if call.LogsOut? then id != call.id && Live(log, id, t)
            else
              var answer := Answer(log, token, call.client, call.candidate, call.now, call.random);
              if answer.LoggedIn? && answer.id == id then t < call.now + SESSION_DURATION else Live(log, id, t)
  {
    hide Live, Answer;
    if call.LogsOut? {
      OneEvent(log, LoggedOut(call.id), "", 0, id);
    } else {
      RecordedEffects(log, call.client, call.now, Answer(log, token, call.client, call.candidate, call.now, call.random));
    }
  }

  /** A session lives iff a login made it less than twelve hours ago and it has not been logged out since. */
  lemma {:induction false} SessionIff(token: string, calls: seq<Call>, id: SessionId, t: Time)
    ensures Live(LogAfter(token, calls), id, t) <==> Lasts(token, calls, id, t)
  {
    if calls != [] {
      hide Live, Lasts, CallEffect, Answer;
      var n := |calls| - 1;
      SessionIff(token, calls[..n], id, t);
      LogStep(token, calls);
      LastsStep(token, calls, id, t);
      CallSessions(LogAfter(token, calls[..n]), token, calls[n], id, t);
    } else {
      hide LogAfter;
      NoSession(token, id, t);
    }
  }

  lemma NoSession(token: string, id: SessionId, t: Time)
    ensures !Live(LogAfter(token, []), id, t) && !Lasts(token, [], id, t)
  {
  }
}
