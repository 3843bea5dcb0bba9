/**
 The browser client's token refresh: the first caller that needs a token sends the refresh request, and
 those that come while it is under way are queued and called with its outcome. Code between two awaits
 runs without interruption, so each step below is one such stretch.
 */
module SingleFlight {
  import opened Common

  type Caller = nat

  /** Where the refresh of a leading caller is suspended: at the request or at reading its body. */
  datatype Suspended = AtFetch | AtJson

  /** What a caller was given, and by which refresh; an empty text or None stands for failure. */
  datatype Answer =
    | ToLeader(caller: Caller, token: Option<string>, refresh: nat)
    | ToWaiter(caller: Caller, given: string, refresh: nat)

  /** `refreshes` counts the refreshes begun, so it names the one under way. */
  datatype State = State(
    accessToken: Option<string>, isRefreshing: bool, subscribers: seq<Caller>,
    suspended: map<Caller, Suspended>, refreshes: nat, waitsFor: map<Caller, nat>, answers: seq<Answer>)

  datatype Event =
    | Need(caller: Caller)                       // refreshToken is called, or a request is answered with 401
    | Response(leader: Caller, ok: bool)         // the refresh request is answered
    | Body(leader: Caller, token: string)        // its body is read
    | Failed(leader: Caller)                     // the request or the reading fails
    | SetToken(access: Option<string>)           // sign-in or sign-out

  predicate Known(s: State, c: Caller) {
    c in s.waitsFor || c in s.suspended || exists i :: 0 <= i < |s.answers| && s.answers[i].caller == c
  }

  predicate Enabled(s: State, e: Event) {
    match e
    case Need(caller) => !Known(s, caller)
    case Response(leader, _) => leader in s.suspended && s.suspended[leader] == AtFetch
    case Body(leader, _) => leader in s.suspended && s.suspended[leader] == AtJson
    case Failed(leader) => leader in s.suspended
    case SetToken(_) => true
  }

  function Told(subscribers: seq<Caller>, token: string, refresh: nat): seq<Answer> {
    if subscribers == [] then []
    else Told(subscribers[..|subscribers| - 1], token, refresh) + [ToWaiter(subscribers[|subscribers| - 1], token, refresh)]
  }

  /** What a queued caller is called with: the token, or an empty text. */
  function Given(token: Option<string>): string {
    if token.Some? then token.value else ""
  }

  /** The end of a refresh: all queued callers are called, then the leader gets its result. */
  function Ended(s: State, leader: Caller, token: Option<string>): State {
    var refresh := s.refreshes;
    s.(accessToken := token, isRefreshing := false, subscribers := [], suspended := s.suspended - {leader},
       answers := s.answers + Told(s.subscribers, Given(token), refresh) + [ToLeader(leader, token, refresh)])
  }

  function Next(s: State, e: Event): State
    requires Enabled(s, e)
  {
    match e
    case Need(caller) =>
      if s.isRefreshing then s.(subscribers := s.subscribers + [caller], waitsFor := s.waitsFor[caller := s.refreshes])
      else s.(isRefreshing := true, suspended := s.suspended[caller := AtFetch], refreshes := s.refreshes + 1)
    case Response(leader, ok) => if ok then s.(suspended := s.suspended[leader := AtJson]) else Ended(s, leader, None)
    case Body(leader, token) => Ended(s, leader, Some(token))
    case Failed(leader) => Ended(s, leader, None)
    case SetToken(access) => s.(accessToken := access)
  }

  ghost predicate Run(s: State, events: seq<Event>, s': State)
    decreases |events|
  {
    if events == [] then s == s' else Enabled(s, events[0]) && Run(Next(s, events[0]), events[1..], s')
  }

  const START := State(None, false, [], map[], 0, map[], [])

  // ---- the client ----

  /** The three fields of the client; `answers` and the other ghost fields record what callers get. */
  class ApiClient {
    var inMemoryAccessToken: Option<string>
    var isRefreshing: bool
    var refreshSubscribers: seq<Caller>
    ghost var suspended: map<Caller, Suspended>
    ghost var refreshes: nat
    ghost var waitsFor: map<Caller, nat>
    ghost var answers: seq<Answer>

    ghost function Now(): State
      reads this
    {
      State(inMemoryAccessToken, isRefreshing, refreshSubscribers, suspended, refreshes, waitsFor, answers)
    }

    constructor ()
      ensures Now() == START
    {
      inMemoryAccessToken, isRefreshing, refreshSubscribers := None, false, [];
      suspended, refreshes, waitsFor, answers := map[], 0, map[], [];
    }

    method AddRefreshSubscriber(caller: Caller)
      modifies `refreshSubscribers
      ensures refreshSubscribers == old(refreshSubscribers) + [caller]
    {
      refreshSubscribers := refreshSubscribers + [caller];
    }

    /** The queue is emptied before the first caller is called. */
    method OnRefreshed(token: string)
      modifies `refreshSubscribers, `answers
      ensures refreshSubscribers == [] && answers == old(answers) + Told(old(refreshSubscribers), token, refreshes)
    {
      var subscribers := refreshSubscribers;
      refreshSubscribers := [];
      for i := 0 to |subscribers|
        invariant refreshSubscribers == []
        invariant answers == old(answers) + Told(subscribers[..i], token, refreshes)
      {
        assert subscribers[..i + 1][..i] == subscribers[..i];
        answers := answers + [ToWaiter(subscribers[i], token, refreshes)];
      }
      assert subscribers[..|subscribers|] == subscribers;
    }

    /** From the call to its first suspension; true for the caller that sends the request. */
    method RefreshToken(caller: Caller) returns (leads: bool)
      requires Enabled(Now(), Need(caller))
      modifies this
      ensures Now() == Next(old(Now()), Need(caller))
      ensures leads <==> !old(isRefreshing)
    {
      if isRefreshing {
        AddRefreshSubscriber(caller);
        waitsFor := waitsFor[caller := refreshes];
        return false;
      }
      isRefreshing := true;
      suspended, refreshes := suspended[caller := AtFetch], refreshes + 1;
      return true;
    }

    /** After the request: on to the body, or the failure path. */
    method AfterResponse(leader: Caller, ok: bool)
      requires Enabled(Now(), Response(leader, ok))
      modifies this
      ensures Now() == Next(old(Now()), Response(leader, ok))
    {
      if ok {
        suspended := suspended[leader := AtJson];
      } else {
        inMemoryAccessToken := None;
        isRefreshing := false;
        OnRefreshed("");
        suspended, answers := suspended - {leader}, answers + [ToLeader(leader, None, refreshes)];
      }
    }

    /** After the body: here the queue is served before the flag is cleared. */
    method AfterBody(leader: Caller, token: string)
      requires Enabled(Now(), Body(leader, token))
      modifies this
      ensures Now() == Next(old(Now()), Body(leader, token))
    {
      inMemoryAccessToken := Some(token);
      OnRefreshed(token);
      isRefreshing := false;
      suspended, answers := suspended - {leader}, answers + [ToLeader(leader, Some(token), refreshes)];
    }

    /** The catch clause. */
    method AfterError(leader: Caller)
      requires Enabled(Now(), Failed(leader))
      modifies this
      ensures Now() == Next(old(Now()), Failed(leader))
    {
      isRefreshing := false;
      inMemoryAccessToken := None;
      OnRefreshed("");
      suspended, answers := suspended - {leader}, answers + [ToLeader(leader, None, refreshes)];
    }
  }

  // ---- invariants ----

  predicate Answered(s: State, c: Caller) {
    exists i :: 0 <= i < |s.answers| && s.answers[i].caller == c
  }

  ghost predicate Inv(s: State) {
    && (if s.isRefreshing then exists l :: s.suspended.Keys == {l} else s.suspended == map[] && s.subscribers == [])
    && (forall c | c in s.subscribers :: c in s.waitsFor && s.waitsFor[c] == s.refreshes)
    && (forall i, j | 0 <= i < j < |s.subscribers| :: s.subscribers[i] != s.subscribers[j])
    && (forall c | c in s.waitsFor :: (c in s.subscribers) != Answered(s, c))
    && (forall c | c in s.suspended :: c !in s.waitsFor && !Answered(s, c))
    && (forall i, j | 0 <= i < j < |s.answers| :: s.answers[i].caller != s.answers[j].caller)
    && (forall i | 0 <= i < |s.answers| :: AnswerOk(s, i))
  }

  /** A waiter is answered by the refresh it waited for, and the leader of that refresh with the same outcome. */
  ghost predicate AnswerOk(s: State, i: nat)
    requires i < |s.answers|
  {
    s.answers[i].refresh <= s.refreshes
    && (s.answers[i].ToWaiter? ==>
          && s.answers[i].caller in s.waitsFor && s.waitsFor[s.answers[i].caller] == s.answers[i].refresh
          && exists j :: i < j < |s.answers| && s.answers[j].ToLeader? && s.answers[j].refresh == s.answers[i].refresh
                         && s.answers[i].given == Given(s.answers[j].token))
    && (s.answers[i].ToLeader? ==> s.answers[i].caller !in s.waitsFor)
  }

  lemma {:induction false} ToldIs(subscribers: seq<Caller>, token: string, refresh: nat)
    ensures |Told(subscribers, token, refresh)| == |subscribers|
    ensures forall k | 0 <= k < |subscribers| :: Told(subscribers, token, refresh)[k] == ToWaiter(subscribers[k], token, refresh)
  {
    if subscribers != [] { ToldIs(subscribers[..|subscribers| - 1], token, refresh); }
  }

  lemma NeedKeepsInv(s: State, caller: Caller)
    requires Inv(s) && Enabled(s, Need(caller))
    ensures Inv(Next(s, Need(caller)))
  {
    var s' := Next(s, Need(caller));
    forall i | 0 <= i < |s.answers| ensures AnswerOk(s', i) {
      assert AnswerOk(s, i) && s.answers[i].caller != caller;
    }
    if !s.isRefreshing {
      assert s'.suspended.Keys == {caller};
    } else {
      forall c | c in s.subscribers ensures c != caller { assert c in s.waitsFor; }
    }
  }

  /** The answers after a refresh: the earlier ones, one per waiter in order, and the leader's. */
  lemma EndedAnswers(s: State, leader: Caller, token: Option<string>)
    ensures var s', n, m := Ended(s, leader, token), |s.answers|, |s.subscribers|;
      && |s'.answers| == n + m + 1
      && (forall i | 0 <= i < n :: s'.answers[i] == s.answers[i])
      && (forall k | 0 <= k < m :: s'.answers[n + k] == ToWaiter(s.subscribers[k], Given(token), s.refreshes))
      && s'.answers[n + m] == ToLeader(leader, token, s.refreshes)
  {
    ToldIs(s.subscribers, Given(token), s.refreshes);
  }

  lemma EndCallsEachOnce(s: State, leader: Caller, token: Option<string>)
    requires Inv(s) && leader in s.suspended
    ensures var s' := Ended(s, leader, token);
      forall i, j | 0 <= i < j < |s'.answers| :: s'.answers[i].caller != s'.answers[j].caller
  {
    var s', n, m := Ended(s, leader, token), |s.answers|, |s.subscribers|;
    EndedAnswers(s, leader, token);
    forall i, j | 0 <= i < j < |s'.answers| ensures s'.answers[i].caller != s'.answers[j].caller {
      if j < n {
        assert s'.answers[i].caller != s'.answers[j].caller;
      } else if i < n && j == n + m {
        assert s'.answers[i].caller != s'.answers[j].caller;
      } else if i < n {
        assert s'.answers[i] == s.answers[i];
        assert s'.answers[j] == s'.answers[n + (j - n)];
        assert s.subscribers[j - n] in s.subscribers && !Answered(s, s.subscribers[j - n]);
        assert s'.answers[i].caller != s'.answers[j].caller;
      } else if j == n + m {
        assert s'.answers[i] == s'.answers[n + (i - n)];
        assert s.subscribers[i - n] in s.subscribers;
        assert s'.answers[i].caller != s'.answers[j].caller;
      } else {
        assert s'.answers[i] == s'.answers[n + (i - n)] && s'.answers[j] == s'.answers[n + (j - n)];
        assert s'.answers[i].caller != s'.answers[j].caller;
      }
    }
  }

  lemma EndAnswersOk(s: State, leader: Caller, token: Option<string>, i: nat)
    requires Inv(s) && leader in s.suspended && i < |Ended(s, leader, token).answers|
    ensures AnswerOk(Ended(s, leader, token), i)
  {
    var s', n, m := Ended(s, leader, token), |s.answers|, |s.subscribers|;
    EndedAnswers(s, leader, token);
    if i < n {
      assert AnswerOk(s, i);
      if s.answers[i].ToWaiter? {
        var j :| i < j < n && s.answers[j].ToLeader? && s.answers[j].refresh == s.answers[i].refresh
                 && s.answers[i].given == Given(s.answers[j].token);
        assert s'.answers[j] == s.answers[j];
      }
    } else if i < n + m {
      assert s'.answers[i] == s'.answers[n + (i - n)];
      assert s.subscribers[i - n] in s.subscribers;
      assert s'.answers[n + m].ToLeader?;
    }
  }

  lemma EndKeepsAnswers(s: State, leader: Caller, token: Option<string>)
    requires Inv(s) && leader in s.suspended
    ensures var s' := Ended(s, leader, token);
      && (forall i, j | 0 <= i < j < |s'.answers| :: s'.answers[i].caller != s'.answers[j].caller)
      && (forall i | 0 <= i < |s'.answers| :: AnswerOk(s', i))
      && (forall c | c in s.waitsFor :: Answered(s', c))
  {
    var s', n, m := Ended(s, leader, token), |s.answers|, |s.subscribers|;
    EndCallsEachOnce(s, leader, token);
    forall i | 0 <= i < |s'.answers| ensures AnswerOk(s', i) { EndAnswersOk(s, leader, token, i); }
    EndedAnswers(s, leader, token);
    forall c | c in s.waitsFor ensures Answered(s', c) {
      if c in s.subscribers {
        var k :| 0 <= k < m && s.subscribers[k] == c;
        assert s'.answers[n + k].caller == c;
      } else {
        var i :| 0 <= i < n && s.answers[i].caller == c;
        assert s'.answers[i].caller == c;
      }
    }
  }

  lemma EndKeepsInv(s: State, leader: Caller, token: Option<string>)
    requires Inv(s) && leader in s.suspended
    ensures Inv(Ended(s, leader, token))
  {
    EndKeepsAnswers(s, leader, token);
    assert s.isRefreshing;
    assert (s.suspended - {leader}).Keys == {};
  }

  lemma StepKeepsInv(s: State, e: Event)
    requires Inv(s) && Enabled(s, e)
    ensures Inv(Next(s, e))
  {
    match e {
      case Need(caller) => NeedKeepsInv(s, caller);
      case Response(leader, ok) =>
        if ok {
          var s' := Next(s, e);
          assert s'.suspended.Keys == s.suspended.Keys;
          forall i | 0 <= i < |s.answers| ensures AnswerOk(s', i) { assert AnswerOk(s, i); }
        } else {
          EndKeepsInv(s, leader, None);
        }
      case Body(leader, token) => EndKeepsInv(s, leader, Some(token));
      case Failed(leader) => EndKeepsInv(s, leader, None);
      case SetToken(_) =>
        forall i | 0 <= i < |s.answers| ensures AnswerOk(Next(s, e), i) { assert AnswerOk(s, i); }
    }
  }

  lemma {:induction false} RunKeepsInv(s: State, events: seq<Event>, s': State)
    requires Inv(s) && Run(s, events, s')
    ensures Inv(s')
    decreases |events|
  {
    if events != [] {
      StepKeepsInv(s, events[0]);
      RunKeepsInv(Next(s, events[0]), events[1..], s');
    }
  }

  // ---- what callers can rely on ----

  ghost predicate Reachable(s: State) {
    exists events :: Run(START, events, s)
  }

  lemma ReachableInv(s: State)
    requires Reachable(s)
    ensures Inv(s)
  {
    var events :| Run(START, events, s);
    RunKeepsInv(START, events, s);
  }

  /** At every suspension at most one refresh is under way, and none has callers waiting when none is. */
  lemma OneRefreshAtATime(s: State, k: Caller, l: Caller)
    requires Reachable(s)
    ensures k in s.suspended && l in s.suspended ==> k == l
    ensures s.isRefreshing <==> s.suspended != map[]
    ensures s.suspended == map[] ==> s.subscribers == []
  {
    ReachableInv(s);
    if s.isRefreshing {
      var x :| s.suspended.Keys == {x};
      assert x in s.suspended;
    }
  }

  /** No caller is called twice, and a waiter gets the outcome of the very refresh it waited for. */
  lemma CalledOnceWithItsOutcome(s: State, i: nat)
    requires Reachable(s) && i < |s.answers| && s.answers[i].ToWaiter?
    ensures forall j | 0 <= j < |s.answers| && j != i :: s.answers[j].caller != s.answers[i].caller
    ensures s.answers[i].caller in s.waitsFor && s.waitsFor[s.answers[i].caller] == s.answers[i].refresh
    ensures exists j :: i < j < |s.answers| && s.answers[j].ToLeader? && s.answers[j].refresh == s.answers[i].refresh
                        && s.answers[i].given == Given(s.answers[j].token)
  {
    ReachableInv(s);
    assert AnswerOk(s, i);
  }

  /** Whichever way a refresh ends, every caller that was waiting is called in that step, and none waits on. */
  lemma NobodyIsForgotten(s: State, e: Event, c: Caller)
    requires Reachable(s) && Enabled(s, e) && (e.Body? || e.Failed? || (e.Response? && !e.ok)) && c in s.waitsFor
    ensures Answered(Next(s, e), c) && Next(s, e).subscribers == [] && !Next(s, e).isRefreshing
  {
    ReachableInv(s);
    EndKeepsAnswers(s, e.leader, if e.Body? then Some(e.token) else None);
  }

  /**
   After a successful refresh the client holds the new access token, which its leader and every queued
   caller are given; after a failed one it holds none, and they are told so.
   */
  lemma TokenAfterRefresh(s: State, e: Event)
    requires Reachable(s) && Enabled(s, e) && (e.Body? || e.Failed? || (e.Response? && !e.ok))
    ensures var s' := Next(s, e);
      && (e.Body? ==> s'.accessToken == Some(e.token)) && (!e.Body? ==> s'.accessToken.None?)
      && (forall i | |s.answers| <= i < |s'.answers| ::
            match s'.answers[i]
            case ToLeader(caller, token, _) => caller == e.leader && token == s'.accessToken
            case ToWaiter(caller, given, _) => caller in s.subscribers && given == if e.Body? then e.token else "")
  {
    EndedAnswers(s, e.leader, if e.Body? then Some(e.token) else None);
    var s', n := Next(s, e), |s.answers|;
    forall i | n <= i < |s'.answers|
      ensures match s'.answers[i]
              case ToLeader(caller, token, _) => caller == e.leader && token == s'.accessToken
              case ToWaiter(caller, given, _) => caller in s.subscribers && given == if e.Body? then e.token else ""
    {
      if i < n + |s.subscribers| {
        assert s'.answers[i] == s'.answers[n + (i - n)] && s.subscribers[i - n] in s.subscribers;
      }
    }
  }

  /** The token changes only by the end of a refresh, by sign-in and by sign-out. */
  lemma TokenStays(s: State, e: Event)
    requires Enabled(s, e) && (e.Need? || (e.Response? && e.ok))
    ensures Next(s, e).accessToken == s.accessToken && Next(s, e).answers == s.answers
  {
  }
}
