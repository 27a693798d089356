/** The panel's periodic credits sync (`startCreditsSync`): a failure counter that
    a sync with user data resets, every failure kind increments, and that stops the
    sync for good once it reaches three. */
module CreditsSync {
  import opened Js

  const MaxSyncAttempts := 3

  /** The signed-in user as the panel keeps it; `credits` is `None` when absent. */
  datatype User = User(credits: Option<int>, email: Option<string>, name: Option<string>)

  /** What one `/api/auth/me` request gave: an ok reply with or without a `user`, a
      reply with an error status, or a thrown error. */
  datatype Reply = Ok(user: Option<User>) | HttpError(status: int) | Thrown(message: string)

  /** `credits || 0`. */
  function CreditsOf(u: User): int {
    if u.credits.Some? then u.credits.value else 0
  }

  /** The sync's state: the counter, whether the interval still runs, and the user. */
  datatype SyncState = SyncState(attempts: nat, active: bool, user: Option<User>)

  /** One sync's effect: the new state, whether it requested the user, whether it saved
      the user to storage, and whether it asked for a new sign-in check. */
  datatype Step = Step(state: SyncState, fetched: bool, saved: bool, reauth: bool)

  /** The user after an ok reply with user data: unchanged when the credits agree, else
      the new credits with email and name taken from the reply when truthy. */
  function Merge(current: User, reported: User): User {
    if CreditsOf(reported) == CreditsOf(current) then current
    else User(Some(CreditsOf(reported)), Or(reported.email, current.email), Or(reported.name, current.name))
  }

  /** One call of `syncCredits`; `reply` is used only when a request is made. */
  function Sync(s: SyncState, reply: Reply): (t: Step)
    ensures t.fetched <==> s.user.Some? && s.attempts < MaxSyncAttempts
    ensures s.attempts <= MaxSyncAttempts ==> t.state.attempts <= MaxSyncAttempts
    ensures t.saved || t.reauth ==> t.fetched
    ensures t.state.user.Some? <==> s.user.Some?
  {
    if s.user.None? then Step(s, false, false, false)
    else if s.attempts >= MaxSyncAttempts then Step(s.(active := false), false, false, false)
    else match reply
      case Ok(Some(reported)) =>
        var merged := Merge(s.user.value, reported);
        Step(s.(attempts := 0, user := Some(merged)), true, CreditsOf(reported) != CreditsOf(s.user.value), false)
      case Ok(None) => Step(s.(attempts := s.attempts + 1), true, false, false)
      case HttpError(status) => Step(s.(attempts := s.attempts + 1), true, false, status == 401 || status == 403)
      case Thrown(_) => Step(s.(attempts := s.attempts + 1), true, false, false)
  }

  /** A request that returns user data resets the counter, and the user then holds the
      returned credits; email and name change only together with the credits. */
  lemma SuccessResets(s: SyncState, reported: User)
    requires s.user.Some? && s.attempts < MaxSyncAttempts
    ensures var t := Sync(s, Ok(Some(reported)));
      t.fetched && t.state.attempts == 0 && t.state.user.Some?
      && CreditsOf(t.state.user.value) == CreditsOf(reported)
    ensures var t := Sync(s, Ok(Some(reported)));
      t.saved <==> t.state.user != s.user
    ensures CreditsOf(reported) == CreditsOf(s.user.value) ==> Sync(s, Ok(Some(reported))).state == s.(attempts := 0)
  {
  }

  /** Every failure kind adds one to the counter and leaves the user alone; only 401 and
      403 ask for a new sign-in check. */
  lemma FailuresCount(s: SyncState, reply: Reply)
    requires s.user.Some? && s.attempts < MaxSyncAttempts
    requires !(reply.Ok? && reply.user.Some?)
    ensures var t := Sync(s, reply);
      t.fetched && t.state.attempts == s.attempts + 1 && t.state.user == s.user && !t.saved
    ensures Sync(s, reply).reauth <==> reply == HttpError(401) || reply == HttpError(403)
  {
  }

  /** With three failures behind it the sync requests nothing, stops its interval and
      changes nothing else, whatever the reply would have been. */
  lemma StopsAtMax(s: SyncState, reply: Reply)
    requires s.user.Some? && s.attempts >= MaxSyncAttempts
    ensures var t := Sync(s, reply);
      !t.fetched && !t.state.active && t.state.attempts == s.attempts && t.state.user == s.user
  {
  }

  /** A series of syncs, one reply per call. */
  function SyncAll(s: SyncState, replies: seq<Reply>): SyncState
    decreases |replies|
  {
    if replies == [] then s
    else SyncAll(Sync(s, replies[0]).state, replies[1..])
  }

  /** How many of the calls made a request. */
  function Requests(s: SyncState, replies: seq<Reply>): nat
    decreases |replies|
  {
    if replies == [] then 0
    else (if Sync(s, replies[0]).fetched then 1 else 0) + Requests(Sync(s, replies[0]).state, replies[1..])
  }

  /** The counter never passes three. */
  lemma {:induction false} AttemptsBounded(s: SyncState, replies: seq<Reply>)
    requires s.attempts <= MaxSyncAttempts
    ensures SyncAll(s, replies).attempts <= MaxSyncAttempts
    decreases |replies|
  {
    if replies != [] {
      AttemptsBounded(Sync(s, replies[0]).state, replies[1..]);
    }
  }

  /** Once the counter is at three no later call makes a request and the counter stays,
      so the sync is off for good; the interval is stopped by the first call with a user. */
  lemma {:induction false} StoppedForGood(s: SyncState, replies: seq<Reply>)
    requires s.attempts >= MaxSyncAttempts
    ensures Requests(s, replies) == 0
    ensures SyncAll(s, replies).attempts == s.attempts
    ensures SyncAll(s, replies).user == s.user
    ensures s.user.Some? && replies != [] ==> !SyncAll(s, replies).active
    decreases |replies|
  {
    if replies != [] {
      var t := Sync(s, replies[0]).state;
      StoppedForGood(t, replies[1..]);
      if s.user.Some? && |replies| > 1 {
        StaysInactive(t, replies[1..]);
      }
    }
  }

  /** A stopped interval is never restarted. */
  lemma {:induction false} StaysInactive(s: SyncState, replies: seq<Reply>)
    requires !s.active
    ensures !SyncAll(s, replies).active
    decreases |replies|
  {
    if replies != [] {
      StaysInactive(Sync(s, replies[0]).state, replies[1..]);
    }
  }

  /** Three failed calls in a row switch the sync off. */
  lemma {:induction false} ThreeFailuresStop(s: SyncState, replies: seq<Reply>)
    requires s.user.Some? && s.attempts == 0 && |replies| == 3
    requires forall k :: 0 <= k < 3 ==> !(replies[k].Ok? && replies[k].user.Some?)
    ensures SyncAll(s, replies).attempts == MaxSyncAttempts
    ensures forall more :: Requests(SyncAll(s, replies), more) == 0
  {
    var s1 := Sync(s, replies[0]).state;
    var s2 := Sync(s1, replies[1]).state;
    var s3 := Sync(s2, replies[2]).state;
    assert replies[1..][0] == replies[1];
    assert replies[1..][1..] == [replies[2]];
    assert [replies[2]][1..] == [];
    assert SyncAll(s2, [replies[2]]) == s3;
    assert SyncAll(s1, replies[1..]) == SyncAll(s2, [replies[2]]);
    assert SyncAll(s, replies) == s3;
    forall more: seq<Reply> ensures Requests(s3, more) == 0 {
      StoppedForGood(s3, more);
    }
  }

  /** The sync object of the panel: the counter and interval it owns, and the module's
      `currentUser` it updates. */
  class CreditsSyncer {
    var attempts: nat
    var active: bool
    var user: Option<User>

    /** `startCreditsSync`: the counter starts at zero and the interval runs. */
    constructor Start(user: Option<User>)
      ensures attempts == 0 && active && this.user == user
    {
      attempts := 0;
      active := true;
      this.user := user;
    }

    function State(): SyncState
      reads this
    {
      SyncState(attempts, active, user)
    }

    /** `syncCredits`; `reply` stands for the request's outcome when one is made. */
    method SyncCredits(reply: Reply) returns (fetched: bool, saved: bool, reauth: bool)
      modifies this
      ensures State() == Sync(old(State()), reply).state
      ensures fetched == Sync(old(State()), reply).fetched
      ensures saved == Sync(old(State()), reply).saved
      ensures reauth == Sync(old(State()), reply).reauth
    {
      fetched, saved, reauth := false, false, false;
      if user.None? {
        return;
      }
      if attempts >= MaxSyncAttempts {
        active := false;
        return;
      }
      fetched := true;
      match reply {
        case Ok(Some(reported)) =>
          attempts := 0;
          var current := user.value;
          var newCredits := CreditsOf(reported);
          if newCredits != CreditsOf(current) {
            user := Some(User(Some(newCredits), Or(reported.email, current.email), Or(reported.name, current.name)));
            saved := true;
          }
        case Ok(None) =>
          attempts := attempts + 1;
        case HttpError(status) =>
          attempts := attempts + 1;
          reauth := status == 401 || status == 403;
        case Thrown(_) =>
          attempts := attempts + 1;
      }
    }
  }
}
