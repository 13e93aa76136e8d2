/** The background session sweep mounted by the root layout: it checks the session once at
    mount and then on a fixed interval, clears the stored token when there is no session, and
    signs out and goes to the login page once the session is older than the timeout. */
module SessionManager {
  import opened Seqs
  import AuthGuard

  /** `5 * 60 * 1000`: the age in milliseconds a session may reach. */
  const SessionTimeoutMs: int := 5 * 60 * 1000
  /** `60 * 1000`: the period of the sweep in milliseconds. */
  const CheckIntervalMs: int := 60 * 1000
  const TokenKey := "supabase.auth.token"

  /** A session, reduced to `session.user.user_metadata?.created_at` in milliseconds. */
  datatype Session = Session(createdAt: Option<int>)

  /** The effects one check performs, in the order it performs them. */
  datatype Effect = RemoveStoredItem(key: string) | SignOut | Navigate(path: string)

  /** `createdAt || Date.now()`: a missing or zero creation time falls back to the clock. */
  function CreatedAtOrNow(createdAt: Option<int>, clock: int): (t: int)
    ensures createdAt.Some? && createdAt.value != 0 ==> t == createdAt.value
    ensures createdAt.None? || createdAt.value == 0 ==> t == clock
  {
    if createdAt.Some? && createdAt.value != 0 then createdAt.value else clock
  }

  /** The expiry test: strictly more than the timeout has elapsed. */
  function Expired(createdAt: int, now: int): (b: bool)
    ensures b <==> now > createdAt + SessionTimeoutMs
    ensures b ==> now > createdAt
  {
    now - createdAt > SessionTimeoutMs
  }

  /** One `checkSession` run. `Date.now()` is read twice: `fallbackClock` for the default
      creation time and `now` for the comparison. */
  function CheckSession(session: Option<Session>, fallbackClock: int, now: int): (effects: seq<Effect>)
    ensures session.None? ==> effects == [RemoveStoredItem(TokenKey)]
    ensures session.Some? ==>
              (effects == [SignOut, Navigate(AuthGuard.LoginPath)] <==> Expired(CreatedAtOrNow(session.value.createdAt, fallbackClock), now))
    ensures session.Some? ==>
              (effects == [] <==> !Expired(CreatedAtOrNow(session.value.createdAt, fallbackClock), now))
  {
    if session.None? then [RemoveStoredItem(TokenKey)]
    else if Expired(CreatedAtOrNow(session.value.createdAt, fallbackClock), now) then [SignOut, Navigate(AuthGuard.LoginPath)]
    else []
  }

  /** Sessions of every kind: no session only clears the token; an expired one is signed
      out before the redirect; any other check does nothing. */
  lemma {:induction false} CheckSessionEffects(session: Option<Session>, fallbackClock: int, now: int)
    ensures var effects := CheckSession(session, fallbackClock, now);
            (SignOut in effects <==> Navigate(AuthGuard.LoginPath) in effects) &&
            (session.None? ==> SignOut !in effects) &&
            (forall i, j :: 0 <= i < |effects| && 0 <= j < |effects| && effects[i] == SignOut && effects[j].Navigate? ==> i < j)
  {
    var effects := CheckSession(session, fallbackClock, now);
    if effects == [SignOut, Navigate(AuthGuard.LoginPath)] {
      assert effects[0] == SignOut && effects[1] == Navigate(AuthGuard.LoginPath);
    }
  }

  /** The boundary is strict: exactly the timeout elapsed is not expired, one more millisecond is. */
  lemma ExpiryIsStrict(createdAt: int)
    requires createdAt != 0
    ensures CheckSession(Some(Session(Some(createdAt))), 0, createdAt + SessionTimeoutMs) == []
    ensures CheckSession(Some(Session(Some(createdAt))), 0, createdAt + SessionTimeoutMs + 1) == [SignOut, Navigate(AuthGuard.LoginPath)]
  {
  }

  /** Without a creation time the session is measured from the first clock reading, so it
      expires on no tick unless the clock jumped by more than the timeout between the two reads. */
  lemma MissingCreationTimeNeverExpires(fallbackClock: int, now: int)
    requires now - fallbackClock <= SessionTimeoutMs
    ensures CheckSession(Some(Session(None)), fallbackClock, now) == []
    ensures CheckSession(Some(Session(Some(0))), fallbackClock, now) == []
  {
  }

  /** Six minutes old signs out; four minutes old does nothing. */
  lemma SweepScenarios(now: int)
    requires now - 6 * 60 * 1000 != 0 && now - 4 * 60 * 1000 != 0
    ensures CheckSession(Some(Session(Some(now - 6 * 60 * 1000))), now, now) == [SignOut, Navigate(AuthGuard.LoginPath)]
    ensures CheckSession(Some(Session(Some(now - 4 * 60 * 1000))), now, now) == []
  {
  }

  /** The mounted `SessionManager`: whether its interval is registered, and every effect
      its checks have performed so far. */
  class Monitor {
    var intervalActive: bool
    var effects: seq<Effect>

    constructor ()
      ensures !intervalActive && effects == []
    {
      intervalActive := false;
      effects := [];
    }

    /** The effect body: one immediate check, then the interval is registered. */
    method Start(session: Option<Session>, fallbackClock: int, now: int)
      modifies this
      ensures intervalActive
      ensures effects == old(effects) + CheckSession(session, fallbackClock, now)
    {
      effects := effects + CheckSession(session, fallbackClock, now);
      intervalActive := true;
    }

    /** One firing of the interval; after teardown there is no firing. */
    method Tick(session: Option<Session>, fallbackClock: int, now: int)
      modifies this`effects
      ensures effects == old(effects) + (if intervalActive then CheckSession(session, fallbackClock, now) else [])
    {
      if intervalActive {
        effects := effects + CheckSession(session, fallbackClock, now);
      }
    }

    /** The effect cleanup: `clearInterval`. */
    method Teardown()
      modifies this`intervalActive
      ensures !intervalActive
    {
      intervalActive := false;
    }
  }

  /** The checks at mount and at `k` interval firings happen at these offsets from mount. */
  function TickOffset(k: nat): (offset: int)
    ensures offset >= 0 && offset % CheckIntervalMs == 0
  {
    k * CheckIntervalMs
  }

  /** The mount check is at offset zero, and each firing comes one interval after the
      previous check. */
  lemma TickOffsetStep(k: nat)
    ensures TickOffset(0) == 0
    ensures TickOffset(k + 1) == TickOffset(k) + CheckIntervalMs
  {
  }

  /** An expiry is noticed at most one interval late: for a session created at `createdAt`
      and a sweep mounted at `start`, some check within one period after the expiry moment
      finds the session expired. */
  lemma {:induction false} ExpiryNoticedWithinOneInterval(createdAt: int, start: int, clock: int)
    requires createdAt != 0
    ensures exists k: nat ::
              CheckSession(Some(Session(Some(createdAt))), clock, start + TickOffset(k)) == [SignOut, Navigate(AuthGuard.LoginPath)] &&
              start + TickOffset(k) <= if start > createdAt + SessionTimeoutMs then start
                                        else createdAt + SessionTimeoutMs + CheckIntervalMs
  {
    var deadline := createdAt + SessionTimeoutMs;
    if start > deadline {
      assert CheckSession(Some(Session(Some(createdAt))), clock, start + TickOffset(0)) == [SignOut, Navigate(AuthGuard.LoginPath)];
    } else {
      var k: nat := (deadline - start) / CheckIntervalMs + 1;
      assert (deadline - start) / CheckIntervalMs * CheckIntervalMs <= deadline - start;
      assert start + TickOffset(k) > deadline;
      assert start + TickOffset(k) <= deadline + CheckIntervalMs;
      assert CheckSession(Some(Session(Some(createdAt))), clock, start + TickOffset(k)) == [SignOut, Navigate(AuthGuard.LoginPath)];
    }
  }
}
