/** Whole runs of reconciles under token renewal: the stored token never lapses, and the interval does not drift. */
module TokenLiveness {
  import opened Wrappers
  import opened Time
  import opened Cluster
  import opened TokenRenewal

  /** What a run carries from one reconcile to the next; `expiry` is that of the token last stored, when known. */
  datatype Renewal = Renewal(opt: RenewalOption, recorded: Timestamp, created: int, expiry: Option<int>)

  /** A reconcile: when it checks whether a renewal is due, the contexts it then tries, and when it ends. */
  datatype Reconcile = Reconcile(check: int, tried: seq<Context>, end: int)

  predicate Due(s: Renewal, r: Reconcile) {
    ShouldRenewTokenRequest(Some(s.opt), s.recorded, s.created, r.check)
  }

  function Step(s: Renewal, r: Reconcile): Renewal {
    if !Due(s, r) then s
    else
      var stored := Stored(r.tried);
      Renewal(AdjustedBy(s.opt, r.tried), LastRecorded(stored, s.recorded), s.created, LastExpiry(stored, s.expiry))
  }

  function LastExpiry(stored: seq<Context>, expiry: Option<int>): Option<int>
    requires forall c :: c in stored ==> c.attempt.Issued?
  {
    if stored == [] then expiry else stored[|stored| - 1].attempt.token.expiry
  }

  function Run(s: Renewal, reconciles: seq<Reconcile>): Renewal {
    if reconciles == [] then s
    else Step(Run(s, reconciles[..|reconciles| - 1]), reconciles[|reconciles| - 1])
  }

  /**
   * Bounds on the timing: at most `gap` between two checks, at most `lag` from a check to the end of
   * its reconcile, at most `delay` from measuring a token to recording the renewal.
   */
  datatype Pace = Pace(gap: int, lag: int, delay: int)

  /** The pace fits a margin of d, itself at most the ten minutes renewals are brought forward by. */
  ghost predicate SafePace(pace: Pace, d: int) {
    pace.delay >= 0 && pace.gap + pace.lag + pace.delay < d <= RENEWAL_MARGIN
  }

  /** Every issued token can be read and has more than ten minutes left when it is measured. */
  ghost predicate LongLived(tried: seq<Context>) {
    forall c :: c in tried && c.attempt.Issued? ==>
      c.attempt.token.expiry.Some? && c.attempt.token.expiry.value - c.attempt.token.measuredAt > RENEWAL_MARGIN
  }

  /** A renewal that succeeds: the last context tried yields a token that is stored, on time. */
  ghost predicate Succeeds(pace: Pace, r: Reconcile) {
    && r.tried != []
    && LongLived(r.tried)
    && var a := r.tried[|r.tried| - 1].attempt;
       && a.Issued? && a.stored
       && r.check <= a.token.measuredAt <= a.recordedAt <= a.token.measuredAt + pace.delay
       && a.recordedAt <= r.end
  }

  ghost predicate Timely(pace: Pace, r: Reconcile) {
    r.check <= r.end <= r.check + pace.lag
  }

  /** Renewal options for which an honoured token outlives the threshold of its renewal by at least d. */
  ghost predicate Covering(opt: RenewalOption, d: int) {
    || opt.tokenDuration == 0
    || WholeSeconds(opt.tokenDuration) * SECOND - TOLERANCE >= RenewalThreshold(opt.renewTokenRequestInterval) + d
  }

  /** After a reconcile that checked at `check`, the next due renewal still ends before the token expires. */
  ghost predicate Alive(pace: Pace, d: int, s: Renewal, check: int) {
    && Covering(s.opt, d)
    && s.recorded.At? && s.expiry.Some?
    && s.recorded.seconds * SECOND + RenewalThreshold(s.opt.renewTokenRequestInterval) + pace.gap + pace.lag
         < s.expiry.value
    && check + pace.gap + pace.lag < s.expiry.value
  }

  lemma {:induction false} AdjustedStaysCovering(opt: RenewalOption, tried: seq<Context>, d: int)
    requires Covering(opt, d) && LongLived(tried) && d <= RENEWAL_MARGIN
    ensures Covering(AdjustedBy(opt, tried), d)
  {
    if tried != [] {
      var n := |tried| - 1;
      assert forall c :: c in tried[..n] ==> c in tried;
      assert tried[n] in tried;
      AdjustedStaysCovering(opt, tried[..n], d);
    }
  }

  /** A TokenDuration of at least an interval above ten minutes covers a margin of 595 seconds. */
  lemma DurationAboveIntervalCovers(opt: RenewalOption)
    requires opt.renewTokenRequestInterval > RENEWAL_MARGIN
    requires opt.tokenDuration == 0 || opt.tokenDuration >= opt.renewTokenRequestInterval
    ensures Covering(opt, 595 * SECOND)
  {
  }

  /**
   * One token: whether honoured or shortened, the interval it leaves is due at least d before it expires; with
   * the half-hour pad of an unset TokenDuration an honoured token leaves nearly forty minutes.
   */
  lemma ThresholdBeforeExpiry(opt: RenewalOption, token: Token, d: int)
    requires Covering(opt, d) && d <= RENEWAL_MARGIN
    requires token.expiry.Some? && token.expiry.value - token.measuredAt > RENEWAL_MARGIN
    ensures token.measuredAt + RenewalThreshold(Adjusted(opt, token).renewTokenRequestInterval) + d
              <= token.expiry.value
    ensures opt.tokenDuration == 0 && opt.renewTokenRequestInterval > RENEWAL_MARGIN
            && token.expiry.value - token.measuredAt >= EffectiveTokenSeconds(opt) * SECOND - TOLERANCE ==>
              token.measuredAt + RenewalThreshold(Adjusted(opt, token).renewTokenRequestInterval) + 2395 * SECOND
                <= token.expiry.value
  {
  }

  lemma RenewalIsAlive(pace: Pace, d: int, s: Renewal, r: Reconcile)
    requires SafePace(pace, d) && Covering(s.opt, d)
    requires Due(s, r) && Succeeds(pace, r)
    ensures Alive(pace, d, Step(s, r), r.check)
  {
    var n := |r.tried| - 1;
    var a := r.tried[n].attempt;
    assert r.tried[n] in r.tried;
    assert Stored(r.tried) == Stored(r.tried[..n]) + [r.tried[n]];
    assert LongLived(r.tried[..n]) by { assert forall c :: c in r.tried[..n] ==> c in r.tried; }
    AdjustedStaysCovering(s.opt, r.tried[..n], d);
    AdjustedStaysCovering(s.opt, r.tried, d);
    ThresholdBeforeExpiry(AdjustedBy(s.opt, r.tried[..n]), a.token, d);
  }

  /** A run: the first reconcile renews, every due renewal succeeds, and the pace is kept. */
  ghost predicate Paced(pace: Pace, s: Renewal, reconciles: seq<Reconcile>) {
    var n := |reconciles| - 1;
    n >= 0 ==>
      && Paced(pace, s, reconciles[..n])
      && Timely(pace, reconciles[n])
      && (Due(Run(s, reconciles[..n]), reconciles[n]) ==> Succeeds(pace, reconciles[n]))
      && (if n == 0 then Due(s, reconciles[0])
          else reconciles[n - 1].end <= reconciles[n].check <= reconciles[n - 1].check + pace.gap)
  }

  lemma {:induction false} RunIsAlive(pace: Pace, d: int, s: Renewal, reconciles: seq<Reconcile>)
    requires SafePace(pace, d) && Covering(s.opt, d)
    requires reconciles != [] && Paced(pace, s, reconciles)
    ensures Alive(pace, d, Run(s, reconciles), reconciles[|reconciles| - 1].check)
  {
    var n := |reconciles| - 1;
    var before := Run(s, reconciles[..n]);
    if n > 0 {
      RunIsAlive(pace, d, s, reconciles[..n]);
    } else {
      assert before == s;
    }
    if Due(before, reconciles[n]) {
      RenewalIsAlive(pace, d, before, reconciles[n]);
    }
  }

  /** The token last stored can be read, and has not expired. */
  ghost predicate LiveAt(expiry: Option<int>, t: int) {
    expiry.Some? && t < expiry.value
  }

  /**
   * A live token at every instant: from the end of the first renewal on, at every instant up to the end
   * of the last reconcile the token then stored has not expired, whichever mix of honoured and
   * shortened lifetimes the server returned, as long as the pace fits the margin the options cover.
   */
  lemma TokenIsAlwaysLive(pace: Pace, d: int, s: Renewal, reconciles: seq<Reconcile>, k: nat, t: int)
    requires SafePace(pace, d) && Covering(s.opt, d)
    requires 0 < k < |reconciles| && Paced(pace, s, reconciles)
    requires reconciles[k - 1].end <= t <= reconciles[k].end
    ensures LiveAt(Run(s, reconciles[..k]).expiry, t)
  {
    PacedPrefix(pace, s, reconciles, k + 1);
    var prefix := reconciles[..k + 1];
    assert prefix[..k] == reconciles[..k];
    RunIsAlive(pace, d, s, reconciles[..k]);
  }

  /**
   * The case the fields are documented for: an interval above ten minutes, with TokenDuration unset or no
   * shorter than it, covers every pace of less than 595 seconds.
   */
  lemma DurationAboveIntervalIsLive(pace: Pace, s: Renewal, reconciles: seq<Reconcile>, k: nat, t: int)
    requires s.opt.renewTokenRequestInterval > RENEWAL_MARGIN
    requires s.opt.tokenDuration == 0 || s.opt.tokenDuration >= s.opt.renewTokenRequestInterval
    requires SafePace(pace, 595 * SECOND)
    requires 0 < k < |reconciles| && Paced(pace, s, reconciles)
    requires reconciles[k - 1].end <= t <= reconciles[k].end
    ensures LiveAt(Run(s, reconciles[..k]).expiry, t)
  {
    DurationAboveIntervalCovers(s.opt);
    TokenIsAlwaysLive(pace, 595 * SECOND, s, reconciles, k, t);
  }

  lemma {:induction false} PacedPrefix(pace: Pace, s: Renewal, reconciles: seq<Reconcile>, k: nat)
    requires k <= |reconciles| && Paced(pace, s, reconciles)
    ensures Paced(pace, s, reconciles[..k])
  {
    if k < |reconciles| {
      var n := |reconciles| - 1;
      PacedPrefix(pace, s, reconciles[..n], k);
      assert reconciles[..n][..k] == reconciles[..k];
    } else {
      assert reconciles[..k] == reconciles;
    }
  }

  /** By instant `last`, some check finds the renewal of this option due. */
  ghost predicate DueBy(opt: RenewalOption, recordedAt: int, created: int, last: int) {
    exists now :: now <= last && ShouldRenewTokenRequest(Some(opt), Format(recordedAt), created, now)
  }

  lemma DueByExactly(opt: RenewalOption, recordedAt: int, created: int, last: int)
    ensures DueBy(opt, recordedAt, created, last) <==>
              recordedAt / SECOND * SECOND + RenewalThreshold(opt.renewTokenRequestInterval) < last
  {
    var atLast := ShouldRenewTokenRequest(Some(opt), Format(recordedAt), created, last);
    assert forall now | now <= last ::
        ShouldRenewTokenRequest(Some(opt), Format(recordedAt), created, now) ==> atLast;
  }

  /**
   * What the condition on TokenDuration is for: a token that is honoured, however late it was measured and
   * recorded, keeps the interval, and its renewal comes due by its expiry exactly when the whole second it was
   * recorded in lies more than the threshold before that. A duration requested a second or more below the
   * threshold therefore lets every honoured token lapse, whatever the pace of reconciles.
   */
  lemma DueBeforeExpiryExactlyWhenLongEnough(opt: RenewalOption, created: int, token: Token, recordedAt: int)
    requires token.expiry.Some?
    requires token.expiry.value - token.measuredAt >= EffectiveTokenSeconds(opt) * SECOND - TOLERANCE
    ensures Adjusted(opt, token) == opt
    ensures DueBy(Adjusted(opt, token), recordedAt, created, token.expiry.value) <==>
              recordedAt / SECOND * SECOND + RenewalThreshold(opt.renewTokenRequestInterval) < token.expiry.value
    ensures (EffectiveTokenSeconds(opt) + 1) * SECOND <= RenewalThreshold(opt.renewTokenRequestInterval)
            && token.expiry.value <= recordedAt + EffectiveTokenSeconds(opt) * SECOND ==>
              !DueBy(Adjusted(opt, token), recordedAt, created, token.expiry.value)
  {
    DueByExactly(Adjusted(opt, token), recordedAt, created, token.expiry.value);
  }

  /**
   * What the ten minutes of LongLived are for: a shortened token recorded less than 598 seconds after it was
   * measured comes due for renewal two seconds before its expiry, or earlier, exactly when it had more than ten
   * minutes left. With ten minutes or less left, that holds however late it was recorded.
   */
  lemma ShortenedTokenDueInTimeExactly(opt: RenewalOption, created: int, token: Token, recordedAt: int)
    requires token.expiry.Some?
    requires token.expiry.value - token.measuredAt < EffectiveTokenSeconds(opt) * SECOND - TOLERANCE
    requires token.measuredAt <= recordedAt
    ensures recordedAt < token.measuredAt + 598 * SECOND ==>
              (DueBy(Adjusted(opt, token), recordedAt, created, token.expiry.value - 2 * SECOND) <==>
                 token.expiry.value - token.measuredAt > RENEWAL_MARGIN)
    ensures token.expiry.value - token.measuredAt <= RENEWAL_MARGIN ==>
              !DueBy(Adjusted(opt, token), recordedAt, created, token.expiry.value - 2 * SECOND)
  {
    DueByExactly(Adjusted(opt, token), recordedAt, created, token.expiry.value - 2 * SECOND);
  }

  // No drift of the interval

  /** Every issued token of a pass lives min(requested, cap), measured at most five seconds late. */
  ghost predicate Capped(tried: seq<Context>, requested: int, cap: int) {
    var lifetime := if requested < cap then requested else cap;
    forall c :: c in tried && c.attempt.Issued? && c.attempt.token.expiry.Some? ==>
      lifetime - TOLERANCE <= c.attempt.token.expiry.value - c.attempt.token.measuredAt <= lifetime
  }

  function Passes(opt: RenewalOption, passes: seq<seq<Context>>): RenewalOption {
    if passes == [] then opt else AdjustedBy(Passes(opt, passes[..|passes| - 1]), passes[|passes| - 1])
  }

  ghost predicate CappedPasses(opt: RenewalOption, passes: seq<seq<Context>>, cap: int) {
    var n := |passes| - 1;
    n >= 0 ==>
      && CappedPasses(opt, passes[..n], cap)
      && Capped(passes[n], EffectiveTokenSeconds(Passes(opt, passes[..n])) * SECOND, cap)
  }

  ghost predicate InBand(opt: RenewalOption, cap: int) {
    cap - TOLERANCE <= opt.renewTokenRequestInterval <= cap
  }

  lemma {:induction false} PassStaysOrEntersBand(opt: RenewalOption, tried: seq<Context>, cap: int)
    requires Capped(tried, EffectiveTokenSeconds(opt) * SECOND, cap)
    ensures AdjustedBy(opt, tried) == opt || InBand(AdjustedBy(opt, tried), cap)
    ensures EffectiveTokenSeconds(opt) * SECOND <= cap ==> AdjustedBy(opt, tried) == opt
  {
    if tried != [] {
      var n := |tried| - 1;
      assert tried[n] in tried;
      assert Capped(tried[..n], EffectiveTokenSeconds(opt) * SECOND, cap) by {
        assert forall c :: c in tried[..n] ==> c in tried;
      }
      PassStaysOrEntersBand(opt, tried[..n], cap);
    }
  }

  /**
   * No drift: against a server with a constant lifetime cap, after any number of renewal passes the
   * interval is either the initial one or within five seconds below the cap; it neither ratchets down
   * nor grows past it.
   */
  lemma {:induction false} IntervalDoesNotDrift(opt: RenewalOption, passes: seq<seq<Context>>, cap: int)
    requires CappedPasses(opt, passes, cap)
    ensures Passes(opt, passes) == opt || InBand(Passes(opt, passes), cap)
  {
    if passes != [] {
      var n := |passes| - 1;
      IntervalDoesNotDrift(opt, passes[..n], cap);
      PassStaysOrEntersBand(Passes(opt, passes[..n]), passes[n], cap);
    }
  }
}
