/** Runs of serial OTP calls for all targets, watched for one address: how often its code can be tried. */
module OtpBudget {
  import opened Common
  import opened OtpStore

  datatype Event =
    | Generates(channel: string, target: string, made: GenerateTimes, delivered: bool)
    | Verifies(channel: string, target: string, code: string, tried: VerifyTimes)

  /** The cache, and for the watched address: comparisons and successes since its last code, and its last cooldown. */
  datatype State = State(store: Store, now: int, compares: nat, successes: nat, cooling: Option<int>)

  /** Calls are serial and the clock does not go back. */
  predicate Enabled(s: State, e: Event) {
    match e
    case Generates(_, _, at, _) => s.now <= at.check && RisingGenerate(at)
    case Verifies(_, _, _, at) => s.now <= at.code && RisingVerify(at)
  }

  function Do(s: State, config: Config, watched: string, e: Event): State
    requires Enabled(s, e)
  {
    match e
    case Generates(channel, target, at, delivered) =>
      var store := Generate(s.store, config, channel, target, at);
      if !GenerateOutcome(s.store, channel, target, at).Generated? then s.(now := at.cooldown)
      else
        var left := if delivered then store else Rollback(store, channel, target);
        if Address(channel, target) == watched
        then State(left, at.cooldown, 0, 0, if delivered then Some(at.cooldown) else None)
        else s.(store := left, now := at.cooldown)
    case Verifies(channel, target, code, at) =>
      var after := s.(store := Verify(s.store, config, channel, target, code, at), now := at.write);
      if Address(channel, target) == watched && Compared(s.store, config, watched, at)
      then after.(compares := s.compares + 1, successes := s.successes + (if Matches(s.store, watched, code, at) then 1 else 0))
      else after
  }

  function Step(s: State, config: Config, watched: string, e: Event): State {
    if Enabled(s, e) then Do(s, config, watched, e) else s
  }

  function After(config: Config, watched: string, start: int, run: seq<Event>): State {
    if |run| == 0 then State(map[], start, 0, 0, None)
    else Step(After(config, watched, start, run[..|run| - 1]), config, watched, run[|run| - 1])
  }

  // ── The invariant ───────────────────────────────────────────────────────

  predicate CodeLive(s: State, watched: string) {
    Get(s.store, CodeKey(watched), s.now).Some?
  }

  /** A live code has a counter that outlives it and tells the comparisons made; it was not yet used or used up. */
  predicate CounterOk(s: State, config: Config, watched: string) {
    CodeLive(s, watched) ==>
      && AttemptsKey(watched) in s.store
      && s.store[AttemptsKey(watched)].value == Count(s.compares)
      && s.store[CodeKey(watched)].expiresAt <= s.store[AttemptsKey(watched)].expiresAt
      && s.store[CodeKey(watched)].expiresAt <= s.now + config.expiry
      && s.successes == 0
      && (s.compares == 0 || s.compares < config.maxAttempts)
  }

  predicate BudgetOk(s: State, config: Config) {
    s.compares <= Max(0, config.maxAttempts) && s.successes <= 1
  }

  predicate CoolingOk(s: State, config: Config, watched: string) {
    s.cooling.Some? ==>
      && CooldownKey(watched) in s.store
      && s.store[CooldownKey(watched)].expiresAt == s.cooling.value + config.cooldown
  }

  predicate Inv(s: State, config: Config, watched: string) {
    CounterOk(s, config, watched) && BudgetOk(s, config) && CoolingOk(s, config, watched)
  }

  /** The three entries of the watched address are the same, only later. */
  predicate SameEntries(s: State, s': State, watched: string) {
    && s.now <= s'.now
    && (forall key | key in {CodeKey(watched), AttemptsKey(watched), CooldownKey(watched)} ::
          (key in s.store <==> key in s'.store) && (key in s.store ==> s'.store[key] == s.store[key]))
    && s'.compares == s.compares && s'.successes == s.successes && s'.cooling == s.cooling
  }

  lemma SameEntriesKeep(s: State, s': State, config: Config, watched: string)
    requires Inv(s, config, watched) && SameEntries(s, s', watched)
    ensures Inv(s', config, watched)
  {
    assert CodeKey(watched) in {CodeKey(watched), AttemptsKey(watched), CooldownKey(watched)};
    assert AttemptsKey(watched) in {CodeKey(watched), AttemptsKey(watched), CooldownKey(watched)};
    assert CooldownKey(watched) in {CodeKey(watched), AttemptsKey(watched), CooldownKey(watched)};
    hide CodeKey, AttemptsKey, CooldownKey;
  }

  /** Calls for other addresses do not touch the watched one. */
  lemma OthersKeep(s: State, config: Config, watched: string, e: Event)
    requires Inv(s, config, watched) && Enabled(s, e) && Address(e.channel, e.target) != watched
    ensures Inv(Do(s, config, watched, e), config, watched)
  {
    KeysAreDistinct(watched, Address(e.channel, e.target));
    KeysAreDistinct(Address(e.channel, e.target), watched);
    hide CodeKey, AttemptsKey, CooldownKey, Address;
    SameEntriesKeep(s, Do(s, config, watched, e), config, watched);
  }

  lemma GenerateKeeps(s: State, config: Config, watched: string, e: Event)
    requires Inv(s, config, watched) && Enabled(s, e) && e.Generates? && Address(e.channel, e.target) == watched
    ensures Inv(Do(s, config, watched, e), config, watched)
  {
    KeysAreDistinct(watched, watched);
    hide CodeKey, AttemptsKey, CooldownKey, Address, ValidChannel;
  }

  lemma VerifyKeeps(s: State, config: Config, watched: string, e: Event)
    requires Inv(s, config, watched) && Enabled(s, e) && e.Verifies? && Address(e.channel, e.target) == watched
    ensures Inv(Do(s, config, watched, e), config, watched)
  {
    KeysAreDistinct(watched, watched);
    hide CodeKey, AttemptsKey, CooldownKey, Address;
    if Compared(s.store, config, watched, e.tried) {
      assert CodeLive(s, watched);
    }
  }

  lemma {:induction false} RunKeeps(config: Config, watched: string, start: int, run: seq<Event>)
    ensures Inv(After(config, watched, start, run), config, watched)
  {
    if |run| > 0 {
      var s, e := After(config, watched, start, run[..|run| - 1]), run[|run| - 1];
      RunKeeps(config, watched, start, run[..|run| - 1]);
      if Enabled(s, e) {
        if Address(e.channel, e.target) != watched {
          OthersKeep(s, config, watched, e);
        } else if e.Generates? {
          GenerateKeeps(s, config, watched, e);
        } else {
          VerifyKeeps(s, config, watched, e);
        }
      }
      hide Inv, Do, Address;
    }
  }

  // ── The promises ────────────────────────────────────────────────────────

  /** Of each code issued, at most max_attempts tries are compared and at most one succeeds. */
  lemma BudgetHolds(config: Config, watched: string, start: int, run: seq<Event>)
    ensures var s := After(config, watched, start, run);
      s.compares <= Max(0, config.maxAttempts) && s.successes <= 1
  {
    RunKeeps(config, watched, start, run);
  }

  /** While a code is live its counter is live, and holds the number of tries. */
  lemma LiveCodeHasCounter(config: Config, watched: string, start: int, run: seq<Event>)
    requires CodeLive(After(config, watched, start, run), watched)
    ensures var s := After(config, watched, start, run);
      Get(s.store, AttemptsKey(watched), s.now) == Some(Count(s.compares))
  {
    RunKeeps(config, watched, start, run);
  }

  /** A code that was verified once cannot be verified again, with any code at any later time. */
  lemma UsedCodeIsGone(config: Config, watched: string, start: int, run: seq<Event>, e: Event)
    requires After(config, watched, start, run).successes == 1
    requires Enabled(After(config, watched, start, run), e) && e.Verifies? && Address(e.channel, e.target) == watched
    ensures VerifyOutcome(After(config, watched, start, run).store, config, e.channel, e.target, e.code, e.tried) == Missing
  {
    RunKeeps(config, watched, start, run);
    hide CodeKey, AttemptsKey, CooldownKey, Address, After;
  }

  /** Two codes for an address are a cooldown apart, unless the first could not be delivered. */
  lemma CooldownSeparates(config: Config, watched: string, start: int, run: seq<Event>, e: Event)
    requires Enabled(After(config, watched, start, run), e) && e.Generates? && Address(e.channel, e.target) == watched
    requires After(config, watched, start, run).cooling.Some?
    requires GenerateOutcome(After(config, watched, start, run).store, e.channel, e.target, e.made).Generated?
    ensures e.made.check >= After(config, watched, start, run).cooling.value + config.cooldown
  {
    RunKeeps(config, watched, start, run);
    hide CodeKey, AttemptsKey, CooldownKey, Address, After;
  }
}
