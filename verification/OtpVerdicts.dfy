/**
 Which code is accepted, told by the calls of the run alone: the code last delivered to the watched
 address, until when it is good, how often it was tried, and how long no other is sent.
 */
module OtpVerdicts {
  import opened Common
  import opened OtpStore
  import opened OtpBudget

  /** The code last delivered, while it is neither used nor used up. */
  datatype Issue = Issue(code: string, until: int, tries: nat)

  datatype Watch = Watch(issue: Option<Issue>, coolingUntil: Option<int>)

  predicate IsFor(e: Event, watched: string) {
    Lower(e.channel) + ":" + e.target == watched
  }

  predicate IsCooling(w: Watch, at: int) {
    w.coolingUntil.Some? && at < w.coolingUntil.value
  }

  predicate IsGood(w: Watch, at: int) {
    w.issue.Some? && at < w.issue.value.until
  }

  function Sees(w: Watch, config: Config, e: Event): Watch {
    match e
    case Generates(channel, _, at, delivered) =>
      if Lower(channel) !in {"email", "sms"} || IsCooling(w, at.check) then w
      else if delivered then Watch(Some(Issue(ISSUED_CODE, at.code + config.expiry, 0)), Some(at.cooldown + config.cooldown))
      else Watch(None, None)
    case Verifies(_, _, code, at) =>
      if !IsGood(w, at.code) then w
      else if code == w.issue.value.code || w.issue.value.tries + 1 >= config.maxAttempts then w.(issue := None)
      else w.(issue := Some(w.issue.value.(tries := w.issue.value.tries + 1)))
  }

  function Watching(config: Config, watched: string, start: int, run: seq<Event>): Watch {
    if |run| == 0 then Watch(None, None) else
      var before, e := Watching(config, watched, start, run[..|run| - 1]), run[|run| - 1];
      if Enabled(After(config, watched, start, run[..|run| - 1]), e) && IsFor(e, watched) then Sees(before, config, e) else before
  }

  // ── The cache holds what was seen ───────────────────────────────────────

  /** A good code is stored with its counter, and no other is live; the cooldown runs as long as it should. */
  predicate Holds(s: State, config: Config, watched: string, w: Watch) {
    && (IsGood(w, s.now) ==>
          && CodeKey(watched) in s.store
          && s.store[CodeKey(watched)] == Entry(Text(w.issue.value.code), w.issue.value.until)
          && AttemptsKey(watched) in s.store
          && s.store[AttemptsKey(watched)].value == Count(w.issue.value.tries)
          && w.issue.value.until <= s.store[AttemptsKey(watched)].expiresAt
          && w.issue.value.until <= s.now + config.expiry
          && (w.issue.value.tries == 0 || w.issue.value.tries < config.maxAttempts))
    && (CodeLive(s, watched) ==> IsGood(w, s.now))
    && (IsCooling(w, s.now) ==>
          CooldownKey(watched) in s.store && s.store[CooldownKey(watched)].expiresAt == w.coolingUntil.value)
    && (Get(s.store, CooldownKey(watched), s.now).Some? ==> IsCooling(w, s.now))
  }

  lemma SameEntriesHold(s: State, s': State, config: Config, watched: string, w: Watch)
    requires Holds(s, config, watched, w) && SameEntries(s, s', watched)
    ensures Holds(s', config, watched, w)
  {
    assert CodeKey(watched) in {CodeKey(watched), AttemptsKey(watched), CooldownKey(watched)};
    assert AttemptsKey(watched) in {CodeKey(watched), AttemptsKey(watched), CooldownKey(watched)};
    assert CooldownKey(watched) in {CodeKey(watched), AttemptsKey(watched), CooldownKey(watched)};
    hide CodeKey, AttemptsKey, CooldownKey;
  }

  lemma OthersHold(s: State, config: Config, watched: string, w: Watch, e: Event)
    requires Holds(s, config, watched, w) && Enabled(s, e) && !IsFor(e, watched)
    ensures Holds(Do(s, config, watched, e), config, watched, w)
  {
    KeysAreDistinct(watched, Address(e.channel, e.target));
    KeysAreDistinct(Address(e.channel, e.target), watched);
    assert Address(e.channel, e.target) != watched;
    hide CodeKey, AttemptsKey, CooldownKey, Address;
    SameEntriesHold(s, Do(s, config, watched, e), config, watched, w);
  }

  lemma GenerateHolds(s: State, config: Config, watched: string, w: Watch, e: Event)
    requires Holds(s, config, watched, w) && Enabled(s, e) && e.Generates? && IsFor(e, watched)
    ensures Holds(Do(s, config, watched, e), config, watched, Sees(w, config, e))
  {
    KeysAreDistinct(watched, watched);
    assert Address(e.channel, e.target) == watched;
    assert ValidChannel(e.channel) <==> Lower(e.channel) in {"email", "sms"};
    hide CodeKey, AttemptsKey, CooldownKey, Address, ValidChannel, Lower;
  }

  lemma VerifyHolds(s: State, config: Config, watched: string, w: Watch, e: Event)
    requires Holds(s, config, watched, w) && Enabled(s, e) && e.Verifies? && IsFor(e, watched)
    ensures Holds(Do(s, config, watched, e), config, watched, Sees(w, config, e))
  {
    KeysAreDistinct(watched, watched);
    assert Address(e.channel, e.target) == watched;
    hide CodeKey, AttemptsKey, CooldownKey, Address, Lower;
  }

  lemma {:induction false} CacheHolds(config: Config, watched: string, start: int, run: seq<Event>)
    ensures Holds(After(config, watched, start, run), config, watched, Watching(config, watched, start, run))
  {
    if |run| > 0 {
      var front, e := run[..|run| - 1], run[|run| - 1];
      var s, w := After(config, watched, start, front), Watching(config, watched, start, front);
      CacheHolds(config, watched, start, front);
      if Enabled(s, e) {
        if !IsFor(e, watched) {
          OthersHold(s, config, watched, w, e);
        } else if e.Generates? {
          GenerateHolds(s, config, watched, w, e);
        } else {
          VerifyHolds(s, config, watched, w, e);
        }
      }
      hide Holds, Do, Sees;
    }
  }

  // ── The promises ────────────────────────────────────────────────────────

  /**
   In every run a code is accepted exactly when it is the one last delivered, which is still good when
   it is read and was tried fewer than max_attempts times; without a good code every other is Missing.
   */
  lemma VerdictTells(config: Config, watched: string, start: int, run: seq<Event>, e: Event)
    requires Enabled(After(config, watched, start, run), e) && e.Verifies? && IsFor(e, watched)
    ensures var w := Watching(config, watched, start, run);
      var verdict := VerifyOutcome(After(config, watched, start, run).store, config, e.channel, e.target, e.code, e.tried);
      && (verdict == Verified <==>
            IsGood(w, e.tried.code) && w.issue.value.tries < config.maxAttempts && e.code == w.issue.value.code)
      && (verdict == Missing <==> !IsGood(w, e.tried.code))
      && (IsGood(w, e.tried.attempts) && verdict != Verified ==>
            (verdict == Exhausted <==> w.issue.value.tries + 1 >= config.maxAttempts))
  {
    CacheHolds(config, watched, start, run);
    assert Address(e.channel, e.target) == watched;
    hide CodeKey, AttemptsKey, CooldownKey, Address, After, Watching, Lower;
  }

  /** A code is sent by e-mail or SMS only, and then exactly when no cooldown of the address is running. */
  lemma SendingTells(config: Config, watched: string, start: int, run: seq<Event>, e: Event)
    requires Enabled(After(config, watched, start, run), e) && e.Generates? && IsFor(e, watched)
    ensures GenerateOutcome(After(config, watched, start, run).store, e.channel, e.target, e.made) ==
      if Lower(e.channel) !in {"email", "sms"} then InvalidChannel
      else if IsCooling(Watching(config, watched, start, run), e.made.check) then RateLimited
      else Generated("123456")
  {
    CacheHolds(config, watched, start, run);
    assert Address(e.channel, e.target) == watched;
    hide CodeKey, AttemptsKey, CooldownKey, Address, After, Watching, Lower;
  }
}
