/** One-time codes in a cache whose keys expire, with time passing between the cache operations of a call. */
module OtpStore {
  import opened Common

  datatype Value = Text(text: string) | Count(count: int)

  datatype Entry = Entry(value: Value, expiresAt: int)

  type Store = map<string, Entry>

  function Get(store: Store, key: string, now: int): Option<Value> {
    if key in store && now < store[key].expiresAt then Some(store[key].value) else None
  }

  function Set(store: Store, key: string, value: Value, ttl: nat, now: int): Store {
    store[key := Entry(value, now + ttl)]
  }

  // ── Keys ────────────────────────────────────────────────────────────────

  /** What the three keys of a target on a channel share. */
  function Address(channel: string, target: string): string {
    Lower(channel) + ":" + target
  }

  function CodeKey(address: string): string {
    "otp:" + address
  }

  function CooldownKey(address: string): string {
    "otp_cooldown:" + address
  }

  function AttemptsKey(address: string): string {
    "otp_attempts:" + address
  }

  predicate ValidChannel(channel: string) {
    Lower(channel) == "email" || Lower(channel) == "sms"
  }

  /** No two keys collide: neither those of one address nor those of two. */
  lemma KeysAreDistinct(a: string, b: string)
    ensures CodeKey(a) != CooldownKey(b) && CodeKey(a) != AttemptsKey(b) && CooldownKey(a) != AttemptsKey(b)
    ensures CodeKey(a) == CodeKey(b) ==> a == b
    ensures CooldownKey(a) == CooldownKey(b) ==> a == b
    ensures AttemptsKey(a) == AttemptsKey(b) ==> a == b
  {
    assert CodeKey(a)[3] == ':' && CooldownKey(b)[3] == '_' && AttemptsKey(b)[3] == '_';
    assert CooldownKey(a)[4] == 'c' && AttemptsKey(b)[4] == 'a';
    assert CodeKey(a)[4..] == a && CodeKey(b)[4..] == b;
    assert CooldownKey(a)[13..] == a && CooldownKey(b)[13..] == b;
    assert AttemptsKey(a)[13..] == a && AttemptsKey(b)[13..] == b;
  }

  /** Codes are kept apart by channel and target; case matters in the target only. */
  lemma AddressesAreDistinct(channel: string, target: string, channel': string, target': string)
    requires ValidChannel(channel) && ValidChannel(channel')
    ensures Address(channel, target) == Address(channel', target') <==> Lower(channel) == Lower(channel') && target == target'
  {
    var a, b := Address(channel, target), Address(channel', target');
    assert a[0] == Lower(channel)[0] && b[0] == Lower(channel')[0];
    assert a[|Lower(channel)| + 1..] == target && b[|Lower(channel')| + 1..] == target';
  }

  // ── Calls ───────────────────────────────────────────────────────────────

  datatype Config = Config(expiry: nat, cooldown: nat, maxAttempts: int)

  /** The generator of random codes is switched off in the source. */
  const ISSUED_CODE := "123456"

  /** When the four cache operations of a generation happen. */
  datatype GenerateTimes = GenerateTimes(check: int, code: int, attempts: int, cooldown: int)

  predicate RisingGenerate(at: GenerateTimes) {
    at.check <= at.code <= at.attempts <= at.cooldown
  }

  datatype GenerateResult = Generated(code: string) | InvalidChannel | RateLimited

  function GenerateOutcome(store: Store, channel: string, target: string, at: GenerateTimes): GenerateResult {
    if !ValidChannel(channel) then InvalidChannel
    else if Get(store, CooldownKey(Address(channel, target)), at.check).Some? then RateLimited
    else Generated(ISSUED_CODE)
  }

  function Generate(store: Store, config: Config, channel: string, target: string, at: GenerateTimes): Store {
    if !GenerateOutcome(store, channel, target, at).Generated? then store else
      var address := Address(channel, target);
      var coded := Set(store, CodeKey(address), Text(ISSUED_CODE), config.expiry, at.code);
      var counted := Set(coded, AttemptsKey(address), Count(0), config.expiry, at.attempts);
      Set(counted, CooldownKey(address), Count(1), config.cooldown, at.cooldown)
  }

  /** The code could not be delivered. */
  function Rollback(store: Store, channel: string, target: string): Store {
    var address := Address(channel, target);
    store - {CodeKey(address), AttemptsKey(address), CooldownKey(address)}
  }

  /** When a verification reads the code, reads the counter and writes the counter. */
  datatype VerifyTimes = VerifyTimes(code: int, attempts: int, write: int)

  predicate RisingVerify(at: VerifyTimes) {
    at.code <= at.attempts <= at.write
  }

  datatype Verdict = Verified | Wrong | Missing | Exhausted

  /** A counter that is gone counts as zero. */
  function Tries(store: Store, address: string, now: int): int {
    match Get(store, AttemptsKey(address), now)
    case Some(Count(n)) => n
    case _ => 0
  }

  /** The code given is compared with the one issued. */
  predicate Compared(store: Store, config: Config, address: string, at: VerifyTimes) {
    Get(store, CodeKey(address), at.code).Some? && Tries(store, address, at.attempts) < config.maxAttempts
  }

  predicate Matches(store: Store, address: string, code: string, at: VerifyTimes) {
    Get(store, CodeKey(address), at.code) == Some(Text(code))
  }

  function VerifyOutcome(store: Store, config: Config, channel: string, target: string, code: string, at: VerifyTimes): Verdict {
    var address := Address(channel, target);
    if Get(store, CodeKey(address), at.code) == None then Missing
    else if !Compared(store, config, address, at) then Exhausted
    else if Matches(store, address, code, at) then Verified
    else if Tries(store, address, at.attempts) + 1 >= config.maxAttempts then Exhausted
    else Wrong
  }

  function Verify(store: Store, config: Config, channel: string, target: string, code: string, at: VerifyTimes): Store {
    var address := Address(channel, target);
    match VerifyOutcome(store, config, channel, target, code, at)
    case Missing => store
    case Wrong =>
      Set(store, AttemptsKey(address), Count(Tries(store, address, at.attempts) + 1), config.expiry, at.write)
    case _ => store - {CodeKey(address), AttemptsKey(address)}
  }
}
