/** The OTP service as the code runs it, over the cache. */
module OtpService {
  import opened Common
  import opened OtpStore

  class Cache {
    var store: Store

    constructor ()
      ensures store == map[]
    {
      store := map[];
    }

    method Lookup(key: string, now: int) returns (value: Option<Value>)
      ensures value == Get(store, key, now)
    {
      value := None;
      if key in store && now < store[key].expiresAt {
        value := Some(store[key].value);
      }
    }

    method Put(key: string, value: Value, ttl: nat, now: int)
      modifies this
      ensures store == Set(old(store), key, value, ttl, now)
    {
      store := store[key := Entry(value, now + ttl)];
    }

    method Delete(key: string)
      modifies this
      ensures store == old(store) - {key}
    {
      store := store - {key};
    }
  }

  class OTPService {
    const cache: Cache
    const config: Config

    constructor (cache: Cache, config: Config)
      ensures this.cache == cache && this.config == config
    {
      this.cache, this.config := cache, config;
    }

    method GenerateOtp(target: string, channel: string, at: GenerateTimes) returns (result: GenerateResult)
      modifies cache
      ensures result == GenerateOutcome(old(cache.store), channel, target, at)
      ensures cache.store == Generate(old(cache.store), config, channel, target, at)
    {
      if !ValidChannel(channel) {
        return InvalidChannel;
      }
      var address := Address(channel, target);
      var cooling := cache.Lookup(CooldownKey(address), at.check);
      if cooling.Some? {
        return RateLimited;
      }
      cache.Put(CodeKey(address), Text(ISSUED_CODE), config.expiry, at.code);
      cache.Put(AttemptsKey(address), Count(0), config.expiry, at.attempts);
      cache.Put(CooldownKey(address), Count(1), config.cooldown, at.cooldown);
      result := Generated(ISSUED_CODE);
    }

    /** Generates and sends; a code that could not be sent is withdrawn with its counter and cooldown. */
    method GenerateAndSend(target: string, channel: string, at: GenerateTimes, delivered: bool) returns (sent: bool)
      modifies cache
      ensures var made := GenerateOutcome(old(cache.store), channel, target, at).Generated?;
        var after := Generate(old(cache.store), config, channel, target, at);
        && sent == (made && delivered)
        && cache.store == if made && !delivered then Rollback(after, channel, target) else after
    {
      var result := GenerateOtp(target, channel, at);
      if !result.Generated? {
        return false;
      }
      if !delivered {
        var address := Address(channel, target);
        cache.Delete(CodeKey(address));
        cache.Delete(AttemptsKey(address));
        cache.Delete(CooldownKey(address));
        return false;
      }
      sent := true;
    }

    method VerifyOtp(target: string, channel: string, code: string, at: VerifyTimes) returns (verdict: Verdict)
      modifies cache
      ensures verdict == VerifyOutcome(old(cache.store), config, channel, target, code, at)
      ensures verdict == Verified ==>
        var key := CodeKey(Address(channel, target)); key in old(cache.store) && old(cache.store)[key].value == Text(code)
      ensures cache.store == Verify(old(cache.store), config, channel, target, code, at)
    {
      var address := Address(channel, target);
      var stored := cache.Lookup(CodeKey(address), at.code);
      var counter := cache.Lookup(AttemptsKey(address), at.attempts);
      if stored == None {
        return Missing;
      }
      var attempts := if counter.Some? && counter.value.Count? then counter.value.count else 0;
      if attempts >= config.maxAttempts {
        cache.Delete(CodeKey(address));
        cache.Delete(AttemptsKey(address));
        return Exhausted;
      }
      attempts := attempts + 1;
      cache.Put(AttemptsKey(address), Count(attempts), config.expiry, at.write);
      if stored == Some(Text(code)) {
        cache.Delete(CodeKey(address));
        cache.Delete(AttemptsKey(address));
        return Verified;
      }
      if attempts >= config.maxAttempts {
        cache.Delete(CodeKey(address));
        cache.Delete(AttemptsKey(address));
        return Exhausted;
      }
      verdict := Wrong;
    }
  }
}
