/** One-time codes and recovery codes: the checks of a second factor against a user row. */
module Totp {
  import opened Common

  type Secret = string
  type Code = string
  type Hash = string
  type Time = int

  /** The cryptography, as arbitrary functions. `opens` tells whether a stored secret decrypts. */
  datatype Env = Env(opens: Secret -> bool, totp: (Secret, nat) -> Code, hash: Code -> Hash)

  /** A stored secret is its ciphertext; the empty one stands for none. */
  datatype User = User(
    enabled: bool, secret: Secret, pending: Secret, last: nat, codes: seq<Hash>, pendingCodes: seq<Hash>)

  const STEP := 30
  const UINT64 := 0x1_0000_0000_0000_0000

  /** Go's division truncates toward zero, and the result is converted to 64 bits unsigned. */
  function Counter(unix: Time): nat {
    (if unix >= 0 then unix / STEP else -(-unix / STEP)) % UINT64
  }

  predicate Usable(env: Env, secret: Secret) {
    secret != "" && env.opens(secret)
  }

  /** The current time step is tried first, then the one before. */
  function Validate(env: Env, secret: Secret, code: Code, now: Time): Option<nat> {
    if env.totp(secret, Counter(now)) == code then Some(Counter(now))
    else if env.totp(secret, Counter(now - STEP)) == code then Some(Counter(now - STEP))
    else None
  }

  method ValidateCode(env: Env, secret: Secret, code: Code, now: Time) returns (counter: Option<nat>)
    ensures counter == Validate(env, secret, code, now)
    ensures counter.Some? ==> env.totp(secret, counter.value) == code
    ensures counter.None? ==> forall t :: t == now || t == now - STEP ==> env.totp(secret, Counter(t)) != code
  {
    var offsets := [0, -STEP];
    for i := 0 to |offsets|
      invariant forall k :: 0 <= k < i ==> env.totp(secret, Counter(now + offsets[k])) != code
    {
      var t := now + offsets[i];
      if env.totp(secret, Counter(t)) == code {
        assert i == 1 ==> env.totp(secret, Counter(now + offsets[0])) != code;
        return Some(Counter(t));
      }
    }
    assert env.totp(secret, Counter(now + offsets[0])) != code;
    assert env.totp(secret, Counter(now + offsets[1])) != code;
    return None;
  }

  /** A code list without the first occurrence of `h`. */
  function Without(codes: seq<Hash>, h: Hash): seq<Hash> {
    if codes == [] then [] else if codes[0] == h then codes[1..] else [codes[0]] + Without(codes[1..], h)
  }

  lemma {:induction false} WithoutRemovesOne(codes: seq<Hash>, h: Hash)
    ensures multiset(Without(codes, h)) == multiset(codes) - multiset{h}
  {
    if codes != [] {
      assert codes == [codes[0]] + codes[1..];
      if codes[0] != h {
        WithoutRemovesOne(codes[1..], h);
      }
    }
  }

  lemma WithoutTakesOne(codes: seq<Hash>, h: Hash)
    requires h in codes
    ensures multiset(codes) == multiset(Without(codes, h)) + multiset{h}
  {
    WithoutRemovesOne(codes, h);
  }

  lemma {:induction false} WithoutAt(codes: seq<Hash>, h: Hash, at: nat)
    requires at < |codes| && codes[at] == h && h !in codes[..at]
    ensures Without(codes, h) == codes[..at] + codes[at + 1..]
  {
    if at > 0 {
      assert codes[1..][..at - 1] == codes[..at][1..];
      WithoutAt(codes[1..], h, at - 1);
    }
  }

  lemma {:induction false} WithoutNone(codes: seq<Hash>, h: Hash)
    requires h !in codes
    ensures Without(codes, h) == codes
  {
    if codes != [] {
      WithoutNone(codes[1..], h);
    }
  }

  method Consume(codes: seq<Hash>, h: Hash) returns (matched: bool, remaining: seq<Hash>)
    ensures matched <==> h in codes
    ensures remaining == Without(codes, h)
    ensures multiset(remaining) == multiset(codes) - multiset{h}
  {
    matched, remaining := false, [];
    ghost var at := 0;
    for i := 0 to |codes|
      invariant !matched ==> remaining == codes[..i] && h !in codes[..i]
      invariant matched ==> 0 <= at < i && codes[at] == h && h !in codes[..at]
      invariant matched ==> remaining == codes[..at] + codes[at + 1..i]
    {
      if !matched && codes[i] == h {
        matched, at := true, i;
      } else {
        remaining := remaining + [codes[i]];
      }
    }
    if matched {
      WithoutAt(codes, h, at);
    } else {
      WithoutNone(codes, h);
    }
    WithoutRemovesOne(codes, h);
  }

  datatype Factor = Rejected | OneTime(counter: nat) | Recovery(hash: Hash, remaining: seq<Hash>)

  /** `verifyMFAFactor`: a one-time code must be newer than the last one; otherwise a recovery code. */
  function Verify(env: Env, user: User, code: Code, now: Time): Factor {
    if code == "" then Rejected
    else if Usable(env, user.secret) && Validate(env, user.secret, code, now).Some? then
      var counter := Validate(env, user.secret, code, now).value;
      if counter <= user.last then Rejected else OneTime(counter)
    else if env.hash(code) in user.codes then Recovery(env.hash(code), Without(user.codes, env.hash(code)))
    else Rejected
  }

  /** The counter is the number of whole 30-second steps since the epoch, as long as it fits 64 bits. */
  lemma CounterCounts(unix: Time)
    requires 0 <= unix < 30 * UINT64
    ensures 30 * Counter(unix) <= unix < 30 * Counter(unix) + 30
    ensures 30 <= unix ==> Counter(unix - 30) == Counter(unix) - 1
  {
    assert unix / 30 < UINT64;
    if 30 <= unix {
      assert (unix - 30) / 30 == unix / 30 - 1;
    }
  }

  /** Before the epoch it is counted toward zero, in 64 bits. */
  lemma CounterBeforeEpoch(unix: Time)
    requires -30 * UINT64 < unix < 0
    ensures Counter(unix) == if unix > -30 then 0 else UINT64 - (-unix) / 30
  {
    if unix <= -30 {
      assert -(-unix / 30) % UINT64 == UINT64 - (-unix) / 30;
    }
  }

  /** The code is one that the user's secret generates at this counter. */
  predicate Matches(env: Env, secret: Secret, code: Code, counter: nat) {
    secret != "" && env.opens(secret) && env.totp(secret, counter) == code
  }

  /**
   A code is accepted as a one-time code exactly if the secret generates it now or 30 seconds
   ago, at a counter above the last one; as a recovery code exactly if it is no one-time code
   and is listed; a code generated at both counters counts as the newer one.
   */
  lemma VerifyDecides(env: Env, user: User, code: Code, now: Time)
    ensures var factor, newer, older := Verify(env, user, code, now), Counter(now), Counter(now - 30);
      var isNewer, isOlder := Matches(env, user.secret, code, newer), Matches(env, user.secret, code, older);
      && (forall c :: factor == OneTime(c) <==> code != "" && user.last < c && ((c == newer && isNewer) || (c == older && isOlder && !isNewer)))
      && (factor.Recovery? <==> code != "" && !isNewer && !isOlder && env.hash(code) in user.codes)
      && (factor.Recovery? ==> factor.hash == env.hash(code) && multiset(user.codes) == multiset(factor.remaining) + multiset{env.hash(code)})
      && (factor.Rejected? <==>
            || code == "" || (isNewer && newer <= user.last) || (!isNewer && isOlder && older <= user.last)
            || (!isNewer && !isOlder && env.hash(code) !in user.codes))
  {
    if env.hash(code) in user.codes {
      WithoutTakesOne(user.codes, env.hash(code));
    }
  }
}
