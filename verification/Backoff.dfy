// Reconnect delays: a saturating shift, and the capped doubling it is meant to compute
// (apps/freemix-capture-node/src/broker.rs).
module Backoff {
  import opened Basics

  datatype BackoffPolicy = BackoffPolicy(initial: u64, maximum: u64) {
    predicate Valid() { 0 < initial <= maximum }
  }

  datatype BackoffPolicyError = ZeroInitial | ZeroMaximum | InitialExceedsMaximum(initial: u64, maximum: u64)

  function NewPolicy(initial: u64, maximum: u64): (policy: Result<BackoffPolicy, BackoffPolicyError>)
    ensures policy.Ok? <==> BackoffPolicy(initial, maximum).Valid()
    ensures policy.Ok? ==> policy.value == BackoffPolicy(initial, maximum)
  {
    if initial == 0 then Err(ZeroInitial)
    else if maximum == 0 then Err(ZeroMaximum)
    else if initial > maximum then Err(InitialExceedsMaximum(initial, maximum))
    else Ok(BackoffPolicy(initial, maximum))
  }

  function Pow2(n: nat): (power: nat)
    ensures power >= 1
  {
    if n == 0 then 1 else 2 * Pow2(n - 1)
  }

  function Min(a: nat, b: nat): nat { if a <= b then a else b }

  // The shift is capped at 63 and the product saturates at 64 bits.
  function DelayForAttempt(policy: BackoffPolicy, attempt: nat): (delay: nat) {
    var shift := Min(if attempt > 0 then attempt - 1 else 0, 63);
    Min(Min(policy.initial * Pow2(shift), U64_MAX), policy.maximum)
  }

  // The delay doubles from one attempt to the next until it meets the maximum.
  function CappedDoubling(policy: BackoffPolicy, attempt: nat): (delay: nat) {
    if attempt <= 1 then policy.initial else Min(2 * CappedDoubling(policy, attempt - 1), policy.maximum)
  }

  lemma {:induction false} Pow2Grows(n: nat, m: nat)
    requires n <= m
    ensures Pow2(n) <= Pow2(m)
  {
    if n < m {
      Pow2Grows(n, m - 1);
    }
  }

  lemma DoubledProduct(factor: nat, n: nat)
    ensures factor * Pow2(n + 1) == 2 * (factor * Pow2(n))
  {
    var power := Pow2(n);
    assert Pow2(n + 1) == 2 * power;
    hide Pow2;
  }

  lemma {:induction false} DoublingIsCappedPower(policy: BackoffPolicy, attempt: nat)
    requires policy.Valid() && attempt >= 1
    ensures CappedDoubling(policy, attempt) == Min(policy.initial * Pow2(attempt - 1), policy.maximum)
  {
    if attempt > 1 {
      DoublingIsCappedPower(policy, attempt - 1);
      DoubledProduct(policy.initial, attempt - 2);
      hide Pow2;
    } else {
      assert Pow2(0) == 1;
      hide Pow2;
    }
  }

  lemma {:induction false} Pow2Add(n: nat, m: nat)
    ensures Pow2(n + m) == Pow2(n) * Pow2(m)
  {
    if m > 0 {
      Pow2Add(n, m - 1);
    }
  }

  lemma PowersOf64Bits()
    ensures Pow2(63) == 0x8000_0000_0000_0000 && Pow2(64) == U64_MAX + 1
  {
    assert Pow2(4) == 16;
    assert Pow2(64) == 2 * Pow2(63);
    hide Pow2;
    Pow2Add(4, 4);
    Pow2Add(8, 8);
    Pow2Add(16, 16);
    Pow2Add(32, 32);
  }

  lemma ProductGrows(factor: nat, small: nat, large: nat)
    requires small <= large
    ensures factor * small <= factor * large
  {
  }

  // The shift form is the capped doubling exactly when the attempt fits the shift, or the
  // delay saturates anyway, or the maximum is within reach of the largest shift.
  lemma ShiftIsCappedDoubling(policy: BackoffPolicy, attempt: nat)
    requires policy.Valid()
    ensures DelayForAttempt(policy, attempt) == CappedDoubling(policy, attempt) <==>
              (attempt <= 64 || policy.initial >= 2 || policy.maximum <= 0x8000_0000_0000_0000)
  {
    var initial, maximum := policy.initial, policy.maximum;
    PowersOf64Bits();
    if attempt == 0 {
      assert initial * Pow2(0) == initial;
    } else {
      DoublingIsCappedPower(policy, attempt);
      if attempt > 64 {
        Pow2Grows(64, attempt - 1);
        ProductGrows(initial, Pow2(64), Pow2(attempt - 1));
        assert initial * Pow2(64) >= Pow2(64);
        hide Pow2, CappedDoubling;
        if initial >= 2 {
          assert initial * Pow2(63) >= 2 * Pow2(63);
        }
      }
    }
  }

  // The one policy family for which the two part: an initial delay of one millisecond and a
  // maximum beyond the reach of the shift.
  lemma ShiftFallsShort()
    ensures var policy := BackoffPolicy(1, U64_MAX);
            policy.Valid() && DelayForAttempt(policy, 65) == 0x8000_0000_0000_0000
            && CappedDoubling(policy, 65) == U64_MAX
  {
    PowersOf64Bits();
    DoublingIsCappedPower(BackoffPolicy(1, U64_MAX), 65);
  }

  lemma DelayIsBounded(policy: BackoffPolicy, attempt: nat)
    requires policy.Valid()
    ensures policy.initial <= DelayForAttempt(policy, attempt) <= policy.maximum
    ensures attempt <= 1 ==> DelayForAttempt(policy, attempt) == policy.initial
  {
    var shift := Min(if attempt > 0 then attempt - 1 else 0, 63);
    ProductGrows(policy.initial, 1, Pow2(shift));
    assert shift == 0 ==> Pow2(shift) == 1;
    hide Pow2;
  }

  lemma DelayIsMonotone(policy: BackoffPolicy, earlier: nat, later: nat)
    requires policy.Valid() && earlier <= later
    ensures DelayForAttempt(policy, earlier) <= DelayForAttempt(policy, later)
  {
    var first := Min(if earlier > 0 then earlier - 1 else 0, 63);
    var second := Min(if later > 0 then later - 1 else 0, 63);
    Pow2Grows(first, second);
    ProductGrows(policy.initial, Pow2(first), Pow2(second));
  }
}
