/**
 * The `Services` bit flags of dash/dash.py: seven single-bit service flags, the
 * composite presets built from them, and the tests the engine applies to a
 * callback's service value. Python integers are unbounded and non-negative here,
 * so a service value is a `nat` and `&` is modelled bit by bit (`BitAnd`).
 */
module Services {
  import opened Common

  /** `1 << k`. */
  function Pow2(k: nat): (r: nat)
    ensures r >= 1
  {
    if k == 0 then 1 else 2 * Pow2(k - 1)
  }

  /** Bit `k` (weight `1 << k`) of `s` is set. */
  predicate HasBit(s: nat, k: nat)
  {
    if k == 0 then s % 2 == 1 else HasBit(s / 2, k - 1)
  }

  /** Python's `a & b` on non-negative integers. */
  function BitAnd(a: nat, b: nat): nat
  {
    if a == 0 || b == 0 then 0
    else 2 * BitAnd(a / 2, b / 2) + (if a % 2 == 1 && b % 2 == 1 then 1 else 0)
  }

  // The service bits (dash/dash.py:120-132).
  const PUSHER_UPDATE: nat := Pow2(0)
  const PUSHER_OTHER: nat := Pow2(1)
  const NO_CLIENT_INITIAL_CALLBACK: nat := Pow2(2)
  const SERVER_INITIAL_CALLBACK: nat := Pow2(3)
  const SHARED_CALLBACK: nat := Pow2(4)
  const SERIALIZED_CALLBACK: nat := Pow2(5)
  const SHARE_WITH_OTHER_CLIENTS: nat := Pow2(6)

  // The presets (dash/dash.py:136-147); the source adds the bits with `+`.
  const S0: nat := 0
  const SHARED: nat := PUSHER_UPDATE + NO_CLIENT_INITIAL_CALLBACK + SHARED_CALLBACK
                       + SERVER_INITIAL_CALLBACK + SERIALIZED_CALLBACK + SHARE_WITH_OTHER_CLIENTS
  const S2: nat := PUSHER_UPDATE + SERIALIZED_CALLBACK
  const PUSHER_ALL: nat := PUSHER_UPDATE + PUSHER_OTHER
  const NORMAL: nat := 0

  /** The bits `_initial_callbacks` requires together (dash/dash.py:1400). */
  const INITIAL_BITS: nat := SERVER_INITIAL_CALLBACK + SHARED_CALLBACK

  /** The seven flags by name. */
  datatype Flag =
    | PusherUpdate | PusherOther | NoClientInitialCallback | ServerInitialCallback
    | SharedCallback | SerializedCallback | ShareWithOtherClients

  /** The bit position of each flag. */
  function Index(f: Flag): (k: nat)
    ensures k < 7
  {
    match f
    case PusherUpdate => 0
    case PusherOther => 1
    case NoClientInitialCallback => 2
    case ServerInitialCallback => 3
    case SharedCallback => 4
    case SerializedCallback => 5
    case ShareWithOtherClients => 6
  }

  /** The constant the source declares for each flag. */
  function Constant(f: Flag): nat
  {
    match f
    case PusherUpdate => PUSHER_UPDATE
    case PusherOther => PUSHER_OTHER
    case NoClientInitialCallback => NO_CLIENT_INITIAL_CALLBACK
    case ServerInitialCallback => SERVER_INITIAL_CALLBACK
    case SharedCallback => SHARED_CALLBACK
    case SerializedCallback => SERIALIZED_CALLBACK
    case ShareWithOtherClients => SHARE_WITH_OTHER_CLIENTS
  }

  const AllFlags: set<Flag> := {PusherUpdate, PusherOther, NoClientInitialCallback, ServerInitialCallback,
                                SharedCallback, SerializedCallback, ShareWithOtherClients}

  /** The named flags whose bit is set in a service value. */
  function FlagsOf(s: nat): set<Flag>
  {
    set f | f in AllFlags && HasBit(s, Index(f))
  }

  lemma {:induction false} Pow2Injective(i: nat, j: nat)
    requires Pow2(i) == Pow2(j)
    ensures i == j
  {
    if i != 0 && j != 0 {
      Pow2Injective(i - 1, j - 1);
    }
  }

  /** The service bits are pairwise distinct powers of two, `1 << 0` to `1 << 6`. */
  lemma FlagsAreDistinctPowersOfTwo(f: Flag, g: Flag)
    ensures Constant(f) == Pow2(Index(f))
    ensures f != g ==> Constant(f) != Constant(g)
  {
    if f != g && Constant(f) == Constant(g) {
      Pow2Injective(Index(f), Index(g));
    }
  }

  /** `s & (1 << k)` is `1 << k` when bit `k` is set and 0 otherwise. */
  lemma {:induction false} BitAndPow2(s: nat, k: nat)
    ensures BitAnd(s, Pow2(k)) == if HasBit(s, k) then Pow2(k) else 0
  {
    if k == 0 {
    } else if s == 0 {
      BitAndPow2(0, k - 1);
    } else {
      assert Pow2(k) / 2 == Pow2(k - 1) && Pow2(k) % 2 == 0;
      BitAndPow2(s / 2, k - 1);
    }
  }

  /** `Services.shared_test` (dash/dash.py:149-153): None is not shared; otherwise `service & SHARED_CALLBACK`. */
  function SharedTest(service: Option<nat>): (r: nat)
    ensures service.None? ==> r == 0
    ensures service.Some? ==> (r != 0 <==> HasBit(service.value, 4))
    ensures r == 0 || r == SHARED_CALLBACK
  {
    if service.None? then 0
    else
      BitAndPow2(service.value, 4);
      BitAnd(service.value, SHARED_CALLBACK)
  }

  /** The truth value of `shared_test` on a registered service value, as the engine uses it. */
  predicate IsShared(service: nat)
  {
    SharedTest(Some(service)) != 0
  }

  /** `service & SHARE_WITH_OTHER_CLIENTS` (dash/dash.py:1251, 1280). */
  function ShareWithOthers(service: nat): (r: bool)
    ensures r <==> HasBit(service, 6)
  {
    BitAndPow2(service, 6);
    BitAnd(service, SHARE_WITH_OTHER_CLIENTS) != 0
  }

  /** The `_initial_callbacks` test `(service & service_bits) == service_bits` (dash/dash.py:1400-1401). */
  function InitialTest(service: nat): (r: bool)
    ensures r <==> HasBit(service, 3) && HasBit(service, 4)
  {
    InitialBits(service);
    BitAnd(service, INITIAL_BITS) == INITIAL_BITS
  }

  lemma InitialBits(s: nat)
    ensures (BitAnd(s, INITIAL_BITS) == INITIAL_BITS) <==> HasBit(s, 3) && HasBit(s, 4)
  {
    assert INITIAL_BITS == 24;
    if s == 0 {
      assert !HasBit(0, 3) by { assert HasBit(0, 3) == HasBit(0, 0); }
    } else {
      var s1, s2, s3, s4 := s / 2, s / 4, s / 8, s / 16;
      assert s / 2 / 2 == s2 && s2 / 2 == s3 && s3 / 2 == s4;
      assert BitAnd(s, 24) == 2 * BitAnd(s1, 12);
      assert BitAnd(s1, 12) == 2 * BitAnd(s2, 6) by {
        if s1 == 0 { assert s2 == 0; }
      }
      assert BitAnd(s2, 6) == 2 * BitAnd(s3, 3) by {
        if s2 == 0 { assert s3 == 0; }
      }
      assert BitAnd(s3, 3) == 2 * BitAnd(s4, 1) + s3 % 2 by {
        if s3 == 0 { assert s4 == 0; }
      }
      assert BitAnd(s4, 1) == s4 % 2;
      assert HasBit(s, 3) == HasBit(s1, 2) == HasBit(s2, 1) == HasBit(s3, 0);
      assert HasBit(s, 4) == HasBit(s1, 3) == HasBit(s2, 2) == HasBit(s3, 1) == HasBit(s4, 0);
    }
  }

  /** The presets are exactly the unions of the bits the source lists for them. */
  lemma PresetFlags()
    ensures SHARED == 125 && S2 == 33 && PUSHER_ALL == 3 && INITIAL_BITS == 24
    ensures FlagsOf(SHARED) == {PusherUpdate, NoClientInitialCallback, SharedCallback,
                                ServerInitialCallback, SerializedCallback, ShareWithOtherClients}
    ensures FlagsOf(S2) == {PusherUpdate, SerializedCallback}
    ensures FlagsOf(PUSHER_ALL) == {PusherUpdate, PusherOther}
    ensures FlagsOf(S0) == {}
  {
    assert HasBit(125, 1) == HasBit(62, 0);
    assert HasBit(33, 1) == HasBit(16, 0);
    assert HasBit(33, 2) == HasBit(8, 0);
    assert HasBit(33, 3) == HasBit(4, 0);
    assert HasBit(33, 4) == HasBit(2, 0);
    assert HasBit(33, 6) == HasBit(0, 0);
    assert HasBit(3, 2) == HasBit(0, 0);
    assert HasBit(3, 3) == HasBit(0, 1) == HasBit(0, 0);
    assert HasBit(3, 4) == HasBit(0, 0);
    assert HasBit(3, 5) == HasBit(0, 0);
    assert HasBit(3, 6) == HasBit(0, 0);
    forall k: nat | k < 7 ensures !HasBit(0, k) {
      ZeroHasNoBits(k);
    }
  }

  lemma {:induction false} ZeroHasNoBits(k: nat)
    ensures !HasBit(0, k)
  {
    if k > 0 { ZeroHasNoBits(k - 1); }
  }

  /** The shared preset passes `shared_test`; the per-client preset S2 and S0 do not. */
  lemma PresetSharing()
    ensures IsShared(SHARED) && InitialTest(SHARED) && ShareWithOthers(SHARED)
    ensures !IsShared(S2) && !IsShared(S0)
  {
    PresetFlags();
    assert SharedCallback in FlagsOf(SHARED) && ServerInitialCallback in FlagsOf(SHARED);
    assert ShareWithOtherClients in FlagsOf(SHARED);
    assert SharedCallback !in FlagsOf(S2) && SharedCallback !in FlagsOf(S0);
  }
}
