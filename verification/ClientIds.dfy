/** Client order ids made into keys of 32 bits, and taken apart again for the reports. */
module ClientIds {
  import opened Arithmetic
  import opened Common
  import opened OrderManagement

  /** The key is computed without overflow. */
  predicate KeyFits(clOrdId: int, userId: int) {
    Fits32(clOrdId * MAX_USER_COUNT + userId)
  }

  /** The exact keys differ by a multiple of 2^32. */
  predicate SameKey(c: int, u: int, d: int, v: int) {
    ((c - d) * MAX_USER_COUNT + u - v) % TWO_32 == 0
  }

  lemma KeysEqualIff(c: int, u: int, d: int, v: int)
    ensures TransformId(c, u) == TransformId(d, v) <==> SameKey(c, u, d, v)
  {
    hide Wrap32;
    WrapEqualIff(c * MAX_USER_COUNT + u, d * MAX_USER_COUNT + v);
  }

  /** 125 has an inverse modulo 2^29: 125 * INVERSE == 1 + 27 * 2^29. */
  const INVERSE := 115964117
  const TWO_29 := 0x2000_0000

  lemma CollisionStep(k: int, m: int)
    requires k * MAX_USER_COUNT == TWO_32 * m
    ensures k % TWO_29 == 0
  {
    assert k == TWO_29 * (m * INVERSE - 27 * k);
    MultipleMod(TWO_29, m * INVERSE - 27 * k);
  }

  lemma CollisionBack(k: int, m: int)
    requires k == TWO_29 * m
    ensures (k * MAX_USER_COUNT) % TWO_32 == 0
  {
    assert k * MAX_USER_COUNT == TWO_32 * (125 * m);
    MultipleMod(TWO_32, 125 * m);
  }

  /** Two client ids of one user share a key exactly when they differ by a multiple of 2^29. */
  lemma SameUserCollidesIff(c: int, d: int, u: int)
    ensures TransformId(c, u) == TransformId(d, u) <==> (c - d) % TWO_29 == 0
  {
    hide TransformId;
    KeysEqualIff(c, u, d, u);
    var k := c - d;
    if SameKey(c, u, d, u) { CollisionStep(k, (k * MAX_USER_COUNT) / TWO_32); }
    if k % TWO_29 == 0 { CollisionBack(k, k / TWO_29); }
  }

  /** Any two users whose ids agree modulo eight can collide. */
  lemma Collider(u: int, v: int) returns (c: Int32)
    requires u % 8 == v % 8
    ensures SameKey(c, u, 0, v)
  {
    var w := (v - u) / 8;
    var q := (w * INVERSE) / TWO_29;
    var k := (w * INVERSE) % TWO_29;
    assert w * INVERSE == TWO_29 * q + k;
    assert k * MAX_USER_COUNT + u - v == TWO_32 * (27 * w - 125 * q);
    MultipleMod(TWO_32, 27 * w - 125 * q);
    c := k;
  }

  lemma NoCollider(c: int, u: int, d: int, v: int)
    requires u % 8 != v % 8
    ensures !SameKey(c, u, d, v)
  {
    var x := (c - d) * MAX_USER_COUNT + u - v;
    assert x % 8 != 0;
    EightDivides(x);
  }

  lemma EightDivides(x: int)
    ensures x % TWO_32 == 0 ==> x % 8 == 0
  {
  }

  /** Two users never collide, whatever their client ids, exactly when their ids differ modulo eight. */
  lemma UsersNeverCollideIff(u: int, v: int)
    ensures (forall c: Int32, d: Int32 :: TransformId(c, u) != TransformId(d, v)) <==> u % 8 != v % 8
  {
    hide SameKey, TransformId;
    if u % 8 == v % 8 {
      var c := Collider(u, v);
      var d: Int32 := 0;
      KeysEqualIff(c, u, d, v);
      assert TransformId(c, u) == TransformId(d, v);
    } else {
      forall c: Int32, d: Int32 ensures TransformId(c, u) != TransformId(d, v) {
        KeysEqualIff(c, u, d, v);
        NoCollider(c, u, d, v);
      }
    }
  }

  /** Keys that fit determine user and client id. */
  lemma FittingKeysInjective(c: int, u: int, d: int, v: int)
    requires 0 <= u < MAX_USER_COUNT && 0 <= v < MAX_USER_COUNT && KeyFits(c, u) && KeyFits(d, v)
    ensures TransformId(c, u) == TransformId(d, v) <==> c == d && u == v
  {
    hide Wrap32;
    WrapKeepsIff(c * MAX_USER_COUNT + u);
    WrapKeepsIff(d * MAX_USER_COUNT + v);
  }

  /**
   The reports recover the client id by truncating division. That gives back the id exactly when
   the key was computed without overflow and the id is not negative, or the user is zero.
   */
  lemma ReportedIdIff(c: int, u: int)
    requires 0 <= u < MAX_USER_COUNT
    ensures TruncDiv(TransformId(c, u), MAX_USER_COUNT) == c <==> KeyFits(c, u) && (c >= 0 || u == 0)
  {
    var x := c * MAX_USER_COUNT + u;
    WrapKeepsIff(x);
    var key := Wrap32(x);
    hide Wrap32;
    if !KeyFits(c, u) {
      assert (x - key) % TWO_32 == 0 && x != key;
      assert x - key >= TWO_32 || x - key <= -TWO_32;
    }
  }

  /** A negative client id, a client id past the overflow, and what the reports say instead. */
  lemma LostIds()
    ensures TruncDiv(TransformId(-1, 5), MAX_USER_COUNT) == 0
    ensures TruncDiv(TransformId(3000000, 5), MAX_USER_COUNT) == -1294967
  {
  }

  /** Two ids of one user, and two ids of two users, under one key. */
  lemma CollidingIds(u: int)
    ensures TransformId(0, u) == TransformId(0x2000_0000, u)
    ensures TransformId(115964117, 0) == TransformId(0, 8)
  {
    SameUserCollidesIff(0, 0x2000_0000, u);
  }
}
