/** The movement step shared by the server's simulation and the client's prediction. */
module Movement {
  import opened Protocol

  datatype Vec2 = Vec2(x: real, z: real)

  const PLAYER_SPEED_PER_SEC := 1.28
  const TICK_DT_SEC := 0.05
  const CLIENT_DT_SEC := 15625.0 / 1000000.0

  /** Ground covered along one axis in one server tick. */
  const SERVER_STEP := PLAYER_SPEED_PER_SEC * TICK_DT_SEC
  const CLIENT_STEP := PLAYER_SPEED_PER_SEC * CLIENT_DT_SEC

  /** +1, 0 or -1 along one local axis. */
  function Axis(flags: byte, plus: byte, minus: byte): real
    requires plus != 0 && minus != 0
  {
    (if Has(flags, plus) then 1.0 else 0.0) - (if Has(flags, minus) then 1.0 else 0.0)
  }

  /** The keys held, turned from local axes (forward, right) into world axes. */
  function Direction(flags: byte, yaw: Angle): Vec2 {
    var forward := Axis(flags, UP, DOWN);
    var right := Axis(flags, RIGHT, LEFT);
    Vec2(forward * yaw.sin + right * yaw.cos, forward * yaw.cos + right * -yaw.sin)
  }

  function ApplyMoveFlags(pos: Vec2, flags: byte, delta: real, yaw: Angle): Vec2 {
    var d := Direction(flags, yaw);
    Vec2(pos.x + d.x * delta, pos.z + d.z * delta)
  }

  // ----- which way the keys go -----

  /** What a set of held keys adds: up adds (s, c), down takes it away, right adds (c, -s), left takes
      it away. */
  predicate KeysAdd(p: Vec2, q: Vec2, up: bool, down: bool, left: bool, right: bool, s: real, c: real) {
    && q.x == p.x + (if up then s else 0.0) - (if down then s else 0.0)
                  + (if right then c else 0.0) - (if left then c else 0.0)
    && q.z == p.z + (if up then c else 0.0) - (if down then c else 0.0)
                  - (if right then s else 0.0) + (if left then s else 0.0)
  }

  /** A step of length `delta` at a heading.  Bits 0 to 3 of the flags are up, down, left and right. */
  predicate StepsTo(p: Vec2, q: Vec2, flags: byte, yaw: Angle, delta: real) {
    KeysAdd(p, q, flags % 2 == 1, flags / 2 % 2 == 1, flags / 4 % 2 == 1, flags / 8 % 2 == 1,
            yaw.sin * delta, yaw.cos * delta)
  }

  lemma AxisTimes(plus: bool, minus: bool, a: real)
    ensures ((if plus then 1.0 else 0.0) - (if minus then 1.0 else 0.0)) * a ==
            (if plus then a else 0.0) - (if minus then a else 0.0)
  {
  }

  lemma FourProducts(f: real, r: real, s: real, c: real, delta: real)
    ensures (f * s + r * c) * delta == f * (s * delta) + r * (c * delta)
    ensures (f * c + r * -s) * delta == f * (c * delta) - r * (s * delta)
  {
    assert (f * s) * delta == f * (s * delta) && (r * c) * delta == r * (c * delta);
    assert (f * c) * delta == f * (c * delta) && (r * -s) * delta == -(r * (s * delta));
  }

  lemma KeysAddUp(p: Vec2, q: Vec2, f: real, r: real, up: bool, down: bool, left: bool, right: bool, s: real, c: real)
    requires f == (if up then 1.0 else 0.0) - (if down then 1.0 else 0.0)
    requires r == (if right then 1.0 else 0.0) - (if left then 1.0 else 0.0)
    requires q.x == p.x + (f * s + r * c) && q.z == p.z + (f * c - r * s)
    ensures KeysAdd(p, q, up, down, left, right, s, c)
  {
    AxisTimes(up, down, s);
    AxisTimes(up, down, c);
    AxisTimes(right, left, s);
    AxisTimes(right, left, c);
  }

  lemma TurnedKeysAddUp(p: Vec2, q: Vec2, f: real, r: real, up: bool, down: bool, left: bool, right: bool,
                        yaw: Angle, delta: real)
    requires f == (if up then 1.0 else 0.0) - (if down then 1.0 else 0.0)
    requires r == (if right then 1.0 else 0.0) - (if left then 1.0 else 0.0)
    requires q == Vec2(p.x + (f * yaw.sin + r * yaw.cos) * delta, p.z + (f * yaw.cos + r * -yaw.sin) * delta)
    ensures KeysAdd(p, q, up, down, left, right, yaw.sin * delta, yaw.cos * delta)
  {
    FourProducts(f, r, yaw.sin, yaw.cos, delta);
    KeysAddUp(p, q, f, r, up, down, left, right, yaw.sin * delta, yaw.cos * delta);
  }

  lemma StepByKeys(p: Vec2, flags: byte, delta: real, yaw: Angle)
    ensures KeysAdd(p, ApplyMoveFlags(p, flags, delta, yaw), Has(flags, UP), Has(flags, DOWN), Has(flags, LEFT),
                    Has(flags, RIGHT), yaw.sin * delta, yaw.cos * delta)
  {
    TurnedKeysAddUp(p, ApplyMoveFlags(p, flags, delta, yaw), Axis(flags, UP, DOWN), Axis(flags, RIGHT, LEFT),
                    Has(flags, UP), Has(flags, DOWN), Has(flags, LEFT), Has(flags, RIGHT), yaw, delta);
  }

  lemma BitsAreKeys(flags: byte)
    ensures Has(flags, UP) == (flags % 2 == 1) && Has(flags, DOWN) == (flags / 2 % 2 == 1)
    ensures Has(flags, LEFT) == (flags / 4 % 2 == 1) && Has(flags, RIGHT) == (flags / 8 % 2 == 1)
  {
  }

  /** Any set of held keys adds the sum of what its keys add. */
  lemma StepInCoordinates(p: Vec2, flags: byte, delta: real, yaw: Angle)
    ensures StepsTo(p, ApplyMoveFlags(p, flags, delta, yaw), flags, yaw, delta)
  {
    StepByKeys(p, flags, delta, yaw);
    BitsAreKeys(flags);
  }

  /** One key at a time: forward(yaw) is (sin, cos) and right(yaw) is (cos, -sin). */
  lemma KeysPointTheirWay(p: Vec2, delta: real, yaw: Angle)
    ensures ApplyMoveFlags(p, 1, delta, yaw) == Vec2(p.x + yaw.sin * delta, p.z + yaw.cos * delta)
    ensures ApplyMoveFlags(p, 2, delta, yaw) == Vec2(p.x - yaw.sin * delta, p.z - yaw.cos * delta)
    ensures ApplyMoveFlags(p, 8, delta, yaw) == Vec2(p.x + yaw.cos * delta, p.z - yaw.sin * delta)
    ensures ApplyMoveFlags(p, 4, delta, yaw) == Vec2(p.x - yaw.cos * delta, p.z + yaw.sin * delta)
  {
    StepInCoordinates(p, 1, delta, yaw);
    StepInCoordinates(p, 2, delta, yaw);
    StepInCoordinates(p, 4, delta, yaw);
    StepInCoordinates(p, 8, delta, yaw);
  }

  // ----- how far a step goes -----

  function DistSq(a: Vec2, b: Vec2): real {
    (b.x - a.x) * (b.x - a.x) + (b.z - a.z) * (b.z - a.z)
  }

  /** Within `reach` steps along both axes at once: the square root of two per unit of reach. */
  predicate Within(a: Vec2, b: Vec2, reach: real) {
    0.0 <= reach && DistSq(a, b) <= 2.0 * (reach * reach)
  }

  lemma TurningKeepsLength(f: real, r: real, s: real, c: real)
    requires s * s + c * c == 1.0
    ensures var a, b := f * s + r * c, f * c + r * -s;
            a * a + b * b == f * f + r * r
  {
    var a, b := f * s + r * c, f * c + r * -s;
    assert a * a == (f * f) * (s * s) + (r * r) * (c * c) + 2.0 * ((f * s) * (r * c));
    assert b * b == (f * f) * (c * c) + (r * r) * (s * s) - 2.0 * ((f * c) * (r * s));
    assert (f * s) * (r * c) == (f * c) * (r * s);
    assert (f * f) * (s * s) + (f * f) * (c * c) == f * f;
    assert (r * r) * (c * c) + (r * r) * (s * s) == r * r;
  }

  lemma ScaledLength(a: real, b: real, delta: real)
    ensures (a * delta) * (a * delta) + (b * delta) * (b * delta) == (a * a + b * b) * (delta * delta)
  {
    var q := delta * delta;
    assert (a * delta) * (a * delta) == (a * a) * q && (b * delta) * (b * delta) == (b * b) * q;
  }

  lemma AtMostTwice(f: real, r: real, q: real)
    requires f * f <= 1.0 && r * r <= 1.0 && 0.0 <= q
    ensures (f * f + r * r) * q <= 2.0 * q
  {
  }

  /** Rotating a local step by any heading keeps its length, so a tick moves by 0, one or
      (two axes held) the square root of two deltas, whatever the yaw. */
  lemma StepLength(pos: Vec2, flags: byte, delta: real, yaw: Angle)
    ensures var forward, right := Axis(flags, UP, DOWN), Axis(flags, RIGHT, LEFT);
            DistSq(pos, ApplyMoveFlags(pos, flags, delta, yaw))
            == (forward * forward + right * right) * (delta * delta)
    ensures 0.0 <= delta ==> Within(pos, ApplyMoveFlags(pos, flags, delta, yaw), delta)
  {
    var f, r, d := Axis(flags, UP, DOWN), Axis(flags, RIGHT, LEFT), Direction(flags, yaw);
    TurningKeepsLength(f, r, yaw.sin, yaw.cos);
    StepIs(pos, flags, delta, yaw);
    ScaledLength(d.x, d.z, delta);
    AtMostTwice(f, r, delta * delta);
  }

  lemma StepIs(pos: Vec2, flags: byte, delta: real, yaw: Angle)
    ensures var d := Direction(flags, yaw);
            DistSq(pos, ApplyMoveFlags(pos, flags, delta, yaw)) ==
            (d.x * delta) * (d.x * delta) + (d.z * delta) * (d.z * delta)
  {
    var d := Direction(flags, yaw);
    SameDistance(pos, d.x * delta, d.z * delta);
  }

  lemma SameDistance(p: Vec2, dx: real, dz: real)
    ensures DistSq(p, Vec2(p.x + dx, p.z + dz)) == dx * dx + dz * dz
  {
    assert p.x + dx - p.x == dx && p.z + dz - p.z == dz;
  }

  /** A product of two displacements is bounded by the product of their reaches. */
  lemma DotBound(ux: real, uz: real, vx: real, vz: real, m: real, n: real)
    requires 0.0 <= m && 0.0 <= n
    requires ux * ux + uz * uz <= 2.0 * (m * m) && vx * vx + vz * vz <= 2.0 * (n * n)
    ensures ux * vx + uz * vz <= 2.0 * (m * n)
  {
    var dot, cross := ux * vx + uz * vz, ux * vz - uz * vx;
    var u2, v2 := ux * ux + uz * uz, vx * vx + vz * vz;
    var m2, n2 := m * m, n * n;
    var k := 2.0 * (m * n);
    assert dot * dot + cross * cross == u2 * v2;
    assert dot * dot <= u2 * v2;
    assert 0.0 <= u2 && 0.0 <= v2 && 0.0 <= m2 && 0.0 <= n2 && 0.0 <= k;
    assert u2 * v2 <= (2.0 * m2) * v2;
    assert (2.0 * m2) * v2 <= (2.0 * m2) * (2.0 * n2);
    assert (2.0 * m2) * (2.0 * n2) == k * k;
    if dot > k {
      SquareIncreases(k, dot);
    }
  }

  lemma SquareIncreases(a: real, b: real)
    requires 0.0 <= a < b
    ensures a * a < b * b
  {
    var d, t := b - a, b + a;
    assert d * t > 0.0;
    assert d * t == b * b - a * a;
  }

  /** Reaches add up along a path. */
  lemma WithinTransitive(a: Vec2, b: Vec2, c: Vec2, m: real, n: real)
    requires Within(a, b, m) && Within(b, c, n)
    ensures Within(a, c, m + n)
  {
    var ux, uz, vx, vz := b.x - a.x, b.z - a.z, c.x - b.x, c.z - b.z;
    DotBound(ux, uz, vx, vz, m, n);
    assert c.x - a.x == ux + vx && c.z - a.z == uz + vz;
    assert (ux + vx) * (ux + vx) == ux * ux + vx * vx + 2.0 * (ux * vx);
    assert (uz + vz) * (uz + vz) == uz * uz + vz * vz + 2.0 * (uz * vz);
    assert (m + n) * (m + n) == m * m + n * n + 2.0 * (m * n);
  }

  lemma WithinMonotone(a: Vec2, b: Vec2, m: real, n: real)
    requires Within(a, b, m) && m <= n
    ensures Within(a, b, n)
  {
    assert m * m <= n * n by { assert m * m <= m * n <= n * n; }
  }

  /** `n` steps with the same input held. */
  function Walk(pos: Vec2, flags: byte, delta: real, yaw: Angle, n: nat): Vec2 {
    if n == 0 then pos else ApplyMoveFlags(Walk(pos, flags, delta, yaw, n - 1), flags, delta, yaw)
  }

  lemma ScaleAdds(a: real, m: real, n: real)
    ensures a * m + a * n == a * (m + n)
  {
  }

  /** Holding the input for `n` steps covers exactly one step of `n` deltas. */
  lemma {:induction false} WalkIsOneScaledStep(pos: Vec2, flags: byte, delta: real, yaw: Angle, n: nat)
    ensures Walk(pos, flags, delta, yaw, n) == ApplyMoveFlags(pos, flags, n as real * delta, yaw)
  {
    var d := Direction(flags, yaw);
    if n == 0 {
      assert n as real * delta == 0.0;
      assert d.x * 0.0 == 0.0 && d.z * 0.0 == 0.0;
    } else {
      WalkIsOneScaledStep(pos, flags, delta, yaw, n - 1);
      var before := (n - 1) as real * delta;
      assert n as real * delta == before + delta;
      ScaleAdds(d.x, before, delta);
      ScaleAdds(d.z, before, delta);
    }
  }

  /** The keys held cancel out along both axes. */
  predicate NoNetInput(flags: byte) {
    Axis(flags, UP, DOWN) == 0.0 && Axis(flags, RIGHT, LEFT) == 0.0
  }

  lemma NoDirectionExactly(flags: byte, yaw: Angle)
    ensures Direction(flags, yaw) == Vec2(0.0, 0.0) <==> NoNetInput(flags)
  {
    var f, r := Axis(flags, UP, DOWN), Axis(flags, RIGHT, LEFT);
    TurningKeepsLength(f, r, yaw.sin, yaw.cos);
    assert f * f >= 0.0 && r * r >= 0.0;
  }

  lemma SameProduct(p: real, d: real, a: real, b: real)
    ensures p + d * a == p + d * b <==> d == 0.0 || a == b
  {
    assert d * a - d * b == d * (a - b);
    if d * (a - b) == 0.0 && d != 0.0 {
      assert a - b == 0.0;
    }
  }

  lemma ScaledStepsAgree(pos: Vec2, flags: byte, yaw: Angle, a: real, b: real)
    ensures ApplyMoveFlags(pos, flags, a, yaw) == ApplyMoveFlags(pos, flags, b, yaw) <==> a == b || NoNetInput(flags)
  {
    var d := Direction(flags, yaw);
    SameProduct(pos.x, d.x, a, b);
    SameProduct(pos.z, d.z, a, b);
    NoDirectionExactly(flags, yaw);
  }

  lemma SameReach(m: nat, n: nat)
    ensures m as real * CLIENT_STEP == n as real * SERVER_STEP <==> 5 * m == 16 * n
  {
    var a, b := m as real, n as real;
    assert CLIENT_STEP == 0.02 && SERVER_STEP == 0.064;
    assert 5 * m == 16 * n <==> 5.0 * a == 16.0 * b by {
      assert (5 * m) as real == 5.0 * a && (16 * n) as real == 16.0 * b;
    }
  }

  /** Exactly when prediction and authority agree: after m client ticks and n server ticks of the
      same input both are at the same point if and only if the times are equal (m / 64 of a second
      and n / 20), or the keys cancel out. */
  lemma PredictionAgreesExactly(pos: Vec2, flags: byte, yaw: Angle, m: nat, n: nat)
    ensures Walk(pos, flags, CLIENT_STEP, yaw, m) == Walk(pos, flags, SERVER_STEP, yaw, n)
            <==> 5 * m == 16 * n || NoNetInput(flags)
  {
    WalkIsOneScaledStep(pos, flags, CLIENT_STEP, yaw, m);
    WalkIsOneScaledStep(pos, flags, SERVER_STEP, yaw, n);
    ScaledStepsAgree(pos, flags, yaw, m as real * CLIENT_STEP, n as real * SERVER_STEP);
    SameReach(m, n);
  }

  /** Prediction meets authority: a quarter second is 16 client ticks and 5 server ticks,
      and after any number of quarter seconds of the same input both sides agree. */
  lemma PredictionMeetsAuthority(pos: Vec2, flags: byte, yaw: Angle, k: nat)
    ensures Walk(pos, flags, CLIENT_STEP, yaw, 16 * k) == Walk(pos, flags, SERVER_STEP, yaw, 5 * k)
  {
    PredictionAgreesExactly(pos, flags, yaw, 16 * k, 5 * k);
  }

  /** `b` presses exactly the keys opposite to those of `a`. */
  predicate Opposite(a: byte, b: byte) {
    && Has(a, UP) == Has(b, DOWN) && Has(a, DOWN) == Has(b, UP)
    && Has(a, LEFT) == Has(b, RIGHT) && Has(a, RIGHT) == Has(b, LEFT)
  }

  lemma OppositeDirection(a: byte, b: byte, yaw: Angle)
    requires Opposite(a, b)
    ensures Direction(b, yaw) == Vec2(-Direction(a, yaw).x, -Direction(a, yaw).z)
  {
    var f, r := Axis(a, UP, DOWN), Axis(a, RIGHT, LEFT);
    assert Axis(b, UP, DOWN) == -f && Axis(b, RIGHT, LEFT) == -r;
  }

  lemma OutAndBack(p: real, d: real, length: real)
    ensures p + d * length + -d * length == p
  {
    assert -d * length == -(d * length);
  }

  lemma OneStepBack(pos: Vec2, out: byte, back: byte, length: real, yaw: Angle)
    requires Opposite(out, back)
    ensures ApplyMoveFlags(ApplyMoveFlags(pos, out, length, yaw), back, length, yaw) == pos
  {
    OppositeDirection(out, back, yaw);
    var d := Direction(out, yaw);
    OutAndBack(pos.x, d.x, length);
    OutAndBack(pos.z, d.z, length);
  }

  /** Walking out and back with opposite keys at the same heading returns to the start. */
  lemma ThereAndBack(pos: Vec2, out: byte, back: byte, delta: real, yaw: Angle, n: nat)
    requires Opposite(out, back)
    ensures Walk(Walk(pos, out, delta, yaw, n), back, delta, yaw, n) == pos
  {
    WalkIsOneScaledStep(pos, out, delta, yaw, n);
    WalkIsOneScaledStep(Walk(pos, out, delta, yaw, n), back, delta, yaw, n);
    OneStepBack(pos, out, back, n as real * delta, yaw);
  }
}
