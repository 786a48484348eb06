/**
 * Vector arithmetic, circle geometry and the two small fixed-capacity buffers
 * of the tag simulator's utility header.  Single-precision floats become reals,
 * unsigned integers become naturals; the `sqrt`-based radial projection of
 * `border` is supplied by the caller as a function.
 */
module Utility {

  datatype Option<T> = None | Some(value: T)

  /** sf::Vector2f */
  datatype Vec2 = Vec2(x: real, y: real) {
    function Plus(o: Vec2): Vec2 { Vec2(x + o.x, y + o.y) }
    function Minus(o: Vec2): Vec2 { Vec2(x - o.x, y - o.y) }
    function Scale(k: real): Vec2 { Vec2(x * k, y * k) }
  }

  const Origin := Vec2(0.0, 0.0)

  /** sf::Vector2u */
  datatype GridPos = GridPos(x: nat, y: nat)

  /** A circle given by its centre and radius (the play area). */
  datatype CircularBorder = CircularBorder(center: Vec2, radius: real)

  type uint16 = n: nat | n < 0x1_0000

  // ---------------------------------------------------------------------
  // Pure geometry

  /** Squared Euclidean distance: never negative, zero for coincident points. */
  function DistSquared(a: Vec2, b: Vec2): (d: real)
    ensures d >= 0.0
    ensures a == b ==> d == 0.0
  {
    var dx := b.x - a.x;
    var dy := b.y - a.y;
    SquareNonNegative(dx);
    SquareNonNegative(dy);
    dx * dx + dy * dy
  }

  lemma SquareNonNegative(v: real)
    ensures v * v >= 0.0
  {
    if v < 0.0 {
      assert (-v) * (-v) >= 0.0 * (-v);
      assert v * v == (-v) * (-v);
    } else {
      assert v * v >= 0.0 * v;
    }
  }

  lemma DistSquaredSymmetric(a: Vec2, b: Vec2)
    ensures DistSquared(a, b) == DistSquared(b, a)
  {
    assert (b.x - a.x) * (b.x - a.x) == (a.x - b.x) * (a.x - b.x);
    assert (b.y - a.y) * (b.y - a.y) == (a.y - b.y) * (a.y - b.y);
  }

  /** CircularBorder::contains: strictly inside the circle. */
  predicate Contains(border: CircularBorder, p: Vec2)
  {
    DistSquared(border.center, p) < border.radius * border.radius
  }

  /** Position relative to the circle's centre, scaled by its radius. */
  function RelativePosToCircle(circle: CircularBorder, p: Vec2): Vec2
    requires circle.radius != 0.0
  {
    Vec2((p.x - circle.center.x) / circle.radius, (p.y - circle.center.y) / circle.radius)
  }

  /** Snaps an unsigned position down to the tile grid, one axis at a time. */
  function ClipToGrid(p: GridPos, tile: GridPos): (r: GridPos)
    requires tile.x > 0 && tile.y > 0
    ensures r.x % tile.x == 0 && r.y % tile.y == 0
    ensures r.x <= p.x < r.x + tile.x
    ensures r.y <= p.y < r.y + tile.y
  {
    SnapDown(p.x, tile.x);
    SnapDown(p.y, tile.y);
    GridPos((p.x / tile.x) * tile.x, (p.y / tile.y) * tile.y)
  }

  lemma SnapDown(v: nat, t: nat)
    requires t > 0
    ensures ((v / t) * t) % t == 0
    ensures (v / t) * t <= v < (v / t) * t + t
  {
    var q := v / t;
    assert v == q * t + v % t;
    MultipleMod(q, t);
  }

  lemma MultipleMod(q: nat, t: nat)
    requires t > 0
    ensures (q * t) % t == 0
  {
    var m := q * t;
    var d, r := m / t, m % t;
    assert m == d * t + r && 0 <= r < t;
    assert (q - d) * t == r;
    if q - d >= 1 {
      assert false;
    } else if q - d <= -1 {
      assert false;
    }
  }

  /** speed_limit: clamps each component into [-maxSpeed, maxSpeed] and reports whether it changed anything. */
  method SpeedLimit(v: Vec2, maxSpeed: real) returns (w: Vec2, capped: bool)
    ensures capped <==> w != v
    ensures maxSpeed >= 0.0 ==> -maxSpeed <= w.x <= maxSpeed && -maxSpeed <= w.y <= maxSpeed
    ensures -maxSpeed <= v.x <= maxSpeed ==> w.x == v.x
    ensures -maxSpeed <= v.y <= maxSpeed ==> w.y == v.y
    ensures v.x > maxSpeed ==> w.x == maxSpeed
    ensures v.y > maxSpeed ==> w.y == maxSpeed
    ensures v.x <= maxSpeed && v.x < -maxSpeed ==> w.x == -maxSpeed
    ensures v.y <= maxSpeed && v.y < -maxSpeed ==> w.y == -maxSpeed
  {
    w, capped := v, false;
    if w.x > maxSpeed {
      w, capped := w.(x := maxSpeed), true;
    } else if w.x < -maxSpeed {
      w, capped := w.(x := -maxSpeed), true;
    }
    if w.y > maxSpeed {
      w, capped := w.(y := maxSpeed), true;
    } else if w.y < -maxSpeed {
      w, capped := w.(y := -maxSpeed), true;
    }
  }

  /**
   * border: leaves the position alone while the body (of the given radius)
   * lies inside the circle, otherwise replaces it by the radial projection
   * `project` supplies and reports the correction.
   */
  method Border(border: CircularBorder, position: Vec2, radius: real, project: Vec2 -> Vec2)
    returns (p: Vec2, corrected: bool)
    ensures corrected <==> DistSquared(border.center, position) > (border.radius - radius) * (border.radius - radius)
    ensures !corrected ==> p == position
    ensures corrected ==> p == project(position)
  {
    var rad := border.radius - radius;
    var distToCenter := DistSquared(border.center, position);
    var radiusSq := rad * rad;
    if distToCenter > radiusSq {
      p, corrected := project(position), true;
    } else {
      p, corrected := position, false;
    }
  }

  // ---------------------------------------------------------------------
  // Vectors as sequences

  /** Sum of u[i] * v[i] over u's length, accumulated from the front. */
  function Dot(u: seq<real>, v: seq<real>): real
    requires |u| <= |v|
  {
    if |u| == 0 then 0.0 else Dot(u[..|u| - 1], v) + u[|u| - 1] * v[|u| - 1]
  }

  /** Element-wise sum over a's length. */
  function Pairwise(a: seq<real>, b: seq<real>): (r: seq<real>)
    requires |a| <= |b|
    ensures |r| == |a|
  {
    seq(|a|, i requires 0 <= i < |a| => a[i] + b[i])
  }

  /** dot over std::vector: the loop of the source, proved equal to Dot. */
  method DotProduct(u: seq<real>, v: seq<real>) returns (r: real)
    requires |u| <= |v|
    ensures r == Dot(u, v)
  {
    r := 0.0;
    for i := 0 to |u|
      invariant r == Dot(u[..i], v)
    {
      assert u[..i + 1][..i] == u[..i];
      r := r + u[i] * v[i];
    }
    assert u[..|u|] == u;
  }

  lemma {:induction false} DotPrefix(u: seq<real>, v: seq<real>, w: seq<real>)
    requires |u| <= |v| && |u| <= |w| && v[..|u|] == w[..|u|]
    ensures Dot(u, v) == Dot(u, w)
  {
    if |u| > 0 {
      var k := |u| - 1;
      assert v[k] == v[..|u|][k] && w[k] == w[..|u|][k];
      DotPrefix(u[..k], v, w);
    }
  }

  /** Dot with a zero vector on the left is zero. */
  lemma {:induction false} DotZeroLeft(u: seq<real>, v: seq<real>)
    requires |u| <= |v|
    requires forall i :: 0 <= i < |u| ==> u[i] == 0.0
    ensures Dot(u, v) == 0.0
  {
    if |u| > 0 {
      DotZeroLeft(u[..|u| - 1], v);
    }
  }

  /** Dot is linear in its left argument: adding a vector with addToVector adds its dot product. */
  lemma {:induction false} DotPairwise(a: seq<real>, b: seq<real>, x: seq<real>)
    requires |a| <= |b| && |a| <= |x|
    ensures Dot(Pairwise(a, b), x) == Dot(a, x) + Dot(b[..|a|], x)
  {
    if |a| > 0 {
      var k := |a| - 1;
      assert Pairwise(a, b)[..k] == Pairwise(a[..k], b);
      assert b[..|a|][..k] == b[..k];
      DotPairwise(a[..k], b, x);
    }
  }

  /** addToVector: adds vecToAdd element-wise into the vector, in place. */
  method AddToVector(vector: array<real>, vecToAdd: seq<real>)
    requires vector.Length <= |vecToAdd|
    modifies vector
    ensures vector[..] == Pairwise(old(vector[..]), vecToAdd)
  {
    for i := 0 to vector.Length
      invariant forall j :: 0 <= j < i ==> vector[j] == old(vector[j]) + vecToAdd[j]
      invariant forall j :: i <= j < vector.Length ==> vector[j] == old(vector[j])
    {
      vector[i] := vector[i] + vecToAdd[i];
    }
  }

  /** dotNetwork: row i of the weights dotted with the inputs, plus bias i, into writeTo[i]. */
  method DotNetwork(writeTo: array<real>, inputs: seq<real>, weights: seq<seq<real>>, biases: seq<real>)
    requires |weights| <= writeTo.Length && |weights| <= |biases|
    requires forall i :: 0 <= i < |weights| ==> |weights[i]| <= |inputs|
    modifies writeTo
    ensures forall i :: 0 <= i < |weights| ==> writeTo[i] == Dot(weights[i], inputs) + biases[i]
    ensures forall i :: |weights| <= i < writeTo.Length ==> writeTo[i] == old(writeTo[i])
  {
    for i := 0 to |weights|
      invariant forall j :: 0 <= j < i ==> writeTo[j] == Dot(weights[j], inputs) + biases[j]
      invariant forall j :: i <= j < writeTo.Length ==> writeTo[j] == old(writeTo[j])
    {
      var d := DotProduct(weights[i], inputs);
      writeTo[i] := d + biases[i];
    }
  }

  // ---------------------------------------------------------------------
  // Sums of naturals, for the frame-rate average

  function Sum(s: seq<nat>): nat
  {
    if |s| == 0 then 0 else Sum(s[..|s| - 1]) + s[|s| - 1]
  }

  lemma {:induction false} SumConcat(a: seq<nat>, b: seq<nat>)
    ensures Sum(a + b) == Sum(a) + Sum(b)
  {
    if |b| > 0 {
      var k := |b| - 1;
      assert (a + b)[..|a + b| - 1] == a + b[..k];
      SumConcat(a, b[..k]);
    } else {
      assert a + b == a;
    }
  }

  lemma {:induction false} SumZeros(s: seq<nat>)
    requires forall i :: 0 <= i < |s| ==> s[i] == 0
    ensures Sum(s) == 0
  {
    if |s| > 0 {
      SumZeros(s[..|s| - 1]);
    }
  }

  /**
   * BetterFrameRates<resolution>: a ring of the last `resolution` frame-rate
   * samples.  `counter` is the next slot to write (reset to 0 lazily, at the
   * start of the following write), `size` saturates at `resolution`.  The
   * ghost `retained` lists the samples the ring holds, oldest first: while
   * filling they sit in slots [0, size) with zeros after them; once full the
   * oldest is at `counter` and the ring reads round from there.
   * Resolutions up to 255 keep the 8-bit `size`/`counter` and the unsigned
   * sum of getFrameRate (at most 255 * 65535) from wrapping.
   */
  class FrameRates {
    const resolution: nat
    const framerates: array<uint16>
    var size: nat
    var counter: nat
    ghost var retained: seq<uint16>

    ghost predicate Valid()
      reads this, framerates
    {
      1 <= resolution <= 255 && framerates.Length == resolution &&
      counter <= resolution && size <= resolution && |retained| == size &&
      (size < resolution ==>
        counter == size && framerates[..size] == retained &&
        forall j :: size <= j < resolution ==> framerates[j] == 0) &&
      (size == resolution ==> framerates[counter..] + framerates[..counter] == retained)
    }

    constructor (resolution: nat)
      requires 1 <= resolution <= 255
      ensures Valid() && fresh(framerates)
      ensures this.resolution == resolution && size == 0 && counter == 0 && retained == []
    {
      this.resolution := resolution;
      framerates := new uint16[resolution](_ => 0);
      size, counter := 0, 0;
      retained := [];
    }

    /** getFrameRate: the integer mean of the retained samples (0 before any sample). */
    method GetFrameRate() returns (r: nat)
      requires Valid()
      ensures size == 0 ==> r == 0
      ensures size > 0 ==> r == Sum(retained) / size
    {
      if size == 0 {
        return 0;
      }
      var sum := SumSlots(framerates);
      RingSum();
      r := Quotient(sum, size);
    }

    static function Quotient(total: nat, count: nat): nat
      requires count > 0
    {
      total / count
    }

    /** The summing loop of getFrameRate, over every slot. */
    static method SumSlots(slots: array<uint16>) returns (sum: nat)
      ensures sum == Sum(slots[..])
    {
      sum := 0;
      for i := 0 to slots.Length
        invariant sum == Sum(slots[..i])
      {
        assert slots[..i + 1][..i] == slots[..i];
        sum := sum + slots[i];
      }
      assert slots[..slots.Length] == slots[..];
    }

    /** Summing every slot sums exactly the retained samples. */
    lemma RingSum()
      requires Valid()
      ensures Sum(framerates[..]) == Sum(retained)
    {
      if size < resolution {
        assert framerates[..] == framerates[..size] + framerates[size..];
        SumConcat(framerates[..size], framerates[size..]);
        SumZeros(framerates[size..]);
      } else {
        assert framerates[..] == framerates[..counter] + framerates[counter..];
        SumConcat(framerates[..counter], framerates[counter..]);
        SumConcat(framerates[counter..], framerates[..counter]);
      }
    }

    /**
     * updateFrameRates: writes the sample at `counter` (after wrapping it to
     * 0 at `resolution`); once the ring is full that slot holds the oldest
     * retained sample, which the new one replaces.
     */
    method UpdateFrameRates(frameRate: uint16)
      requires Valid()
      modifies this, framerates
      ensures Valid()
      ensures size == if old(size) < resolution then old(size) + 1 else resolution
      ensures old(counter) < resolution ==> counter == old(counter) + 1
      ensures old(counter) == resolution ==> counter == 1
      ensures framerates[..] == old(framerates[..])[counter - 1 := frameRate]
      ensures old(size) == resolution ==> old(framerates[..])[counter - 1] == old(retained)[0]
      ensures retained == if old(size) < resolution then old(retained) + [frameRate]
                          else old(retained)[1..] + [frameRate]
    {
      if counter >= resolution {
        counter := 0;
      }
      ghost var ring, kept := framerates[..], retained;
      if size < resolution {
        size := size + 1;
        retained := retained + [frameRate];
        GrowingRingAfterWrite(ring, ring[counter := frameRate], counter, frameRate, kept);
      } else {
        assert ring[counter..] + ring[..counter] == retained;
        assert ring[counter] == retained[0];
        retained := retained[1..] + [frameRate];
        FullRingAfterWrite(ring, ring[counter := frameRate], counter, frameRate);
      }
      framerates[counter] := frameRate;
      counter := counter + 1;
    }

    /** Before the ring fills, writing at the first free slot appends the sample and leaves the rest zero. */
    static lemma GrowingRingAfterWrite(before: seq<uint16>, after: seq<uint16>, c: nat, x: uint16, kept: seq<uint16>)
      requires c < |before| && after == before[c := x] && before[..c] == kept
      requires forall j :: c <= j < |before| ==> before[j] == 0
      ensures after[..c + 1] == kept + [x]
      ensures forall j :: c + 1 <= j < |after| ==> after[j] == 0
    {
      assert after[..c + 1] == before[..c] + [x];
    }

    /** Rotating the ring one past the slot just overwritten drops the oldest sample and appends the new one. */
    static lemma FullRingAfterWrite(before: seq<uint16>, after: seq<uint16>, c: nat, x: uint16)
      requires c < |before| && after == before[c := x]
      ensures after[c + 1..] + after[..c + 1] == (before[c..] + before[..c])[1..] + [x]
    {
      assert after[c + 1..] == before[c + 1..];
      assert after[..c + 1] == before[..c] + [x];
      assert (before[c..] + before[..c])[1..] == before[c + 1..] + before[..c];
    }
  }

  /**
   * container_vector<E, max>: a fixed array of `max` pointer slots (null
   * initially) filled from the front; additions beyond capacity are dropped.
   */
  class ContainerVector<T> {
    const capacity: nat
    const items: array<Option<T>>
    var size: nat

    ghost predicate Valid()
      reads this, items
    {
      capacity <= 255 && items.Length == capacity && size <= capacity &&
      (forall j :: 0 <= j < size ==> items[j].Some?) &&
      (forall j :: size <= j < capacity ==> items[j] == None)
    }

    /** The pointers added so far, in order. */
    ghost function Elements(): seq<T>
      reads this, items
      requires Valid()
    {
      seq(size, i requires 0 <= i < size && i < items.Length && items[i].Some? reads this, items => items[i].value)
    }

    constructor (capacity: nat)
      requires capacity <= 255
      ensures Valid() && fresh(items) && this.capacity == capacity && Elements() == []
    {
      this.capacity := capacity;
      items := new Option<T>[capacity](_ => None);
      size := 0;
    }

    method Add(value: T)
      requires Valid()
      modifies this, items
      ensures Valid()
      ensures size == if old(size) < capacity then old(size) + 1 else old(size)
      ensures Elements() == if old(size) < capacity then old(Elements()) + [value] else old(Elements())
    {
      if size >= capacity {
        return;
      }
      items[size] := Some(value);
      size := size + 1;
    }

    /** at: the slot's pointer, null for a slot not yet filled. */
    method At(index: nat) returns (v: Option<T>)
      requires Valid() && index < capacity
      ensures index < size ==> v == Some(Elements()[index])
      ensures size <= index ==> v == None
    {
      v := items[index];
    }
  }
}
