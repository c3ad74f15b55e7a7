/** The two-axis control surface for the speech parameters
    (src/components/AdvancedControl.js).

    Parameters are grouped in pairs by their `group` tag; each group is drawn
    as a square whose valid region is [50,450] x [50,450] pixels, the first
    parameter of the group on the X axis and the second on the Y axis (upwards).
    A click inside the region commits new parameter values and sets the
    group's animation target; fixed-period ticks move the displayed cursor and
    the displayed values towards that target by exponential smoothing.

    Arithmetic is over `real`: the browser's IEEE doubles are not modelled. */
module AdvancedControl {
  import opened Values

  /** One entry of the `ttsParams` object. `value` is missing until the
      control defaults it. The display name and URL parameter are not used here. */
  datatype Param = Param(min: real, max: real, default: real, group: string, value: Option<real>)

  /** JavaScript's `!param.value`: a missing value and the number 0 are both falsy. */
  predicate Falsy(v: Option<real>)
  {
    v.None? || v.value == 0.0
  }

  /** The defaulting step of lines 59-63 for one parameter. */
  function WithDefault(p: Param): Param
  {
    if Falsy(p.value) then p.(value := Some(p.default)) else p
  }

  /** Defaulting touches only `value`, keeps a value already set, and a second
      pass changes nothing (so remounting the control keeps committed values). */
  lemma WithDefaultKeepsSetValues(p: Param)
    ensures WithDefault(p).value.Some?
    ensures WithDefault(p).(value := p.value) == p
    ensures !Falsy(p.value) ==> WithDefault(p) == p
    ensures Falsy(p.value) ==> WithDefault(p).value == Some(p.default)
    ensures WithDefault(WithDefault(p)) == WithDefault(p)
  {
  }

  /** Defaulting applied to every parameter. */
  function Defaulted(entries: map<string, Param>): map<string, Param>
  {
    map k | k in entries :: WithDefault(entries[k])
  }

  /** The `value` commit of lines 99-101: only the keys of `values` change. */
  function Committed(entries: map<string, Param>, values: map<string, real>): map<string, Param>
  {
    map k | k in entries :: if k in values then entries[k].(value := Some(values[k])) else entries[k]
  }

  /** The `ttsParams` object: loaded once from the configuration, shared by
      reference between the application and this control, which writes the
      `value` of its entries in place. `keys` is the object's key order. */
  class TtsParams {
    const keys: seq<string>
    var entries: map<string, Param>

    ghost predicate Valid()
      reads this
    {
      && (forall i, j :: 0 <= i < j < |keys| ==> keys[i] != keys[j])
      && (forall k :: k in entries <==> k in keys)
    }

    constructor (keys: seq<string>, entries: map<string, Param>)
      requires forall i, j :: 0 <= i < j < |keys| ==> keys[i] != keys[j]
      requires forall k :: k in entries <==> k in keys
      ensures Valid() && this.keys == keys && this.entries == entries
    {
      this.keys := keys;
      this.entries := entries;
    }

    /** The `forEach` of lines 59-63: a falsy `value` becomes the default. */
    method DefaultValues()
      requires Valid()
      modifies this
      ensures Valid() && entries == Defaulted(old(entries))
    {
      var i := 0;
      while i < |keys|
        invariant 0 <= i <= |keys|
        invariant entries.Keys == old(entries).Keys
        invariant forall k :: k in entries ==>
          entries[k] == if k in keys[..i] then WithDefault(old(entries)[k]) else old(entries)[k]
      {
        var k := keys[i];
        assert k !in keys[..i];
        var p := entries[k];
        if Falsy(p.value) {
          entries := entries[k := p.(value := Some(p.default))];
        }
        assert keys[..i + 1] == keys[..i] + [k];
        i := i + 1;
      }
      assert keys[..i] == keys;
    }

    /** The loop of lines 99-101: each key of `values` gets its new `value`. */
    method Commit(members: seq<string>, values: map<string, real>)
      requires Valid()
      requires forall k :: k in values <==> k in members
      requires forall k :: k in members ==> k in entries
      modifies this
      ensures Valid() && entries == Committed(old(entries), values)
    {
      var i := 0;
      while i < |members|
        invariant 0 <= i <= |members|
        invariant entries.Keys == old(entries).Keys
        invariant forall k :: k in entries ==>
          entries[k] == if k in members[..i] then old(entries)[k].(value := Some(values[k])) else old(entries)[k]
      {
        var k := members[i];
        entries := entries[k := entries[k].(value := Some(values[k]))];
        assert members[..i + 1] == members[..i] + [k];
        i := i + 1;
      }
      assert members[..i] == members;
    }
  }

  // ---------------------------------------------------------------- grouping

  predicate Covers(keys: seq<string>, entries: map<string, Param>)
  {
    forall i :: 0 <= i < |keys| ==> keys[i] in entries
  }

  /** The `reduce` of lines 23-30: walking the keys in order, each key is added
      at the end of the group its `group` tag names. */
  function Grouped(keys: seq<string>, entries: map<string, Param>): map<string, seq<string>>
    requires Covers(keys, entries)
    decreases |keys|
  {
    if keys == [] then map[]
    else
      var acc := Grouped(keys[..|keys| - 1], entries);
      var k := keys[|keys| - 1];
      var tag := entries[k].group;
      acc[tag := (if tag in acc then acc[tag] else []) + [k]]
  }

  /** Reference definition: the keys whose tag is `tag`, in key order. */
  function Members(keys: seq<string>, entries: map<string, Param>, tag: string): seq<string>
    requires Covers(keys, entries)
    decreases |keys|
  {
    if keys == [] then []
    else (if entries[keys[0]].group == tag then [keys[0]] else []) + Members(keys[1..], entries, tag)
  }

  lemma {:induction false} MembersSnoc(keys: seq<string>, entries: map<string, Param>, tag: string)
    requires Covers(keys, entries) && keys != []
    ensures var k := keys[|keys| - 1];
      Members(keys, entries, tag)
      == Members(keys[..|keys| - 1], entries, tag) + (if entries[k].group == tag then [k] else [])
    decreases |keys|
  {
    if |keys| > 1 {
      MembersSnoc(keys[1..], entries, tag);
      assert keys[1..][..|keys[1..]| - 1] == keys[..|keys| - 1][1..];
    }
  }

  /** Grouping is the partition of the keys by tag: a tag is a group exactly
      when some key carries it, and the group lists those keys in key order. */
  lemma {:induction false} GroupedByTag(keys: seq<string>, entries: map<string, Param>, tag: string)
    requires Covers(keys, entries)
    ensures tag in Grouped(keys, entries) <==> Members(keys, entries, tag) != []
    ensures tag in Grouped(keys, entries) ==> Grouped(keys, entries)[tag] == Members(keys, entries, tag)
    decreases |keys|
  {
    if keys != [] {
      GroupedByTag(keys[..|keys| - 1], entries, tag);
      MembersSnoc(keys, entries, tag);
    }
  }

  lemma {:induction false} MembersContain(keys: seq<string>, entries: map<string, Param>, tag: string, k: string)
    requires Covers(keys, entries)
    ensures k in Members(keys, entries, tag) <==> k in keys && entries[k].group == tag
    decreases |keys|
  {
    if keys != [] {
      MembersContain(keys[1..], entries, tag, k);
      assert k in keys <==> k == keys[0] || k in keys[1..];
    }
  }

  /** Every key lies in exactly one group, the one its tag names. */
  lemma EveryKeyInItsGroup(keys: seq<string>, entries: map<string, Param>, k: string)
    requires Covers(keys, entries) && k in keys
    ensures entries[k].group in Grouped(keys, entries)
    ensures k in Grouped(keys, entries)[entries[k].group]
    ensures forall tag :: tag in Grouped(keys, entries) && k in Grouped(keys, entries)[tag] ==> tag == entries[k].group
  {
    var tag := entries[k].group;
    MembersContain(keys, entries, tag, k);
    GroupedByTag(keys, entries, tag);
    forall t | t in Grouped(keys, entries) && k in Grouped(keys, entries)[t]
      ensures t == tag
    {
      GroupedByTag(keys, entries, t);
      MembersContain(keys, entries, t, k);
    }
  }

  /** The X key of a group (`Object.keys(params)[0]`) is the first key, in key
      order, that carries the group's tag. */
  lemma {:induction false} FirstMemberIsFirstKey(keys: seq<string>, entries: map<string, Param>, tag: string)
    requires Covers(keys, entries) && Members(keys, entries, tag) != []
    ensures exists i :: (0 <= i < |keys| && keys[i] == Members(keys, entries, tag)[0]
      && entries[keys[i]].group == tag
      && forall j :: 0 <= j < i ==> entries[keys[j]].group != tag)
    decreases |keys|
  {
    if entries[keys[0]].group != tag {
      FirstMemberIsFirstKey(keys[1..], entries, tag);
      var i :| 0 <= i < |keys[1..]| && keys[1..][i] == Members(keys[1..], entries, tag)[0]
        && entries[keys[1..][i]].group == tag
        && forall j :: 0 <= j < i ==> entries[keys[1..][j]].group != tag;
      assert keys[i + 1] == Members(keys, entries, tag)[0];
      assert forall j :: 0 <= j < i + 1 ==> entries[keys[j]].group != tag by {
        forall j | 0 <= j < i + 1 ensures entries[keys[j]].group != tag {
          if j > 0 { assert keys[j] == keys[1..][j - 1]; }
        }
      }
    } else {
      assert keys[0] == Members(keys, entries, tag)[0];
    }
  }

  /** What the code silently assumes of its configuration: bounds with
      `min < max` (it divides by `max - min`) and groups of at least two
      parameters (it reads `Object.keys(params)[1]`). Nothing checks either. */
  predicate Configured(keys: seq<string>, entries: map<string, Param>)
  {
    Covers(keys, entries) && Bounded(entries) && Paired(Grouped(keys, entries))
  }

  predicate Bounded(entries: map<string, Param>)
  {
    forall k :: k in entries ==> entries[k].min < entries[k].max
  }

  predicate Paired(grouped: map<string, seq<string>>)
  {
    forall tag :: tag in grouped ==> |grouped[tag]| >= 2
  }

  /** The same assumptions, stated of a grouping already computed. */
  predicate Drawable(grouped: map<string, seq<string>>, entries: map<string, Param>)
  {
    forall tag :: tag in grouped ==>
      && |grouped[tag]| >= 2
      && forall k :: k in grouped[tag] ==> k in entries && entries[k].min < entries[k].max
  }

  lemma ConfiguredIsDrawable(keys: seq<string>, entries: map<string, Param>)
    requires Configured(keys, entries)
    ensures Drawable(Grouped(keys, entries), entries)
  {
    forall tag, k | tag in Grouped(keys, entries) && k in Grouped(keys, entries)[tag]
      ensures k in entries
    {
      GroupedByTag(keys, entries, tag);
      MembersContain(keys, entries, tag, k);
    }
  }

  // ---------------------------------------------------- positions and clicks

  datatype Point = Point(x: real, y: real)

  /** Where `v` lies between the bounds, as a fraction. */
  function Percent(p: Param, v: real): real
    requires p.min < p.max
  {
    (v - p.min) / (p.max - p.min)
  }

  /** The cursor drawn for a group's defaults (lines 39-41); Y grows upwards. */
  function InitialPosition(xp: Param, yp: Param): Point
    requires xp.min < xp.max && yp.min < yp.max
  {
    Point(50.0 + Percent(xp, xp.default) * 400.0, 450.0 - Percent(yp, yp.default) * 400.0)
  }

  function InitialPositions(grouped: map<string, seq<string>>, entries: map<string, Param>): map<string, Point>
    requires Drawable(grouped, entries)
  {
    map tag | tag in grouped :: InitialPosition(entries[grouped[tag][0]], entries[grouped[tag][1]])
  }

  /** The displayed values of lines 46-52: every member at its default. */
  function InitialValues(grouped: map<string, seq<string>>, entries: map<string, Param>): map<string, map<string, real>>
    requires forall tag, k :: tag in grouped && k in grouped[tag] ==> k in entries
  {
    map tag | tag in grouped :: map k | k in grouped[tag] :: entries[k].default
  }

  /** The initial state of a configured control is well formed: one cursor
      and one value map per group, each covering exactly the group's members. */
  lemma InitialStateShaped(keys: seq<string>, entries: map<string, Param>)
    requires Configured(keys, entries)
    ensures var g := Grouped(keys, entries);
      && Drawable(g, entries)
      && InitialPositions(g, entries).Keys == g.Keys
      && ValuesShaped(InitialValues(g, entries), g)
      && forall tag :: tag in g ==> g[tag] != [] && forall k :: k in g[tag] ==> k in entries
  {
    ConfiguredIsDrawable(keys, entries);
  }

  /** The click region accepted by line 85. */
  predicate InRegion(x: real, y: real)
  {
    x >= 50.0 && x <= 450.0 && y >= 50.0 && y <= 450.0
  }

  function XPercent(x: real): real
  {
    (x - 50.0) / 400.0
  }

  function YPercent(y: real): real
  {
    1.0 - (y - 50.0) / 400.0
  }

  function Scaled(p: Param, pct: real): real
  {
    p.min + (p.max - p.min) * pct
  }

  /** `updatedValues` of lines 91-95: the group's first key takes the X
      fraction, every other member the Y fraction. */
  function ClickValues(members: seq<string>, entries: map<string, Param>, x: real, y: real): map<string, real>
    requires members != [] && forall k :: k in members ==> k in entries
  {
    map k | k in members :: Scaled(entries[k], if k == members[0] then XPercent(x) else YPercent(y))
  }

  /** Scaling by a fraction in [0, 1] stays within the bounds. */
  lemma ScaledInBounds(p: Param, f: real)
    requires p.min <= p.max && 0.0 <= f <= 1.0
    ensures p.min <= Scaled(p, f) <= p.max
  {
    var w := p.max - p.min;
    assert 0.0 <= w * f;
    assert 0.0 <= w * (1.0 - f);
    assert w * f + w * (1.0 - f) == w;
  }

  /** An accepted click yields values within each parameter's bounds. */
  lemma ClickValuesInBounds(p: Param, x: real, y: real)
    requires InRegion(x, y) && p.min <= p.max
    ensures p.min <= Scaled(p, XPercent(x)) <= p.max
    ensures p.min <= Scaled(p, YPercent(y)) <= p.max
  {
    assert 0.0 <= XPercent(x) <= 1.0 && 0.0 <= YPercent(y) <= 1.0;
    ScaledInBounds(p, XPercent(x));
    ScaledInBounds(p, YPercent(y));
  }

  /** The centre of the region gives the midpoints; its top-left corner gives
      X = min and Y = max; its bottom-right corner X = max and Y = min. */
  lemma ClickLandmarks(p: Param)
    ensures Scaled(p, XPercent(250.0)) == Scaled(p, YPercent(250.0)) == (p.min + p.max) / 2.0
    ensures Scaled(p, XPercent(50.0)) == p.min && Scaled(p, YPercent(50.0)) == p.max
    ensures Scaled(p, XPercent(450.0)) == p.max && Scaled(p, YPercent(450.0)) == p.min
  {
  }

  /** The initial cursor and the click mapping are inverse: clicking where the
      cursor starts commits exactly the defaults. */
  lemma ClickAtInitialPosition(xp: Param, yp: Param)
    requires xp.min < xp.max && yp.min < yp.max
    ensures Scaled(xp, XPercent(InitialPosition(xp, yp).x)) == xp.default
    ensures Scaled(yp, YPercent(InitialPosition(xp, yp).y)) == yp.default
  {
    var px, py := Percent(xp, xp.default), Percent(yp, yp.default);
    assert XPercent(50.0 + px * 400.0) == px;
    assert YPercent(450.0 - py * 400.0) == py;
    assert (xp.max - xp.min) * px == xp.default - xp.min;
    assert (yp.max - yp.min) * py == yp.default - yp.min;
  }

  /** For a group of exactly two parameters, a click on the initial cursor
      reproduces the initial displayed values. */
  lemma ClickAtInitialPositionGivesInitialValues(grouped: map<string, seq<string>>, entries: map<string, Param>, tag: string)
    requires Drawable(grouped, entries) && tag in grouped && |grouped[tag]| == 2
    requires grouped[tag][0] != grouped[tag][1]
    ensures var pos := InitialPositions(grouped, entries)[tag];
      ClickValues(grouped[tag], entries, pos.x, pos.y) == InitialValues(grouped, entries)[tag]
  {
    var m := grouped[tag];
    ClickAtInitialPosition(entries[m[0]], entries[m[1]]);
  }

  /** The bounds sit at fractions 0 and 1, and a value between them at a
      fraction in [0, 1]. */
  lemma PercentEdges(p: Param, v: real)
    requires p.min < p.max
    ensures v == p.min ==> Percent(p, v) == 0.0
    ensures v == p.max ==> Percent(p, v) == 1.0
    ensures p.min <= v <= p.max ==> 0.0 <= Percent(p, v) <= 1.0
  {
    var w := p.max - p.min;
    if p.min <= v <= p.max {
      assert (v - p.min) / w <= w / w;
    }
  }

  /** A default within its bounds puts the cursor inside the click region;
      a default at `min` sits on the left or bottom edge, at `max` on the right or top. */
  lemma InitialPositionPlacement(xp: Param, yp: Param)
    requires xp.min < xp.max && yp.min < yp.max
    ensures xp.min <= xp.default <= xp.max && yp.min <= yp.default <= yp.max
      ==> InRegion(InitialPosition(xp, yp).x, InitialPosition(xp, yp).y)
    ensures xp.default == xp.min ==> InitialPosition(xp, yp).x == 50.0
    ensures xp.default == xp.max ==> InitialPosition(xp, yp).x == 450.0
    ensures yp.default == yp.min ==> InitialPosition(xp, yp).y == 450.0
    ensures yp.default == yp.max ==> InitialPosition(xp, yp).y == 50.0
  {
    PercentEdges(xp, xp.default);
    PercentEdges(yp, yp.default);
  }

  /** The telemetry a handler passes to the application's `trackEvent` and
      `TrackButtons` callbacks. */
  datatype Tracking = Tracking(eventType: string, eventData: Value, button: string)

  function ClickData(x: real, y: real): Value
  {
    Obj(map["x" := Num(x), "y" := Num(y), "xPercent" := Num(XPercent(x)), "yPercent" := Num(YPercent(y))])
  }

  // ---------------------------------------------------------------- animation

  /** `animationRate` (line 17). */
  function Rate(animationEnabled: bool): real
  {
    if animationEnabled then 0.1 else 1.0
  }

  /** One smoothing step: `current + (target - current) * rate`. */
  function Ease(current: real, target: real, rate: real): real
  {
    current + (target - current) * rate
  }

  function Distance(a: real, b: real): real
  {
    if a <= b then b - a else a - b
  }

  /** A step is a convex combination: it never overshoots, shrinks the
      distance by the factor 1 - rate, and at rate 1 lands on the target. */
  lemma EaseStep(current: real, target: real, rate: real)
    requires 0.0 < rate <= 1.0
    ensures target - Ease(current, target, rate) == (1.0 - rate) * (target - current)
    ensures current <= target ==> current <= Ease(current, target, rate) <= target
    ensures target <= current ==> target <= Ease(current, target, rate) <= current
    ensures current != target && rate < 1.0 ==>
      0.0 < Distance(Ease(current, target, rate), target) < Distance(current, target)
    ensures rate == 1.0 ==> Ease(current, target, rate) == target
  {
    var d := target - current;
    assert target - Ease(current, target, rate) == (1.0 - rate) * d;
    if d > 0.0 {
      assert 0.0 <= d * rate <= d by { assert d * rate <= d * 1.0; }
      if rate < 1.0 {
        assert 0.0 < (1.0 - rate) * d < 1.0 * d;
      }
    } else if d < 0.0 {
      assert d <= d * rate <= 0.0 by { assert d * 1.0 <= d * rate; }
      if rate < 1.0 {
        assert 1.0 * d < (1.0 - rate) * d < 0.0;
      }
    }
  }

  function Pow(b: real, k: nat): real
  {
    if k == 0 then 1.0 else b * Pow(b, k - 1)
  }

  /** `k` ticks towards a fixed target. */
  function EaseTimes(current: real, target: real, rate: real, k: nat): real
    decreases k
  {
    if k == 0 then current else EaseTimes(Ease(current, target, rate), target, rate, k - 1)
  }

  /** After k ticks the distance to the target is the initial distance times
      (1 - rate)^k: 0.9^k with animation on, 0 after one tick with it off. */
  lemma {:induction false} EaseTimesDistance(current: real, target: real, rate: real, k: nat)
    ensures target - EaseTimes(current, target, rate, k) == Pow(1.0 - rate, k) * (target - current)
    decreases k
  {
    if k > 0 {
      var next := Ease(current, target, rate);
      EaseTimesDistance(next, target, rate, k - 1);
      var a, b := Pow(1.0 - rate, k - 1), 1.0 - rate;
      assert Pow(1.0 - rate, k) == b * a;
      assert target - next == b * (target - current);
      Regroup(a, b, target - current, target - next);
    }
  }

  lemma Regroup(a: real, b: real, d: real, e: real)
    requires e == b * d
    ensures a * e == (b * a) * d
  {
  }

  function EasePoint(current: Point, target: Point, rate: real): Point
  {
    Point(Ease(current.x, target.x, rate), Ease(current.y, target.y, rate))
  }

  /** The reducer of lines 117-123: every group's cursor takes one step. */
  function EasedPositions(current: map<string, Point>, target: map<string, Point>, rate: real): map<string, Point>
    requires current.Keys <= target.Keys
  {
    map tag | tag in current :: EasePoint(current[tag], target[tag], rate)
  }

  /** Each tick keeps the set of groups and moves every cursor independently;
      at rate 1 every cursor lands on its target. */
  lemma EasedPositionsStep(current: map<string, Point>, target: map<string, Point>, rate: real)
    requires current.Keys == target.Keys
    ensures EasedPositions(current, target, rate).Keys == current.Keys
    ensures forall tag :: tag in current ==>
      EasedPositions(current, target, rate)[tag] == EasePoint(current[tag], target[tag], rate)
    ensures rate == 1.0 ==> EasedPositions(current, target, rate) == target
  {
  }

  /** Whether a map of displayed or target values covers each group's members. */
  ghost predicate ValuesShaped(values: map<string, map<string, real>>, grouped: map<string, seq<string>>)
  {
    && values.Keys == grouped.Keys
    && forall tag :: tag in grouped ==> forall k :: k in values[tag] <==> k in grouped[tag]
  }

  /** The reducer of lines 134-141: every member of every group takes one step. */
  function EasedValues(current: map<string, map<string, real>>, target: map<string, map<string, real>>,
                       grouped: map<string, seq<string>>, rate: real): (r: map<string, map<string, real>>)
    requires ValuesShaped(current, grouped) && ValuesShaped(target, grouped)
    ensures ValuesShaped(r, grouped)
  {
    map tag | tag in current :: map k | k in grouped[tag] :: Ease(current[tag][k], target[tag][k], rate)
  }

  /** Each tick moves every displayed value independently; at rate 1 all of
      them land on their targets. */
  lemma EasedValuesStep(current: map<string, map<string, real>>, target: map<string, map<string, real>>,
                        grouped: map<string, seq<string>>, rate: real)
    requires ValuesShaped(current, grouped) && ValuesShaped(target, grouped)
    ensures forall tag, k :: tag in grouped && k in grouped[tag] ==>
      EasedValues(current, target, grouped, rate)[tag][k] == Ease(current[tag][k], target[tag][k], rate)
    ensures rate == 1.0 ==> EasedValues(current, target, grouped, rate) == target
  {
    if rate == 1.0 {
      var r := EasedValues(current, target, grouped, rate);
      forall tag | tag in grouped ensures r[tag] == target[tag] {
      }
    }
  }

  // ------------------------------------------------------------ the component

  /** The state of one mounted control. Field names differ from the source's:
      `currentPositions` is `positions`, `targetPositions` is
      `animatedPositions`, `currentValues` is `animatedValues`. */
  class Surface {
    const ttsParams: TtsParams
    var grouped: map<string, seq<string>>
    var currentPositions: map<string, Point>
    var targetPositions: map<string, Point>
    var currentValues: map<string, map<string, real>>
    var targetValues: map<string, map<string, real>>
    var animationEnabled: bool

    ghost predicate Valid()
      reads this, ttsParams
    {
      && ttsParams.Valid()
      && currentPositions.Keys == grouped.Keys && targetPositions.Keys == grouped.Keys
      && ValuesShaped(currentValues, grouped) && ValuesShaped(targetValues, grouped)
      && forall tag :: tag in grouped ==>
        && grouped[tag] != []
        && (forall k :: k in grouped[tag] ==> k in ttsParams.entries)
    }

    /** Mounting: every map empty, animation on (lines 10-15). */
    constructor (ttsParams: TtsParams)
      requires ttsParams.Valid()
      ensures Valid() && this.ttsParams == ttsParams && animationEnabled
      ensures grouped == map[] && currentPositions == map[] && targetPositions == map[]
      ensures currentValues == map[] && targetValues == map[]
    {
      this.ttsParams := ttsParams;
      grouped, currentPositions, targetPositions := map[], map[], map[];
      currentValues, targetValues := map[], map[];
      animationEnabled := true;
    }

    /** The effect of lines 19-72, run when the control sees `ttsParams`:
        group, place every cursor at its defaults, show and target the
        defaults, and default every parameter's `value` in place. */
    method Initialise()
      requires Valid() && Configured(ttsParams.keys, ttsParams.entries)
      modifies this`grouped, this`currentPositions, this`targetPositions,
        this`currentValues, this`targetValues, ttsParams
      ensures ttsParams.keys == [] ==>
        && ttsParams.entries == old(ttsParams.entries) && grouped == old(grouped)
        && currentPositions == old(currentPositions) && targetPositions == old(targetPositions)
        && currentValues == old(currentValues) && targetValues == old(targetValues)
      ensures ttsParams.keys != [] ==>
        var g := Grouped(ttsParams.keys, old(ttsParams.entries));
        && grouped == g
        && Drawable(g, old(ttsParams.entries))
        && currentPositions == InitialPositions(g, old(ttsParams.entries))
        && targetPositions == currentPositions
        && currentValues == InitialValues(g, old(ttsParams.entries))
        && targetValues == currentValues
        && ttsParams.entries == Defaulted(old(ttsParams.entries))
      ensures Valid()
    {
      if |ttsParams.keys| == 0 {
        return;
      }
      var entries := ttsParams.entries;
      var g := Grouped(ttsParams.keys, entries);
      InitialStateShaped(ttsParams.keys, entries);
      var positions := InitialPositions(g, entries);
      var values := InitialValues(g, entries);
      ttsParams.DefaultValues();
      assert ttsParams.entries.Keys == entries.Keys;
      grouped := g;
      currentPositions, targetPositions := positions, positions;
      currentValues, targetValues := values, values;
      forall tag | tag in grouped
        ensures grouped[tag] != [] && forall k :: k in grouped[tag] ==> k in ttsParams.entries
      {
      }
    }

    /** `handleGraphClick` (lines 74-110). A click outside the region changes
        nothing and reports nothing. Otherwise it targets the clicked point,
        commits the new values of the clicked group's parameters in place and
        targets them; the displayed cursor and values, and every other group,
        are left alone, so animation continues from where it is. */
    method HandleGraphClick(group: string, x: real, y: real) returns (report: Option<Tracking>)
      requires Valid() && group in grouped
      modifies this`targetPositions, this`targetValues, ttsParams
      ensures Valid()
      ensures report.Some? <==> InRegion(x, y)
      ensures !InRegion(x, y) ==>
        targetPositions == old(targetPositions) && targetValues == old(targetValues)
        && ttsParams.entries == old(ttsParams.entries)
      ensures InRegion(x, y) ==>
        var values := ClickValues(grouped[group], old(ttsParams.entries), x, y);
        && targetPositions == old(targetPositions)[group := Point(x, y)]
        && targetValues == old(targetValues)[group := values]
        && ttsParams.entries == Committed(old(ttsParams.entries), values)
        && report == Some(Tracking(group + "_graph_click", ClickData(x, y), group + "GraphClicked"))
    {
      if !InRegion(x, y) {
        return None;
      }
      report := Some(Tracking(group + "_graph_click", ClickData(x, y), group + "GraphClicked"));
      targetPositions := targetPositions[group := Point(x, y)];
      var members := grouped[group];
      var values := ClickValues(members, ttsParams.entries, x, y);
      ttsParams.Commit(members, values);
      targetValues := targetValues[group := values];
    }

    /** `handleAnimationToggle` (lines 147-151). */
    method ToggleAnimation() returns (report: Tracking)
      requires Valid()
      modifies this`animationEnabled
      ensures Valid() && animationEnabled == !old(animationEnabled)
      ensures report == Tracking("animation_toggle", Obj(map["enabled" := Bool(animationEnabled)]), "AnimationsToggled")
    {
      report := Tracking("animation_toggle", Obj(map["enabled" := Bool(!animationEnabled)]), "AnimationsToggled");
      animationEnabled := !animationEnabled;
    }

    /** One tick of the cursor interval (lines 116-124). */
    method TickPositions()
      requires Valid()
      modifies this`currentPositions
      ensures Valid()
      ensures currentPositions == EasedPositions(old(currentPositions), targetPositions, Rate(animationEnabled))
    {
      currentPositions := EasedPositions(currentPositions, targetPositions, Rate(animationEnabled));
    }

    /** One tick of the value interval (lines 133-142). */
    method TickValues()
      requires Valid()
      modifies this`currentValues
      ensures Valid()
      ensures currentValues == EasedValues(old(currentValues), targetValues, grouped, Rate(animationEnabled))
    {
      currentValues := EasedValues(currentValues, targetValues, grouped, Rate(animationEnabled));
    }
  }
}
