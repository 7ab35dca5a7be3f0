/** The live-tunable dimensions of the block shapes and the service that holds
    them (services/geometryConfig.ts). */
module GeometryConfig {

  /** The names of the tuning parameters (`GeoKey`). */
  datatype GeoKey =
    | ColTolerance | ColHShrink | ColArmThick | Col1dThick | Col1dTipCenter
    | ColTipWidth | ColTipLen | ColTipCenter | ColPillarSize
    | VisTipWidth | VisHubThick | VisArmLong | VisArmShort
    | VisBaseSlabHeight | VisPillarSize | VisPillarOffset
    | VisTerminalPlateZ | VisTerminalStemZ | VisTerminalPlateDepth

  /** One value per parameter: a snapshot of the configuration. */
  datatype GeoConfig = GeoConfig(
    colTolerance: real, colHShrink: real, colArmThick: real,
    col1dThick: real, col1dTipCenter: real,
    colTipWidth: real, colTipLen: real, colTipCenter: real, colPillarSize: real,
    visTipWidth: real, visHubThick: real, visArmLong: real, visArmShort: real,
    visBaseSlabHeight: real, visPillarSize: real, visPillarOffset: real,
    visTerminalPlateZ: real, visTerminalStemZ: real, visTerminalPlateDepth: real)

  /** `GEO_DEFAULTS`. */
  const Defaults: GeoConfig := GeoConfig(
    0.01, 0.04, 0.28,
    0.30, 0.42,
    0.12, 0.8, 0.85, 0.25,
    1.0 / 6.0, 1.0 / 3.0, 0.85, 0.5,
    0.5, 0.34, 0.33,
    0.4, 0.166, 1.0)

  /** `config[key]`. */
  function ValueOf(c: GeoConfig, k: GeoKey): real
  {
    match k
    case ColTolerance => c.colTolerance
    case ColHShrink => c.colHShrink
    case ColArmThick => c.colArmThick
    case Col1dThick => c.col1dThick
    case Col1dTipCenter => c.col1dTipCenter
    case ColTipWidth => c.colTipWidth
    case ColTipLen => c.colTipLen
    case ColTipCenter => c.colTipCenter
    case ColPillarSize => c.colPillarSize
    case VisTipWidth => c.visTipWidth
    case VisHubThick => c.visHubThick
    case VisArmLong => c.visArmLong
    case VisArmShort => c.visArmShort
    case VisBaseSlabHeight => c.visBaseSlabHeight
    case VisPillarSize => c.visPillarSize
    case VisPillarOffset => c.visPillarOffset
    case VisTerminalPlateZ => c.visTerminalPlateZ
    case VisTerminalStemZ => c.visTerminalStemZ
    case VisTerminalPlateDepth => c.visTerminalPlateDepth
  }

  /** `config[key] = value`: no range check against the metadata. */
  function Assign(c: GeoConfig, k: GeoKey, v: real): (r: GeoConfig)
    ensures ValueOf(r, k) == v
    ensures forall k' :: k' != k ==> ValueOf(r, k') == ValueOf(c, k')
  {
    match k
    case ColTolerance => c.(colTolerance := v)
    case ColHShrink => c.(colHShrink := v)
    case ColArmThick => c.(colArmThick := v)
    case Col1dThick => c.(col1dThick := v)
    case Col1dTipCenter => c.(col1dTipCenter := v)
    case ColTipWidth => c.(colTipWidth := v)
    case ColTipLen => c.(colTipLen := v)
    case ColTipCenter => c.(colTipCenter := v)
    case ColPillarSize => c.(colPillarSize := v)
    case VisTipWidth => c.(visTipWidth := v)
    case VisHubThick => c.(visHubThick := v)
    case VisArmLong => c.(visArmLong := v)
    case VisArmShort => c.(visArmShort := v)
    case VisBaseSlabHeight => c.(visBaseSlabHeight := v)
    case VisPillarSize => c.(visPillarSize := v)
    case VisPillarOffset => c.(visPillarOffset := v)
    case VisTerminalPlateZ => c.(visTerminalPlateZ := v)
    case VisTerminalStemZ => c.(visTerminalStemZ := v)
    case VisTerminalPlateDepth => c.(visTerminalPlateDepth := v)
  }

  /** Two snapshots that agree on every key are the same snapshot. */
  lemma Extensionality(a: GeoConfig, b: GeoConfig)
    requires forall k :: ValueOf(a, k) == ValueOf(b, k)
    ensures a == b
  {
    assert ValueOf(a, ColTolerance) == ValueOf(b, ColTolerance) && ValueOf(a, ColHShrink) == ValueOf(b, ColHShrink);
    assert ValueOf(a, ColArmThick) == ValueOf(b, ColArmThick) && ValueOf(a, Col1dThick) == ValueOf(b, Col1dThick);
    assert ValueOf(a, Col1dTipCenter) == ValueOf(b, Col1dTipCenter) && ValueOf(a, ColTipWidth) == ValueOf(b, ColTipWidth);
    assert ValueOf(a, ColTipLen) == ValueOf(b, ColTipLen) && ValueOf(a, ColTipCenter) == ValueOf(b, ColTipCenter);
    assert ValueOf(a, ColPillarSize) == ValueOf(b, ColPillarSize) && ValueOf(a, VisTipWidth) == ValueOf(b, VisTipWidth);
    assert ValueOf(a, VisHubThick) == ValueOf(b, VisHubThick) && ValueOf(a, VisArmLong) == ValueOf(b, VisArmLong);
    assert ValueOf(a, VisArmShort) == ValueOf(b, VisArmShort) && ValueOf(a, VisBaseSlabHeight) == ValueOf(b, VisBaseSlabHeight);
    assert ValueOf(a, VisPillarSize) == ValueOf(b, VisPillarSize) && ValueOf(a, VisPillarOffset) == ValueOf(b, VisPillarOffset);
    assert ValueOf(a, VisTerminalPlateZ) == ValueOf(b, VisTerminalPlateZ) && ValueOf(a, VisTerminalStemZ) == ValueOf(b, VisTerminalStemZ);
    assert ValueOf(a, VisTerminalPlateDepth) == ValueOf(b, VisTerminalPlateDepth);
  }

  /** Setting a key back to the value it had restores the snapshot. */
  lemma AssignRoundTrip(c: GeoConfig, k: GeoKey, v: real)
    ensures Assign(Assign(c, k, v), k, ValueOf(c, k)) == c
  {
    var r := Assign(Assign(c, k, v), k, ValueOf(c, k));
    Extensionality(r, c);
  }

  /** The slider metadata of a parameter (`GEO_META`); only the range is modelled. */
  datatype Meta = Meta(min: real, max: real, step: real)

  function MetaOf(k: GeoKey): (m: Meta)
    ensures m.min <= ValueOf(Defaults, k) <= m.max
    ensures m.step > 0.0
  {
    match k
    case ColTolerance => Meta(0.0, 0.05, 0.001)
    case ColHShrink => Meta(0.0, 0.1, 0.01)
    case ColArmThick => Meta(0.1, 0.33, 0.01)
    case Col1dThick => Meta(0.1, 0.5, 0.01)
    case Col1dTipCenter => Meta(0.3, 0.6, 0.001)
    case ColTipWidth => Meta(0.05, 0.2, 0.01)
    case ColTipLen => Meta(0.5, 1.0, 0.05)
    case ColTipCenter => Meta(0.6, 1.0, 0.01)
    case ColPillarSize => Meta(0.1, 0.35, 0.01)
    case VisTipWidth => Meta(0.1, 0.25, 0.001)
    case VisHubThick => Meta(0.2, 0.4, 0.001)
    case VisArmLong => Meta(0.6, 1.0, 0.01)
    case VisArmShort => Meta(0.3, 0.7, 0.01)
    case VisBaseSlabHeight => Meta(0.1, 0.9, 0.05)
    case VisPillarSize => Meta(0.2, 0.4, 0.01)
    case VisPillarOffset => Meta(0.2, 0.45, 0.01)
    case VisTerminalPlateZ => Meta(0.3, 0.5, 0.001)
    case VisTerminalStemZ => Meta(0.1, 0.3, 0.001)
    case VisTerminalPlateDepth => Meta(0.5, 1.2, 0.01)
  }

  /** A subscribed callback, known only by identity. */
  type Listener = nat

  /** `listeners.filter(l => l !== listener)`. */
  function RemoveAll(s: seq<Listener>, l: Listener): (r: seq<Listener>)
    ensures l !in r
    ensures forall x :: x in r <==> x in s && x != l
    ensures |r| == |s| - multiset(s)[l]
  {
    if s == [] then []
    else
      assert s == [s[0]] + s[1..];
      if s[0] == l then RemoveAll(s[1..], l) else [s[0]] + RemoveAll(s[1..], l)
  }

  /** Removal keeps the other listeners in their order: it commutes with
      concatenation, so a listener added later stays after one added earlier. */
  lemma {:induction false} RemoveAllAppend(a: seq<Listener>, b: seq<Listener>, l: Listener)
    ensures RemoveAll(a + b, l) == RemoveAll(a, l) + RemoveAll(b, l)
  {
    if a != [] {
      assert (a + b)[1..] == a[1..] + b;
      RemoveAllAppend(a[1..], b, l);
    } else {
      assert a + b == b;
    }
  }

  /** Unsubscribing a listener that was never subscribed changes nothing. */
  lemma {:induction false} RemoveAllAbsent(s: seq<Listener>, l: Listener)
    requires l !in s
    ensures RemoveAll(s, l) == s
  {
    if s != [] {
      RemoveAllAbsent(s[1..], l);
    }
  }

  /** `GeometryConfigService`: the current configuration, the subscribed
      listeners and the log of callback calls. */
  class GeometryConfigService {
    var config: GeoConfig
    var listeners: seq<Listener>
    /** Every callback call made so far, in order. */
    var notified: seq<Listener>

    constructor ()
      ensures config == Defaults && listeners == [] && notified == []
    {
      config := Defaults;
      listeners := [];
      notified := [];
    }

    method Get(k: GeoKey) returns (v: real)
      ensures v == ValueOf(config, k)
    {
      v := ValueOf(config, k);
    }

    /** A copy: the snapshot is a value, so no later change reaches it. */
    method GetAll() returns (c: GeoConfig)
      ensures c == config
    {
      c := config;
    }

    /** Calls every subscribed listener once, in subscription order. */
    method Notify()
      modifies this`notified
      ensures notified == old(notified) + listeners
    {
      var i := 0;
      while i < |listeners|
        invariant 0 <= i <= |listeners|
        invariant notified == old(notified) + listeners[..i]
      {
        notified := notified + [listeners[i]];
        i := i + 1;
      }
    }

    method Set(k: GeoKey, v: real)
      modifies this
      ensures config == Assign(old(config), k, v)
      ensures listeners == old(listeners) && notified == old(notified) + listeners
    {
      config := Assign(config, k, v);
      Notify();
    }

    method Reset()
      modifies this
      ensures config == Defaults
      ensures listeners == old(listeners) && notified == old(notified) + listeners
    {
      config := Defaults;
      Notify();
    }

    method Subscribe(l: Listener)
      modifies this`listeners
      ensures listeners == old(listeners) + [l]
    {
      listeners := listeners + [l];
    }

    /** The function `subscribe` returns: drops every occurrence of `l`. */
    method Unsubscribe(l: Listener)
      modifies this`listeners
      ensures listeners == RemoveAll(old(listeners), l)
    {
      listeners := RemoveAll(listeners, l);
    }
  }
}
