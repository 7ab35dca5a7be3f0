/** The catalogue, the room presets, the pricing table and the service that
    edits them at run time (constants.ts). */
module Constants {
  import opened Types

  /** One catalogue entry; `cost`, `weight` and `color` are edited at run time. */
  datatype BrockSpec = BrockSpec(
    name: string, description: string, dimensions: Vec3,
    weight: real, cost: real, color: string, isConnector: bool)

  const CorkColor: string := "#C49A6C"

  /** The catalogue as the program starts (`BROCK_SPECS`); no entry for an
      unlisted type tag. */
  function InitialSpec(t: BrockType): (r: Option<BrockSpec>)
    ensures r.Some? <==> t in KnownTypes
    ensures r.Some? ==> r.value.color == CorkColor
    ensures r.Some? ==> (r.value.isConnector <==> t in {Conn1D, Conn2D, Conn3D, Conn4D})
    ensures r.Some? ==> Dimensions(t) == Some(r.value.dimensions)
  {
    match t
    case Base => Some(BrockSpec("BASE-Brock", "0.20m Cube.", Vec3(1.0, 1.0, 1.0), 1.22, 11.50, CorkColor, false))
    case Double => Some(BrockSpec("DOUBLE - Brock", "0.40m Tall.", Vec3(1.0, 2.0, 1.0), 2.45, 23.08, CorkColor, false))
    case Conn1D => Some(BrockSpec("1D - Brock", "Linear Connector.", Vec3(1.0, 1.0, 1.0), 0.94, 8.87, CorkColor, true))
    case Conn2D => Some(BrockSpec("2D - Brock", "Corner Connector.", Vec3(1.5, 1.0, 1.5), 1.88, 17.77, CorkColor, true))
    case Conn3D => Some(BrockSpec("3D - Brock", "T-Junction Connector.", Vec3(2.0, 1.0, 1.5), 2.35, 22.14, CorkColor, true))
    case Conn4D => Some(BrockSpec("4D - Brock", "4-Way Connector.", Vec3(2.0, 1.0, 2.0), 2.82, 26.56, CorkColor, true))
    case Terminal => Some(BrockSpec("T - Brock", "Finishing Cap.", Vec3(1.0, 1.0, 1.0), 0.47, 4.44, CorkColor, false))
    case Unlisted(_) => None
  }

  /** The nominal bounding box of a type, if the catalogue lists it (the
      `dimensions` of its entry, which never change): BASE, CONN_1D and
      TERMINAL are unit cubes, DOUBLE is two units tall, the wider
      connectors are 1.5 or 2 units across. */
  function Dimensions(t: BrockType): (r: Option<Vec3>)
    ensures r.Some? <==> t in KnownTypes
    ensures r.Some? ==> r.value.x > 0.0 && r.value.y > 0.0 && r.value.z > 0.0
  {
    match t
    case Base => Some(Vec3(1.0, 1.0, 1.0))
    case Double => Some(Vec3(1.0, 2.0, 1.0))
    case Conn1D => Some(Vec3(1.0, 1.0, 1.0))
    case Conn2D => Some(Vec3(1.5, 1.0, 1.5))
    case Conn3D => Some(Vec3(2.0, 1.0, 1.5))
    case Conn4D => Some(Vec3(2.0, 1.0, 2.0))
    case Terminal => Some(Vec3(1.0, 1.0, 1.0))
    case Unlisted(_) => None
  }

  /** The catalogue as a table, the shape the service edits. */
  function InitialSpecs(): (m: map<BrockType, BrockSpec>)
    ensures m.Keys == KnownTypes
    ensures forall t :: t in m ==> InitialSpec(t) == Some(m[t])
  {
    map t | t in KnownTypes :: InitialSpec(t).value
  }

  datatype RoomSpec = RoomSpec(name: string, width: real, depth: real, offsetX: real, offsetZ: real)

  /** `ROOM_SPECS`: every preset, the unlimited studio included. */
  function RoomSpecOf(room: RoomSize): (r: RoomSpec)
    ensures r.width > 0.0 && r.depth > 0.0
    ensures r.offsetX == r.width / 2.0 && r.offsetZ == r.depth / 2.0
  {
    match room
    case Unlimited => RoomSpec("Studio (Unlimited)", 100.0, 100.0, 50.0, 50.0)
    case Niche2M => RoomSpec("Niche (2m x 1m)", 10.0, 5.0, 5.0, 2.5)
    case Wall3M => RoomSpec("Wall (3m Wide)", 15.0, 10.0, 7.5, 5.0)
    case Corner3M => RoomSpec("Corner (3m x 3m)", 15.0, 15.0, 7.5, 7.5)
    case Room4x5 => RoomSpec("Full Room (4m x 5m)", 20.0, 25.0, 10.0, 12.5)
  }

  /** One row of the initial price, weight and sustainability lists
      (`APP_CONFIG.prices`, `APP_CONFIG.weights`, `APP_CONFIG.sdgImpacts`). */
  function InitialPrice(t: BrockType): real
    requires t in KnownTypes
  {
    match t
    case Base => 11.50
    case Double => 23.08
    case Conn1D => 8.87
    case Conn2D => 17.77
    case Conn3D => 22.14
    case Conn4D => 26.56
    case Terminal => 4.44
  }

  function InitialWeight(t: BrockType): real
    requires t in KnownTypes
  {
    match t
    case Base => 1.22
    case Double => 2.45
    case Conn1D => 0.94
    case Conn2D => 1.88
    case Conn3D => 2.35
    case Conn4D => 2.82
    case Terminal => 0.47
  }

  function InitialSdgImpact(t: BrockType): real
    requires t in KnownTypes
  {
    match t
    case Base => 20.00
    case Double => 40.16
    case Conn1D => 15.41
    case Conn2D => 30.82
    case Conn3D => 38.52
    case Conn4D => 46.23
    case Terminal => 7.70
  }

  /** The three lists as tables over the seven types. */
  function InitialPrices(): (m: map<BrockType, real>)
    ensures m.Keys == KnownTypes
  {
    map t | t in KnownTypes :: InitialPrice(t)
  }

  function InitialWeights(): (m: map<BrockType, real>)
    ensures m.Keys == KnownTypes
  {
    map t | t in KnownTypes :: InitialWeight(t)
  }

  function InitialSdgImpacts(): (m: map<BrockType, real>)
    ensures m.Keys == KnownTypes
  {
    map t | t in KnownTypes :: InitialSdgImpact(t)
  }

  /** Every type starts out in the cork colour. */
  function InitialColors(): (m: map<BrockType, string>)
    ensures m.Keys == KnownTypes
    ensures forall t :: t in m ==> m[t] == CorkColor
  {
    map t | t in KnownTypes :: CorkColor
  }

  /** The price and weight lists start out equal to the catalogue's cost and
      weight of every type. */
  lemma InitialTablesAgree(t: BrockType)
    requires t in KnownTypes
    ensures InitialPrice(t) == InitialSpec(t).value.cost && InitialWeight(t) == InitialSpec(t).value.weight
  {
    match t
    case Base =>
    case Double =>
    case Conn1D =>
    case Conn2D =>
    case Conn3D =>
    case Conn4D =>
    case Terminal =>
  }

  /** One entry of the initial catalogue carries the initial price, weight
      and colour of its type. */
  lemma InitialEntryAgrees(t: BrockType)
    requires t in KnownTypes
    ensures var e := InitialSpec(t).value;
      e.(cost := InitialPrices()[t], weight := InitialWeights()[t], color := CorkColor) == e
  {
    InitialTablesAgree(t);
  }

  datatype PromptKey = InstructionGeneration | DesignValidation

  function InitialPrompts(): map<PromptKey, string>
  {
    map[InstructionGeneration := "Analyze layers. Identify interlocking points. Generate assembly steps.",
        DesignValidation := "Check structural integrity and interlock logic."]
  }

  /** A subscribed callback, known only by identity. */
  type Listener = nat

  /** `listeners.splice(listeners.indexOf(cb), 1)` when the index is not -1:
      the first occurrence goes, the others keep their order. */
  function RemoveFirst(s: seq<Listener>, l: Listener): (r: seq<Listener>)
    ensures l !in s ==> r == s
    ensures l in s ==> exists i :: 0 <= i < |s| && s[i] == l && l !in s[..i] && r == s[..i] + s[i + 1..]
    ensures l in s ==> |r| == |s| - 1 && multiset(r) == multiset(s) - multiset{l}
  {
    var i := IndexOf(s, l);
    if i > -1 then
      assert s == s[..i] + [s[i]] + s[i + 1..];
      s[..i] + s[i + 1..]
    else s
  }

  /** A second call of the same unsubscribe function changes nothing, as long
      as the callback was subscribed once. */
  lemma {:induction false} RemoveFirstOnce(s: seq<Listener>, l: Listener)
    requires multiset(s)[l] <= 1
    ensures l !in RemoveFirst(s, l)
    ensures RemoveFirst(RemoveFirst(s, l), l) == RemoveFirst(s, l)
  {
    if l in s {
      assert multiset(RemoveFirst(s, l))[l] == 0;
    }
  }

  /** `AppConfigService` together with the state it edits: `APP_CONFIG`'s
      tables, the editable fields of `BROCK_SPECS` (cost, weight, colour;
      the rest of an entry never changes) and the listener list. */
  class AppConfigService {
    var prices: map<BrockType, real>
    var weights: map<BrockType, real>
    var sdgImpacts: map<BrockType, real>
    var prompts: map<PromptKey, string>
    var specCost: map<BrockType, real>
    var specWeight: map<BrockType, real>
    var specColor: map<BrockType, string>
    var listeners: seq<Listener>
    /** Every callback call made so far, in order. */
    var notified: seq<Listener>

    /** Each table covers the seven types, and the price and weight lists
        agree with the catalogue's cost and weight. */
    ghost predicate Valid()
      reads this
    {
      && prices.Keys == weights.Keys == sdgImpacts.Keys == KnownTypes
      && specCost.Keys == specWeight.Keys == specColor.Keys == KnownTypes
      && prompts.Keys == {InstructionGeneration, DesignValidation}
      && prices == specCost && weights == specWeight
    }

    /** The current catalogue entry of a listed type. */
    function Spec(t: BrockType): (s: BrockSpec)
      reads this
      requires Valid() && t in KnownTypes
      ensures s.cost == prices[t] && s.weight == weights[t] && s.color == specColor[t]
      ensures s.dimensions == InitialSpec(t).value.dimensions && s.name == InitialSpec(t).value.name
      ensures s.isConnector == InitialSpec(t).value.isConnector
    {
      InitialSpec(t).value.(cost := specCost[t], weight := specWeight[t], color := specColor[t])
    }

    constructor ()
      ensures Valid()
      ensures prices == InitialPrices() && weights == InitialWeights() && sdgImpacts == InitialSdgImpacts()
      ensures prompts == InitialPrompts()
      ensures forall t :: t in KnownTypes ==> Spec(t) == InitialSpec(t).value
      ensures listeners == [] && notified == []
    {
      prices, weights, sdgImpacts := InitialPrices(), InitialWeights(), InitialSdgImpacts();
      prompts := InitialPrompts();
      specCost, specWeight := InitialPrices(), InitialWeights();
      specColor := InitialColors();
      listeners, notified := [], [];
      new;
      assert prompts.Keys == {InstructionGeneration, DesignValidation};
      forall t | t in KnownTypes ensures Spec(t) == InitialSpec(t).value {
        InitialEntryAgrees(t);
      }
    }

    /** Calls every subscribed callback once, in subscription order. */
    method Notify()
      modifies this`notified
      ensures notified == old(notified) + listeners
    {
      var i := 0;
      while i < |listeners|
        invariant 0 <= i <= |listeners|
        invariant notified == old(notified) + listeners[..i]
      {
        notified := notified + [listeners[i]];
        i := i + 1;
      }
    }

    method SetPrice(t: BrockType, price: real)
      requires Valid() && t in KnownTypes
      modifies this
      ensures Valid()
      ensures prices == old(prices)[t := price] && specCost == old(specCost)[t := price]
      ensures weights == old(weights) && specWeight == old(specWeight) && specColor == old(specColor)
      ensures sdgImpacts == old(sdgImpacts) && prompts == old(prompts)
      ensures listeners == old(listeners) && notified == old(notified) + listeners
    {
      prices := prices[t := price];
      specCost := specCost[t := price];
      Notify();
    }

    method SetWeight(t: BrockType, weight: real)
      requires Valid() && t in KnownTypes
      modifies this
      ensures Valid()
      ensures weights == old(weights)[t := weight] && specWeight == old(specWeight)[t := weight]
      ensures prices == old(prices) && specCost == old(specCost) && specColor == old(specColor)
      ensures sdgImpacts == old(sdgImpacts) && prompts == old(prompts)
      ensures listeners == old(listeners) && notified == old(notified) + listeners
    {
      weights := weights[t := weight];
      specWeight := specWeight[t := weight];
      Notify();
    }

    method SetSdgImpact(t: BrockType, v: real)
      requires Valid() && t in KnownTypes
      modifies this
      ensures Valid()
      ensures sdgImpacts == old(sdgImpacts)[t := v]
      ensures prices == old(prices) && weights == old(weights) && prompts == old(prompts)
      ensures specCost == old(specCost) && specWeight == old(specWeight) && specColor == old(specColor)
      ensures listeners == old(listeners) && notified == old(notified) + listeners
    {
      sdgImpacts := sdgImpacts[t := v];
      Notify();
    }

    method SetPrompt(k: PromptKey, v: string)
      requires Valid()
      modifies this
      ensures Valid()
      ensures prompts == old(prompts)[k := v]
      ensures prices == old(prices) && weights == old(weights) && sdgImpacts == old(sdgImpacts)
      ensures specCost == old(specCost) && specWeight == old(specWeight) && specColor == old(specColor)
      ensures listeners == old(listeners) && notified == old(notified) + listeners
    {
      prompts := prompts[k := v];
      Notify();
    }

    method SetColor(t: BrockType, color: string)
      requires Valid() && t in KnownTypes
      modifies this
      ensures Valid()
      ensures specColor == old(specColor)[t := color]
      ensures prices == old(prices) && weights == old(weights) && sdgImpacts == old(sdgImpacts) && prompts == old(prompts)
      ensures specCost == old(specCost) && specWeight == old(specWeight)
      ensures listeners == old(listeners) && notified == old(notified) + listeners
    {
      specColor := specColor[t := color];
      Notify();
    }

    /** Paints every type in one colour. */
    method SetGlobalColor(color: string)
      requires Valid()
      modifies this
      ensures Valid()
      ensures specColor.Keys == KnownTypes && forall t :: t in specColor ==> specColor[t] == color
      ensures prices == old(prices) && weights == old(weights) && sdgImpacts == old(sdgImpacts) && prompts == old(prompts)
      ensures specCost == old(specCost) && specWeight == old(specWeight)
      ensures listeners == old(listeners) && notified == old(notified) + listeners
    {
      specColor := map t | t in specColor :: color;
      Notify();
    }

    method Subscribe(l: Listener)
      modifies this`listeners
      ensures listeners == old(listeners) + [l]
    {
      listeners := listeners + [l];
    }

    /** The function `subscribe` returns: removes the first occurrence of `l`. */
    method Unsubscribe(l: Listener)
      modifies this`listeners
      ensures listeners == RemoveFirst(old(listeners), l)
    {
      listeners := RemoveFirst(listeners, l);
    }
  }
}
